/** The Python string operations the core uses, restricted to ASCII:
    `str.isspace`, `str.isalnum`, `str.lower`, `in` on strings and
    `str.split()` with no separator. */
module Text {

  /** `c.isspace()` on ASCII: tab, line feed, vertical tab, form feed,
      carriage return, the four information separators 0x1c-0x1f and space.
      The same set is what `str.split()` and the regular expression `\s`
      treat as whitespace. */
  predicate IsSpace(c: char) {
    (9 <= c as int <= 13) || (28 <= c as int <= 31) || c == ' '
  }

  /** `c.isalnum()` on ASCII. */
  predicate IsAlnum(c: char) {
    ('0' <= c <= '9') || ('a' <= c <= 'z') || ('A' <= c <= 'Z')
  }

  function LowerChar(c: char): char {
    if 'A' <= c <= 'Z' then (c as int + 32) as char else c
  }

  /** `s.lower()` on ASCII. */
  function Lower(s: string): string {
    seq(|s|, i requires 0 <= i < |s| => LowerChar(s[i]))
  }

  /** `w in s` for strings: `w` occurs in `s` as a contiguous substring. */
  function IsSubstring(w: string, s: string): bool
    decreases |s|
  {
    if w <= s then true
    else if s == [] then false
    else IsSubstring(w, s[1..])
  }

  /** `w` occurs in `s` starting at index `i`. */
  predicate OccursAt(w: string, s: string, i: nat) {
    i + |w| <= |s| && s[i..i + |w|] == w
  }

  /** `w` occurs at the start of `s` exactly when it is a prefix of `s`. */
  lemma OccursAtStart(w: string, s: string)
    ensures OccursAt(w, s, 0) <==> w <= s
  {
    if |w| <= |s| {
      assert s[0..|w|] == s[..|w|];
    }
  }

  /** Dropping the first character shifts every occurrence one place left. */
  lemma OccursShift(w: string, s: string, i: nat)
    requires s != []
    ensures OccursAt(w, s[1..], i) <==> OccursAt(w, s, i + 1)
  {
    if i + 1 + |w| <= |s| {
      assert s[1..][i..i + |w|] == s[i + 1..i + 1 + |w|];
    }
  }

  /** The scan above finds `w` exactly when some window of `s` equals `w`. */
  lemma {:induction false} IsSubstringIff(w: string, s: string)
    ensures IsSubstring(w, s) <==> exists i: nat :: OccursAt(w, s, i)
    decreases |s|
  {
    OccursAtStart(w, s);
    if w <= s {
    } else if s == [] {
    } else {
      IsSubstringIff(w, s[1..]);
      if IsSubstring(w, s[1..]) {
        var i: nat :| OccursAt(w, s[1..], i);
        OccursShift(w, s, i);
      }
      if i: nat :| OccursAt(w, s, i) {
        OccursShift(w, s, i - 1);
      }
    }
  }

  /** Length of the run of whitespace at the front of `s`. */
  function LeadingSpaces(s: string): (n: nat)
    ensures n <= |s|
    ensures forall k :: 0 <= k < n ==> IsSpace(s[k])
    ensures n < |s| ==> !IsSpace(s[n])
  {
    if s != [] && IsSpace(s[0]) then 1 + LeadingSpaces(s[1..]) else 0
  }

  /** Length of the run of non-whitespace at the front of `s`. */
  function WordLength(s: string): (n: nat)
    ensures n <= |s|
    ensures forall k :: 0 <= k < n ==> !IsSpace(s[k])
    ensures n < |s| ==> IsSpace(s[n])
  {
    if s != [] && !IsSpace(s[0]) then 1 + WordLength(s[1..]) else 0
  }

  predicate NoSpace(w: string) {
    forall k :: 0 <= k < |w| ==> !IsSpace(w[k])
  }

  /** `s.split()`: the maximal runs of non-whitespace characters, in order. */
  function Split(s: string): (words: seq<string>)
    ensures forall k :: 0 <= k < |words| ==> words[k] != [] && NoSpace(words[k])
    decreases |s|
  {
    var t := s[LeadingSpaces(s)..];
    if t == [] then []
    else
      var n := WordLength(t);
      [t[..n]] + Split(t[n..])
  }

  /** Number of positions where a word begins: a non-whitespace character
      whose predecessor is whitespace (or, when `afterSpace`, the start). */
  function WordStarts(s: string, afterSpace: bool): nat {
    if s == [] then 0
    else (if afterSpace && !IsSpace(s[0]) then 1 else 0) + WordStarts(s[1..], IsSpace(s[0]))
  }

  lemma {:induction false} WordStartsSkipSpaces(s: string, n: nat)
    requires n <= |s|
    requires forall k :: 0 <= k < n ==> IsSpace(s[k])
    ensures WordStarts(s, true) == WordStarts(s[n..], true)
  {
    if n > 0 {
      WordStartsSkipSpaces(s[1..], n - 1);
      assert s[1..][n - 1..] == s[n..];
    }
  }

  lemma {:induction false} WordStartsThroughWord(s: string, n: nat, afterSpace: bool)
    requires 1 <= n <= |s|
    requires forall k :: 0 <= k < n ==> !IsSpace(s[k])
    ensures WordStarts(s, afterSpace) == (if afterSpace then 1 else 0) + WordStarts(s[n..], false)
  {
    if n > 1 {
      WordStartsThroughWord(s[1..], n - 1, false);
      assert s[1..][n - 1..] == s[n..];
    }
  }

  /** `len(s.split())` is the number of word starts in `s`. */
  lemma {:induction false} SplitCountsWordStarts(s: string)
    ensures |Split(s)| == WordStarts(s, true)
    decreases |s|
  {
    var l := LeadingSpaces(s);
    var t := s[l..];
    WordStartsSkipSpaces(s, l);
    if t != [] {
      var n := WordLength(t);
      WordStartsThroughWord(t, n, true);
      SplitCountsWordStarts(t[n..]);
    }
  }

  /** `s` with every whitespace character removed. */
  function Squeeze(s: string): string {
    if s == [] then [] else (if IsSpace(s[0]) then [] else [s[0]]) + Squeeze(s[1..])
  }

  function Concat(words: seq<string>): string {
    if words == [] then [] else words[0] + Concat(words[1..])
  }

  lemma {:induction false} SqueezeAppend(a: string, b: string)
    ensures Squeeze(a + b) == Squeeze(a) + Squeeze(b)
  {
    if a != [] {
      var head := if IsSpace(a[0]) then [] else [a[0]];
      assert (a + b)[0] == a[0];
      assert (a + b)[1..] == a[1..] + b;
      SqueezeAppend(a[1..], b);
      calc {
        Squeeze(a + b);
        head + Squeeze(a[1..] + b);
        head + (Squeeze(a[1..]) + Squeeze(b));
        (head + Squeeze(a[1..])) + Squeeze(b);
      }
    } else {
      assert a + b == b;
    }
  }

  lemma {:induction false} SqueezeSpaces(s: string)
    requires forall k :: 0 <= k < |s| ==> IsSpace(s[k])
    ensures Squeeze(s) == []
  {
    if s != [] {
      SqueezeSpaces(s[1..]);
    }
  }

  lemma {:induction false} SqueezeWord(s: string)
    requires NoSpace(s)
    ensures Squeeze(s) == s
  {
    if s != [] {
      SqueezeWord(s[1..]);
    }
  }

  /** The words of `s.split()`, put back together, are the characters of `s`
      that are not whitespace, in their order. */
  lemma {:induction false} SplitKeepsText(s: string)
    ensures Concat(Split(s)) == Squeeze(s)
    decreases |s|
  {
    var l := LeadingSpaces(s);
    var t := s[l..];
    assert s == s[..l] + t;
    SqueezeAppend(s[..l], t);
    SqueezeSpaces(s[..l]);
    if t != [] {
      var n := WordLength(t);
      assert t == t[..n] + t[n..];
      SqueezeAppend(t[..n], t[n..]);
      SqueezeWord(t[..n]);
      SplitKeepsText(t[n..]);
      assert Split(s) == [t[..n]] + Split(t[n..]);
    } else {
      assert Squeeze(t) == [];
    }
  }
}
