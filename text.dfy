/** String operations the bridge relies on, stated with Python's meaning:
    `str.strip()` with no argument, `sep.join(parts)`, `s.split(sep)`,
    line iteration over a text-mode stream, and decimal rendering of an int. */
module Text {

  /** The characters for which Python's `str.isspace()` holds: exactly the
      characters `str.strip()` with no argument removes. */
  predicate IsSpace(c: char) {
    || ('\t' <= c <= '\r')                 // \t \n \v \f \r
    || ('\U{1C}' <= c <= '\U{1F}')         // file, group, record, unit separators
    || c == ' '
    || c == '\U{85}'                       // next line
    || c == '\U{A0}'                       // no-break space
    || c == '\U{1680}'
    || ('\U{2000}' <= c <= '\U{200A}')
    || c == '\U{2028}' || c == '\U{2029}'
    || c == '\U{202F}' || c == '\U{205F}' || c == '\U{3000}'
  }

  /** Every character of `s` is whitespace (vacuously so for ""). */
  predicate Blank(s: string) {
    forall k :: 0 <= k < |s| ==> IsSpace(s[k])
  }

  /** Neither end of `s` is whitespace: what `strip()` can return. */
  predicate Stripped(s: string) {
    s == [] || (!IsSpace(s[0]) && !IsSpace(s[|s| - 1]))
  }

  /** The first position at or after `i` that is not whitespace (or `|s|`). */
  function SkipLead(s: string, i: nat): (j: nat)
    requires i <= |s|
    ensures i <= j <= |s|
    ensures forall k :: i <= k < j ==> IsSpace(s[k])
    ensures j < |s| ==> !IsSpace(s[j])
    decreases |s| - i
  {
    if i < |s| && IsSpace(s[i]) then SkipLead(s, i + 1) else i
  }

  /** The end, at most `j` and at least `lo`, of `s[lo..j]` without its
      trailing whitespace. */
  function SkipTrail(s: string, lo: nat, j: nat): (e: nat)
    requires lo <= j <= |s|
    ensures lo <= e <= j
    ensures forall k :: e <= k < j ==> IsSpace(s[k])
    ensures lo < e ==> !IsSpace(s[e - 1])
    decreases j
  {
    if lo < j && IsSpace(s[j - 1]) then SkipTrail(s, lo, j - 1) else j
  }

  /** Python's `s.strip()`. */
  function Strip(s: string): (r: string)
    ensures |r| <= |s|
    ensures Stripped(r)
    ensures r == [] <==> Blank(s)
  {
    var i := SkipLead(s, 0);
    s[i..SkipTrail(s, i, |s|)]
  }

  /** `strip()` removes a blank prefix and a blank suffix and keeps the
      middle: `Strip(w1 + t + w2) == t` for every stripped `t`. Together with
      `StripShape` this characterizes `Strip` completely. */
  lemma StripExact(w1: string, t: string, w2: string)
    requires Blank(w1) && Blank(w2) && Stripped(t)
    ensures Strip(w1 + t + w2) == t
  {
    var s := w1 + t + w2;
    if t == [] {
      assert Blank(s) by {
        forall k | 0 <= k < |s| ensures IsSpace(s[k]) {
          if k < |w1| { assert s[k] == w1[k]; } else { assert s[k] == w2[k - |w1|]; }
        }
      }
    } else {
      var i := SkipLead(s, 0);
      assert s[|w1|] == t[0];
      assert i == |w1|;
      var e := SkipTrail(s, i, |s|);
      var end := |w1| + |t|;
      assert s[end - 1] == t[|t| - 1];
      assert e == end;
      assert s[i..e] == t;
    }
  }

  /** Every string is a blank prefix, its strip, and a blank suffix. */
  lemma StripShape(s: string) returns (w1: string, w2: string)
    ensures Blank(w1) && Blank(w2)
    ensures s == w1 + Strip(s) + w2
  {
    var i := SkipLead(s, 0);
    var e := SkipTrail(s, i, |s|);
    w1, w2 := s[..i], s[e..];
    assert s == s[..i] + s[i..e] + s[e..];
  }

  /** Stripping twice is stripping once. */
  lemma StripIdempotent(s: string)
    ensures Strip(Strip(s)) == Strip(s)
  {
    StripExact([], Strip(s), []);
    assert [] + Strip(s) + [] == Strip(s);
  }

  /** Python's `sep.join(parts)`. */
  function Join(parts: seq<string>, sep: char): (r: string)
    ensures parts == [] ==> r == []
    ensures |parts| == 1 ==> r == parts[0]
  {
    if parts == [] then []
    else if |parts| == 1 then parts[0]
    else parts[0] + [sep] + Join(parts[1..], sep)
  }

  /** A join of non-empty parts is empty exactly when there are no parts. */
  lemma {:induction false} JoinEmpty(parts: seq<string>, sep: char)
    requires forall k :: 0 <= k < |parts| ==> parts[k] != []
    ensures Join(parts, sep) == [] <==> parts == []
  {
    if |parts| > 1 {
      assert |Join(parts, sep)| >= |parts[0]| + 1;
    }
  }

  /** A join of two or more parts holds the separator. */
  lemma JoinHoldsSeparator(parts: seq<string>, sep: char)
    requires |parts| >= 2
    ensures sep in Join(parts, sep)
  {
    var j := Join(parts, sep);
    assert j == parts[0] + [sep] + Join(parts[1..], sep);
    assert j[|parts[0]|] == sep;
  }

  /** Index of the first `c` in `s`, or `|s|` when there is none. */
  function IndexOf(s: string, c: char): (i: nat)
    ensures i <= |s|
    ensures i < |s| ==> s[i] == c
    ensures forall k :: 0 <= k < i ==> s[k] != c
  {
    if s == [] then 0
    else if s[0] == c then 0
    else 1 + IndexOf(s[1..], c)
  }

  /** Python's `s.split(sep)` for a one-character separator: the pieces
      between separators, so `"".split(sep) == [""]`. */
  function Split(s: string, sep: char): (r: seq<string>)
    ensures |r| >= 1
    decreases |s|
  {
    var i := IndexOf(s, sep);
    if i == |s| then [s] else [s[..i]] + Split(s[i + 1..], sep)
  }

  /** Splitting a join recovers the parts when no part holds the separator. */
  lemma {:induction false} SplitJoin(parts: seq<string>, sep: char)
    requires parts != []
    requires forall k :: 0 <= k < |parts| ==> sep !in parts[k]
    ensures Split(Join(parts, sep), sep) == parts
  {
    if |parts| == 1 {
      IndexOfAbsent(parts[0], sep);
    } else {
      SplitAt(parts[0], sep, Join(parts[1..], sep));
      SplitJoin(parts[1..], sep);
      assert parts == [parts[0]] + parts[1..];
    }
  }

  /** A separator-free piece followed by the separator splits off first. */
  lemma SplitAt(p: string, sep: char, tail: string)
    requires sep !in p
    ensures Split(p + [sep] + tail, sep) == [p] + Split(tail, sep)
  {
    var s := p + [sep] + tail;
    IndexOfFirst(p, sep, tail);
    assert s[..|p|] == p;
    assert s[|p| + 1..] == tail;
  }

  lemma {:induction false} IndexOfAbsent(s: string, c: char)
    requires c !in s
    ensures IndexOf(s, c) == |s|
  {
    if s != [] {
      assert s[0] in s;
      assert forall x :: x in s[1..] ==> x in s;
      IndexOfAbsent(s[1..], c);
    }
  }

  lemma {:induction false} IndexOfFirst(p: string, c: char, tail: string)
    requires c !in p
    ensures IndexOf(p + [c] + tail, c) == |p|
  {
    if p != [] {
      assert p[0] in p;
      assert forall x :: x in p[1..] ==> x in p;
      assert (p + [c] + tail)[1..] == p[1..] + [c] + tail;
      IndexOfFirst(p[1..], c, tail);
    }
  }

  /** A line as iteration over a text-mode stream yields it: non-empty, and
      a newline occurs in it at most as its last character. */
  predicate RawLine(l: string) {
    l != [] && forall k :: 0 <= k < |l| - 1 ==> l[k] != '\n'
  }

  /** Iteration over a text stream: each line runs up to and including the
      next newline; a final piece without one is a line too. */
  function Lines(text: string): (r: seq<string>)
    ensures forall k :: 0 <= k < |r| ==> RawLine(r[k])
    ensures forall k :: 0 <= k < |r| - 1 ==> r[k] != [] && r[k][|r[k]| - 1] == '\n'
    decreases |text|
  {
    var i := IndexOf(text, '\n');
    if text == [] then []
    else if i == |text| then [text]
    else [text[..i + 1]] + Lines(text[i + 1..])
  }

  /** Concatenation of a sequence of strings. */
  function Concat(parts: seq<string>): string {
    if parts == [] then [] else parts[0] + Concat(parts[1..])
  }

  /** Line iteration loses nothing: the lines concatenate back to the text. */
  lemma {:induction false} LinesConcat(text: string)
    ensures Concat(Lines(text)) == text
    decreases |text|
  {
    var i := IndexOf(text, '\n');
    if text != [] && i < |text| {
      LinesConcat(text[i + 1..]);
      assert text == text[..i + 1] + text[i + 1..];
    }
  }

  /** A stripped raw line holds no newline. */
  lemma RawLineStripNoNewline(l: string)
    requires RawLine(l)
    ensures '\n' !in Strip(l)
  {
    var w1, w2 := StripShape(l);
  }

  /** The decimal digit for 0 <= d < 10. */
  function Digit(d: nat): char
    requires d < 10
  {
    "0123456789"[d]
  }

  /** Python's `str(n)` for a non-negative int. */
  function NatToString(n: nat): (r: string)
    ensures r != []
    ensures forall k :: 0 <= k < |r| ==> '0' <= r[k] <= '9'
    ensures r[0] == '0' ==> n == 0
  {
    if n < 10 then [Digit(n)] else NatToString(n / 10) + [Digit(n % 10)]
  }

  /** Reads back a string of decimal digits. */
  function ParseNat(s: string): nat
    requires forall k :: 0 <= k < |s| ==> '0' <= s[k] <= '9'
  {
    if s == [] then 0
    else ParseNat(s[..|s| - 1]) * 10 + ((s[|s| - 1] as int) - ('0' as int))
  }

  /** The decimal rendering reads back as the same number. */
  lemma {:induction false} ParseNatToString(n: nat)
    ensures ParseNat(NatToString(n)) == n
  {
    if n >= 10 {
      var s := NatToString(n);
      assert s[..|s| - 1] == NatToString(n / 10);
      ParseNatToString(n / 10);
    }
  }
}
