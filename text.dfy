/**
 * The string primitives the proxy relies on, with JavaScript's meaning:
 * `trim`/`trimStart`/`trimEnd`, the regex class `\s`, `toLowerCase`,
 * `replace(/\s+/g, " ")`, `split` and `join`.
 */
module Text {

  /** JavaScript's WhiteSpace and LineTerminator code points: what `trim` removes and `\s` matches. */
  predicate IsSpace(c: char) {
    c == '\t' || c == '\n' || c == '\U{B}' || c == '\U{C}' || c == '\r' || c == ' ' ||
    c == '\U{A0}' || c == '\U{1680}' || ('\U{2000}' <= c <= '\U{200A}') ||
    c == '\U{2028}' || c == '\U{2029}' || c == '\U{202F}' || c == '\U{205F}' ||
    c == '\U{3000}' || c == '\U{FEFF}'
  }

  /** The characters that end a line for `^`, `$` (multi-line) and `.` in a JavaScript regex. */
  predicate IsLineTerminator(c: char) {
    c == '\n' || c == '\r' || c == '\U{2028}' || c == '\U{2029}'
  }

  predicate AllSpace(s: string) {
    forall i :: 0 <= i < |s| ==> IsSpace(s[i])
  }

  predicate NoLineTerminator(s: string) {
    forall i :: 0 <= i < |s| ==> !IsLineTerminator(s[i])
  }

  /** No whitespace at either end: what `trim` produces. */
  predicate IsTrimmed(s: string) {
    s == [] || (!IsSpace(s[0]) && !IsSpace(s[|s| - 1]))
  }

  /** The end of the whitespace run that starts at `i`. */
  function SpaceRunFrom(s: string, i: nat): (j: nat)
    requires i <= |s|
    ensures i <= j <= |s|
    ensures j == |s| || !IsSpace(s[j])
    ensures forall k :: i <= k < j ==> IsSpace(s[k])
    decreases |s| - i
  {
    if i < |s| && IsSpace(s[i]) then SpaceRunFrom(s, i + 1) else i
  }

  /** The start of the whitespace run that ends at `j`. */
  function SpaceRunBefore(s: string, j: nat): (i: nat)
    requires j <= |s|
    ensures i <= j
    ensures i == 0 || !IsSpace(s[i - 1])
    ensures forall k :: i <= k < j ==> IsSpace(s[k])
  {
    if j > 0 && IsSpace(s[j - 1]) then SpaceRunBefore(s, j - 1) else j
  }

  /** How many whitespace characters `s` starts with. */
  function LeadingSpace(s: string): (n: nat)
    ensures n <= |s|
  {
    SpaceRunFrom(s, 0)
  }

  /** Where the trailing whitespace of `s` begins. */
  function TrailingSpaceStart(s: string): (n: nat)
    ensures n <= |s|
  {
    SpaceRunBefore(s, |s|)
  }

  function TrimStart(s: string): (r: string)
    ensures |r| <= |s|
  {
    s[LeadingSpace(s)..]
  }

  function TrimEnd(s: string): (r: string)
    ensures |r| <= |s|
  {
    s[..TrailingSpaceStart(s)]
  }

  /** What `trimStart` keeps starts with a non-space and what it drops is whitespace. */
  lemma TrimStartParts(s: string)
    ensures TrimStart(s) == [] || !IsSpace(TrimStart(s)[0])
    ensures AllSpace(s[..LeadingSpace(s)])
  {
    var n := LeadingSpace(s);
    assert forall k :: 0 <= k < n ==> s[..n][k] == s[k];
    if n < |s| {
      assert TrimStart(s)[0] == s[n];
    }
  }

  /** What `trimEnd` keeps ends with a non-space and what it drops is whitespace. */
  lemma TrimEndParts(s: string)
    ensures TrimEnd(s) == [] || !IsSpace(TrimEnd(s)[|TrimEnd(s)| - 1])
    ensures AllSpace(s[TrailingSpaceStart(s)..])
  {
    var n := TrailingSpaceStart(s);
    assert forall k :: 0 <= k < |s| - n ==> s[n..][k] == s[n + k];
  }

  function Trim(s: string): (r: string)
    ensures IsTrimmed(r)
    ensures |r| <= |s|
  {
    var t := TrimStart(s);
    TrimStartParts(s);
    TrimEndParts(t);
    var r := TrimEnd(t);
    assert r != [] ==> r[0] == t[0];
    r
  }

  lemma TrimStartOfTrimmedStart(s: string)
    requires s == [] || !IsSpace(s[0])
    ensures TrimStart(s) == s
  {
  }

  lemma TrimEndOfTrimmedEnd(s: string)
    requires s == [] || !IsSpace(s[|s| - 1])
    ensures TrimEnd(s) == s
  {
  }

  /** Trimming a string that has no whitespace at its ends changes nothing. */
  lemma TrimOfTrimmed(s: string)
    requires IsTrimmed(s)
    ensures Trim(s) == s
  {
    TrimStartOfTrimmedStart(s);
    TrimEndOfTrimmedEnd(s);
  }

  lemma TrimIdempotent(s: string)
    ensures Trim(Trim(s)) == Trim(s)
  {
    TrimOfTrimmed(Trim(s));
  }

  /** A string trims to "" exactly when it is all whitespace. */
  lemma TrimEmptyIffAllSpace(s: string)
    ensures Trim(s) == "" <==> AllSpace(s)
  {
    var n := LeadingSpace(s);
    var t := TrimStart(s);
    if n < |s| {
      assert t[0] == s[n];
      assert TrailingSpaceStart(t) > 0;
      assert !IsSpace(s[n]);
    } else {
      assert forall k :: 0 <= k < |s| ==> IsSpace(s[k]);
    }
  }

  predicate Blank(s: string) {
    Trim(s) == ""
  }

  /** `s.toLowerCase()` for ASCII and basic Cyrillic letters; every other character is left as is. */
  function LowerChar(c: char): char {
    if 'A' <= c <= 'Z' then (c as int + 32) as char
    else if '\U{410}' <= c <= '\U{42F}' then (c as int + 32) as char
    else if '\U{400}' <= c <= '\U{40F}' then (c as int + 80) as char
    else c
  }

  function Lower(s: string): (r: string)
    ensures |r| == |s|
    ensures forall i :: 0 <= i < |s| ==> r[i] == LowerChar(s[i])
  {
    seq(|s|, i requires 0 <= i < |s| => LowerChar(s[i]))
  }

  lemma LowerConcat(a: string, b: string)
    ensures Lower(a + b) == Lower(a) + Lower(b)
  {
    assert forall i :: 0 <= i < |a + b| ==> Lower(a + b)[i] == (Lower(a) + Lower(b))[i];
  }

  lemma LowerKeepsSpace(c: char)
    ensures IsSpace(LowerChar(c)) <==> IsSpace(c)
  {
  }

  /** `s.replace(/\s+/g, " ")`: every maximal run of whitespace becomes one space. */
  function CollapseSpaces(s: string): (r: string)
    ensures |r| <= |s|
    decreases |s|
  {
    if s == [] then []
    else if IsSpace(s[0]) then [' '] + CollapseSpaces(TrimStart(s))
    else [s[0]] + CollapseSpaces(s[1..])
  }

  function StartsWith(s: string, prefix: string): bool {
    |prefix| <= |s| && s[..|prefix|] == prefix
  }

  /** `s.includes(sub)`. */
  function Contains(s: string, sub: string): bool
    decreases |s|
  {
    StartsWith(s, sub) || (s != [] && Contains(s[1..], sub))
  }

  /** `s.slice(0, n)`. */
  function Take(s: string, n: nat): (r: string)
    ensures |r| <= n && |r| <= |s| && r == s[..|r|]
    ensures |s| <= n ==> r == s
    ensures |s| > n ==> |r| == n
  {
    if |s| <= n then s else s[..n]
  }

  /** `parts.join(sep)`. */
  function Join(parts: seq<string>, sep: string): string {
    if |parts| == 0 then ""
    else if |parts| == 1 then parts[0]
    else parts[0] + sep + Join(parts[1..], sep)
  }

  lemma {:induction false} JoinAppend(parts: seq<string>, last: string, sep: string)
    requires parts != []
    ensures Join(parts + [last], sep) == Join(parts, sep) + sep + last
  {
    if |parts| == 1 {
      assert parts + [last] == [parts[0], last];
    } else {
      assert (parts + [last])[1..] == parts[1..] + [last];
      JoinAppend(parts[1..], last, sep);
    }
  }

  /** `s.split(c)` for a one-character separator. */
  function Split(s: string, c: char): (r: seq<string>)
    ensures |r| >= 1
    ensures forall i :: 0 <= i < |r| ==> c !in r[i]
  {
    if s == [] then [""]
    else
      var rest := Split(s[1..], c);
      if s[0] == c then [""] + rest else [[s[0]] + rest[0]] + rest[1..]
  }

  /** Splitting and re-joining on the same separator gives the string back. */
  lemma {:induction false} JoinSplit(s: string, c: char)
    ensures Join(Split(s, c), [c]) == s
  {
    if s != [] {
      var rest := Split(s[1..], c);
      JoinSplit(s[1..], c);
      if s[0] == c {
        assert Split(s, c) == [""] + rest;
        assert Join([""] + rest, [c]) == "" + [c] + Join(rest, [c]) by {
          assert ([""] + rest)[1..] == rest;
        }
      } else {
        var parts := [[s[0]] + rest[0]] + rest[1..];
        if |rest| == 1 {
          assert Join(parts, [c]) == [s[0]] + rest[0];
        } else {
          assert parts[1..] == rest[1..];
          assert Join(rest, [c]) == rest[0] + [c] + Join(rest[1..], [c]);
        }
      }
    }
  }

  /** Joining pieces free of the separator and splitting again gives the pieces back. */
  lemma {:induction false} SplitJoin(parts: seq<string>, c: char)
    requires |parts| >= 1
    requires forall i :: 0 <= i < |parts| ==> c !in parts[i]
    ensures Split(Join(parts, [c]), c) == parts
  {
    if |parts| == 1 {
      SplitNoSeparator(parts[0], c);
    } else {
      SplitJoin(parts[1..], c);
      var tail := Join(parts[1..], [c]);
      SplitPrefix(parts[0], tail, c);
      assert [parts[0]] + parts[1..] == parts;
    }
  }

  lemma {:induction false} SplitNoSeparator(s: string, c: char)
    requires c !in s
    ensures Split(s, c) == [s]
  {
    if s != [] {
      assert c !in s[1..] by {
        assert forall x :: x in s[1..] ==> x in s;
      }
      SplitNoSeparator(s[1..], c);
      assert [s[0]] + s[1..] == s;
    }
  }

  lemma {:induction false} SplitPrefix(p: string, tail: string, c: char)
    requires c !in p
    ensures Split(p + [c] + tail, c) == [p] + Split(tail, c)
  {
    if p == [] {
      assert p + [c] + tail == [c] + tail;
      assert ([c] + tail)[1..] == tail;
    } else {
      assert (p + [c] + tail)[1..] == p[1..] + [c] + tail;
      SplitPrefix(p[1..], tail, c);
      assert [p[0]] + p[1..] == p;
    }
  }

  lemma {:induction false} JoinStartsWithFirst(parts: seq<string>, sep: string)
    requires parts != []
    ensures StartsWith(Join(parts, sep), parts[0])
  {
  }

  /** A string that starts with a non-blank prefix is not blank. */
  lemma NonBlankPrefix(p: string, s: string)
    requires StartsWith(s, p) && p != [] && !IsSpace(p[0])
    ensures !Blank(s)
  {
    assert s[0] == p[0];
    TrimEmptyIffAllSpace(s);
  }

  /** Collapsing whitespace leaves a whitespace-free prefix in place. */
  lemma {:induction false} CollapseSpacesPrefix(p: string, y: string)
    requires forall i :: 0 <= i < |p| ==> !IsSpace(p[i])
    ensures CollapseSpaces(p + y) == p + CollapseSpaces(y)
    decreases |p|
  {
    if p == [] {
      assert p + y == y;
    } else {
      assert (p + y)[0] == p[0];
      assert (p + y)[1..] == p[1..] + y;
      CollapseSpacesPrefix(p[1..], y);
      assert [p[0]] + p[1..] == p;
    }
  }

  /** One space before a non-space stays one space. */
  lemma CollapseLeadingSpace(b: string)
    requires b != [] && !IsSpace(b[0])
    ensures CollapseSpaces(" " + b) == " " + CollapseSpaces(b)
  {
    var sb := " " + b;
    assert sb[0] == ' ' && sb[1] == b[0];
    assert SpaceRunFrom(sb, 1) == 1;
    assert sb[1..] == b;
  }

  /** A single space after a whitespace-free word, before a non-space, is kept as it is. */
  lemma CollapseOneSpace(a: string, b: string)
    requires forall i :: 0 <= i < |a| ==> !IsSpace(a[i])
    requires b != [] && !IsSpace(b[0])
    ensures CollapseSpaces(a + (" " + b)) == a + (" " + CollapseSpaces(b))
  {
    CollapseSpacesPrefix(a, " " + b);
    CollapseLeadingSpace(b);
  }

  /** The characters of `s` that are not whitespace, in order. */
  function NonSpaceChars(s: string): string {
    if s == [] then [] else (if IsSpace(s[0]) then [] else [s[0]]) + NonSpaceChars(s[1..])
  }

  lemma {:induction false} NonSpaceCharsConcat(a: string, b: string)
    ensures NonSpaceChars(a + b) == NonSpaceChars(a) + NonSpaceChars(b)
    decreases |a|
  {
    if a == [] {
      assert a + b == b;
    } else {
      assert (a + b)[0] == a[0];
      assert (a + b)[1..] == a[1..] + b;
      NonSpaceCharsConcat(a[1..], b);
    }
  }

  lemma {:induction false} NonSpaceCharsOfSpace(w: string)
    requires AllSpace(w)
    ensures NonSpaceChars(w) == []
    decreases |w|
  {
    if w != [] {
      NonSpaceCharsOfSpace(w[1..]);
    }
  }

  /** Trimming drops only whitespace. */
  lemma NonSpaceCharsTrim(s: string)
    ensures NonSpaceChars(Trim(s)) == NonSpaceChars(s)
  {
    var n := LeadingSpace(s);
    TrimStartParts(s);
    assert s == s[..n] + s[n..];
    NonSpaceCharsConcat(s[..n], s[n..]);
    NonSpaceCharsOfSpace(s[..n]);
    var t := TrimStart(s);
    var m := TrailingSpaceStart(t);
    TrimEndParts(t);
    assert t == t[..m] + t[m..];
    NonSpaceCharsConcat(t[..m], t[m..]);
    NonSpaceCharsOfSpace(t[m..]);
  }

  /** Collapsing whitespace runs keeps every other character, in order. */
  lemma {:induction false} NonSpaceCharsCollapse(s: string)
    ensures NonSpaceChars(CollapseSpaces(s)) == NonSpaceChars(s)
    decreases |s|
  {
    if s != [] {
      if IsSpace(s[0]) {
        var n := LeadingSpace(s);
        assert n >= 1;
        var t := TrimStart(s);
        NonSpaceCharsCollapse(t);
        NonSpaceCharsConcat([' '], CollapseSpaces(t));
        TrimStartParts(s);
        assert s == s[..n] + t;
        NonSpaceCharsConcat(s[..n], t);
        NonSpaceCharsOfSpace(s[..n]);
      } else {
        NonSpaceCharsCollapse(s[1..]);
        NonSpaceCharsConcat([s[0]], CollapseSpaces(s[1..]));
      }
    }
  }

  lemma NonSpaceCharsPrefix(s: string, k: nat)
    requires k <= |s|
    ensures StartsWith(NonSpaceChars(s), NonSpaceChars(s[..k]))
  {
    assert s == s[..k] + s[k..];
    NonSpaceCharsConcat(s[..k], s[k..]);
  }

  lemma {:induction false} SpaceRunShift(w: string, b: string, j: nat)
    requires j <= |b|
    ensures SpaceRunFrom(w + b, |w| + j) == |w| + SpaceRunFrom(b, j)
    decreases |b| - j
  {
    if j < |b| {
      assert (w + b)[|w| + j] == b[j];
      if IsSpace(b[j]) {
        SpaceRunShift(w, b, j + 1);
      }
    }
  }

  lemma {:induction false} SpaceRunThroughSpace(w: string, b: string, i: nat)
    requires AllSpace(w) && i <= |w|
    ensures SpaceRunFrom(w + b, i) == SpaceRunFrom(w + b, |w|)
    decreases |w| - i
  {
    if i < |w| {
      assert (w + b)[i] == w[i];
      SpaceRunThroughSpace(w, b, i + 1);
    }
  }

  /** Whitespace in front of `b` is trimmed away with `b`'s own. */
  lemma TrimStartAfterSpace(w: string, b: string)
    requires AllSpace(w)
    ensures TrimStart(w + b) == TrimStart(b)
  {
    SpaceRunThroughSpace(w, b, 0);
    SpaceRunShift(w, b, 0);
    assert (w + b)[|w| + LeadingSpace(b)..] == b[LeadingSpace(b)..];
  }

  lemma {:induction false} SpaceRunWithin(a: string, c: string, i: nat)
    requires i <= |a| && SpaceRunFrom(a, i) < |a|
    ensures SpaceRunFrom(a + c, i) == SpaceRunFrom(a, i)
    decreases |a| - i
  {
    assert (a + c)[i] == a[i];
    if IsSpace(a[i]) {
      SpaceRunWithin(a, c, i + 1);
    }
  }

  /** Trimming the start of a string that is not all whitespace never reaches what follows it. */
  lemma TrimStartConcat(a: string, c: string)
    requires !AllSpace(a)
    ensures TrimStart(a + c) == TrimStart(a) + c
  {
    SpaceRunWithin(a, c, 0);
    assert (a + c)[LeadingSpace(a)..] == a[LeadingSpace(a)..] + c;
  }

  /** How wide a whitespace run is does not matter to `CollapseSpaces`. */
  lemma {:induction false} CollapseSpacesWiden(a: string, w1: string, w2: string, b: string)
    requires w1 != [] && w2 != [] && AllSpace(w1) && AllSpace(w2)
    ensures CollapseSpaces(a + (w1 + b)) == CollapseSpaces(a + (w2 + b))
    decreases |a|
  {
    if a == [] {
      assert a + (w1 + b) == w1 + b && a + (w2 + b) == w2 + b;
      assert (w1 + b)[0] == w1[0] && (w2 + b)[0] == w2[0];
      TrimStartAfterSpace(w1, b);
      TrimStartAfterSpace(w2, b);
    } else if !IsSpace(a[0]) {
      assert (a + (w1 + b))[1..] == a[1..] + (w1 + b);
      assert (a + (w2 + b))[1..] == a[1..] + (w2 + b);
      CollapseSpacesWiden(a[1..], w1, w2, b);
    } else if AllSpace(a) {
      assert a + (w1 + b) == (a + w1) + b && a + (w2 + b) == (a + w2) + b;
      assert AllSpace(a + w1) && AllSpace(a + w2);
      TrimStartAfterSpace(a + w1, b);
      TrimStartAfterSpace(a + w2, b);
    } else {
      TrimStartConcat(a, w1 + b);
      TrimStartConcat(a, w2 + b);
      assert LeadingSpace(a) >= 1;
      CollapseSpacesWiden(TrimStart(a), w1, w2, b);
    }
  }

  /** Joining parts that start and end without whitespace gives a trimmed string. */
  lemma JoinTrimmed(parts: seq<string>, sep: string)
    requires parts != [] && parts[0] != [] && parts[|parts| - 1] != []
    requires !IsSpace(parts[0][0]) && !IsSpace(parts[|parts| - 1][|parts[|parts| - 1]| - 1])
    ensures IsTrimmed(Join(parts, sep))
  {
    var j := Join(parts, sep);
    JoinStartsWithFirst(parts, sep);
    assert j[0] == parts[0][0];
    if |parts| > 1 {
      var init := parts[..|parts| - 1];
      var last := parts[|parts| - 1];
      assert init + [last] == parts;
      JoinAppend(init, last, sep);
      assert j[|j| - 1] == last[|last| - 1];
    }
  }

  /** Removes one carriage return from the end of a piece: the `\r?` of `\r?\n`. */
  function DropCarriageReturn(p: string): string {
    if p != [] && p[|p| - 1] == '\r' then p[..|p| - 1] else p
  }

  /** `s.split(/\r?\n/)`. */
  function SplitLines(s: string): (r: seq<string>)
    ensures |r| >= 1
    ensures forall i :: 0 <= i < |r| ==> '\n' !in r[i]
  {
    var pieces := Split(s, '\n');
    seq(|pieces|, i requires 0 <= i < |pieces| =>
      if i < |pieces| - 1 then DropCarriageReturn(pieces[i]) else pieces[i])
  }

  /** Lines without line terminators, joined with "\n", split back into the same lines. */
  lemma SplitLinesJoin(lines: seq<string>)
    requires |lines| >= 1
    requires forall i :: 0 <= i < |lines| ==> NoLineTerminator(lines[i])
    ensures SplitLines(Join(lines, "\n")) == lines
  {
    forall i | 0 <= i < |lines| ensures '\n' !in lines[i] {
      assert forall k :: 0 <= k < |lines[i]| ==> lines[i][k] != '\n';
    }
    SplitJoin(lines, '\n');
    forall i | 0 <= i < |lines| ensures DropCarriageReturn(lines[i]) == lines[i] {
      if lines[i] != [] {
        assert !IsLineTerminator(lines[i][|lines[i]| - 1]);
      }
    }
  }
}
