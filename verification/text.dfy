/** String primitives with JavaScript semantics, as the core uses them:
    `replace(/\D/g, '')`, `trim()`, `toLowerCase()`, substring search,
    `/a.*b/` without flags, `split(sep)` and `join(sep)`. Strings are
    sequences of Unicode scalar values. */
module Text {
  import opened Common

  // ---------------------------------------------------------------- digits

  /** JavaScript's `\d`: an ASCII decimal digit. */
  predicate IsDigit(c: char) {
    '0' <= c <= '9'
  }

  predicate AllDigits(s: string) {
    forall i :: 0 <= i < |s| ==> IsDigit(s[i])
  }

  /** `s.replace(/\D/g, '')`: the digits of `s`, in order. */
  function OnlyDigits(s: string): (r: string)
    ensures AllDigits(r)
    ensures |r| <= |s|
  {
    if s == [] then []
    else (if IsDigit(s[0]) then [s[0]] else []) + OnlyDigits(s[1..])
  }

  /** Stripping non-digits distributes over concatenation. */
  lemma {:induction false} OnlyDigitsAppend(a: string, b: string)
    ensures OnlyDigits(a + b) == OnlyDigits(a) + OnlyDigits(b)
  {
    if a != [] {
      var head := if IsDigit(a[0]) then [a[0]] else [];
      assert (a + b)[0] == a[0];
      assert (a + b)[1..] == a[1..] + b;
      OnlyDigitsAppend(a[1..], b);
      calc {
        OnlyDigits(a + b);
        head + OnlyDigits(a[1..] + b);
        head + (OnlyDigits(a[1..]) + OnlyDigits(b));
        (head + OnlyDigits(a[1..])) + OnlyDigits(b);
        OnlyDigits(a) + OnlyDigits(b);
      }
    } else {
      assert a + b == b;
    }
  }

  /** A string that is all digits is left as it is. */
  lemma {:induction false} OnlyDigitsKeepsDigits(s: string)
    requires AllDigits(s)
    ensures OnlyDigits(s) == s
  {
    if s != [] {
      OnlyDigitsKeepsDigits(s[1..]);
    }
  }

  /** A non-digit between some text and a run of digits is dropped. */
  lemma DropMark(x: string, m: char, y: string)
    requires !IsDigit(m) && AllDigits(y)
    ensures OnlyDigits(x + [m] + y) == OnlyDigits(x) + y
  {
    assert OnlyDigits([m]) == [] by {
      assert [m][1..] == [];
    }
    calc {
      OnlyDigits(x + [m] + y);
      { OnlyDigitsAppend(x + [m], y); }
      OnlyDigits(x + [m]) + OnlyDigits(y);
      { OnlyDigitsAppend(x, [m]); }
      OnlyDigits(x) + [] + OnlyDigits(y);
      { OnlyDigitsKeepsDigits(y); }
      OnlyDigits(x) + y;
    }
  }

  /** Stripping non-digits twice is stripping them once. */
  lemma OnlyDigitsIdempotent(s: string)
    ensures OnlyDigits(OnlyDigits(s)) == OnlyDigits(s)
  {
    OnlyDigitsKeepsDigits(OnlyDigits(s));
  }

  /** The numeric value of a digit (`Number(c)`). */
  function DigitValue(c: char): int {
    c as int - '0' as int
  }

  // ------------------------------------------------------------ whitespace

  /** JavaScript's LineTerminator: what `.` in a regular expression does not match. */
  predicate IsLineTerminator(c: char) {
    c == '\n' || c == '\r' || c == '\U{2028}' || c == '\U{2029}'
  }

  /** What `String.prototype.trim` removes: WhiteSpace and LineTerminator. */
  predicate IsJsWhitespace(c: char) {
    || c == '\t' || c == '\U{B}' || c == '\U{C}' || c == ' '
    || c == '\U{A0}' || c == '\U{FEFF}' || c == '\U{1680}'
    || ('\U{2000}' <= c <= '\U{200A}')
    || c == '\U{202F}' || c == '\U{205F}' || c == '\U{3000}'
    || IsLineTerminator(c)
  }

  function TrimStart(s: string): (r: string)
    ensures |r| <= |s| && r == s[|s| - |r|..]
    ensures r != [] ==> !IsJsWhitespace(r[0])
    ensures forall i :: 0 <= i < |s| - |r| ==> IsJsWhitespace(s[i])
  {
    if s != [] && IsJsWhitespace(s[0]) then
      var r := TrimStart(s[1..]);
      assert s[1..][|s| - 1 - |r|..] == s[|s| - |r|..];
      assert forall i :: 1 <= i < |s| - |r| ==> s[i] == s[1..][i - 1];
      r
    else s
  }

  function TrimEnd(s: string): (r: string)
    ensures |r| <= |s| && r == s[..|r|]
    ensures r != [] ==> !IsJsWhitespace(r[|r| - 1])
    ensures forall i :: |r| <= i < |s| ==> IsJsWhitespace(s[i])
  {
    if s != [] && IsJsWhitespace(s[|s| - 1]) then
      var r := TrimEnd(s[..|s| - 1]);
      assert s[..|s| - 1][..|r|] == s[..|r|];
      assert forall i :: |r| <= i < |s| - 1 ==> s[i] == s[..|s| - 1][i];
      r
    else s
  }

  /** `s.trim()`. */
  function Trim(s: string): (r: string)
    ensures |r| <= |s|
    ensures r != [] ==> !IsJsWhitespace(r[0]) && !IsJsWhitespace(r[|r| - 1])
  {
    TrimEnd(TrimStart(s))
  }

  predicate AllWhitespace(s: string) {
    forall i :: 0 <= i < |s| ==> IsJsWhitespace(s[i])
  }

  /** Leading whitespace in front of a word that starts with a visible
      character is all that `TrimStart` removes. */
  lemma {:induction false} TrimStartSkips(ws: string, x: string)
    requires AllWhitespace(ws)
    requires x != [] && !IsJsWhitespace(x[0])
    ensures TrimStart(ws + x) == x
    decreases |ws|
  {
    if ws == [] {
      assert ws + x == x;
    } else {
      assert (ws + x)[1..] == ws[1..] + x;
      TrimStartSkips(ws[1..], x);
    }
  }

  /** Trailing whitespace after a word that ends with a visible character
      is all that `TrimEnd` removes. */
  lemma {:induction false} TrimEndSkips(x: string, ws: string)
    requires AllWhitespace(ws)
    requires x != [] && !IsJsWhitespace(x[|x| - 1])
    ensures TrimEnd(x + ws) == x
    decreases |ws|
  {
    if ws == [] {
      assert x + ws == x;
    } else {
      var shorter := ws[..|ws| - 1];
      assert (x + ws)[..|x + ws| - 1] == x + shorter;
      TrimEndSkips(x, shorter);
    }
  }

  /** `trim()` removes exactly the whitespace around a word whose first and
      last characters are visible. */
  lemma TrimAround(ws1: string, x: string, ws2: string)
    requires AllWhitespace(ws1) && AllWhitespace(ws2)
    requires x != [] && !IsJsWhitespace(x[0]) && !IsJsWhitespace(x[|x| - 1])
    ensures Trim(ws1 + x + ws2) == x
  {
    assert ws1 + x + ws2 == ws1 + (x + ws2);
    TrimStartSkips(ws1, x + ws2);
    TrimEndSkips(x, ws2);
  }

  // ---------------------------------------------------------------- case

  /** `toLowerCase` on one character, for ASCII and Latin-1 letters. */
  function LowerChar(c: char): char {
    if 'A' <= c <= 'Z' || ('\U{C0}' <= c <= '\U{DE}' && c != '\U{D7}') then
      (c as int + 32) as char
    else c
  }

  /** `s.toLowerCase()`. */
  function ToLower(s: string): (r: string)
    ensures |r| == |s|
    ensures forall i :: 0 <= i < |s| ==> r[i] == LowerChar(s[i])
  {
    if s == [] then [] else [LowerChar(s[0])] + ToLower(s[1..])
  }

  /** Lower-casing works character by character, so it distributes over
      concatenation. */
  lemma ToLowerAppend(a: string, b: string)
    ensures ToLower(a + b) == ToLower(a) + ToLower(b)
  {
    var l, r := ToLower(a + b), ToLower(a) + ToLower(b);
    assert |l| == |r|;
    forall i | 0 <= i < |l|
      ensures l[i] == r[i]
    {
      if i < |a| {
        assert (a + b)[i] == a[i];
      } else {
        assert (a + b)[i] == b[i - |a|];
      }
    }
  }

  /** Lower-casing twice is lower-casing once. */
  lemma ToLowerIdempotent(s: string)
    ensures ToLower(ToLower(s)) == ToLower(s)
  {
    var once := ToLower(s);
    forall i | 0 <= i < |s|
      ensures ToLower(once)[i] == once[i]
    {
      assert once[i] == LowerChar(s[i]);
    }
  }

  /** Whitespace is left alone by lower-casing. */
  lemma LowerKeepsWhitespace(c: char)
    requires IsJsWhitespace(c)
    ensures LowerChar(c) == c
  {
  }

  /** The length JavaScript reports: UTF-16 code units. */
  function Utf16Length(s: string): (n: nat)
    ensures |s| <= n <= 2 * |s|
  {
    if s == [] then 0 else (if s[0] as int >= 0x1_0000 then 2 else 1) + Utf16Length(s[1..])
  }

  /** Outside the supplementary planes a character is one UTF-16 unit. */
  lemma {:induction false} BasicPlaneLength(s: string)
    requires forall i :: 0 <= i < |s| ==> s[i] as int < 0x1_0000
    ensures Utf16Length(s) == |s|
  {
    if s != [] {
      BasicPlaneLength(s[1..]);
    }
  }

  /** A string of lower-case ASCII letters and spaces is its own lower case. */
  lemma LowerAsciiFixed(s: string)
    requires forall i :: 0 <= i < |s| ==> 'a' <= s[i] <= 'z' || s[i] == ' '
    ensures ToLower(s) == s
  {
  }

  // -------------------------------------------------------- substring search

  /** `w` occurs in `s` starting at index `i`. */
  predicate OccursAt(s: string, w: string, i: int) {
    0 <= i && i + |w| <= |s| && s[i..i + |w|] == w
  }

  /** `s.includes(w)`, i.e. the regular expression `/w/` for a literal `w`. */
  predicate Contains(s: string, w: string)
    decreases |s|
  {
    if |w| > |s| then false
    else if s[..|w|] == w then true
    else Contains(s[1..], w)
  }

  lemma {:induction false} ContainsIff(s: string, w: string)
    ensures Contains(s, w) <==> exists i :: OccursAt(s, w, i)
    decreases |s|
  {
    if |w| > |s| {
    } else if s[..|w|] == w {
      assert OccursAt(s, w, 0);
    } else {
      ContainsIff(s[1..], w);
      forall i | OccursAt(s[1..], w, i)
        ensures OccursAt(s, w, i + 1)
      {
        assert s[i + 1..i + 1 + |w|] == s[1..][i..i + |w|];
      }
      forall i | OccursAt(s, w, i)
        ensures OccursAt(s[1..], w, i - 1)
      {
        assert i != 0;
        assert s[1..][i - 1..i - 1 + |w|] == s[i..i + |w|];
      }
    }
  }

  /** A string contains whatever stands in its middle. */
  lemma ContainsMiddle(a: string, w: string, b: string)
    ensures Contains(a + w + b, w)
  {
    var s := a + w + b;
    assert s[|a|..|a| + |w|] == w;
    assert OccursAt(s, w, |a|);
    ContainsIff(s, w);
  }

  /** The first index at or after which a line terminator stands in `s`, or `|s|`. */
  function LineEnd(s: string, k: nat): (e: nat)
    requires k <= |s|
    ensures k <= e <= |s|
    ensures e < |s| ==> IsLineTerminator(s[e])
    ensures forall t :: k <= t < e ==> !IsLineTerminator(s[t])
    decreases |s| - k
  {
    if k == |s| || IsLineTerminator(s[k]) then k else LineEnd(s, k + 1)
  }

  /** No line terminator among `s[lo..hi]`. */
  predicate SameLine(s: string, lo: int, hi: int) {
    forall t :: lo <= t < hi && 0 <= t < |s| ==> !IsLineTerminator(s[t])
  }

  predicate NoLineTerminator(w: string) {
    forall t :: 0 <= t < |w| ==> !IsLineTerminator(w[t])
  }

  /** `/a.*b/.test(s)` with no flags: `.` matches anything but a line terminator. */
  predicate ThenOnSameLine(s: string, a: string, b: string) {
    ThenOnSameLineFrom(s, a, b, 0)
  }

  predicate ThenOnSameLineFrom(s: string, a: string, b: string, i: nat)
    decreases |s| - i
  {
    if i + |a| > |s| then false
    else if OccursAt(s, a, i) && Contains(s[i + |a|..LineEnd(s, i + |a|)], b) then true
    else ThenOnSameLineFrom(s, a, b, i + 1)
  }

  /** `a` occurs at or after `i0`, followed on the same line by `b`. */
  ghost predicate MatchFrom(s: string, a: string, b: string, i0: int) {
    exists i, j :: i0 <= i && OccursAt(s, a, i) && OccursAt(s, b, j) && i + |a| <= j && SameLine(s, i + |a|, j)
  }

  /** The regular expression `/a.*b/` matches exactly when `a` occurs and `b`
      occurs after it with no line break in between. */
  lemma ThenOnSameLineIff(s: string, a: string, b: string)
    requires NoLineTerminator(b)
    ensures ThenOnSameLine(s, a, b) <==> MatchFrom(s, a, b, 0)
  {
    ThenOnSameLineFromIff(s, a, b, 0);
  }

  /** `b` occurs in the rest of the line that starts at `k` exactly when it
      occurs at some `j >= k` with no line break between `k` and `j`. */
  lemma InLineIff(s: string, k: nat, b: string)
    requires k <= |s| && NoLineTerminator(b)
    ensures Contains(s[k..LineEnd(s, k)], b) <==> exists j :: k <= j && OccursAt(s, b, j) && SameLine(s, k, j)
  {
    var rest := s[k..LineEnd(s, k)];
    ContainsIff(rest, b);
    if Contains(rest, b) {
      var j :| OccursAt(rest, b, j);
      OccursInLineRest(s, k, b, j);
      assert k <= k + j && OccursAt(s, b, k + j) && SameLine(s, k, k + j);
    }
    if exists j :: k <= j && OccursAt(s, b, j) && SameLine(s, k, j) {
      var j :| k <= j && OccursAt(s, b, j) && SameLine(s, k, j);
      OccursBeforeLineEnd(s, k, b, j);
      assert OccursAt(rest, b, j - k);
    }
  }

  /** An occurrence of `b` in the rest of the line that starts at `k` is an
      occurrence in `s` on that line. */
  lemma OccursInLineRest(s: string, k: nat, b: string, j: int)
    requires k <= |s| && OccursAt(s[k..LineEnd(s, k)], b, j)
    ensures OccursAt(s, b, k + j) && SameLine(s, k, k + j)
  {
    var rest := s[k..LineEnd(s, k)];
    assert s[k + j..k + j + |b|] == rest[j..j + |b|];
  }

  /** An occurrence of `b` on the line that starts at `k` lies within the
      rest of that line. */
  lemma OccursBeforeLineEnd(s: string, k: nat, b: string, j: int)
    requires k <= |s| && NoLineTerminator(b)
    requires k <= j && OccursAt(s, b, j) && SameLine(s, k, j)
    ensures OccursAt(s[k..LineEnd(s, k)], b, j - k)
  {
    var e := LineEnd(s, k);
    assert forall t :: k <= t < j + |b| ==> !IsLineTerminator(s[t]) by {
      forall t | j <= t < j + |b|
        ensures !IsLineTerminator(s[t])
      {
        assert s[t] == b[t - j];
      }
    }
    assert j + |b| <= e;
    assert s[k..e][j - k..j - k + |b|] == s[j..j + |b|];
  }

  lemma {:induction false} ThenOnSameLineFromIff(s: string, a: string, b: string, i0: nat)
    requires NoLineTerminator(b)
    ensures ThenOnSameLineFrom(s, a, b, i0) <==> MatchFrom(s, a, b, i0)
    decreases |s| - i0
  {
    if i0 + |a| <= |s| {
      MatchFromStep(s, a, b, i0);
      ThenOnSameLineFromIff(s, a, b, i0 + 1);
    }
  }

  /** A match from `i0` is a match of `a` at `i0` followed on its line by
      `b`, or a match from `i0 + 1`. */
  lemma MatchFromStep(s: string, a: string, b: string, i0: nat)
    requires NoLineTerminator(b) && i0 + |a| <= |s|
    ensures MatchFrom(s, a, b, i0) <==>
      (OccursAt(s, a, i0) && Contains(s[i0 + |a|..LineEnd(s, i0 + |a|)], b)) || MatchFrom(s, a, b, i0 + 1)
  {
    var k := i0 + |a|;
    InLineIff(s, k, b);
    if OccursAt(s, a, i0) && Contains(s[k..LineEnd(s, k)], b) {
      var j :| k <= j && OccursAt(s, b, j) && SameLine(s, k, j);
      assert OccursAt(s, a, i0) && OccursAt(s, b, j) && i0 + |a| <= j && SameLine(s, i0 + |a|, j);
    }
    if MatchFrom(s, a, b, i0) {
      var i, j :| i0 <= i && OccursAt(s, a, i) && OccursAt(s, b, j) && i + |a| <= j && SameLine(s, i + |a|, j);
      if i == i0 {
        assert Contains(s[k..LineEnd(s, k)], b);
      } else {
        assert MatchFrom(s, a, b, i0 + 1);
      }
    }
  }

  // ------------------------------------------------------------ split/join

  /** The first index at or after `from` where `sep` occurs in `s`. */
  function FindFrom(s: string, sep: string, from: nat): (r: Option<nat>)
    ensures r.Some? ==> from <= r.value && OccursAt(s, sep, r.value)
    ensures forall i :: from <= i && OccursAt(s, sep, i) ==> r.Some? && r.value <= i
    decreases |s| - from
  {
    if from + |sep| > |s| then None
    else if OccursAt(s, sep, from) then Some(from)
    else FindFrom(s, sep, from + 1)
  }

  /** `s.split(sep)` for a non-empty separator string. */
  function Split(s: string, sep: string): (parts: seq<string>)
    requires |sep| > 0
    ensures |parts| > 0
    decreases |s|
  {
    match FindFrom(s, sep, 0)
    case None => [s]
    case Some(i) => [s[..i]] + Split(s[i + |sep|..], sep)
  }

  /** `parts.join(sep)`. */
  function Join(parts: seq<string>, sep: string): string {
    if parts == [] then ""
    else if |parts| == 1 then parts[0]
    else parts[0] + sep + Join(parts[1..], sep)
  }

  /** Joining the pieces of a split with the same separator gives the string back. */
  lemma {:induction false} JoinSplit(s: string, sep: string)
    requires |sep| > 0
    ensures Join(Split(s, sep), sep) == s
    decreases |s|
  {
    match FindFrom(s, sep, 0)
    case None =>
    case Some(i) =>
      var rest := s[i + |sep|..];
      JoinSplit(rest, sep);
      assert s[i..i + |sep|] == sep;
      assert s == s[..i] + sep + rest;
  }

  /** No piece of a split contains the separator. */
  lemma {:induction false} SplitPiecesAvoidSeparator(s: string, sep: string)
    requires |sep| > 0
    ensures forall p :: p in Split(s, sep) ==> !Contains(p, sep)
    decreases |s|
  {
    match FindFrom(s, sep, 0)
    case None =>
      ContainsIff(s, sep);
    case Some(i) =>
      SplitPiecesAvoidSeparator(s[i + |sep|..], sep);
      ContainsIff(s[..i], sep);
      if Contains(s[..i], sep) {
        var j :| OccursAt(s[..i], sep, j);
        assert s[j..j + |sep|] == s[..i][j..j + |sep|];
        assert OccursAt(s, sep, j);
      }
  }
}
