/** The Python string built-ins the core relies on: `str.split()`,
    `str.split(sep)`, `str.strip()`, `str.upper()` (ASCII letters only),
    `int(str)`, `str(n)` for a natural number, and `sub in s`. */
module Text {
  import opened Values

  /** The characters for which Python's `str.isspace()` holds; `split()` and
      `strip()` without arguments cut on exactly these. */
  predicate IsSpace(c: char) {
    || ('\U{9}' <= c <= '\U{d}') || ('\U{1c}' <= c <= '\U{20}')
    || c == '\U{85}' || c == '\U{a0}' || c == '\U{1680}'
    || ('\U{2000}' <= c <= '\U{200a}') || c == '\U{2028}' || c == '\U{2029}'
    || c == '\U{202f}' || c == '\U{205f}' || c == '\U{3000}'
  }

  predicate NoSpace(s: string) {
    forall i :: 0 <= i < |s| ==> !IsSpace(s[i])
  }

  predicate NotIn(c: char, s: string) {
    forall i :: 0 <= i < |s| ==> s[i] != c
  }

  // ---------------------------------------------------------------- split(sep)

  /** `s.split(sep)`: the pieces between occurrences of `sep`, empty pieces
      kept, so there is always one more piece than there are separators. */
  function Split(s: string, sep: char): (parts: seq<string>)
    ensures |parts| >= 1
    ensures forall k :: 0 <= k < |parts| ==> NotIn(sep, parts[k])
    decreases |s|
  {
    if s == [] then [""]
    else
      var rest := Split(s[1..], sep);
      if s[0] == sep then [""] + rest
      else [[s[0]] + rest[0]] + rest[1..]
  }

  /** `sep.join(parts)`. */
  function Join(parts: seq<string>, sep: char): string
    requires |parts| >= 1
  {
    if |parts| == 1 then parts[0] else parts[0] + [sep] + Join(parts[1..], sep)
  }

  lemma {:induction false} SplitCons(c: char, s: string, sep: char)
    requires c != sep
    ensures Split([c] + s, sep) == [[c] + Split(s, sep)[0]] + Split(s, sep)[1..]
  {
    assert ([c] + s)[1..] == s;
  }

  lemma {:induction false} SplitPiece(p: string, s: string, sep: char)
    requires NotIn(sep, p)
    ensures Split(p + s, sep) == [p + Split(s, sep)[0]] + Split(s, sep)[1..]
    decreases |p|
  {
    if p == [] {
      assert p + s == s;
      assert p + Split(s, sep)[0] == Split(s, sep)[0];
      assert [Split(s, sep)[0]] + Split(s, sep)[1..] == Split(s, sep);
    } else {
      SplitPiece(p[1..], s, sep);
      assert p + s == [p[0]] + (p[1..] + s);
      SplitCons(p[0], p[1..] + s, sep);
      assert [p[0]] + (p[1..] + Split(s, sep)[0]) == p + Split(s, sep)[0];
    }
  }

  /** Splitting a joined list gives the list back when no piece holds the
      separator. */
  lemma {:induction false} SplitJoin(parts: seq<string>, sep: char)
    requires |parts| >= 1
    requires forall k :: 0 <= k < |parts| ==> NotIn(sep, parts[k])
    ensures Split(Join(parts, sep), sep) == parts
    decreases |parts|
  {
    if |parts| == 1 {
      SplitPiece(parts[0], "", sep);
      assert parts[0] + "" == parts[0];
    } else {
      var rest := Join(parts[1..], sep);
      SplitJoin(parts[1..], sep);
      assert Split([sep] + rest, sep) == [""] + parts[1..] by {
        assert ([sep] + rest)[1..] == rest;
      }
      assert parts[0] + [sep] + rest == parts[0] + ([sep] + rest);
      SplitPiece(parts[0], [sep] + rest, sep);
      assert parts[0] + "" == parts[0];
      assert [parts[0]] + parts[1..] == parts;
    }
  }

  // ---------------------------------------------------------------- split()

  /** Length of the leading run of non-whitespace characters. */
  function WordLength(s: string): (n: nat)
    ensures n <= |s|
    ensures NoSpace(s[..n])
    ensures n < |s| ==> IsSpace(s[n])
  {
    if s == [] || IsSpace(s[0]) then 0
    else
      var n := 1 + WordLength(s[1..]);
      assert s[..n] == [s[0]] + s[1..][..n - 1];
      n
  }

  /** `s.split()`: the maximal runs of non-whitespace characters, in order;
      leading, trailing and repeated whitespace produce no empty tokens. */
  function Tokens(s: string): (ts: seq<string>)
    ensures forall k :: 0 <= k < |ts| ==> |ts[k]| > 0 && NoSpace(ts[k])
    decreases |s|
  {
    if s == [] then []
    else if IsSpace(s[0]) then Tokens(s[1..])
    else
      var n := WordLength(s);
      [s[..n]] + Tokens(s[n..])
  }

  lemma {:induction false} WordLengthOfWord(w: string, s: string)
    requires NoSpace(w)
    requires s == [] || IsSpace(s[0])
    ensures WordLength(w + s) == |w|
    decreases |w|
  {
    if w == [] {
      assert w + s == s;
    } else {
      assert (w + s)[1..] == w[1..] + s;
      WordLengthOfWord(w[1..], s);
    }
  }

  lemma {:induction false} TokensOfSpaces(sp: string, s: string)
    requires forall i :: 0 <= i < |sp| ==> IsSpace(sp[i])
    ensures Tokens(sp + s) == Tokens(s)
    decreases |sp|
  {
    if sp != [] {
      assert (sp + s)[1..] == sp[1..] + s;
      TokensOfSpaces(sp[1..], s);
    } else {
      assert sp + s == s;
    }
  }

  /** `" ".join(ts).split() == ts` for non-empty whitespace-free tokens: the
      word splitter finds exactly the words that were joined. */
  lemma {:induction false} TokensJoin(ts: seq<string>)
    requires |ts| >= 1
    requires forall k :: 0 <= k < |ts| ==> |ts[k]| > 0 && NoSpace(ts[k])
    ensures Tokens(Join(ts, ' ')) == ts
    decreases |ts|
  {
    var w := ts[0];
    if |ts| == 1 {
      WordLengthOfWord(w, "");
      assert w + "" == w;
      assert w[|w|..] == [];
    } else {
      var rest := Join(ts[1..], ' ');
      var s := [' '] + rest;
      assert Join(ts, ' ') == w + s;
      WordLengthOfWord(w, s);
      assert (w + s)[..|w|] == w;
      assert (w + s)[|w|..] == s;
      TokensOfSpaces([' '], rest);
      TokensJoin(ts[1..]);
      assert ts == [w] + ts[1..];
    }
  }

  /** Appending whitespace and a further word adds one token at the end. */
  lemma {:induction false} TokensAppendWord(s: string, w: string)
    requires |w| > 0 && NoSpace(w)
    ensures Tokens(s + [' '] + w) == Tokens(s) + [w]
    decreases |s|
  {
    if s == [] {
      assert s + [' '] + w == [' '] + w;
      TokensOfSpaces([' '], w);
      TokensJoin([w]);
    } else if IsSpace(s[0]) {
      assert (s + [' '] + w)[1..] == s[1..] + [' '] + w;
      TokensAppendWord(s[1..], w);
    } else {
      var n := WordLength(s);
      WordLengthPrefix(s, [' '] + w);
      assert s + [' '] + w == s + ([' '] + w);
      assert (s + ([' '] + w))[..n] == s[..n];
      assert (s + ([' '] + w))[n..] == s[n..] + [' '] + w;
      TokensAppendWord(s[n..], w);
    }
  }

  lemma {:induction false} WordLengthPrefix(s: string, t: string)
    requires t != [] && IsSpace(t[0])
    ensures WordLength(s + t) == WordLength(s)
    decreases |s|
  {
    if s == [] {
      assert s + t == t;
    } else if !IsSpace(s[0]) {
      assert (s + t)[1..] == s[1..] + t;
      WordLengthPrefix(s[1..], t);
    }
  }

  // ---------------------------------------------------------------- strip()

  function StripLeft(s: string): (r: string)
    ensures |r| <= |s| && r == s[|s| - |r|..]
    ensures r != [] ==> !IsSpace(r[0])
    ensures forall i :: 0 <= i < |s| - |r| ==> IsSpace(s[i])
  {
    if s != [] && IsSpace(s[0]) then StripLeft(s[1..]) else s
  }

  function StripRight(s: string): (r: string)
    ensures |r| <= |s| && r == s[..|r|]
    ensures r != [] ==> !IsSpace(r[|r| - 1])
    ensures forall i :: |r| <= i < |s| ==> IsSpace(s[i])
  {
    if s != [] && IsSpace(s[|s| - 1]) then StripRight(s[..|s| - 1]) else s
  }

  predicate AllSpace(s: string) {
    forall i :: 0 <= i < |s| ==> IsSpace(s[i])
  }

  /** `s.strip()`: what is left of `s` once whitespace is removed from both
      ends; the result neither starts nor ends with whitespace. */
  function Strip(s: string): (r: string)
    ensures r != [] ==> !IsSpace(r[0]) && !IsSpace(r[|r| - 1])
  {
    StripRight(StripLeft(s))
  }

  /** What `strip()` removes is whitespace, from the two ends only. */
  lemma StripRemovesSpace(s: string)
    ensures exists i, j :: 0 <= i <= j <= |s| && Strip(s) == s[i..j] && AllSpace(s[..i]) && AllSpace(s[j..])
  {
    var l := StripLeft(s);
    var r := StripRight(l);
    var i, j := |s| - |l|, |s| - |l| + |r|;
    assert r == s[i..j] && AllSpace(s[..i]) && AllSpace(s[j..]);
  }

  lemma StripOfStripped(s: string)
    requires s != [] ==> !IsSpace(s[0]) && !IsSpace(s[|s| - 1])
    ensures Strip(s) == s
  {
  }

  // ---------------------------------------------------------------- upper()

  function UpperChar(c: char): (d: char)
    ensures IsSpace(d) <==> IsSpace(c)
  {
    if 'a' <= c <= 'z' then (c as int - 32) as char else c
  }

  /** `s.upper()` restricted to ASCII: each lower-case ASCII letter becomes its
      capital, everything else is copied. */
  function Upper(s: string): (r: string)
    ensures |r| == |s|
    ensures forall i :: 0 <= i < |s| ==> r[i] == UpperChar(s[i])
  {
    seq(|s|, i requires 0 <= i < |s| => UpperChar(s[i]))
  }

  /** Upper-casing twice is upper-casing once. */
  lemma UpperIdempotent(s: string)
    ensures Upper(Upper(s)) == Upper(s)
  {
  }

  lemma UpperSlice(s: string, i: int, j: int)
    requires 0 <= i <= j <= |s|
    ensures Upper(s)[i..j] == Upper(s[i..j])
  {
  }

  lemma StripLeftSpace(c: char, t: string)
    requires IsSpace(c)
    ensures StripLeft([c] + t) == StripLeft(t)
  {
    assert ([c] + t)[1..] == t;
  }

  lemma UpperCons(s: string)
    requires s != []
    ensures Upper(s) == [UpperChar(s[0])] + Upper(s[1..])
  {
  }

  lemma StripLeftUpperSpace(s: string)
    requires s != [] && IsSpace(s[0])
    ensures StripLeft(Upper(s)) == StripLeft(Upper(s[1..]))
  {
    UpperCons(s);
    StripLeftSpace(UpperChar(s[0]), Upper(s[1..]));
  }

  lemma StripLeftUpperWord(s: string)
    requires s == [] || !IsSpace(s[0])
    ensures StripLeft(Upper(s)) == Upper(s)
  {
    if s != [] {
      assert Upper(s)[0] == UpperChar(s[0]);
    }
  }

  lemma {:induction false} StripLeftUpper(s: string)
    ensures StripLeft(Upper(s)) == Upper(StripLeft(s))
    decreases |s|
  {
    if s != [] && IsSpace(s[0]) {
      StripLeftUpperSpace(s);
      StripLeftUpper(s[1..]);
    } else {
      StripLeftUpperWord(s);
    }
  }

  lemma {:induction false} StripRightUpper(s: string)
    ensures StripRight(Upper(s)) == Upper(StripRight(s))
    decreases |s|
  {
    var u := Upper(s);
    if s == [] {
      assert u == [];
    } else {
      assert u[|s| - 1] == UpperChar(s[|s| - 1]);
      if IsSpace(s[|s| - 1]) {
        assert StripRight(u) == StripRight(u[..|s| - 1]);
        UpperSlice(s, 0, |s| - 1);
        StripRightUpper(s[..|s| - 1]);
      } else {
        assert StripRight(u) == u;
      }
    }
  }

  /** `upper()` keeps every whitespace character where it is, so stripping
      before or after upper-casing gives the same string. */
  lemma StripUpperCommute(s: string)
    ensures Strip(Upper(s)) == Upper(Strip(s))
  {
    StripLeftUpper(s);
    StripRightUpper(StripLeft(s));
  }

  // ---------------------------------------------------------------- int(), str()

  predicate IsDigit(c: char) { '0' <= c <= '9' }

  /** The digit strings `int()` accepts: ASCII digits, with single underscores
      allowed between two digits. */
  predicate IsDigitString(s: string) {
    && |s| > 0
    && IsDigit(s[0])
    && forall i :: 0 <= i < |s| ==> DigitOrJoin(s, i)
  }

  /** Position `i` holds a digit, or an underscore followed by a digit. */
  predicate DigitOrJoin(s: string, i: int)
    requires 0 <= i < |s|
  {
    IsDigit(s[i]) || (s[i] == '_' && i + 1 < |s| && IsDigit(s[i + 1]))
  }

  /** Decimal value of a digit string, underscores skipped. */
  function DigitsValue(s: string): (n: nat)
    decreases |s|
  {
    if s == [] then 0
    else if IsDigit(s[|s| - 1]) then
      DigitsValue(s[..|s| - 1]) * 10 + (s[|s| - 1] as int - '0' as int)
    else DigitsValue(s[..|s| - 1])
  }

  /** `int(s)` on a string: surrounding whitespace allowed, an optional sign,
      then a digit string; None where Python raises ValueError. The
      whitespace cut is `strip()`'s, which also removes U+001C..U+001F;
      `int()` does not accept those around the digits, but a token of
      `split()` never holds them. */
  function ParseInt(s: string): (r: Option<int>)
    ensures r.Some? ==> Strip(s) != []
  {
    var t := Strip(s);
    if t != [] && (t[0] == '+' || t[0] == '-') then
      if IsDigitString(t[1..]) then
        var v: int := DigitsValue(t[1..]);
        Some(if t[0] == '-' then -v else v)
      else None
    else if IsDigitString(t) then Some(DigitsValue(t))
    else None
  }

  function DigitChar(d: nat): (c: char)
    requires d < 10
    ensures IsDigit(c) && c as int - '0' as int == d
  {
    "0123456789"[d]
  }

  /** `str(n)` for a natural number: decimal digits, no leading zero. */
  function ShowNat(n: nat): (s: string)
    ensures |s| > 0 && IsDigit(s[0])
    ensures forall i :: 0 <= i < |s| ==> IsDigit(s[i])
    ensures n > 0 ==> s[0] != '0'
  {
    if n < 10 then [DigitChar(n)]
    else ShowNat(n / 10) + [DigitChar(n % 10)]
  }

  lemma {:induction false} DigitsValueOfShowNat(n: nat)
    ensures DigitsValue(ShowNat(n)) == n
  {
    if n >= 10 {
      var s := ShowNat(n);
      assert s[..|s| - 1] == ShowNat(n / 10);
      DigitsValueOfShowNat(n / 10);
    }
  }

  lemma {:induction false} DigitsValueLeadingZero(s: string)
    ensures DigitsValue("0" + s) == DigitsValue(s)
    decreases |s|
  {
    if s != [] {
      assert ("0" + s)[..|"0" + s| - 1] == "0" + s[..|s| - 1];
      DigitsValueLeadingZero(s[..|s| - 1]);
    }
  }

  /** A bare digit string parses to its decimal value. */
  lemma ParseDigitString(s: string)
    requires IsDigitString(s)
    ensures ParseInt(s) == Some(DigitsValue(s))
  {
    assert DigitOrJoin(s, |s| - 1);
    StripOfStripped(s);
  }

  /** `int(str(n)) == n`: the parser reads back what the printer writes,
      also with one leading zero (the two-digit fields of a date). */
  lemma ParseShowNat(n: nat)
    ensures ParseInt(ShowNat(n)) == Some(n)
    ensures ParseInt("0" + ShowNat(n)) == Some(n)
  {
    var s := ShowNat(n);
    DigitsValueOfShowNat(n);
    forall i | 0 <= i < |s| ensures DigitOrJoin(s, i) { }
    ParseDigitString(s);
    var z := "0" + s;
    forall i | 0 <= i < |z| ensures DigitOrJoin(z, i) {
      if i > 0 { assert z[i] == s[i - 1]; }
    }
    assert IsDigitString(z);
    ParseDigitString(z);
    DigitsValueLeadingZero(s);
  }

  // ---------------------------------------------------------------- `in`

  /** `sub in s` on strings: `sub` occurs in `s` at some position. */
  predicate Contains(s: string, sub: string) {
    exists i | 0 <= i <= |s| - |sub| :: OccursAt(s, sub, i)
  }

  predicate OccursAt(s: string, sub: string, i: int) {
    0 <= i <= |s| - |sub| && s[i..i + |sub|] == sub
  }
}
