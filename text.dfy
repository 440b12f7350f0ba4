/** The string primitives the screens rely on: JavaScript's `trim`, a
    substring test standing for `includes`, and the integer part of
    `Number(...)` and `toString()`. */
module Text {

  import opened Types

  /** JavaScript's WhiteSpace and LineTerminator code points, which `trim`
      removes. */
  predicate IsWhitespace(c: char) {
    c == '\t' || c == '\n' || c == '\U{B}' || c == '\U{C}' || c == '\r' || c == ' '
    || c == '\U{A0}' || c == '\U{1680}' || ('\U{2000}' <= c <= '\U{200A}')
    || c == '\U{2028}' || c == '\U{2029}' || c == '\U{202F}' || c == '\U{205F}'
    || c == '\U{3000}' || c == '\U{FEFF}'
  }

  /** `trimStart`: drops the leading whitespace and nothing else. */
  function TrimStart(s: string): (r: string)
    ensures |r| <= |s| && r == s[|s| - |r|..]
    ensures forall i :: 0 <= i < |s| - |r| ==> IsWhitespace(s[i])
    ensures r == [] || !IsWhitespace(r[0])
  {
    if s != [] && IsWhitespace(s[0]) then
      var r := TrimStart(s[1..]);
      assert forall i :: 1 <= i < |s| - |r| ==> s[i] == s[1..][i - 1];
      r
    else s
  }

  /** `trimEnd`: drops the trailing whitespace and nothing else. */
  function TrimEnd(s: string): (r: string)
    ensures |r| <= |s| && r == s[..|r|]
    ensures forall i :: |r| <= i < |s| ==> IsWhitespace(s[i])
    ensures r == [] || !IsWhitespace(r[|r| - 1])
  {
    if s != [] && IsWhitespace(s[|s| - 1]) then
      var r := TrimEnd(s[..|s| - 1]);
      assert forall i :: |r| <= i < |s| - 1 ==> s[i] == s[..|s| - 1][i];
      r
    else s
  }

  /** `r` sits in `s` at offset `k` with only whitespace around it. */
  predicate PaddedAt(s: string, r: string, k: int) {
    && 0 <= k <= |s| - |r| && r == s[k..k + |r|]
    && (forall i :: 0 <= i < k ==> IsWhitespace(s[i]))
    && (forall i :: k + |r| <= i < |s| ==> IsWhitespace(s[i]))
  }

  /** `s.trim()`: the part of `s` between its leading and its trailing
      whitespace, which neither starts nor ends with whitespace. */
  function Trim(s: string): (r: string)
    ensures |r| <= |s|
    ensures r == [] || (!IsWhitespace(r[0]) && !IsWhitespace(r[|r| - 1]))
    ensures exists k :: PaddedAt(s, r, k)
  {
    var t := TrimStart(s);
    PaddedAround(s, t, TrimEnd(t));
    TrimEnd(t)
  }

  /** A whitespace-padded suffix `t` of `s`, trimmed again to the
      whitespace-padded prefix `r`, leaves `r` padded inside `s`. */
  lemma PaddedAround(s: string, t: string, r: string)
    requires |t| <= |s| && t == s[|s| - |t|..] && forall i :: 0 <= i < |s| - |t| ==> IsWhitespace(s[i])
    requires |r| <= |t| && r == t[..|r|] && forall i :: |r| <= i < |t| ==> IsWhitespace(t[i])
    ensures PaddedAt(s, r, |s| - |t|)
  {
    var k := |s| - |t|;
    assert r == s[k..k + |r|];
    forall i | k + |r| <= i < |s| ensures IsWhitespace(s[i]) {
      assert s[i] == t[i - k];
    }
  }

  /** `!s.trim()`: the string is empty once trimmed. */
  predicate IsBlank(s: string) {
    Trim(s) == ""
  }

  /** A string is blank exactly when every character of it is whitespace. */
  lemma BlankIffAllWhitespace(s: string)
    ensures IsBlank(s) <==> forall i :: 0 <= i < |s| ==> IsWhitespace(s[i])
  {
    if forall i :: 0 <= i < |s| ==> IsWhitespace(s[i]) {
      AllWhitespaceTrimsStart(s);
    } else {
      var i :| 0 <= i < |s| && !IsWhitespace(s[i]);
      TrimStartKeeps(s, i);
      TrimEndKeepsFirst(TrimStart(s));
    }
  }

  lemma {:induction false} AllWhitespaceTrimsStart(s: string)
    requires forall i :: 0 <= i < |s| ==> IsWhitespace(s[i])
    ensures TrimStart(s) == ""
  {
    if s != [] {
      AllWhitespaceTrimsStart(s[1..]);
    }
  }

  /** A non-whitespace character at `i` survives `TrimStart`. */
  lemma {:induction false} TrimStartKeeps(s: string, i: nat)
    requires i < |s| && !IsWhitespace(s[i])
    ensures |TrimStart(s)| >= |s| - i
  {
    if IsWhitespace(s[0]) {
      TrimStartKeeps(s[1..], i - 1);
    }
  }

  /** `TrimEnd` stops at a leading non-whitespace character. */
  lemma {:induction false} TrimEndKeepsFirst(s: string)
    requires s != [] && !IsWhitespace(s[0])
    ensures TrimEnd(s) != []
  {
    if |s| > 1 && IsWhitespace(s[|s| - 1]) {
      TrimEndKeepsFirst(s[..|s| - 1]);
    }
  }

  /** A string that neither starts nor ends with whitespace is left alone. */
  lemma TrimNoPadding(s: string)
    requires s != [] && !IsWhitespace(s[0]) && !IsWhitespace(s[|s| - 1])
    ensures Trim(s) == s
  {
  }

  /** `needle` occurs in `hay` starting at position `i`. */
  predicate OccursAt(hay: string, needle: string, i: int) {
    0 <= i <= |hay| - |needle| && hay[i..i + |needle|] == needle
  }

  /** `hay.includes(needle)`: a prefix of `hay` or, recursively, of one of its
      suffixes, which is to say that `needle` occurs somewhere in `hay`. */
  predicate Contains(hay: string, needle: string): (b: bool)
    ensures b <==> exists i :: OccursAt(hay, needle, i)
    decreases |hay|
  {
    if needle <= hay then
      assert OccursAt(hay, needle, 0);
      true
    else if hay == [] then false
    else
      OccursShift(hay, needle);
      Contains(hay[1..], needle)
  }

  /** An occurrence is either at the front or in the tail. */
  lemma OccursShift(hay: string, needle: string)
    requires hay != []
    ensures (exists i :: OccursAt(hay, needle, i))
        <==> needle <= hay || exists j :: OccursAt(hay[1..], needle, j)
  {
    if i :| OccursAt(hay, needle, i) {
      if i == 0 {
        assert hay[..|needle|] == needle;
      } else {
        assert hay[1..][i - 1..i - 1 + |needle|] == hay[i..i + |needle|];
        assert OccursAt(hay[1..], needle, i - 1);
      }
    }
    if needle <= hay {
      assert hay[0..|needle|] == needle;
      assert OccursAt(hay, needle, 0);
    }
    if j :| OccursAt(hay[1..], needle, j) {
      assert hay[1..][j..j + |needle|] == hay[j + 1..j + 1 + |needle|];
      assert OccursAt(hay, needle, j + 1);
    }
  }

  predicate IsDigit(c: char) {
    '0' <= c <= '9'
  }

  predicate AllDigits(s: string) {
    forall i :: 0 <= i < |s| ==> IsDigit(s[i])
  }

  /** The value of a string of decimal digits. */
  function DigitsValue(s: string): (n: nat)
    requires AllDigits(s)
  {
    if s == [] then 0
    else DigitsValue(s[..|s| - 1]) * 10 + (s[|s| - 1] as int - '0' as int)
  }

  predicate IsSign(c: char) {
    c == '-' || c == '+'
  }

  /** Position `i` of the trimmed text `t` holds a character that `Number`
      cannot read as part of an integer: not a digit, and not a sign in front
      of further characters. */
  predicate StrayAt(t: string, i: int) {
    0 <= i < |t| && !IsDigit(t[i]) && !(i == 0 && |t| > 1 && IsSign(t[0]))
  }

  /** A trimmed text has a stray character exactly when it is not empty, not
      all digits and not a sign followed by digits. */
  lemma StrayIffNotLiteral(t: string)
    ensures (exists i :: StrayAt(t, i))
        <==> !(AllDigits(t) || (|t| > 1 && IsSign(t[0]) && AllDigits(t[1..])))
  {
    if |t| > 1 && IsSign(t[0]) && AllDigits(t[1..]) {
      forall i | 0 < i < |t| ensures IsDigit(t[i]) {
        assert t[i] == t[1..][i - 1];
      }
    } else if !AllDigits(t) {
      var i :| 0 <= i < |t| && !IsDigit(t[i]);
      if !StrayAt(t, i) {
        assert i == 0 && |t| > 1 && IsSign(t[0]);
        var j :| 0 <= j < |t[1..]| && !IsDigit(t[1..][j]);
        assert StrayAt(t, j + 1);
      }
    }
  }

  /** `Number(s)` restricted to integer literals: surrounding whitespace is
      ignored, a blank string is 0, an optional sign is followed by decimal
      digits. Anything else is NaN, written `None`. */
  function ParseNumber(s: string): (r: Option<int>)
    ensures IsBlank(s) ==> r == Some(0)
    ensures AllDigits(Trim(s)) ==> r == Some(DigitsValue(Trim(s)))
    ensures var t := Trim(s);
      |t| > 1 && t[0] == '-' && AllDigits(t[1..]) ==> r == Some(0 - DigitsValue(t[1..]))
    ensures var t := Trim(s);
      |t| > 1 && t[0] == '+' && AllDigits(t[1..]) ==> r == Some(DigitsValue(t[1..]))
    ensures r.None? <==> exists i :: StrayAt(Trim(s), i)
  {
    var t := Trim(s);
    StrayIffNotLiteral(t);
    if t == "" then Some(0)
    else if IsSign(t[0]) && |t| > 1 && AllDigits(t[1..]) then
      var v: int := DigitsValue(t[1..]);
      Some(if t[0] == '-' then -v else v)
    else if AllDigits(t) then Some(DigitsValue(t))
    else None
  }

  /** `Number(s) || 0`: blank text and text with a stray character read as
      0, digits read as their value, and NaN and 0 both become 0. */
  function NumberOrZero(s: string): (n: int)
    ensures IsBlank(s) ==> n == 0
    ensures AllDigits(Trim(s)) ==> n == DigitsValue(Trim(s))
    ensures var t := Trim(s);
      |t| > 1 && t[0] == '-' && AllDigits(t[1..]) ==> n == 0 - DigitsValue(t[1..])
    ensures (exists i :: StrayAt(Trim(s), i)) ==> n == 0
    ensures ParseNumber(s).None? ==> n == 0
    ensures ParseNumber(s).Some? ==> n == ParseNumber(s).value
  {
    match ParseNumber(s)
    case None => 0
    case Some(v) => if v == 0 then 0 else v
  }

  /** The decimal digits of `n`, without leading zeros. */
  function NatToDigits(n: nat): (s: string)
    ensures s != [] && AllDigits(s)
  {
    if n < 10 then [('0' as int + n) as char]
    else NatToDigits(n / 10) + [('0' as int + n % 10) as char]
  }

  /** `n.toString()` for an integer. */
  function IntToString(n: int): string {
    if n < 0 then "-" + NatToDigits(-n) else NatToDigits(n)
  }

  /** A printed integer starts with a minus sign exactly when it is negative,
      and the rest of it is decimal digits. */
  lemma IntToStringShape(n: int)
    ensures var s := IntToString(n);
      s != [] && (s[0] == '-' <==> n < 0) && AllDigits(if n < 0 then s[1..] else s)
  {
    var s := IntToString(n);
    if n < 0 {
      assert s[1..] == NatToDigits(-n);
    }
  }

  lemma {:induction false} DigitsRoundTrip(n: nat)
    ensures DigitsValue(NatToDigits(n)) == n
  {
    if n >= 10 {
      var s := NatToDigits(n);
      assert s[..|s| - 1] == NatToDigits(n / 10);
      DigitsRoundTrip(n / 10);
    }
  }

  /** Reading back a printed integer gives the integer: what a form field
      filled with `n.toString()` submits through `Number(...)`. */
  lemma ParseNumberRoundTrip(n: int)
    ensures ParseNumber(IntToString(n)) == Some(n)
    ensures NumberOrZero(IntToString(n)) == n
  {
    var s := IntToString(n);
    var ds := NatToDigits(if n < 0 then -n else n);
    assert !IsWhitespace(s[0]) && !IsWhitespace(s[|s| - 1]);
    TrimNoPadding(s);
    DigitsRoundTrip(if n < 0 then -n else n);
    if n < 0 {
      assert s[1..] == ds;
      assert !AllDigits(s);
    }
  }
}
