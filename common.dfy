/** Small value types and string operations shared by the ledger, the session and the views:
    an optional value, ASCII character classes and case mapping, substring search, the
    JavaScript `trim`, `split(sep)[0]` and the decimal part of `Number.parseInt`. */
module Common {

  /** `null`/`undefined` on one side, a value on the other. */
  datatype Option<T> = None | Some(value: T) {
    function GetOr(default: T): T {
      if Some? then value else default
    }
  }

  predicate IsDigit(c: char) { '0' <= c <= '9' }
  predicate IsUpper(c: char) { 'A' <= c <= 'Z' }
  predicate IsLower(c: char) { 'a' <= c <= 'z' }

  predicate AllDigits(s: string) {
    forall i :: 0 <= i < |s| ==> IsDigit(s[i])
  }

  // ---------------------------------------------------------------------------
  // ASCII case mapping (`toLowerCase` / `toUpperCase` restricted to A-Z and a-z)
  // ---------------------------------------------------------------------------

  function LowerChar(c: char): char {
    if IsUpper(c) then (c as int + 32) as char else c
  }

  function UpperChar(c: char): char {
    if IsLower(c) then (c as int - 32) as char else c
  }

  function ToLower(s: string): (r: string)
    ensures |r| == |s|
  {
    seq(|s|, i requires 0 <= i < |s| => LowerChar(s[i]))
  }

  function ToUpper(s: string): (r: string)
    ensures |r| == |s|
  {
    seq(|s|, i requires 0 <= i < |s| => UpperChar(s[i]))
  }

  /** Upper-casing leaves no lower-case ASCII letter behind, and touches nothing else. */
  lemma ToUpperHasNoLower(s: string)
    ensures forall i :: 0 <= i < |s| ==> !IsLower(ToUpper(s)[i])
    ensures forall i :: 0 <= i < |s| && !IsLower(s[i]) ==> ToUpper(s)[i] == s[i]
  {
  }

  /** Upper-casing twice is upper-casing once. */
  lemma ToUpperIdempotent(s: string)
    ensures ToUpper(ToUpper(s)) == ToUpper(s)
  {
    ToUpperHasNoLower(s);
    assert forall i :: 0 <= i < |s| ==> ToUpper(ToUpper(s))[i] == ToUpper(s)[i];
  }

  /** Lower-casing the letters of two strings equates them exactly when they agree up to case. */
  lemma ToLowerIgnoresCase(s: string)
    ensures ToLower(ToUpper(s)) == ToLower(s)
  {
    assert forall i :: 0 <= i < |s| ==> ToLower(ToUpper(s))[i] == ToLower(s)[i];
  }

  // ---------------------------------------------------------------------------
  // Substring search (`String.prototype.includes`)
  // ---------------------------------------------------------------------------

  /** `needle` sits in `hay` starting at index `i`. */
  predicate OccursAt(hay: string, needle: string, i: int) {
    0 <= i && i + |needle| <= |hay| && hay[i..i + |needle|] == needle
  }

  /** `hay.includes(needle)`, computed by trying every start position in turn. */
  function Includes(hay: string, needle: string): (b: bool)
    ensures b <==> exists i :: OccursAt(hay, needle, i)
  {
    if needle <= hay then
      assert OccursAt(hay, needle, 0);
      true
    else if hay == [] then
      false
    else
      var rest := Includes(hay[1..], needle);
      if rest then
        var i :| OccursAt(hay[1..], needle, i);
        assert OccursAt(hay, needle, i + 1) by {
          assert hay[i + 1..i + 1 + |needle|] == hay[1..][i..i + |needle|];
        }
        true
      else
        assert OccursAt(hay, needle, 0) ==> needle <= hay;
        assert forall i :: OccursAt(hay, needle, i) ==> OccursAt(hay[1..], needle, i - 1) by {
          forall i | OccursAt(hay, needle, i)
            ensures OccursAt(hay[1..], needle, i - 1)
          {
            assert hay[1..][i - 1..i - 1 + |needle|] == hay[i..i + |needle|];
          }
        }
        false
  }

  /** Every string includes the empty string (an empty search term matches everything). */
  lemma IncludesEmpty(hay: string)
    ensures Includes(hay, [])
  {
    assert OccursAt(hay, [], 0);
  }

  // ---------------------------------------------------------------------------
  // `String.prototype.trim`
  // ---------------------------------------------------------------------------

  /** The characters JavaScript's `trim` removes: white space and line terminators. */
  const WhiteSpace: set<char> := {' ', '\t', '\n', '\r', '\U{000B}', '\U{000C}', '\U{00A0}', '\U{1680}',
    '\U{2000}', '\U{2001}', '\U{2002}', '\U{2003}', '\U{2004}', '\U{2005}', '\U{2006}', '\U{2007}',
    '\U{2008}', '\U{2009}', '\U{200A}', '\U{2028}', '\U{2029}', '\U{202F}', '\U{205F}', '\U{3000}', '\U{FEFF}'}

  predicate IsWhite(c: char) {
    c in WhiteSpace
  }

  function TrimStart(s: string): (r: string)
    ensures |r| <= |s| && r == s[|s| - |r|..]
    ensures r != [] ==> !IsWhite(r[0])
    ensures forall i :: 0 <= i < |s| - |r| ==> IsWhite(s[i])
  {
    if s != [] && IsWhite(s[0]) then
      var r := TrimStart(s[1..]);
      assert s[1..][|s| - 1 - |r|..] == s[|s| - |r|..];
      assert forall i :: 1 <= i < |s| ==> s[i] == s[1..][i - 1];
      r
    else s
  }

  function TrimEnd(s: string): (r: string)
    ensures r <= s
    ensures r != [] ==> !IsWhite(r[|r| - 1])
    ensures forall i :: |r| <= i < |s| ==> IsWhite(s[i])
  {
    if s != [] && IsWhite(s[|s| - 1]) then TrimEnd(s[..|s| - 1]) else s
  }

  /** `r` is the part of `s` from index `i` on, with only white space of `s` before and
      after it. */
  ghost predicate CutFrom(s: string, r: string, i: int) {
    OccursAt(s, r, i)
    && (forall k :: 0 <= k < i ==> IsWhite(s[k]))
    && (forall k :: i + |r| <= k < |s| ==> IsWhite(s[k]))
  }

  /** `s.trim()`: a contiguous slice of `s` that neither starts nor ends with white space,
      with only white space cut away on either side. */
  function Trim(s: string): (r: string)
    ensures CutFrom(s, r, |s| - |TrimStart(s)|)
    ensures r != [] ==> !IsWhite(r[0]) && !IsWhite(r[|r| - 1])
  {
    TrimSlice(s);
    TrimEnd(TrimStart(s))
  }

  lemma {:induction false} TrimSlice(s: string)
    ensures CutFrom(s, TrimEnd(TrimStart(s)), |s| - |TrimStart(s)|)
    ensures var r := TrimEnd(TrimStart(s)); r != [] ==> !IsWhite(r[0]) && !IsWhite(r[|r| - 1])
  {
    var left := TrimStart(s);
    var i := |s| - |left|;
    var r := TrimEnd(left);
    PrefixOfSuffix(s, i, r);
    TrailingCut(s, left, r);
  }

  /** What `TrimEnd` cuts off the suffix `left` of `s` is white space of `s`. */
  lemma TrailingCut(s: string, left: string, r: string)
    requires |left| <= |s| && left == s[|s| - |left|..]
    requires r <= left && forall k :: |r| <= k < |left| ==> IsWhite(left[k])
    ensures forall k :: |s| - |left| + |r| <= k < |s| ==> IsWhite(s[k])
  {
    var i := |s| - |left|;
    forall k | i + |r| <= k < |s| ensures IsWhite(s[k]) {
      assert s[k] == left[k - i];
    }
  }

  /** A prefix of the suffix of `s` from `k` occurs in `s` at `k`. */
  lemma PrefixOfSuffix(s: string, k: nat, r: string)
    requires k <= |s| && r <= s[k..]
    ensures OccursAt(s, r, k)
    ensures r != [] ==> r[0] == s[k]
  {
    assert s[k..k + |r|] == s[k..][..|r|];
  }

  /** A leading white-space character is cut away. */
  lemma TrimStartSkips(c: char, s: string)
    requires IsWhite(c)
    ensures TrimStart([c] + s) == TrimStart(s)
  {
    assert ([c] + s)[1..] == s;
  }

  /** A trailing white-space character is cut away. */
  lemma TrimEndSkips(s: string, c: char)
    requires IsWhite(c)
    ensures TrimEnd(s + [c]) == TrimEnd(s)
  {
    assert (s + [c])[..|s|] == s;
  }

  /** Any run of leading white space is cut away. */
  lemma {:induction false} TrimStartSkipsAll(pre: string, s: string)
    requires forall k :: 0 <= k < |pre| ==> IsWhite(pre[k])
    ensures TrimStart(pre + s) == TrimStart(s)
  {
    if pre == [] {
      assert pre + s == s;
    } else {
      assert pre + s == [pre[0]] + (pre[1..] + s);
      TrimStartSkips(pre[0], pre[1..] + s);
      TrimStartSkipsAll(pre[1..], s);
    }
  }

  /** Any run of trailing white space is cut away. */
  lemma {:induction false} TrimEndSkipsAll(s: string, post: string)
    requires forall k :: 0 <= k < |post| ==> IsWhite(post[k])
    ensures TrimEnd(s + post) == TrimEnd(s)
  {
    if post == [] {
      assert s + post == s;
    } else {
      var n := |post| - 1;
      assert s + post == (s + post[..n]) + [post[n]];
      TrimEndSkips(s + post[..n], post[n]);
      TrimEndSkipsAll(s, post[..n]);
    }
  }

  /** A term trims to nothing exactly when it is empty or white space only. */
  lemma TrimEmptyIff(s: string)
    ensures Trim(s) == [] <==> forall i :: 0 <= i < |s| ==> IsWhite(s[i])
  {
    var left := TrimStart(s);
    if Trim(s) == [] {
      assert left == [];
    } else {
      var r := Trim(s);
      var i := |s| - |TrimStart(s)|;
      assert s[i] == r[0];
    }
  }

  // ---------------------------------------------------------------------------
  // `s.split(sep)[0]`
  // ---------------------------------------------------------------------------

  /** The part of `s` before the first `sep`, or all of `s` when it has none. */
  function BeforeFirst(s: string, sep: char): (r: string)
    ensures r <= s && sep !in r
    ensures r == s || s[|r|] == sep
  {
    if s == [] || s[0] == sep then [] else [s[0]] + BeforeFirst(s[1..], sep)
  }

  // ---------------------------------------------------------------------------
  // The decimal part of `Number.parseInt`
  // ---------------------------------------------------------------------------

  /** The longest prefix of `s` made of decimal digits. */
  function DigitPrefix(s: string): (r: string)
    ensures r <= s && AllDigits(r)
    ensures r == s || !IsDigit(s[|r|])
  {
    if s != [] && IsDigit(s[0]) then [s[0]] + DigitPrefix(s[1..]) else []
  }

  /** The value of a string of decimal digits, most significant digit first. */
  function DecimalValue(ds: string): nat
    requires AllDigits(ds)
  {
    if ds == [] then 0 else 10 * DecimalValue(ds[..|ds| - 1]) + (ds[|ds| - 1] as int - '0' as int)
  }

  /** The part of the input after an optional sign. */
  function Unsigned(s: string): string {
    if s != [] && (s[0] == '-' || s[0] == '+') then s[1..] else s
  }

  /** `Number.parseInt(s)` for decimal input: an optional sign, then the leading run of
      digits; anything after that run is ignored. `None` stands for `NaN`. */
  function ParseInt(s: string): (r: Option<int>)
    ensures r.Some? <==> Unsigned(s) != [] && IsDigit(Unsigned(s)[0])
    ensures r.Some? && r.value < 0 ==> s[0] == '-'
  {
    var ds := DigitPrefix(Unsigned(s));
    if ds == [] then None
    else if s[0] == '-' then Some(0 - DecimalValue(ds) as int)
    else Some(DecimalValue(ds))
  }

  /** The decimal spelling of a natural number, most significant digit first. */
  function DecimalString(n: nat): (r: string)
    ensures r != [] && AllDigits(r)
  {
    if n < 10 then [('0' as int + n) as char]
    else DecimalString(n / 10) + [('0' as int + n % 10) as char]
  }

  /** Reading back a number's decimal spelling gives the number. */
  lemma {:induction false} DecimalRoundTrip(n: nat)
    ensures DecimalValue(DecimalString(n)) == n
  {
    if n >= 10 {
      var s := DecimalString(n);
      assert s[..|s| - 1] == DecimalString(n / 10);
      DecimalRoundTrip(n / 10);
    }
  }

  /** Number.parseInt reads back every decimal spelling exactly. */
  lemma ParseIntOfDecimal(n: nat)
    ensures ParseInt(DecimalString(n)) == Some(n)
  {
    var s := DecimalString(n);
    DigitsArePrefix(s);
    DecimalRoundTrip(n);
  }

  lemma {:induction false} DigitsArePrefix(s: string)
    requires AllDigits(s)
    ensures DigitPrefix(s) == s
  {
    if s != [] {
      DigitsArePrefix(s[1..]);
    }
  }
}
