/** The identity-number validators and input sanitisers shared by the sign-up and profile
    forms. Each validator is an anchored regular expression made of character ranges
    repeated a fixed number of times; it is modelled twice: as such a pattern, run by a
    small matcher, and as an explicit per-character predicate, and the two are proved to
    accept the same strings. */
module Validators {
  import opened Common

  // ---------------------------------------------------------------------------
  // Anchored patterns of repeated character ranges
  // ---------------------------------------------------------------------------

  /** `[lo-hi]{count}`. */
  datatype Piece = Piece(lo: char, hi: char, count: nat)

  predicate InRange(c: char, lo: char, hi: char) { lo <= c <= hi }

  /** Every character of `s` lies in `[lo-hi]`. */
  predicate AllInRange(s: string, lo: char, hi: char) {
    forall i :: 0 <= i < |s| ==> InRange(s[i], lo, hi)
  }

  /** `/^p1 p2 ... pn$/.test(s)`: the pieces, in order, cover the whole of `s`. */
  predicate Matches(s: string, pattern: seq<Piece>)
    decreases |pattern|
  {
    if pattern == [] then s == []
    else
      var p := pattern[0];
      p.count <= |s| && AllInRange(s[..p.count], p.lo, p.hi) && Matches(s[p.count..], pattern[1..])
  }

  /** The total length of the pieces. */
  function PatternLength(pattern: seq<Piece>): nat {
    if pattern == [] then 0 else pattern[0].count + PatternLength(pattern[1..])
  }

  /** A pattern of fixed repetitions only matches strings of its own length. */
  lemma {:induction false} MatchLength(s: string, pattern: seq<Piece>)
    requires Matches(s, pattern)
    ensures |s| == PatternLength(pattern)
    decreases |pattern|
  {
    if pattern != [] {
      MatchLength(s[pattern[0].count..], pattern[1..]);
    }
  }

  /** `/^\d{12}$/` */
  const AadhaarPattern: seq<Piece> := [Piece('0', '9', 12)]
  /** `/^[A-Z]{5}[0-9]{4}[A-Z]{1}$/` */
  const PanPattern: seq<Piece> := [Piece('A', 'Z', 5), Piece('0', '9', 4), Piece('A', 'Z', 1)]
  /** `/^[6-9]\d{9}$/` */
  const MobilePattern: seq<Piece> := [Piece('6', '9', 1), Piece('0', '9', 9)]

  // ---------------------------------------------------------------------------
  // The validators as per-character predicates
  // ---------------------------------------------------------------------------

  /** `validateAadhaar`: exactly twelve decimal digits. */
  predicate ValidAadhaar(s: string) {
    |s| == 12 && AllDigits(s)
  }

  /** `validatePAN`: five capital letters, four digits, one capital letter. */
  predicate ValidPan(s: string) {
    |s| == 10
    && (forall i :: 0 <= i < 5 ==> IsUpper(s[i]))
    && (forall i :: 5 <= i < 9 ==> IsDigit(s[i]))
    && IsUpper(s[9])
  }

  /** `validateMobile`: ten decimal digits, the first of them 6 to 9. */
  predicate ValidMobile(s: string) {
    |s| == 10 && '6' <= s[0] <= '9' && AllDigits(s)
  }

  /** The Aadhaar pattern accepts exactly the strings of twelve digits. */
  lemma AadhaarPatternExact(s: string)
    ensures Matches(s, AadhaarPattern) <==> ValidAadhaar(s)
  {
    assert AadhaarPattern[1..] == [];
    if |s| >= 12 {
      assert s[..12][12..] == [];
    }
  }

  /** The PAN pattern accepts exactly the strings `ValidPan` describes. */
  lemma PanPatternExact(s: string)
    ensures Matches(s, PanPattern) <==> ValidPan(s)
  {
    var rest := PanPattern[1..];
    assert rest == [Piece('0', '9', 4), Piece('A', 'Z', 1)];
    assert rest[1..] == [Piece('A', 'Z', 1)];
    assert rest[1..][1..] == [];
    if |s| == 10 {
      var a, b, c := s[..5], s[5..][..4], s[5..][4..][..1];
      assert forall i :: 0 <= i < 5 ==> a[i] == s[i];
      assert forall i :: 0 <= i < 4 ==> b[i] == s[i + 5];
      assert c[0] == s[9];
      assert s[5..][4..][1..] == [];
    } else if Matches(s, PanPattern) {
      MatchLength(s, PanPattern);
      assert false;
    }
  }

  /** The mobile pattern accepts exactly the ten-digit strings starting with 6 to 9. */
  lemma MobilePatternExact(s: string)
    ensures Matches(s, MobilePattern) <==> ValidMobile(s)
  {
    var rest := MobilePattern[1..];
    assert rest == [Piece('0', '9', 9)];
    assert rest[1..] == [];
    if |s| == 10 {
      var b := s[1..][..9];
      assert forall i :: 1 <= i < 10 ==> s[i] == b[i - 1];
      assert s[1..][9..] == [];
    } else if Matches(s, MobilePattern) {
      MatchLength(s, MobilePattern);
      assert false;
    }
  }

  // ---------------------------------------------------------------------------
  // Input sanitisers
  // ---------------------------------------------------------------------------

  /** `s.slice(0, n)`: the first `n` characters, or all of a shorter string. */
  function Take(s: string, n: nat): (r: string)
    ensures r <= s && |r| <= n
    ensures |s| <= n ==> r == s
  {
    if |s| <= n then s else s[..n]
  }

  /** `s.replace(/\D/g, "")`: the digits of `s`, in order. */
  function KeepDigits(s: string): (r: string)
    ensures AllDigits(r) && |r| <= |s|
    ensures multiset(r) <= multiset(s)
  {
    if s == [] then []
    else
      assert s == [s[0]] + s[1..];
      if IsDigit(s[0]) then [s[0]] + KeepDigits(s[1..]) else KeepDigits(s[1..])
  }

  /** Removing non-digits from a string of digits changes nothing. */
  lemma {:induction false} KeepDigitsOfDigits(s: string)
    requires AllDigits(s)
    ensures KeepDigits(s) == s
  {
    if s != [] {
      KeepDigitsOfDigits(s[1..]);
    }
  }

  /** Removing non-digits works piece by piece: the digits of `s + t` are those of `s`
      followed by those of `t`, so every digit survives in its original order. */
  lemma {:induction false} KeepDigitsConcat(s: string, t: string)
    ensures KeepDigits(s + t) == KeepDigits(s) + KeepDigits(t)
  {
    if s != [] {
      assert (s + t)[1..] == s[1..] + t;
      KeepDigitsConcat(s[1..], t);
    } else {
      assert s + t == t;
    }
  }

  /** The Aadhaar and mobile-number inputs: keep the digits, then the first `limit`. */
  function SanitiseDigits(raw: string, limit: nat): (r: string)
    ensures AllDigits(r) && |r| <= limit
  {
    Take(KeepDigits(raw), limit)
  }

  /** Sanitising an already sanitised value changes nothing. */
  lemma SanitiseDigitsIdempotent(raw: string, limit: nat)
    ensures SanitiseDigits(SanitiseDigits(raw, limit), limit) == SanitiseDigits(raw, limit)
  {
    KeepDigitsOfDigits(SanitiseDigits(raw, limit));
  }

  /** A sanitised Aadhaar input of full length passes the Aadhaar check, and a sanitised
      mobile input of full length passes the mobile check exactly when it starts with 6-9. */
  lemma SanitisedInputsValid(raw: string)
    ensures |SanitiseDigits(raw, 12)| == 12 ==> ValidAadhaar(SanitiseDigits(raw, 12))
    ensures var m := SanitiseDigits(raw, 10);
            |m| == 10 ==> (ValidMobile(m) <==> '6' <= m[0] <= '9')
  {
  }

  /** The PAN input: upper-case (ASCII letters), then the first ten characters. */
  function SanitisePan(raw: string): (r: string)
    ensures |r| <= 10 && |r| <= |raw|
    ensures forall i :: 0 <= i < |r| ==> !IsLower(r[i])
  {
    ToUpperHasNoLower(raw);
    Take(ToUpper(raw), 10)
  }

  /** Sanitising a sanitised PAN input changes nothing. */
  lemma SanitisePanIdempotent(raw: string)
    ensures SanitisePan(SanitisePan(raw)) == SanitisePan(raw)
  {
    var once := SanitisePan(raw);
    ToUpperHasNoLower(once);
    assert ToUpper(once) == once;
  }

  /** Sanitising keeps every character that is not a lower-case letter, at its place. */
  lemma SanitisePanKeeps(raw: string, i: int)
    requires 0 <= i < |SanitisePan(raw)| && !IsLower(raw[i])
    ensures SanitisePan(raw)[i] == raw[i]
  {
    ToUpperHasNoLower(raw);
  }
}
