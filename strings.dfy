/** The JavaScript string primitives the storefront relies on: `trim`, `toLowerCase`,
    `includes` and `parseInt(_, 10)`, over Dafny strings (sequences of Unicode scalar values). */
module Strings {
  import opened Optional

  predicate IsAsciiDigit(c: char) { '0' <= c <= '9' }

  predicate IsAsciiUpper(c: char) { 'A' <= c <= 'Z' }

  /** The characters `String.prototype.trim` and `parseInt` skip: ECMAScript WhiteSpace
      and LineTerminator code points. */
  predicate IsJsWhitespace(c: char)
  {
    var k := c as int;
    k == 0x09 || k == 0x0A || k == 0x0B || k == 0x0C || k == 0x0D || k == 0x20
    || k == 0xA0 || k == 0x1680 || (0x2000 <= k <= 0x200A) || k == 0x2028 || k == 0x2029
    || k == 0x202F || k == 0x205F || k == 0x3000 || k == 0xFEFF
  }

  /** Lower-casing, restricted to ASCII letters. */
  function ToLowerChar(c: char): (d: char)
    ensures !IsAsciiUpper(d)
    ensures !IsAsciiUpper(c) ==> d == c
  {
    if IsAsciiUpper(c) then (c as int + 32) as char else c
  }

  function ToLower(s: string): (r: string)
    ensures |r| == |s|
    ensures forall i :: 0 <= i < |s| ==> r[i] == ToLowerChar(s[i])
  {
    seq(|s|, i requires 0 <= i < |s| => ToLowerChar(s[i]))
  }

  /** `needle` occurs in `hay` starting at offset `k`. */
  predicate OccursAt(hay: string, needle: string, k: nat)
  {
    k + |needle| <= |hay| && hay[k..k + |needle|] == needle
  }

  /** `hay.includes(needle)`: tried at offset 0, then on the rest of `hay`. It holds exactly
      when `needle` occurs somewhere in `hay`. */
  predicate Contains(hay: string, needle: string)
    ensures Contains(hay, needle) <==> exists k: nat :: OccursAt(hay, needle, k)
    decreases |hay|
  {
    OccursShift(hay, needle);
    needle <= hay || (hay != [] && Contains(hay[1..], needle))
  }

  /** An occurrence is either at offset 0 or one place further into the tail. */
  lemma OccursShift(hay: string, needle: string)
    ensures (exists k: nat :: OccursAt(hay, needle, k)) <==>
      needle <= hay || (hay != [] && exists k: nat :: OccursAt(hay[1..], needle, k))
  {
    if k: nat :| OccursAt(hay, needle, k) {
      OccurrenceMovesToTail(hay, needle, k);
    }
    if needle <= hay {
      assert hay[0..|needle|] == needle;
      assert OccursAt(hay, needle, 0);
    } else if hay != [] && exists k: nat :: OccursAt(hay[1..], needle, k) {
      var k: nat :| OccursAt(hay[1..], needle, k);
      OccurrenceInTail(hay, needle, k);
    }
  }

  lemma OccurrenceMovesToTail(hay: string, needle: string, k: nat)
    requires OccursAt(hay, needle, k)
    ensures k == 0 ==> needle <= hay
    ensures k > 0 ==> OccursAt(hay[1..], needle, k - 1)
  {
    if k == 0 {
      assert hay[..|needle|] == needle;
    } else {
      assert hay[1..][k - 1..k - 1 + |needle|] == hay[k..k + |needle|];
    }
  }

  lemma OccurrenceInTail(hay: string, needle: string, k: nat)
    requires hay != [] && OccursAt(hay[1..], needle, k)
    ensures OccursAt(hay, needle, k + 1)
  {
    assert hay[1..][k..k + |needle|] == hay[k + 1..k + 1 + |needle|];
  }

  function TrimStart(s: string): (r: string)
    decreases |s|
  {
    if s != [] && IsJsWhitespace(s[0]) then TrimStart(s[1..]) else s
  }

  function TrimEnd(s: string): (r: string)
    decreases |s|
  {
    if s != [] && IsJsWhitespace(s[|s| - 1]) then TrimEnd(s[..|s| - 1]) else s
  }

  /** Leading whitespace removed: what is left is a suffix of `s` that does not start with
      whitespace, and everything dropped was whitespace. */
  lemma {:induction false} TrimStartShape(s: string)
    ensures var r := TrimStart(s);
      && |r| <= |s| && r == s[|s| - |r|..]
      && (forall i :: 0 <= i < |s| - |r| ==> IsJsWhitespace(s[i]))
      && (r != [] ==> !IsJsWhitespace(r[0]))
    decreases |s|
  {
    if s != [] && IsJsWhitespace(s[0]) {
      TrimStartShape(s[1..]);
    }
  }

  /** Trailing whitespace removed: a prefix of `s` that does not end in whitespace, and
      everything dropped was whitespace. */
  lemma {:induction false} TrimEndShape(s: string)
    ensures var r := TrimEnd(s);
      && |r| <= |s| && r == s[..|r|]
      && (forall i :: |r| <= i < |s| ==> IsJsWhitespace(s[i]))
      && (r != [] ==> !IsJsWhitespace(r[|r| - 1]))
    decreases |s|
  {
    if s != [] && IsJsWhitespace(s[|s| - 1]) {
      TrimEndShape(s[..|s| - 1]);
    }
  }

  /** `r` is the part of `s` from offset `k` on, with only whitespace before and after it. */
  predicate StrippedAt(s: string, r: string, k: nat)
  {
    k + |r| <= |s| && r == s[k..k + |r|]
    && (forall i :: 0 <= i < k ==> IsJsWhitespace(s[i]))
    && (forall i :: k + |r| <= i < |s| ==> IsJsWhitespace(s[i]))
  }

  /** `s.trim()`: a middle part of `s`, neither starting nor ending with whitespace, with only
      whitespace cut away on either side. */
  function Trim(s: string): (r: string)
    ensures exists k: nat :: StrippedAt(s, r, k)
    ensures r != [] ==> !IsJsWhitespace(r[0]) && !IsJsWhitespace(r[|r| - 1])
  {
    var t := TrimStart(s);
    var r := TrimEnd(t);
    TrimStartShape(s);
    TrimEndShape(t);
    assert StrippedAt(s, r, |s| - |t|);
    r
  }

  /** `!s.trim()`: the string is empty once trimmed, which is when every character of it is
      whitespace. */
  predicate IsBlank(s: string)
    ensures IsBlank(s) <==> forall i :: 0 <= i < |s| ==> IsJsWhitespace(s[i])
  {
    TrimEmptyIffAllWhitespace(s);
    Trim(s) == ""
  }

  lemma {:induction false} TrimEmptyIffAllWhitespace(s: string)
    ensures TrimEnd(TrimStart(s)) == "" <==> forall i :: 0 <= i < |s| ==> IsJsWhitespace(s[i])
  {
    TrimStartAllWhitespace(s);
    var t := TrimStart(s);
    TrimEndEmpty(t);
  }

  lemma {:induction false} TrimStartAllWhitespace(s: string)
    ensures TrimStart(s) == "" <==> forall i :: 0 <= i < |s| ==> IsJsWhitespace(s[i])
    ensures TrimStart(s) != "" ==> !IsJsWhitespace(TrimStart(s)[0])
    decreases |s|
  {
    if s != [] && IsJsWhitespace(s[0]) {
      TrimStartAllWhitespace(s[1..]);
      assert forall i :: 1 <= i < |s| ==> s[i] == s[1..][i - 1];
    }
  }

  lemma {:induction false} TrimEndEmpty(s: string)
    ensures TrimEnd(s) == "" <==> forall i :: 0 <= i < |s| ==> IsJsWhitespace(s[i])
    decreases |s|
  {
    if s != [] && IsJsWhitespace(s[|s| - 1]) {
      TrimEndEmpty(s[..|s| - 1]);
    }
  }

  // ---------------------------------------------------------------------------
  // parseInt(s, 10)

  /** The longest prefix of `s` made of ASCII digits. */
  function DigitPrefix(s: string): (r: string)
    ensures r <= s
    ensures forall i :: 0 <= i < |r| ==> IsAsciiDigit(r[i])
    ensures |r| < |s| ==> !IsAsciiDigit(s[|r|])
    decreases |s|
  {
    if s != [] && IsAsciiDigit(s[0]) then [s[0]] + DigitPrefix(s[1..]) else []
  }

  function DigitValue(c: char): nat
  {
    if IsAsciiDigit(c) then c as int - '0' as int else 0
  }

  /** The decimal value of a string of digits, most significant digit first. */
  function DigitsValue(ds: string): nat
    decreases |ds|
  {
    if ds == [] then 0 else DigitsValue(ds[..|ds| - 1]) * 10 + DigitValue(ds[|ds| - 1])
  }

  /** The value of the digits at the front of `body`; None when there are none. */
  function ParseDigits(body: string): (r: Option<nat>)
    ensures r.None? <==> body == [] || !IsAsciiDigit(body[0])
  {
    var ds := DigitPrefix(body);
    if ds == [] then None else Some(DigitsValue(ds))
  }

  /** `parseInt` after leading whitespace: one optional sign, then the digits. */
  function ParseSigned(t: string): (r: Option<int>)
  {
    if t != [] && t[0] == '-' then
      match ParseDigits(t[1..])
      case None => None
      case Some(v) => Some(-(v as int))
    else if t != [] && t[0] == '+' then
      match ParseDigits(t[1..])
      case None => None
      case Some(v) => Some(v as int)
    else
      match ParseDigits(t)
      case None => None
      case Some(v) => Some(v as int)
  }

  /** After one optional sign, `t` has a digit. */
  predicate StartsNumber(t: string)
  {
    var body := if t != [] && (t[0] == '-' || t[0] == '+') then t[1..] else t;
    body != [] && IsAsciiDigit(body[0])
  }

  predicate StartsWithMinus(t: string)
  {
    t != [] && t[0] == '-'
  }

  /** `parseInt(s, 10)`: leading whitespace is skipped, one optional sign is read, and the
      longest run of digits that follows gives the value; no digit there is NaN (None).
      Anything after the digits is ignored. */
  function ParseInt(s: string): (r: Option<int>)
    ensures r.Some? <==> StartsNumber(TrimStart(s))
    ensures r.Some? && r.value < 0 ==> StartsWithMinus(TrimStart(s))
  {
    ParseSigned(TrimStart(s))
  }

  function DigitChar(d: nat): (c: char)
    requires d < 10
    ensures IsAsciiDigit(c) && DigitValue(c) == d
  {
    ('0' as int + d) as char
  }

  /** The decimal rendering of a natural number, as JavaScript's `String(n)` for integers. */
  function NatToString(n: nat): (s: string)
    ensures s != [] && forall i :: 0 <= i < |s| ==> IsAsciiDigit(s[i])
    decreases n
  {
    if n < 10 then [DigitChar(n)] else NatToString(n / 10) + [DigitChar(n % 10)]
  }

  function IntToString(n: int): string
  {
    if n < 0 then "-" + NatToString(-n) else NatToString(n)
  }

  lemma {:induction false} NatToStringValue(n: nat)
    ensures DigitsValue(NatToString(n)) == n
    decreases n
  {
    if n >= 10 {
      NatToStringValue(n / 10);
      var s := NatToString(n);
      assert s[..|s| - 1] == NatToString(n / 10);
    }
  }

  /** The digit prefix of a digit string followed by a non-digit is that digit string. */
  lemma {:induction false} DigitPrefixOfDigits(ds: string, rest: string)
    requires forall i :: 0 <= i < |ds| ==> IsAsciiDigit(ds[i])
    requires rest == [] || !IsAsciiDigit(rest[0])
    ensures DigitPrefix(ds + rest) == ds
    decreases |ds|
  {
    if ds != [] {
      assert (ds + rest)[1..] == ds[1..] + rest;
      DigitPrefixOfDigits(ds[1..], rest);
    }
  }

  /** Prefix semantics of `parseInt`: the rendering of any integer, followed by anything that
      does not continue its digits, parses back to that integer. */
  lemma {:induction false} ParseDigitsOfRendering(m: nat, rest: string)
    requires rest == [] || !IsAsciiDigit(rest[0])
    ensures ParseDigits(NatToString(m) + rest) == Some(m)
  {
    NatToStringValue(m);
    DigitPrefixOfDigits(NatToString(m), rest);
  }

  lemma ParseIntPrefix(n: int, rest: string)
    requires rest == [] || !IsAsciiDigit(rest[0])
    ensures ParseInt(IntToString(n) + rest) == Some(n)
  {
    var m: nat := if n < 0 then -n else n;
    ParseDigitsOfRendering(m, rest);
    var s := IntToString(n) + rest;
    assert TrimStart(s) == s by {
      assert s[0] == '-' || IsAsciiDigit(s[0]);
    }
    if n < 0 {
      assert s[0] == '-' && s[1..] == NatToString(m) + rest;
    } else {
      assert s == NatToString(m) + rest && IsAsciiDigit(s[0]);
    }
  }

  /** Round trip: `parseInt(String(n), 10) == n` for every integer, negative ones included. */
  lemma ParseIntRoundTrip(n: int)
    ensures ParseInt(IntToString(n)) == Some(n)
  {
    ParseIntPrefix(n, []);
    assert IntToString(n) + [] == IntToString(n);
  }
}
