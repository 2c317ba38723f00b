/** The UUID canonicaliser of the background page: `leftPad`, `normalizeUuid`
    and `windowsUuid`.  Short forms (a well-known name, a hex string, a
    positive number) are expanded against the Bluetooth Base UUID
    00000000-0000-1000-8000-00805F9B34FB (Bluetooth Core Specification v5.x,
    Vol 3, Part B, section 2.5.1); a full UUID is passed through without its
    braces. */
module Uuid {
  import opened Js

  /** What follows the eight hex digits of a short code in the Base UUID. */
  const BASE_SUFFIX: string := "-0000-1000-8000-00805f9b34fb"

  /** 2^32: one more than the largest 32-bit short code. */
  const TWO_POW_32: nat := 0x1_0000_0000

  /** The `standardUuids` table: well-known names and their 16-bit codes. */
  function AliasCode(name: string): Option<nat>
  {
    if name == "battery_level" then Some(0x2a19)
    else if name == "heart_rate" then Some(0x180d)
    else if name == "battery_service" then Some(0x180f)
    else if name == "cycling_power" then Some(0x1818)
    else None
  }

  /** `[0-9a-f]`: lower-case only, the regular expressions have no `i` flag. */
  predicate IsHexDigit(c: char)
  {
    '0' <= c <= '9' || 'a' <= c <= 'f'
  }

  predicate AllHex(s: string)
  {
    forall i | 0 <= i < |s| :: IsHexDigit(s[i])
  }

  function HexDigitValue(c: char): nat
    requires IsHexDigit(c)
  {
    if c <= '9' then c as int - '0' as int else c as int - 'a' as int + 10
  }

  function HexChar(d: nat): (c: char)
    requires d < 16
    ensures IsHexDigit(c) && HexDigitValue(c) == d
  {
    if d < 10 then ('0' as int + d) as char else ('a' as int + d - 10) as char
  }

  /** The number a string of hex digits denotes. */
  function HexValue(s: string): nat
    requires AllHex(s)
  {
    if s == [] then 0 else HexValue(s[..|s| - 1]) * 16 + HexDigitValue(s[|s| - 1])
  }

  /** `n.toString(16)`: lower-case hex digits, no leading zeros. */
  function ToHex(n: nat): string
  {
    if n < 16 then [HexChar(n)] else ToHex(n / 16) + [HexChar(n % 16)]
  }

  /** `/^(0x)?[0-9a-f]{1,8}$/`. */
  predicate IsShortHex(s: string)
  {
    || (1 <= |s| <= 8 && AllHex(s))
    || (3 <= |s| <= 10 && s[..2] == "0x" && AllHex(s[2..]))
  }

  /** `parseInt(s, 16)` on a string the short-hex test accepted: a leading
      `0x` is skipped, the rest read as hex. */
  function ParseHex(s: string): (n: nat)
    requires IsShortHex(s)
  {
    if |s| >= 2 && s[..2] == "0x" then HexValue(s[2..]) else HexValue(s)
  }

  function Repeat(c: char, k: nat): (r: string)
    ensures |r| == k && forall i | 0 <= i < k :: r[i] == c
  {
    seq(k, _ => c)
  }

  /** What `leftPad(s, count, pad)` returns: `s` behind as many copies of
      `pad` as bring it to `count` characters, or `s` itself when it is
      already that long. */
  function LeftPadded(s: string, count: nat, pad: char): (r: string)
    ensures |r| == if |s| < count then count else |s|
    ensures r[|r| - |s|..] == s
    ensures forall i | 0 <= i < |r| - |s| :: r[i] == pad
  {
    if |s| < count then Repeat(pad, count - |s|) + s else s
  }

  /** `leftPad`: prepends `pad` one character at a time while `s` is shorter
      than `count`. */
  method LeftPad(s: string, count: nat, pad: char) returns (r: string)
    ensures r == LeftPadded(s, count, pad)
  {
    r := s;
    while |r| < count
      invariant |s| <= |r|
      invariant |s| < count ==> |r| <= count
      invariant |s| >= count ==> r == s
      invariant r == Repeat(pad, |r| - |s|) + s
      decreases count - |r|
    {
      r := [pad] + r;
    }
  }

  /** The UUID a short code stands for: its hex zero-padded to eight digits,
      followed by the rest of the Base UUID. */
  function ShortCodeUuid(code: nat): string
  {
    LeftPadded(ToHex(code), 8, '0') + BASE_SUFFIX
  }

  predicate IsDashPosition(i: int)
  {
    i == 8 || i == 13 || i == 18 || i == 23
  }

  /** `[0-9a-f]{8}-[0-9a-f]{4}-[0-9a-f]{4}-[0-9a-f]{4}-[0-9a-f]{12}`: the
      canonical form every identifier is compared and sent in. */
  predicate IsCanonical(s: string)
  {
    |s| == 36 && forall i | 0 <= i < 36 :: if IsDashPosition(i) then s[i] == '-' else IsHexDigit(s[i])
  }

  /** `/^{?<canonical>}?$/`: a canonical UUID with an optional opening and an
      optional closing brace, each independently. */
  predicate MatchesGuidPattern(s: string)
  {
    || IsCanonical(s)
    || (|s| > 0 && s[0] == '{' && IsCanonical(s[1..]))
    || (|s| > 0 && s[|s| - 1] == '}' && IsCanonical(s[..|s| - 1]))
    || (|s| > 1 && s[0] == '{' && s[|s| - 1] == '}' && IsCanonical(s[1..|s| - 1]))
  }

  /** `s.replace(c, '')` with a one-character string pattern: removes the
      first occurrence of `c`, if any. */
  function RemoveFirst(s: string, c: char): string
  {
    if s == [] then []
    else if s[0] == c then s[1..]
    else [s[0]] + RemoveFirst(s[1..], c)
  }

  function LowerChar(c: char): char
  {
    if 'A' <= c <= 'Z' then (c as int + 32) as char else c
  }

  /** `s.toLowerCase()` on ASCII letters. */
  function ToLower(s: string): string
  {
    seq(|s|, i requires 0 <= i < |s| => LowerChar(s[i]))
  }

  /** The alias lookup of `normalizeUuid`: a value whose string form is a
      well-known name is replaced by that name's code. */
  function Aliased(uuid: Value): (v: Value)
    ensures v == uuid || (v.Num? && 0 < v.n < 0x1_0000)
  {
    if AliasCode(Display(uuid)).Some? then Num(AliasCode(Display(uuid)).value) else uuid
  }

  /** The short-hex step of `normalizeUuid`: a string the short-hex pattern
      accepts is replaced by the number it denotes. */
  function Parsed(v: Value): Value
  {
    if v.Str? && IsShortHex(v.s) then Num(ParseHex(v.s)) else v
  }

  /** `normalizeUuid`.  The value is first looked up in the alias table (by
      its string form, as any JavaScript property lookup is), then a short hex
      string is parsed to a number; a positive number is expanded against the
      Base UUID, a string matching the UUID pattern loses its braces, and
      anything else is rejected. */
  function Normalize(uuid: Value): Result<string, Error>
  {
    var parsed := Parsed(Aliased(uuid));
    if parsed.Num? && parsed.n > 0 then
      Ok(ShortCodeUuid(parsed.n))
    else if MatchesGuidPattern(Display(parsed)) then
      // only a string has `replace`; a number's or array's string form could match
      if parsed.Str? then Ok(ToLower(RemoveFirst(RemoveFirst(parsed.s, '{'), '}'))) else Err(TypeError)
    else
      Err(InvalidUuidFormat(uuid))
  }

  /** `windowsUuid`: the canonical form between braces, the form the native
      server expects. */
  function WindowsUuid(uuid: Value): (r: Result<string, Error>)
    ensures r.Ok? <==> Normalize(uuid).Ok?
    ensures r.Ok? ==> r.value == "{" + Normalize(uuid).value + "}"
    ensures r.Err? ==> r.error == Normalize(uuid).error
  {
    match Normalize(uuid)
    case Ok(u) => Ok("{" + u + "}")
    case Err(e) => Err(e)
  }

  // ----- hex digits -----

  /** `toString(16)` and hex parsing are inverse: the digits of `n` read back
      as `n`. */
  lemma {:induction false} HexRoundTrip(n: nat)
    ensures AllHex(ToHex(n)) && HexValue(ToHex(n)) == n
    decreases n
  {
    if n >= 16 {
      HexRoundTrip(n / 16);
      var s := ToHex(n);
      assert s[..|s| - 1] == ToHex(n / 16);
    }
  }

  /** A number below 2^32 has at most eight hex digits. */
  lemma {:induction false} ToHexLength(n: nat)
    ensures 1 <= |ToHex(n)|
    ensures n < TWO_POW_32 ==> |ToHex(n)| <= 8
    decreases n
  {
    var bound := TWO_POW_32;
    var k := 8;
    ToHexWithin(n, k, bound);
  }

  lemma {:induction false} ToHexWithin(n: nat, k: nat, bound: nat)
    requires bound == Power16(k)
    ensures 1 <= |ToHex(n)|
    ensures n < bound && k >= 1 ==> |ToHex(n)| <= k
    decreases n
  {
    if n >= 16 {
      if k >= 1 {
        ToHexWithin(n / 16, k - 1, Power16(k - 1));
      } else {
        ToHexWithin(n / 16, 0, 1);
      }
    }
  }

  function Power16(k: nat): nat
  {
    if k == 0 then 1 else 16 * Power16(k - 1)
  }

  /** Leading zeros do not change what a hex string denotes. */
  lemma {:induction false} LeadingZeros(k: nat, s: string)
    requires AllHex(s)
    ensures AllHex(Repeat('0', k) + s) && HexValue(Repeat('0', k) + s) == HexValue(s)
    decreases |s|
  {
    var z := Repeat('0', k);
    if s == [] {
      assert z + s == z;
      ZerosAreZero(k);
    } else {
      var t := z + s;
      assert t[..|t| - 1] == z + s[..|s| - 1];
      LeadingZeros(k, s[..|s| - 1]);
    }
  }

  lemma {:induction false} ZerosAreZero(k: nat)
    ensures AllHex(Repeat('0', k)) && HexValue(Repeat('0', k)) == 0
    decreases k
  {
    if k > 0 {
      assert Repeat('0', k)[..k - 1] == Repeat('0', k - 1);
      ZerosAreZero(k - 1);
    }
  }

  lemma HexValueBound(s: string)
    requires AllHex(s)
    ensures HexValue(s) < Power16(|s|)
    decreases |s|
  {
    if s != [] {
      HexValueBound(s[..|s| - 1]);
    }
  }

  // ----- the short-code expansion -----

  /** A short code below 2^32 expands to a canonical UUID whose first eight
      digits read back as the code and whose rest is the Base UUID's. */
  lemma ShortCodeUuidShape(code: nat)
    requires code < TWO_POW_32
    ensures IsCanonical(ShortCodeUuid(code))
    ensures AllHex(ShortCodeUuid(code)[..8]) && HexValue(ShortCodeUuid(code)[..8]) == code
    ensures ShortCodeUuid(code)[8..] == BASE_SUFFIX
  {
    var p := LeftPadded(ToHex(code), 8, '0');
    PaddedHexValue(code);
    var u := ShortCodeUuid(code);
    assert u == p + BASE_SUFFIX;
    SuffixCompletes(p);
    assert u[..8] == p;
    assert u[8..] == BASE_SUFFIX;
  }

  /** Eight hex digits followed by the Base UUID's rest are canonical. */
  lemma SuffixCompletes(p: string)
    requires |p| == 8 && AllHex(p)
    ensures IsCanonical(p + BASE_SUFFIX)
  {
    var u := p + BASE_SUFFIX;
    forall i | 0 <= i < 36 ensures if IsDashPosition(i) then u[i] == '-' else IsHexDigit(u[i]) {
      if i < 8 {
        assert u[i] == p[i];
      } else {
        assert u[i] == BASE_SUFFIX[i - 8];
      }
    }
  }

  /** The code's hex, padded to eight digits, still reads as the code. */
  lemma PaddedHexValue(code: nat)
    requires code < TWO_POW_32
    ensures |LeftPadded(ToHex(code), 8, '0')| == 8
    ensures AllHex(LeftPadded(ToHex(code), 8, '0')) && HexValue(LeftPadded(ToHex(code), 8, '0')) == code
  {
    var h := ToHex(code);
    ToHexLength(code);
    HexRoundTrip(code);
    assert LeftPadded(h, 8, '0') == Repeat('0', 8 - |h|) + h;
    LeadingZeros(8 - |h|, h);
  }

  /** Different short codes give different UUIDs. */
  lemma ShortCodeUuidInjective(a: nat, b: nat)
    requires a < TWO_POW_32 && b < TWO_POW_32
    ensures ShortCodeUuid(a) == ShortCodeUuid(b) <==> a == b
  {
    ShortCodeUuidShape(a);
    ShortCodeUuidShape(b);
  }

  lemma AliasesAreNotNumerals(n: nat)
    ensures AliasCode(Decimal(n)) == None
  {
    DecimalDigits(n);
    assert IsDigit(Decimal(n)[0]);
  }

  lemma AliasesAreNotShortHex(name: string)
    requires AliasCode(name).Some?
    ensures !IsShortHex(name) && !MatchesGuidPattern(name)
  {
    assert name[1] == 'a' || name[1] == 'e' || name[1] == 'y';
  }

  /** A well-known name normalises to its code's UUID. */
  lemma NormalizeAlias(name: string)
    requires AliasCode(name).Some?
    ensures Normalize(Str(name)) == Ok(ShortCodeUuid(AliasCode(name).value))
  {
  }

  /** A hex string of one to eight digits, with or without `0x`, normalises
      to the UUID of the number it denotes, provided that is not zero. */
  lemma NormalizeShortHex(s: string)
    requires IsShortHex(s)
    ensures ParseHex(s) < TWO_POW_32
    ensures ParseHex(s) > 0 ==> Normalize(Str(s)) == Ok(ShortCodeUuid(ParseHex(s)))
    ensures ParseHex(s) == 0 ==> Normalize(Str(s)) == Err(InvalidUuidFormat(Str(s)))
  {
    if AliasCode(s).Some? {
      AliasesAreNotShortHex(s);
    }
    if |s| >= 2 && s[..2] == "0x" {
      HexValueBound(s[2..]);
      assert Power16(|s[2..]|) <= Power16(8) by { Power16Monotone(|s[2..]|, 8); }
    } else {
      HexValueBound(s);
      assert Power16(|s|) <= Power16(8) by { Power16Monotone(|s|, 8); }
    }
    if ParseHex(s) == 0 {
      DecimalDigits(0);
      assert Display(Num(0)) == "0";
      assert !MatchesGuidPattern("0");
    }
  }

  lemma {:induction false} Power16Monotone(i: nat, j: nat)
    requires i <= j
    ensures Power16(i) <= Power16(j)
    decreases j
  {
    if i < j {
      Power16Monotone(i, j - 1);
    }
  }

  /** A positive number normalises to its UUID; zero and negative numbers
      are rejected. */
  lemma NormalizeNumber(n: int)
    ensures n > 0 ==> Normalize(Num(n)) == Ok(ShortCodeUuid(n))
    ensures n <= 0 ==> Normalize(Num(n)) == Err(InvalidUuidFormat(Num(n)))
  {
    if n >= 0 {
      AliasesAreNotNumerals(n);
      if n == 0 {
        assert !MatchesGuidPattern(Decimal(0));
      }
    } else {
      var d := Display(Num(n));
      assert d[0] == '-';
      assert !MatchesGuidPattern(d) by {
        assert d[0] != '{';
      }
    }
  }

  // ----- full UUIDs -----

  lemma {:induction false} RemoveAbsent(s: string, c: char)
    requires c !in s
    ensures RemoveFirst(s, c) == s
    decreases |s|
  {
    if s != [] {
      RemoveAbsent(s[1..], c);
    }
  }

  lemma {:induction false} RemoveLast(s: string, c: char)
    requires c !in s
    ensures RemoveFirst(s + [c], c) == s
    decreases |s|
  {
    if s != [] {
      assert (s + [c])[1..] == s[1..] + [c];
      RemoveLast(s[1..], c);
    }
  }

  lemma CanonicalHasNoBraces(s: string)
    requires IsCanonical(s)
    ensures '{' !in s && '}' !in s && ToLower(s) == s
  {
    forall i | 0 <= i < |s| ensures s[i] != '{' && s[i] != '}' && LowerChar(s[i]) == s[i] {
      assert IsDashPosition(i) || IsHexDigit(s[i]);
    }
  }

  /** Removing the braces of a string that matches the UUID pattern leaves
      the canonical UUID inside them. */
  lemma BracesRemoved(s: string, core: string)
    requires IsCanonical(core)
    requires s == core || s == "{" + core || s == core + "}" || s == "{" + core + "}"
    ensures ToLower(RemoveFirst(RemoveFirst(s, '{'), '}')) == core
  {
    CanonicalHasNoBraces(core);
    if s == core {
      RemoveAbsent(core, '{');
      RemoveAbsent(core, '}');
    } else if s == "{" + core {
      RemoveAbsent(core, '}');
    } else if s == core + "}" {
      assert '{' !in s;
      RemoveAbsent(s, '{');
      RemoveLast(core, '}');
    } else {
      assert RemoveFirst(s, '{') == core + "}";
      RemoveLast(core, '}');
    }
  }

  /** The braces-and-all pattern: what `MatchesGuidPattern` accepts is a
      canonical UUID with optional braces around it. */
  lemma PatternCore(s: string) returns (core: string)
    requires MatchesGuidPattern(s)
    ensures IsCanonical(core)
    ensures s == core || s == "{" + core || s == core + "}" || s == "{" + core + "}"
  {
    if IsCanonical(s) {
      core := s;
    } else if |s| > 1 && s[0] == '{' && s[|s| - 1] == '}' && IsCanonical(s[1..|s| - 1]) {
      core := s[1..|s| - 1];
    } else if |s| > 0 && s[0] == '{' && IsCanonical(s[1..]) {
      core := s[1..];
    } else {
      core := s[..|s| - 1];
    }
  }

  /** A canonical UUID, bare or between braces, normalises to itself. */
  lemma NormalizeCanonical(core: string)
    requires IsCanonical(core)
    ensures Normalize(Str(core)) == Ok(core)
    ensures Normalize(Str("{" + core + "}")) == Ok(core)
  {
    var braced := "{" + core + "}";
    assert braced[1..|braced| - 1] == core;
    BracesRemoved(core, core);
    BracesRemoved(braced, core);
    NotShortForm(core);
    NotShortForm(braced);
  }

  lemma NotShortForm(s: string)
    requires |s| > 10
    ensures AliasCode(s) == None || |s| <= 15
    ensures !IsShortHex(s)
  {
  }

  // ----- what normalisation promises -----

  /** Every result is canonical, apart from numbers of 2^32 and more, which
      have more than eight hex digits (JavaScript pads but never truncates). */
  lemma NormalizeIsCanonical(uuid: Value)
    requires Normalize(uuid).Ok?
    requires !(uuid.Num? && uuid.n >= TWO_POW_32)
    ensures IsCanonical(Normalize(uuid).value)
  {
    var aliased := Aliased(uuid);
    var parsed := Parsed(aliased);
    if parsed.Num? && parsed.n > 0 {
      assert parsed.n < TWO_POW_32 by {
        if aliased.Str? && IsShortHex(aliased.s) {
          NormalizeShortHex(aliased.s);
        }
      }
      ShortCodeUuidShape(parsed.n);
      assert Normalize(uuid) == Ok(ShortCodeUuid(parsed.n));
    } else {
      assert parsed.Str? && MatchesGuidPattern(parsed.s);
      var core := PatternCore(parsed.s);
      BracesRemoved(parsed.s, core);
      assert Normalize(uuid) == Ok(ToLower(RemoveFirst(RemoveFirst(parsed.s, '{'), '}')));
    }
  }

  /** Normalisation is idempotent: a result normalises to itself. */
  lemma NormalizeIdempotent(uuid: Value)
    requires Normalize(uuid).Ok?
    requires !(uuid.Num? && uuid.n >= TWO_POW_32)
    ensures Normalize(Str(Normalize(uuid).value)) == Normalize(uuid)
  {
    NormalizeIsCanonical(uuid);
    NormalizeCanonical(Normalize(uuid).value);
  }

  /** Exactly the three recognised shapes of string succeed: a well-known
      name, a short hex string denoting a positive number, and a canonical
      UUID with optional braces. */
  lemma NormalizeStringSucceeds(s: string)
    ensures Normalize(Str(s)).Ok? <==>
      AliasCode(s).Some? || (IsShortHex(s) && ParseHex(s) > 0) || MatchesGuidPattern(s)
    ensures Normalize(Str(s)).Err? ==> Normalize(Str(s)) == Err(InvalidUuidFormat(Str(s)))
  {
    if AliasCode(s).Some? {
      AliasesAreNotShortHex(s);
    }
    if IsShortHex(s) {
      NormalizeShortHex(s);
    }
  }

  /** `windowsUuid` wraps a result in braces that normalisation removes
      again. */
  lemma WindowsUuidRoundTrip(uuid: Value)
    requires WindowsUuid(uuid).Ok?
    requires !(uuid.Num? && uuid.n >= TWO_POW_32)
    ensures Normalize(Str(WindowsUuid(uuid).value)) == Normalize(uuid)
  {
    NormalizeIsCanonical(uuid);
    NormalizeCanonical(Normalize(uuid).value);
  }

  // ----- worked examples -----

  /** A positive number's hex string, bare or with `0x`, normalises as the
      number does. */
  lemma ShortFormsAgree(n: nat)
    requires 0 < n < TWO_POW_32
    ensures Normalize(Num(n)) == Ok(ShortCodeUuid(n))
    ensures Normalize(Str(ToHex(n))) == Ok(ShortCodeUuid(n))
    ensures Normalize(Str("0x" + ToHex(n))) == Ok(ShortCodeUuid(n))
  {
    NormalizeNumber(n);
    BareHexForm(n);
    PrefixedHexForm(n);
  }

  lemma BareHexForm(n: nat)
    requires 0 < n < TWO_POW_32
    ensures IsShortHex(ToHex(n)) && ParseHex(ToHex(n)) == n
    ensures Normalize(Str(ToHex(n))) == Ok(ShortCodeUuid(n))
  {
    var h := ToHex(n);
    ToHexLength(n);
    HexRoundTrip(n);
    assert IsShortHex(h);
    assert ParseHex(h) == HexValue(h) by {
      if |h| >= 2 {
        assert h[..2][1] == h[1] && IsHexDigit(h[1]);
      }
    }
    NormalizeShortHex(h);
  }

  lemma PrefixedHexForm(n: nat)
    requires 0 < n < TWO_POW_32
    ensures IsShortHex("0x" + ToHex(n)) && ParseHex("0x" + ToHex(n)) == n
    ensures Normalize(Str("0x" + ToHex(n))) == Ok(ShortCodeUuid(n))
  {
    var h := ToHex(n);
    ToHexLength(n);
    HexRoundTrip(n);
    var x := "0x" + h;
    assert x[..2] == "0x" && x[2..] == h;
    NormalizeShortHex(x);
  }

  /** A well-known name normalises as its code does, in every short form. */
  lemma AliasFormsAgree(name: string)
    requires AliasCode(name).Some?
    ensures Normalize(Str(name)) == Normalize(Num(AliasCode(name).value))
    ensures Normalize(Str(name)) == Normalize(Str(ToHex(AliasCode(name).value)))
    ensures Normalize(Str(name)) == Normalize(Str("0x" + ToHex(AliasCode(name).value)))
  {
    NormalizeAlias(name);
    ShortFormsAgree(AliasCode(name).value);
  }

  /** Zero is not a short code, however it is written. */
  lemma ZeroRejected()
    ensures Normalize(Str("0")) == Err(InvalidUuidFormat(Str("0")))
    ensures Normalize(Str("00000000")) == Err(InvalidUuidFormat(Str("00000000")))
  {
    NormalizeShortHex("0");
    assert "00000000"[..2] == "00";
    assert HexValue("00000000") == 0 by {
      assert Repeat('0', 8) == "00000000";
      ZerosAreZero(8);
    }
    NormalizeShortHex("00000000");
  }

  /** Nine or more hex digits are neither a short code nor a UUID. */
  lemma NineDigitsRejected(s: string)
    requires |s| >= 9 && AllHex(s)
    ensures Normalize(Str(s)) == Err(InvalidUuidFormat(Str(s)))
  {
    assert IsHexDigit(s[1]) && IsHexDigit(s[8]) && IsHexDigit(s[0]) && IsHexDigit(s[|s| - 1]);
    assert s[1] != 'x' && s[8] != '-' && s[0] != '{' && s[|s| - 1] != '}';
    assert !IsCanonical(s) by { assert s[8] != '-'; }
    assert AliasCode(s) == None by { NotAnAlias(s); }
    NormalizeStringSucceeds(s);
  }

  /** Every well-known name holds a character that is no hex digit. */
  lemma NotAnAlias(s: string)
    requires |s| >= 4 && IsHexDigit(s[1]) && IsHexDigit(s[2]) && IsHexDigit(s[3])
    ensures AliasCode(s) == None
  {
  }

  lemma UpperNotCanonical(t: string, j: nat)
    requires j < |t| && 'A' <= t[j] <= 'Z'
    ensures !IsCanonical(t)
  {
    assert !IsHexDigit(t[j]) && t[j] != '-';
  }

  /** Upper case is rejected: the patterns have no `i` flag, so a string
      with an upper-case letter anywhere is neither a name, nor a short hex
      string, nor a UUID, and the `toLowerCase()` applied to a match never
      changes anything. */
  lemma UpperCaseRejected(s: string, i: nat)
    requires i < |s| && 'A' <= s[i] <= 'Z'
    ensures Normalize(Str(s)) == Err(InvalidUuidFormat(Str(s)))
  {
    UpperIsNoAlias(s, i);
    UpperIsNoShortHex(s, i);
    UpperIsNoGuid(s, i);
    NormalizeStringSucceeds(s);
    assert Aliased(Str(s)) == Str(s) && Parsed(Str(s)) == Str(s);
  }

  lemma UpperIsNoAlias(s: string, i: nat)
    requires i < |s| && 'A' <= s[i] <= 'Z'
    ensures AliasCode(s) == None
  {
    if |s| == 13 { assert s[i] != "battery_level"[i]; }
    if |s| == 10 { assert s[i] != "heart_rate"[i]; }
    if |s| == 15 { assert s[i] != "battery_service"[i]; }
    if |s| == 13 { assert s[i] != "cycling_power"[i]; }
  }

  lemma UpperIsNoShortHex(s: string, i: nat)
    requires i < |s| && 'A' <= s[i] <= 'Z'
    ensures !IsShortHex(s)
  {
    assert !IsHexDigit(s[i]);
    if 2 <= i {
      assert s[2..][i - 2] == s[i];
    }
  }

  lemma UpperIsNoGuid(s: string, i: nat)
    requires i < |s| && 'A' <= s[i] <= 'Z'
    ensures !MatchesGuidPattern(s)
  {
    UpperNotCanonical(s, i);
    if 0 < i {
      assert s[1..][i - 1] == s[i];
      UpperNotCanonical(s[1..], i - 1);
    }
    if i < |s| - 1 {
      assert s[..|s| - 1][i] == s[i];
      UpperNotCanonical(s[..|s| - 1], i);
    }
    if 0 < i < |s| - 1 {
      assert s[1..|s| - 1][i - 1] == s[i];
      UpperNotCanonical(s[1..|s| - 1], i - 1);
    }
  }

  function UpperChar(c: char): char
  {
    if 'a' <= c <= 'z' then (c as int - 32) as char else c
  }

  function ToUpper(s: string): (r: string)
    ensures |r| == |s| && forall i | 0 <= i < |s| :: r[i] == UpperChar(s[i])
  {
    seq(|s|, i requires 0 <= i < |s| => UpperChar(s[i]))
  }

  /** A canonical UUID with a letter among its digits is rejected once
      written in upper case, bare or between braces. */
  lemma UpperCaseUuidRejected(core: string, i: nat)
    requires IsCanonical(core) && i < |core| && 'a' <= core[i] <= 'f'
    ensures Normalize(Str(ToUpper(core))) == Err(InvalidUuidFormat(Str(ToUpper(core))))
    ensures Normalize(Str("{" + ToUpper(core) + "}")) == Err(InvalidUuidFormat(Str("{" + ToUpper(core) + "}")))
  {
    var upper := ToUpper(core);
    UpperCaseRejected(upper, i);
    var braced := "{" + upper + "}";
    assert braced[i + 1] == upper[i];
    UpperCaseRejected(braced, i + 1);
  }

  lemma UpperCaseShortRejected()
    ensures Normalize(Str("0X2A19")) == Err(InvalidUuidFormat(Str("0X2A19")))
  {
    UpperCaseRejected("0X2A19", 1);
  }

  /** Any string of no recognised shape throws "Invalid UUID format" with
      the string itself. */
  lemma FreeTextRejected(s: string)
    requires AliasCode(s).None? && !(IsShortHex(s) && ParseHex(s) > 0) && !MatchesGuidPattern(s)
    ensures Normalize(Str(s)) == Err(InvalidUuidFormat(Str(s)))
  {
    NormalizeStringSucceeds(s);
  }
}
