/** The console configuration value object: a validated, immutable set of
    options that an order is built from. */
module ConsoleConfigs {
  import opened Wrappers
  import opened Errors
  import opened Text

  /** The console-type enum. Its underlying type is a 32-bit `int`, and the
      API casts any request integer to it, so every such integer is a value;
      five of them are named. */
  newtype ConsoleType = x: int | -0x8000_0000 <= x < 0x8000_0000

  const NES: ConsoleType := 1
  const SNES: ConsoleType := 2
  const Genesis: ConsoleType := 3
  const N64: ConsoleType := 4
  const PlayStation: ConsoleType := 5

  predicate IsKnownConsoleType(t: ConsoleType) {
    t == NES || t == SNES || t == Genesis || t == N64 || t == PlayStation
  }

  /** The five fields, each with a private setter that only the constructor uses. */
  datatype ConsoleConfig = ConsoleConfig(
    consoleType: ConsoleType,
    numberOfControllers: int,
    hdmiSupport: bool,
    customColor: bool,
    colorHex: Option<string>)
  {
    /** What the constructor guarantees of every configuration it returns. */
    predicate Valid() {
      && 1 <= numberOfControllers <= 4
      && (customColor ==> colorHex.Some? && IsValidHexColor(colorHex.value))
    }
  }

  /** `TrimStart(c)`: drops every leading occurrence of `c`. */
  function TrimStart(s: string, c: char): (r: string)
    ensures |r| <= |s| && r == s[|s| - |r|..]
    ensures forall i :: 0 <= i < |s| - |r| ==> s[i] == c
    ensures r != [] ==> r[0] != c
  {
    if s != [] && s[0] == c then TrimStart(s[1..], c) else s
  }

  predicate IsHexDigit(c: char) {
    IsDigit(c) || ('A' <= c <= 'F') || ('a' <= c <= 'f')
  }

  predicate AllHexDigits(s: string) {
    forall i :: 0 <= i < |s| ==> IsHexDigit(s[i])
  }

  predicate AllHashes(s: string) {
    forall i :: 0 <= i < |s| ==> s[i] == '#'
  }

  /** `IsValidHexColor`: not blank, and six hex digits once the leading
      `#` characters are trimmed. */
  predicate IsValidHexColor(hex: string)
    ensures IsValidHexColor(hex) ==>
      6 <= |hex| && AllHashes(hex[..|hex| - 6]) && AllHexDigits(hex[|hex| - 6..])
  {
    if IsBlank(hex) then false
    else
      var digits := TrimStart(hex, '#');
      |digits| == 6 && AllHexDigits(digits)
  }

  /** A colour is valid exactly when it is a run of `#` (of any length,
      including none) followed by exactly six hex digits. */
  lemma ValidHexColorShape(hex: string)
    ensures IsValidHexColor(hex) <==>
      exists k :: 0 <= k <= |hex| && AllHashes(hex[..k]) && |hex| == k + 6 && AllHexDigits(hex[k..])
  {
    if IsValidHexColor(hex) {
      var n := |hex| - |TrimStart(hex, '#')|;
      assert hex[n..] == TrimStart(hex, '#');
      assert AllHashes(hex[..n]);
    }
    if k :| 0 <= k <= |hex| && AllHashes(hex[..k]) && |hex| == k + 6 && AllHexDigits(hex[k..]) {
      HashesThenDigitsIsValid(hex, k);
    }
  }

  /** A run of `#` followed by hex digits is valid. */
  lemma HashesThenDigitsIsValid(hex: string, k: int)
    requires 0 <= k <= |hex| && AllHashes(hex[..k]) && |hex| == k + 6 && AllHexDigits(hex[k..])
    ensures IsValidHexColor(hex)
  {
    assert hex[k..][0] == hex[k];
    assert !IsWhiteSpace(hex[k]);
    assert hex == hex[..k] + hex[k..];
    TrimStartDropsRun(hex[..k], hex[k..], '#');
  }

  /** Trimming `c` removes exactly a leading run of `c`. */
  lemma {:induction false} TrimStartDropsRun(run: string, rest: string, c: char)
    requires forall i :: 0 <= i < |run| ==> run[i] == c
    requires rest != [] ==> rest[0] != c
    ensures TrimStart(run + rest, c) == rest
  {
    if run != [] {
      assert (run + rest)[1..] == run[1..] + rest;
      TrimStartDropsRun(run[1..], rest, c);
    }
  }

  /** Leading `#` are all trimmed, however many there are. */
  lemma HashPrefixedColorsAreValid()
    ensures IsValidHexColor("#AABBCC") && IsValidHexColor("##AABBCC")
  {
    HashesThenDigitsIsValid("#AABBCC", 1);
    HashesThenDigitsIsValid("##AABBCC", 2);
  }

  /** Too short, a non-hex letter, a `#` at the end, and blank strings all fail. */
  lemma MalformedColorsAreInvalid()
    ensures !IsValidHexColor("12345") && !IsValidHexColor("#GGGGGG") && !IsValidHexColor("AABBCC#")
    ensures !IsValidHexColor("") && !IsValidHexColor("   ")
  {
    assert "12345"[0] == '1';
    assert "#GGGGGG"[1..][0] == 'G';
    assert "AABBCC#"[0] == 'A';
    assert "   "[0] == ' ';
  }

  /** The constructor `ConsoleConfig(consoleType, numberOfControllers,
      hdmiSupport, customColor, colorHex)`: the controller count is checked
      first, then the colour, and only when a custom colour is chosen. */
  function NewConsoleConfig(
    consoleType: ConsoleType,
    numberOfControllers: int,
    hdmiSupport: bool,
    customColor: bool,
    colorHex: Option<string>): (r: Result<ConsoleConfig, Error>)
    ensures r.Success? <==>
      1 <= numberOfControllers <= 4 && (customColor ==> colorHex.Some? && IsValidHexColor(colorHex.value))
    ensures r.Success? ==>
      r.value == ConsoleConfig(consoleType, numberOfControllers, hdmiSupport, customColor, colorHex) && r.value.Valid()
    ensures !(1 <= numberOfControllers <= 4) ==> r == Failure(InvalidControllerCount)
    ensures 1 <= numberOfControllers <= 4 && customColor && IsNullOrWhiteSpace(colorHex) ==>
      r == Failure(ColorHexRequired)
    ensures 1 <= numberOfControllers <= 4 && customColor && !IsNullOrWhiteSpace(colorHex) ==>
      (r.Success? <==> IsValidHexColor(colorHex.value)) && (r.Failure? ==> r.error == InvalidColorFormat)
  {
    if numberOfControllers < 1 || numberOfControllers > 4 then Failure(InvalidControllerCount)
    else if customColor && IsNullOrWhiteSpace(colorHex) then Failure(ColorHexRequired)
    else if customColor && !IsValidHexColor(colorHex.value) then Failure(InvalidColorFormat)
    else Success(ConsoleConfig(consoleType, numberOfControllers, hdmiSupport, customColor, colorHex))
  }

  /** Without a custom colour the colour string is never looked at: whatever
      is passed, valid or not, is stored as it is. */
  lemma ColorIgnoredWithoutCustomColor(
    consoleType: ConsoleType, numberOfControllers: int, hdmiSupport: bool, colorHex: Option<string>)
    requires 1 <= numberOfControllers <= 4
    ensures NewConsoleConfig(consoleType, numberOfControllers, hdmiSupport, false, colorHex)
         == Success(ConsoleConfig(consoleType, numberOfControllers, hdmiSupport, false, colorHex))
  {
  }

  /** `Equals(object? obj)`: `None` is a null argument. Holds exactly when
      the other configuration has the same five fields, the colour compared
      case-sensitively, so it is the structural equality of the datatype. */
  predicate Equals(a: ConsoleConfig, obj: Option<ConsoleConfig>)
    ensures Equals(a, obj) <==> obj == Some(a)
  {
    match obj
    case None => false
    case Some(other) =>
      && a.consoleType == other.consoleType
      && a.numberOfControllers == other.numberOfControllers
      && a.hdmiSupport == other.hdmiSupport
      && a.customColor == other.customColor
      && a.colorHex == other.colorHex
  }

  /** `Equals` is reflexive, symmetric and transitive. */
  lemma EqualsIsEquivalence(a: ConsoleConfig, b: ConsoleConfig, c: ConsoleConfig)
    ensures Equals(a, Some(a))
    ensures Equals(a, Some(b)) ==> Equals(b, Some(a))
    ensures Equals(a, Some(b)) && Equals(b, Some(c)) ==> Equals(a, Some(c))
  {
  }

  /** `HashCode.Combine` is seeded per process, so it is a parameter here. */
  type HashCombiner = (ConsoleType, int, bool, bool, Option<string>) -> int

  /** `GetHashCode`: combines the same five fields `Equals` compares. */
  function GetHashCode(c: ConsoleConfig, combine: HashCombiner): (r: int)
    ensures forall d :: Equals(c, Some(d)) ==>
      r == combine(d.consoleType, d.numberOfControllers, d.hdmiSupport, d.customColor, d.colorHex)
  {
    combine(c.consoleType, c.numberOfControllers, c.hdmiSupport, c.customColor, c.colorHex)
  }

  /** Configurations that are `Equals` have the same hash code. */
  lemma EqualsImpliesEqualHashCodes(a: ConsoleConfig, b: ConsoleConfig, combine: HashCombiner)
    requires Equals(a, Some(b))
    ensures GetHashCode(a, combine) == GetHashCode(b, combine)
  {
  }
}
