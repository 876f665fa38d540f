/** The string and integer rules of src/normalizer.py: the reading of a version slug such as
    `ver-1-5-tsi-style` into engine family, drivetrain, trim and feature flags, the region to
    zone table, and the row risk score. The engine size (a float) and the rest of the data-frame
    pipeline are not modelled. */
module Normalizer {
  import opened Wrappers
  import opened Text
  import opened Json
  import opened Collect

  // ---------------------------------------------------------------------------
  // parse_version_slug

  /** The known engine families, in the order the source lists them. */
  const EngineFamilies: seq<string> :=
    ["tsi", "tce", "ecoboost", "mhev", "hybrid", "boosterjet", "energy", "t", "eco-tsi"]

  /** The drivetrain tokens and the drivetrain each names. */
  const DrivetrainMap: map<string, string> :=
    map["fwd" := "FWD", "awd" := "AWD", "4wd" := "4WD", "2x4" := "FWD", "allgrip" := "AWD"]

  predicate IsFamily(p: string) {
    p in EngineFamilies
  }

  predicate IsDrivetrainToken(p: string) {
    p in DrivetrainMap
  }

  /** `\d+(?:\.\d+)?` matching the whole of `p`: digits, optionally a dot and more digits. */
  predicate DecimalToken(p: string) {
    (|p| > 0 && AllDigits(p)) ||
    exists k :: 0 < k < |p| - 1 && p[k] == '.' && AllDigits(p[..k]) && AllDigits(p[k + 1..])
  }

  /** `re.match(r"^\d+(?:\.\d+)?$", p)`; `$` also matches before a final newline. Only ASCII
      digits are digits here. */
  predicate IsNumeric(p: string) {
    DecimalToken(p) || (|p| > 0 && p[|p| - 1] == '\n' && DecimalToken(p[..|p| - 1]))
  }

  /** A candidate for the trim: not a family, not a drivetrain token, not a number. */
  predicate IsTrimWord(p: string) {
    !IsFamily(p) && !IsDrivetrainToken(p) && !IsNumeric(p)
  }

  /** `version.replace("ver-", "").lower().split("-")` */
  function Parts(version: string): (parts: seq<string>)
    ensures |parts| > 0 && forall k :: 0 <= k < |parts| ==> '-' !in parts[k]
  {
    Split(Lower(ReplaceAll(version, "ver-", "")), '-')
  }

  /** The five fields of the result, without `engine_size_l`. */
  datatype Version = Version(
    engineFamily: Option<string>, drivetrain: Option<string>, trim: Option<string>,
    featureFlags: Option<string>)

  /** The first part that is a known family. */
  function EngineFamily(parts: seq<string>): (r: Option<string>)
    ensures r.None? <==> forall i :: 0 <= i < |parts| ==> !IsFamily(parts[i])
    ensures r.Some? ==>
      exists i :: 0 <= i < |parts| && parts[i] == r.value && IsFamily(r.value) &&
        forall j :: 0 <= j < i ==> !IsFamily(parts[j])
  {
    match FirstIndex(parts, IsFamily)
    case Some(i) => Some(parts[i])
    case None => None
  }

  /** The drivetrain named by the first part that is a drivetrain token. */
  function Drivetrain(parts: seq<string>): (r: Option<string>)
    ensures r.None? <==> forall i :: 0 <= i < |parts| ==> !IsDrivetrainToken(parts[i])
    ensures r.Some? ==>
      exists i :: 0 <= i < |parts| && IsDrivetrainToken(parts[i]) && r.value == DrivetrainMap[parts[i]] &&
        forall j :: 0 <= j < i ==> !IsDrivetrainToken(parts[j])
  {
    match FirstIndex(parts, IsDrivetrainToken)
    case Some(i) => Some(DrivetrainMap[parts[i]])
    case None => None
  }

  /** The last trim candidate, title-cased. */
  function Trim(parts: seq<string>): (r: Option<string>)
    ensures r.None? <==> forall i :: 0 <= i < |parts| ==> !IsTrimWord(parts[i])
    ensures r.Some? ==>
      exists i :: 0 <= i < |parts| && IsTrimWord(parts[i]) && r.value == Title(parts[i]) &&
        forall j :: i < j < |parts| ==> !IsTrimWord(parts[j])
  {
    match LastIndex(parts, IsTrimWord)
    case Some(i) => Some(Title(parts[i]))
    case None => None
  }

  /** `p not in [str(engine_size), engine_family, drivetrain] and not numeric`. A string is
      never equal to `None`. */
  function IsFeature(family: Option<string>, drivetrain: Option<string>): string -> bool {
    p => Some(p) != family && Some(p) != drivetrain && !IsNumeric(p)
  }

  /** The feature parts, in order. */
  function Features(parts: seq<string>, family: Option<string>, drivetrain: Option<string>): seq<string> {
    Filter(parts, IsFeature(family, drivetrain))
  }

  /** `",".join(features) if features else None` */
  function FeatureFlags(features: seq<string>): (r: Option<string>)
    ensures r.None? <==> |features| == 0
  {
    if |features| == 0 then None else Some(Join(",", features))
  }

  /** The flags string holds every feature, in order: splitting it at the commas gives the
      features back, provided no feature has a comma of its own. */
  lemma FeatureFlagsRoundTrip(features: seq<string>)
    requires |features| > 0 && forall k :: 0 <= k < |features| ==> ',' !in features[k]
    ensures FeatureFlags(features).Some? && Split(FeatureFlags(features).value, ',') == features
  {
    assert "," == [','];
    SplitJoin(features, ',');
  }

  const NoVersion := Version(None, None, None, None)

  /** What `parse_version_slug(version)` returns, without `engine_size_l`. */
  function VersionSlug(version: Json): (r: Version)
    ensures !version.JStr? || !StartsWith(version.s, "ver-") ==> r == NoVersion
  {
    if !version.JStr? || !StartsWith(version.s, "ver-") then NoVersion
    else
      var parts := Parts(version.s);
      var family := EngineFamily(parts);
      var drivetrain := Drivetrain(parts);
      Version(family, drivetrain, Trim(parts), FeatureFlags(Features(parts, family, drivetrain)))
  }

  method ParseVersionSlug(version: Json) returns (r: Version)
    ensures r == VersionSlug(version)
  {
    if !version.JStr? || !StartsWith(version.s, "ver-") {
      return NoVersion;
    }
    var parts := Split(Lower(ReplaceAll(version.s, "ver-", "")), '-');
    var family := FindEngineFamily(parts);
    var drivetrain := FindDrivetrain(parts);
    var trim := FindTrim(parts);
    var features := CollectFeatures(parts, family, drivetrain);
    var flags := if |features| > 0 then Some(Join(",", features)) else None;
    return Version(family, drivetrain, trim, flags);
  }

  /** Lines 97-101. */
  method FindEngineFamily(parts: seq<string>) returns (family: Option<string>)
    ensures family == EngineFamily(parts)
  {
    family := None;
    var i := 0;
    while i < |parts|
      invariant 0 <= i <= |parts|
      invariant forall j :: 0 <= j < i ==> !IsFamily(parts[j])
    {
      if parts[i] in EngineFamilies {
        FirstIndexAt(parts, IsFamily, i);
        return Some(parts[i]);
      }
      i := i + 1;
    }
  }

  /** Lines 111-115. */
  method FindDrivetrain(parts: seq<string>) returns (drivetrain: Option<string>)
    ensures drivetrain == Drivetrain(parts)
  {
    drivetrain := None;
    var i := 0;
    while i < |parts|
      invariant 0 <= i <= |parts|
      invariant forall j :: 0 <= j < i ==> !IsDrivetrainToken(parts[j])
    {
      if parts[i] in DrivetrainMap {
        FirstIndexAt(parts, IsDrivetrainToken, i);
        return Some(DrivetrainMap[parts[i]]);
      }
      i := i + 1;
    }
  }

  /** Lines 118-126. */
  method FindTrim(parts: seq<string>) returns (trim: Option<string>)
    ensures trim == Trim(parts)
  {
    trim := None;
    var i := |parts|;
    while i > 0
      invariant 0 <= i <= |parts|
      invariant forall j :: i <= j < |parts| ==> !IsTrimWord(parts[j])
    {
      var p := parts[i - 1];
      if IsTrimWord(p) {
        TrimAt(parts, i - 1);
        return Some(Title(p));
      }
      i := i - 1;
    }
    NoTrim(parts);
  }

  lemma TrimAt(parts: seq<string>, i: nat)
    requires i < |parts| && IsTrimWord(parts[i])
    requires forall j :: i < j < |parts| ==> !IsTrimWord(parts[j])
    ensures Trim(parts) == Some(Title(parts[i]))
  {
    LastIndexAt(parts, IsTrimWord, i);
  }

  lemma NoTrim(parts: seq<string>)
    requires forall j :: 0 <= j < |parts| ==> !IsTrimWord(parts[j])
    ensures Trim(parts) == None
  {
  }

  /** Lines 129-134. */
  method CollectFeatures(parts: seq<string>, family: Option<string>, drivetrain: Option<string>)
    returns (features: seq<string>)
    ensures features == Features(parts, family, drivetrain)
  {
    features := [];
    var i := 0;
    while i < |parts|
      invariant 0 <= i <= |parts|
      invariant features == Filter(parts[..i], IsFeature(family, drivetrain))
    {
      var p := parts[i];
      assert parts[..i + 1][..i] == parts[..i];
      if Some(p) != family && Some(p) != drivetrain && !IsNumeric(p) {
        features := features + [p];
      }
      i := i + 1;
    }
    assert parts[..i] == parts;
  }

  // ---------------------------------------------------------------------------
  // Properties of the version reading

  /** `"eco-tsi"` is listed but can never be the engine family, since no part contains `-`. */
  lemma EcoTsiNeverMatches(version: Json)
    ensures VersionSlug(version).engineFamily != Some("eco-tsi")
  {
    if version.JStr? && StartsWith(version.s, "ver-") {
      var parts := Parts(version.s);
      assert "eco-tsi"[3] == '-';
      assert forall k :: 0 <= k < |parts| ==> parts[k] != "eco-tsi";
    }
  }

  /** Every `ver-` is removed, not only the leading one. */
  lemma EveryVerRemoved(a: string, b: string)
    requires 'v' !in a
    ensures ReplaceAll("ver-" + a + "ver-" + b, "ver-", "") == a + ReplaceAll(b, "ver-", "")
  {
    var pat := "ver-";
    assert pat[0] == 'v';
    assert pat + a + pat + b == pat + (a + (pat + b));
    ReplaceAtStart(pat, "", a + (pat + b));
    ReplaceSkips(a, pat, "", pat + b);
    ReplaceAtStart(pat, "", b);
  }

  /** `str.title` on a word of lower-case ASCII letters capitalises its first letter only. */
  lemma TitleOfWord(w: string)
    requires |w| > 0 && forall i :: 0 <= i < |w| ==> IsAsciiLower(w[i])
    ensures Title(w) == [UpperChar(w[0])] + w[1..]
  {
    TitleFromLower(w[1..]);
  }

  lemma {:induction false} TitleFromLower(w: string)
    requires forall i :: 0 <= i < |w| ==> IsAsciiLower(w[i])
    ensures TitleFrom(w, true) == w
    decreases |w|
  {
    if |w| > 0 {
      TitleFromLower(w[1..]);
      assert w == [w[0]] + w[1..];
    }
  }

  /** The drivetrain is one of the three the table names. */
  lemma DrivetrainValues(version: Json)
    ensures VersionSlug(version).drivetrain.Some? ==>
      VersionSlug(version).drivetrain.value in {"FWD", "AWD", "4WD"}
  {
  }

  /** No part equals a drivetrain: parts are lower-case, drivetrains are upper-case. */
  lemma PartIsNotDrivetrain(version: string, k: nat)
    requires k < |Parts(version)|
    ensures Some(Parts(version)[k]) != Drivetrain(Parts(version))
  {
    var parts := Parts(version);
    var drivetrain := Drivetrain(parts);
    if drivetrain.Some? {
      var d := drivetrain.value;
      assert d[1] == 'W';
      LowerPartsHaveNoCapitals(version, k);
      if |parts[k]| >= 2 {
        assert parts[k][1] in parts[k];
      }
    }
  }

  /** The feature flags are exactly the non-numeric parts other than the engine family, in order:
      the drivetrain test never removes a part. */
  lemma FeaturesAreOtherWords(version: Json)
    requires version.JStr? && StartsWith(version.s, "ver-")
    ensures var parts := Parts(version.s);
      var family := EngineFamily(parts);
      Features(parts, family, Drivetrain(parts)) == Filter(parts, p => Some(p) != family && !IsNumeric(p))
  {
    var parts := Parts(version.s);
    var family, drivetrain := EngineFamily(parts), Drivetrain(parts);
    forall k | 0 <= k < |parts| ensures Some(parts[k]) != drivetrain {
      PartIsNotDrivetrain(version.s, k);
    }
    FilterSame(parts, IsFeature(family, drivetrain), p => Some(p) != family && !IsNumeric(p));
  }

  /** Parts are lower-cased text. */
  lemma LowerPartsHaveNoCapitals(version: string, k: nat)
    requires k < |Parts(version)|
    ensures forall c :: c in Parts(version)[k] ==> !IsAsciiUpper(c)
  {
    var s := Lower(ReplaceAll(version, "ver-", ""));
    SplitChars(s, '-', k);
  }

  /** Every character of a part occurs in the split string. */
  lemma {:induction false} SplitChars(s: string, sep: char, k: nat)
    requires k < |Split(s, sep)|
    ensures forall c :: c in Split(s, sep)[k] ==> c in s
    decreases |s|
  {
    if |s| > 0 {
      var rest := Split(s[1..], sep);
      if s[0] == sep {
        if k > 0 {
          SplitChars(s[1..], sep, k - 1);
        }
      } else if k == 0 {
        SplitChars(s[1..], sep, 0);
      } else {
        SplitChars(s[1..], sep, k);
      }
    }
  }

  /** Two tests that agree on every element filter alike. */
  lemma {:induction false} FilterSame(xs: seq<string>, p: string -> bool, q: string -> bool)
    requires forall i :: 0 <= i < |xs| ==> p(xs[i]) == q(xs[i])
    ensures Filter(xs, p) == Filter(xs, q)
    decreases |xs|
  {
    if |xs| > 0 {
      FilterSame(xs[..|xs| - 1], p, q);
    }
  }

  /** Every drivetrain token of the slug stays among the features. */
  lemma DrivetrainTokenIsFeature(version: Json, k: nat)
    requires version.JStr? && StartsWith(version.s, "ver-")
    requires k < |Parts(version.s)| && IsDrivetrainToken(Parts(version.s)[k])
    ensures var parts := Parts(version.s);
      parts[k] in Features(parts, EngineFamily(parts), Drivetrain(parts))
  {
    var parts := Parts(version.s);
    var family, drivetrain := EngineFamily(parts), Drivetrain(parts);
    var p := parts[k];
    DrivetrainTokenWord(p);
    PartIsNotDrivetrain(version.s, k);
    assert IsFeature(family, drivetrain)(p);
    FilterKeeps(parts, IsFeature(family, drivetrain), k);
  }

  /** A drivetrain token is neither a family nor a number. */
  lemma DrivetrainTokenWord(p: string)
    requires IsDrivetrainToken(p)
    ensures !IsFamily(p) && !IsNumeric(p)
  {
    assert p == "fwd" || p == "awd" || p == "4wd" || p == "2x4" || p == "allgrip";
    assert 'a' <= p[1] <= 'z';
    NotNumericWithLetter(p);
  }

  /** A number is made of digits, at most one dot and at most a final newline. */
  lemma DecimalChars(p: string)
    requires DecimalToken(p)
    ensures forall j :: 0 <= j < |p| ==> IsDigit(p[j]) || p[j] == '.'
  {
    if !AllDigits(p) {
      var k :| 0 < k < |p| - 1 && p[k] == '.' && AllDigits(p[..k]) && AllDigits(p[k + 1..]);
      forall j | 0 <= j < |p| ensures IsDigit(p[j]) || p[j] == '.' {
        if j < k {
          assert p[..k][j] == p[j];
        } else if j > k {
          assert p[k + 1..][j - k - 1] == p[j];
        }
      }
    }
  }

  lemma NumericChars(p: string)
    requires IsNumeric(p)
    ensures forall j :: 0 <= j < |p| ==> IsDigit(p[j]) || p[j] == '.' || p[j] == '\n'
  {
    if DecimalToken(p) {
      DecimalChars(p);
    } else {
      var q := p[..|p| - 1];
      DecimalChars(q);
      assert forall j :: 0 <= j < |q| ==> q[j] == p[j];
    }
  }

  /** A word that holds an ASCII lower-case letter is not a number. */
  lemma NotNumericWithLetter(p: string)
    requires exists i :: 0 <= i < |p| && 'a' <= p[i] <= 'z'
    ensures !IsNumeric(p)
  {
    if IsNumeric(p) {
      NumericChars(p);
    }
  }

  // ---------------------------------------------------------------------------
  // zone_code

  /** The zone letter of each of the sixteen voivodeships, keyed by their lower-case ASCII names. */
  const ZoneCodes: map<string, string> :=
    map[
      "zachodniopomorskie" := "N", "pomorskie" := "N", "warminsko-mazurskie" := "N",
      "kujawsko-pomorskie" := "N", "podlaskie" := "N",
      "lubuskie" := "C", "wielkopolskie" := "C", "lodzkie" := "C", "mazowieckie" := "C",
      "lubelskie" := "C",
      "dolnoslaskie" := "S", "opolskie" := "S", "slaskie" := "S", "swietokrzyskie" := "S",
      "malopolskie" := "S", "podkarpackie" := "S"]

  /** `df["region"].map(zone_code).fillna("UNK")` for one row (`None` for a missing region). */
  function ZoneCode(region: Option<string>): (r: string)
    ensures r in {"N", "C", "S", "UNK"}
    ensures r == "UNK" <==> region.None? || region.value !in ZoneCodes
    ensures region.Some? && region.value in ZoneCodes ==> r == ZoneCodes[region.value]
  {
    if region.Some? && region.value in ZoneCodes then ZoneCodes[region.value] else "UNK"
  }

  // ---------------------------------------------------------------------------
  // polish_origin and risk_score

  /** `country_origin.str.contains("pol", case=False, na=False)` */
  predicate PolishOrigin(countryOrigin: Option<string>) {
    countryOrigin.Some? && Contains(Lower(countryOrigin.value), "pol")
  }

  /** The test ignores letter case. */
  lemma PolishOriginIgnoresCase(s: string)
    ensures PolishOrigin(Some(Lower(s))) <==> PolishOrigin(Some(s))
  {
    LowerIdempotent(s);
  }

  /** `2 * (not cepikVerified) + (polish_origin == False) + (mileage > 130000)`; a missing
      mileage compares false. An unverified history weighs as much as the other two factors
      together. */
  function RiskScore(cepikVerified: bool, countryOrigin: Option<string>, mileage: Option<int>): (r: int)
    ensures 0 <= r <= 4
    ensures !cepikVerified ==> r >= 2
    ensures cepikVerified ==> r <= 2
    ensures r % 2 == 1 <==> (!PolishOrigin(countryOrigin)) != (mileage.Some? && mileage.value > 130000)
    ensures r == 0 <==> cepikVerified && PolishOrigin(countryOrigin) && !(mileage.Some? && mileage.value > 130000)
    ensures r == 4 <==> !cepikVerified && !PolishOrigin(countryOrigin) && mileage.Some? && mileage.value > 130000
  {
    (if cepikVerified then 0 else 2)
    + (if PolishOrigin(countryOrigin) then 0 else 1)
    + (if mileage.Some? && mileage.value > 130000 then 1 else 0)
  }

  /** More mileage never lowers the score. */
  lemma RiskScoreMonotone(cepikVerified: bool, countryOrigin: Option<string>, m1: int, m2: int)
    requires m1 <= m2
    ensures RiskScore(cepikVerified, countryOrigin, Some(m1)) <= RiskScore(cepikVerified, countryOrigin, Some(m2))
  {
  }
}
