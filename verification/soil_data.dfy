/** Regional soil profiles and their accessors (src/data/soilData.ts). */
module SoilData {
  import opened Options
  import opened Tables

  /** A measured range of one soil parameter with its typical value. */
  datatype Bounds = Bounds(min: real, max: real, typical: real)
  {
    predicate Valid() { min <= typical <= max }

    predicate Holds(x: real) { min <= x <= max }
  }

  /** The measured ranges of one soil type of a region. */
  datatype SoilType = SoilType(
    ph: Bounds,
    nitrogen: Bounds,
    phosphorus: Bounds,
    potassium: Bounds,
    organicMatter: Bounds)
  {
    predicate Valid()
    {
      ph.Valid() && nitrogen.Valid() && phosphorus.Valid() && potassium.Valid() && organicMatter.Valid()
    }
  }

  /** A region's soil types, keyed by name in the order they are listed. */
  datatype SoilProfile = SoilProfile(region: string, soilTypes: Table<string, SoilType>)

  /** The five values `getTypicalSoilParameters` returns. */
  datatype SoilParameters = SoilParameters(
    ph: real,
    nitrogen: real,
    phosphorus: real,
    potassium: real,
    organicMatter: real)

  /** The typical values of a soil type. */
  function Typical(s: SoilType): SoilParameters
  {
    SoilParameters(s.ph.typical, s.nitrogen.typical, s.phosphorus.typical,
                   s.potassium.typical, s.organicMatter.typical)
  }

  /** Every parameter lies within the measured range of the soil type. */
  predicate WithinBounds(p: SoilParameters, s: SoilType)
  {
    s.ph.Holds(p.ph) && s.nitrogen.Holds(p.nitrogen) && s.phosphorus.Holds(p.phosphorus)
    && s.potassium.Holds(p.potassium) && s.organicMatter.Holds(p.organicMatter)
  }

  /** The typical values of a well-formed soil type lie within its ranges. */
  lemma TypicalWithinBounds(s: SoilType)
    requires s.Valid()
    ensures WithinBounds(Typical(s), s)
  {
  }

  /** A profile is well formed when it is filed under its own region, has at
      least one soil type, lists each soil type once, and every range holds
      its typical value. */
  predicate ValidProfile(key: string, p: SoilProfile)
  {
    && p.region == key
    && |p.soilTypes| > 0
    && (forall a, b | 0 <= a < b < |p.soilTypes| :: p.soilTypes[a].0 != p.soilTypes[b].0)
    && (forall i | 0 <= i < |p.soilTypes| :: p.soilTypes[i].1.Valid())
  }

  const WestBengalProfile := SoilProfile("West Bengal", [
    ("alluvial", SoilType(
      Bounds(6.0, 7.5, 6.8), Bounds(280.0, 420.0, 340.0), Bounds(12.0, 25.0, 18.0),
      Bounds(140.0, 280.0, 210.0), Bounds(0.8, 1.5, 1.2))),
    ("red and yellow", SoilType(
      Bounds(5.5, 6.8, 6.2), Bounds(200.0, 350.0, 280.0), Bounds(8.0, 18.0, 12.0),
      Bounds(120.0, 220.0, 180.0), Bounds(0.6, 1.2, 0.9)))])

  const PunjabProfile := SoilProfile("Punjab", [
    ("alluvial", SoilType(
      Bounds(7.0, 8.2, 7.8), Bounds(300.0, 450.0, 380.0), Bounds(15.0, 28.0, 22.0),
      Bounds(160.0, 300.0, 240.0), Bounds(0.7, 1.4, 1.0))),
    ("calcareous", SoilType(
      Bounds(7.5, 8.5, 8.0), Bounds(250.0, 380.0, 320.0), Bounds(10.0, 22.0, 16.0),
      Bounds(150.0, 280.0, 220.0), Bounds(0.5, 1.0, 0.8)))])

  const UttarPradeshProfile := SoilProfile("Uttar Pradesh", [
    ("alluvial", SoilType(
      Bounds(6.5, 7.8, 7.2), Bounds(280.0, 420.0, 350.0), Bounds(12.0, 24.0, 18.0),
      Bounds(150.0, 270.0, 220.0), Bounds(0.8, 1.5, 1.1))),
    ("usar", SoilType(
      Bounds(8.0, 9.5, 8.8), Bounds(150.0, 280.0, 220.0), Bounds(5.0, 15.0, 10.0),
      Bounds(100.0, 220.0, 160.0), Bounds(0.3, 0.8, 0.5)))])

  const MaharashtraProfile := SoilProfile("Maharashtra", [
    ("black cotton", SoilType(
      Bounds(7.2, 8.5, 7.8), Bounds(220.0, 380.0, 300.0), Bounds(10.0, 22.0, 16.0),
      Bounds(200.0, 350.0, 280.0), Bounds(0.6, 1.2, 0.9))),
    ("red and yellow", SoilType(
      Bounds(6.0, 7.2, 6.5), Bounds(180.0, 320.0, 250.0), Bounds(8.0, 18.0, 12.0),
      Bounds(140.0, 260.0, 200.0), Bounds(0.5, 1.0, 0.7)))])

  const KarnatakaProfile := SoilProfile("Karnataka", [
    ("red", SoilType(
      Bounds(6.0, 7.2, 6.6), Bounds(200.0, 350.0, 280.0), Bounds(8.0, 20.0, 14.0),
      Bounds(150.0, 270.0, 210.0), Bounds(0.5, 1.1, 0.8))),
    ("black cotton", SoilType(
      Bounds(7.0, 8.2, 7.5), Bounds(220.0, 380.0, 310.0), Bounds(10.0, 22.0, 16.0),
      Bounds(180.0, 320.0, 260.0), Bounds(0.6, 1.2, 0.9))),
    ("laterite", SoilType(
      Bounds(4.5, 6.0, 5.5), Bounds(150.0, 280.0, 220.0), Bounds(5.0, 15.0, 10.0),
      Bounds(120.0, 220.0, 170.0), Bounds(0.4, 1.0, 0.7)))])

  /** `regionalSoilProfiles`, in source order. The descriptions and crop lists
      of the soil types are display text that no accessor reads. */
  const RegionalSoilProfiles: Table<string, SoilProfile> := [
    ("West Bengal", WestBengalProfile),
    ("Punjab", PunjabProfile),
    ("Uttar Pradesh", UttarPradeshProfile),
    ("Maharashtra", MaharashtraProfile),
    ("Karnataka", KarnatakaProfile)]

  lemma WestBengalProfileValid() ensures ValidProfile("West Bengal", WestBengalProfile) {}
  lemma PunjabProfileValid() ensures ValidProfile("Punjab", PunjabProfile) {}
  lemma UttarPradeshProfileValid() ensures ValidProfile("Uttar Pradesh", UttarPradeshProfile) {}
  lemma MaharashtraProfileValid() ensures ValidProfile("Maharashtra", MaharashtraProfile) {}
  lemma KarnatakaProfileValid() ensures ValidProfile("Karnataka", KarnatakaProfile) {}

  /** Every profile of the table is well formed under its key. */
  lemma {:induction false} SoilTableValid(i: nat)
    requires i < |RegionalSoilProfiles|
    ensures ValidProfile(RegionalSoilProfiles[i].0, RegionalSoilProfiles[i].1)
  {
    if i == 0 { WestBengalProfileValid(); }
    else if i == 1 { PunjabProfileValid(); }
    else if i == 2 { UttarPradeshProfileValid(); }
    else if i == 3 { MaharashtraProfileValid(); }
    else { KarnatakaProfileValid(); }
  }

  /** `getSoilProfile`: the region's profile, or West Bengal's for a region the
      table does not list. */
  function GetSoilProfile(region: string): (p: SoilProfile)
    ensures region in Keys(RegionalSoilProfiles) ==> p.region == region
    ensures region !in Keys(RegionalSoilProfiles) ==> p.region == "West Bengal"
    ensures ValidProfile(p.region, p)
  {
    match Lookup(RegionalSoilProfiles, region)
    case Some(p) =>
      var i :| 0 <= i < |RegionalSoilProfiles| && RegionalSoilProfiles[i].0 == region
                && RegionalSoilProfiles[i].1 == p;
      SoilTableValid(i);
      p
    case None =>
      WestBengalProfileValid();
      WestBengalProfile
  }

  /** `getPredominantSoilType`: the first soil type listed for the region's
      profile, which is always one of its soil types. */
  function GetPredominantSoilType(region: string): (s: string)
    ensures s == GetSoilProfile(region).soilTypes[0].0
    ensures s in Keys(GetSoilProfile(region).soilTypes)
    ensures Lookup(GetSoilProfile(region).soilTypes, s) == Some(GetSoilProfile(region).soilTypes[0].1)
  {
    var p := GetSoilProfile(region);
    LookupEntry(p.soilTypes, 0);
    p.soilTypes[0].0
  }

  /** The soil type whose values `getTypicalSoilParameters` reads: the one
      asked for when it is given, non-empty and listed, and otherwise the
      first one (which is also what an omitted type defaults to). */
  function SoilTypeUsed(region: string, soilType: Option<string>): (k: string)
    ensures k in Keys(GetSoilProfile(region).soilTypes)
    ensures soilType.Some? && soilType.value != "" && soilType.value in Keys(GetSoilProfile(region).soilTypes)
            ==> k == soilType.value
    ensures !(soilType.Some? && soilType.value != "" && soilType.value in Keys(GetSoilProfile(region).soilTypes))
            ==> k == GetSoilProfile(region).soilTypes[0].0
  {
    var p := GetSoilProfile(region);
    var wanted := if soilType.Some? && soilType.value != "" then soilType.value else GetPredominantSoilType(region);
    if Lookup(p.soilTypes, wanted).Some? then wanted else p.soilTypes[0].0
  }

  /** `getTypicalSoilParameters`: the typical values of the soil type used,
      which lie within that soil type's measured ranges. */
  function GetTypicalSoilParameters(region: string, soilType: Option<string>): (r: SoilParameters)
    ensures Lookup(GetSoilProfile(region).soilTypes, SoilTypeUsed(region, soilType)).Some?
    ensures WithinBounds(r, Lookup(GetSoilProfile(region).soilTypes, SoilTypeUsed(region, soilType)).value)
  {
    var p := GetSoilProfile(region);
    var k := SoilTypeUsed(region, soilType);
    var s := Lookup(p.soilTypes, k).value;
    var i :| 0 <= i < |p.soilTypes| && p.soilTypes[i].0 == k && p.soilTypes[i].1 == s;
    TypicalWithinBounds(s);
    Typical(s)
  }

  /** The values returned are exactly the typical values of the soil type used. */
  lemma TypicalParametersOfUsedType(region: string, soilType: Option<string>)
    ensures var s := Lookup(GetSoilProfile(region).soilTypes, SoilTypeUsed(region, soilType));
            s.Some? && GetTypicalSoilParameters(region, soilType) == Typical(s.value)
  {
  }

  /** Omitting the soil type, or passing an empty one, is the same as passing
      the region's predominant soil type. */
  lemma OmittedSoilTypeIsPredominant(region: string)
    ensures GetTypicalSoilParameters(region, None) == GetTypicalSoilParameters(region, Some(GetPredominantSoilType(region)))
    ensures GetTypicalSoilParameters(region, Some("")) == GetTypicalSoilParameters(region, None)
  {
    var p := GetSoilProfile(region);
    var k := GetPredominantSoilType(region);
    assert k != "" by {
      assert k == p.soilTypes[0].0;
    }
  }

  /** An unlisted soil type reads the values of the first soil type. */
  lemma UnlistedSoilTypeUsesFirst(region: string, soilType: string)
    requires soilType !in Keys(GetSoilProfile(region).soilTypes)
    ensures GetTypicalSoilParameters(region, Some(soilType)) == Typical(GetSoilProfile(region).soilTypes[0].1)
  {
    var p := GetSoilProfile(region);
    LookupEntry(p.soilTypes, 0);
  }

  /** An unlisted region is answered from West Bengal's profile. */
  lemma UnknownRegionIsWestBengal(region: string, soilType: Option<string>)
    requires region !in Keys(RegionalSoilProfiles)
    ensures GetSoilProfile(region) == GetSoilProfile("West Bengal")
    ensures GetTypicalSoilParameters(region, soilType) == GetTypicalSoilParameters("West Bengal", soilType)
  {
    assert Keys(RegionalSoilProfiles)[0] == "West Bengal";
  }

  /** A listed region gets the profile filed under it. */
  lemma {:induction false} ListedProfile(i: nat)
    requires i < |RegionalSoilProfiles|
    ensures GetSoilProfile(RegionalSoilProfiles[i].0) == RegionalSoilProfiles[i].1
  {
    LookupEntry(RegionalSoilProfiles, i);
  }

  /** The predominant soil type of each listed region. */
  lemma PredominantSoilTypes()
    ensures GetPredominantSoilType("West Bengal") == "alluvial"
    ensures GetPredominantSoilType("Punjab") == "alluvial"
    ensures GetPredominantSoilType("Uttar Pradesh") == "alluvial"
    ensures GetPredominantSoilType("Maharashtra") == "black cotton"
    ensures GetPredominantSoilType("Karnataka") == "red"
  {
    ListedProfile(0);
    ListedProfile(1);
    ListedProfile(2);
    ListedProfile(3);
    ListedProfile(4);
  }
}
