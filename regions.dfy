/** Resolution of a port code to a trade region (`getPortRegionById`). */
module Regions {
  import opened Wrappers
  import opened Text

  // The fixed table of known ports, region by region as the source lists it.
  const AsiaPorts: set<string> :=
    {"CNSHA", "CNYTN", "CNNGB", "CNQIN", "CNDAL", "CNXMN", "CNTAO", "HKHKG", "SGSIN",
     "JPOSA", "JPTYO", "KRPUS", "VNSGN", "MYLPK", "IDTPP", "THBKK", "PHMNL", "TWKHH"}
  const EuropePorts: set<string> :=
    {"DEHAM", "NLRTM", "GBFXT", "FRLEH", "BEANR", "ESBCN", "ITGOA", "GRPIR", "PLGDN",
     "SEGOT", "FILIV"}
  const MediterraneanPorts: set<string> :=
    {"ITTRS", "ESVLC", "FRFOS", "TRMER", "EGPSD", "MTMAR", "HRRJK"}
  const NorthAmericaPorts: set<string> :=
    {"USLAX", "USLGB", "USSEA", "USNYC", "USBAL", "USSAV", "USHOU", "CAMTR", "CAVNC",
     "USOAK"}
  const SouthAmericaPorts: set<string> :=
    {"BRSSZ", "ARBUE", "CLVAP", "PECLL", "COBUN", "ECGYE", "BRRIO"}
  const OceaniaPorts: set<string> :=
    {"AUSYD", "AUMEL", "NZAKL", "AUBNE"}
  const AfricaPorts: set<string> :=
    {"ZALGS", "ZADUR", "MAPTM", "EGALY", "TZDAR", "KEMBA", "SNDKR", "CMKBI"}
  const MiddleEastPorts: set<string> :=
    {"AEJEA", "AEDXB", "SAJED", "IQBSR", "IRBND", "OMMUS", "QAHMD"}

  /** `regionMap[portId]`: the region of a port of the fixed table, if it is
      one. No port code is listed under two regions. */
  function StaticRegion(portId: string): (r: Option<string>)
  {
    if portId in AsiaPorts then Some("Asia")
    else if portId in EuropePorts then Some("Europe")
    else if portId in MediterraneanPorts then Some("Mediterranean")
    else if portId in NorthAmericaPorts then Some("North America")
    else if portId in SouthAmericaPorts then Some("South America")
    else if portId in OceaniaPorts then Some("Oceania")
    else if portId in AfricaPorts then Some("Africa")
    else if portId in MiddleEastPorts then Some("Middle East")
    else None
  }

  /** The region names the resolver produces on its own. */
  const KnownRegions: set<string> :=
    {"Asia", "Europe", "Mediterranean", "North America", "South America",
     "Oceania", "Africa", "Middle East"}

  /** The substring tests applied to a lower-cased store region, in the order
      they are tried, each with the region it stands for. */
  const RegionPatterns: seq<(string, string)> :=
    [("china", "Asia"), ("asia", "Asia"), ("europe", "Europe"),
     ("mediterranean", "Mediterranean"), ("north america", "North America"),
     ("south america", "South America"), ("oceania", "Oceania"),
     ("africa", "Africa"), ("middle east", "Middle East")]

  /** What the ports store answered for a port: the `region` column of the
      first row, no row (or a null region), or a failure of the query. */
  datatype StoreAnswer = Found(region: string) | NotFound | QueryFailed

  /** The if-chain that maps a region string from the store to a standard
      name; a string that matches no test is passed through verbatim. */
  function NormaliseStoreRegion(raw: string): (r: string)
    ensures r in KnownRegions || r == raw
  {
    var lower := ToLower(raw);
    if Contains(lower, "china") then "Asia"
    else if Contains(lower, "asia") then "Asia"
    else if Contains(lower, "europe") then "Europe"
    else if Contains(lower, "mediterranean") then "Mediterranean"
    else if Contains(lower, "north america") then "North America"
    else if Contains(lower, "south america") then "South America"
    else if Contains(lower, "oceania") then "Oceania"
    else if Contains(lower, "africa") then "Africa"
    else if Contains(lower, "middle east") then "Middle East"
    else raw
  }

  /** Test `k` of the pattern table is the first that the lower-cased string
      passes. */
  ghost predicate FirstMatchAt(lower: string, k: int)
  {
    && 0 <= k < |RegionPatterns|
    && Contains(lower, RegionPatterns[k].0)
    && forall j :: 0 <= j < k ==> !Contains(lower, RegionPatterns[j].0)
  }

  /** The if-chain agrees with the pattern table read as "the first test that
      matches decides; no match passes the string through". */
  lemma NormaliseIsFirstMatch(raw: string)
    ensures forall k :: FirstMatchAt(ToLower(raw), k) ==> NormaliseStoreRegion(raw) == RegionPatterns[k].1
    ensures (forall k :: 0 <= k < |RegionPatterns| ==> !Contains(ToLower(raw), RegionPatterns[k].0))
            ==> NormaliseStoreRegion(raw) == raw
  {
    var lower := ToLower(raw);
    forall k | FirstMatchAt(lower, k) ensures NormaliseStoreRegion(raw) == RegionPatterns[k].1 {
      assert k > 0 ==> !Contains(lower, RegionPatterns[0].0);
      assert k > 1 ==> !Contains(lower, RegionPatterns[1].0);
      assert k > 2 ==> !Contains(lower, RegionPatterns[2].0);
      assert k > 3 ==> !Contains(lower, RegionPatterns[3].0);
      assert k > 4 ==> !Contains(lower, RegionPatterns[4].0);
      assert k > 5 ==> !Contains(lower, RegionPatterns[5].0);
      assert k > 6 ==> !Contains(lower, RegionPatterns[6].0);
      assert k > 7 ==> !Contains(lower, RegionPatterns[7].0);
    }
    if forall k :: 0 <= k < |RegionPatterns| ==> !Contains(lower, RegionPatterns[k].0) {
      assert !Contains(lower, RegionPatterns[0].0) && !Contains(lower, RegionPatterns[1].0);
      assert !Contains(lower, RegionPatterns[2].0) && !Contains(lower, RegionPatterns[3].0);
      assert !Contains(lower, RegionPatterns[4].0) && !Contains(lower, RegionPatterns[5].0);
      assert !Contains(lower, RegionPatterns[6].0) && !Contains(lower, RegionPatterns[7].0);
      assert !Contains(lower, RegionPatterns[8].0);
    }
  }

  /** `getPortRegionById` once the store's answer is given: the static table
      first, then the store's (non-empty) region normalised, else "Unknown". */
  function ResolveRegion(portId: string, store: StoreAnswer): (r: string)
    ensures r != ""
    ensures StaticRegion(portId).Some? ==> r == StaticRegion(portId).value
    ensures StaticRegion(portId).None? && store.Found? && store.region != "" ==>
              r == NormaliseStoreRegion(store.region)
    ensures StaticRegion(portId).None? && !(store.Found? && store.region != "") ==> r == "Unknown"
  {
    assert "" !in KnownRegions;
    match StaticRegion(portId)
    case Some(region) => region
    case None =>
      match store
      case Found(raw) => if raw != "" then NormaliseStoreRegion(raw) else "Unknown"
      case NotFound => "Unknown"
      case QueryFailed => "Unknown"
  }

  /** A resolved region is one of the standard names, "Unknown", or the
      store's own string passed through because it matches no test. */
  lemma ResolvedRegionIsClosed(portId: string, store: StoreAnswer)
    ensures var r := ResolveRegion(portId, store);
      || r in KnownRegions
      || r == "Unknown"
      || (&& StaticRegion(portId).None? && store.Found? && r == store.region
          && forall k :: 0 <= k < |RegionPatterns| ==> !Contains(ToLower(store.region), RegionPatterns[k].0))
  {
    var r := ResolveRegion(portId, store);
    if StaticRegion(portId).None? && store.Found? && store.region != "" && r !in KnownRegions {
      var lower := ToLower(store.region);
      forall k | 0 <= k < |RegionPatterns| ensures !Contains(lower, RegionPatterns[k].0) {
      }
    }
  }

  /** The ports of the commented example trip resolve from the table alone. */
  lemma ExamplePorts(store: StoreAnswer)
    ensures ResolveRegion("CNSHA", store) == "Asia"
    ensures ResolveRegion("NLRTM", store) == "Europe"
  {
  }

  /** Nhava Sheva is not in the fixed table. */
  lemma UnlistedPort()
    ensures StaticRegion("INNSA") == None
  {
  }

  /** A store region is tested case-insensitively: "South CHINA" is Asia. */
  lemma StoreRegionIgnoresCase()
    ensures ResolveRegion("INNSA", Found("South CHINA")) == "Asia"
  {
    UnlistedPort();
    assert ToLower("South CHINA") == "south china";
    assert OccursAt("south china", "china", 6);
    OccursThenContains("south china", "china", 6);
  }

  /** A store region that matches no test passes through verbatim. */
  lemma StoreRegionPassesThrough()
    ensures ResolveRegion("INNSA", Found("Gulf")) == "Gulf"
  {
    UnlistedPort();
    assert ToLower("Gulf") == "gulf";
    // No test's first letter occurs in "gulf".
    MissingFirstCharNotContained("gulf", "china");
    MissingFirstCharNotContained("gulf", "asia");
    MissingFirstCharNotContained("gulf", "europe");
    MissingFirstCharNotContained("gulf", "mediterranean");
    MissingFirstCharNotContained("gulf", "north america");
    MissingFirstCharNotContained("gulf", "south america");
    MissingFirstCharNotContained("gulf", "oceania");
    MissingFirstCharNotContained("gulf", "africa");
    MissingFirstCharNotContained("gulf", "middle east");
  }

  /** An empty store region, a missing row and a failed query all give
      "Unknown". */
  lemma StoreMissGivesUnknown()
    ensures ResolveRegion("INNSA", Found("")) == "Unknown"
    ensures ResolveRegion("INNSA", NotFound) == "Unknown"
    ensures ResolveRegion("INNSA", QueryFailed) == "Unknown"
  {
    UnlistedPort();
  }
}
