/** The static catalogue of disbursement items the estimator offers, and the
    two ways the estimator reads it: lookup by id (`Array.prototype.find`,
    first match) and the set of ids a property type auto-selects. */
module Catalogue {
  import opened Wrappers

  datatype Category = Standard | Free

  /** One catalogue line. `unitCost` is the stored decimal text read as an
      exact amount; `propertyTypes` lists the property types that select the
      item by default. */
  datatype CatalogueItem = CatalogueItem(
    id: string,
    description: string,
    unitCost: real,
    category: Category,
    propertyTypes: seq<string>,
    gstIncluded: bool)

  // The shipped catalogue, one constant per line of it, as listed in
  // `shared/schema.ts`, with costs read as exact decimals.

  const ProfessionalFees: CatalogueItem := CatalogueItem("professional-fees", "Professional fees", 550.00, Standard, ["land", "house", "unit"], false)
  const VerificationId: CatalogueItem := CatalogueItem("verification-id", "Verification of ID (per person on Title)", 29.90, Standard, ["land", "house", "unit"], true)
  const TitlesSearch: CatalogueItem := CatalogueItem("titles-search", "Titles search", 40.39, Standard, ["land", "house", "unit"], true)
  const RegisteredPlan: CatalogueItem := CatalogueItem("registered-plan", "Registered Plan search", 43.37, Standard, ["land", "house", "unit"], true)
  const TransportRoads: CatalogueItem := CatalogueItem("transport-roads", "Qld Transport and Main Roads Property search", 49.12, Standard, ["land", "house", "unit"], true)
  const ContaminatedLand: CatalogueItem := CatalogueItem("contaminated-land", "Contaminated Land search", 76.03, Standard, ["house", "unit"], true)
  const HeritageSearch: CatalogueItem := CatalogueItem("heritage-search", "DEHP - Heritage search", 90.18, Standard, ["land", "house", "unit"], true)
  const QbccInsurance: CatalogueItem := CatalogueItem("qbcc-insurance", "QBCC - Insurance search", 96.55, Standard, ["house", "unit"], true)
  const QcatRecords: CatalogueItem := CatalogueItem("qcat-records", "QCAT Records (per person on Title)", 37.58, Standard, ["land", "house", "unit"], true)
  const CouncilRates: CatalogueItem := CatalogueItem("council-rates", "Council Rates (Sunshine Coast)", 147.42, Standard, ["land", "house", "unit"], true)
  const WaterServices: CatalogueItem := CatalogueItem("water-services", "Water Services", 262.85, Standard, ["house", "unit"], true)
  const BodyCorporateCts: CatalogueItem := CatalogueItem("body-corporate-cts", "Body Corporate CTS search", 14.18, Standard, ["unit"], true)
  const CmsDealing: CatalogueItem := CatalogueItem("cms-dealing", "CMS Dealing search", 69.11, Standard, ["house", "unit"], true)
  const BodyCorporateCert: CatalogueItem := CatalogueItem("body-corporate-cert", "Body Corporate Certificate", 153.06, Standard, ["unit"], true)
  const AsicSearch: CatalogueItem := CatalogueItem("asic-search", "ASIC search (per entity)", 30.45, Standard, ["land", "house", "unit"], true)
  const QbccPoolSafety: CatalogueItem := CatalogueItem("qbcc-pool-safety", "QBCC Pool Safety Certificate search", 0.00, Free, ["house", "unit"], true)
  const CouncilZoning: CatalogueItem := CatalogueItem("council-zoning", "Council Zoning", 0.00, Free, [], true)

  /** The shipped catalogue, in display order. */
  const Default: seq<CatalogueItem> := [
    ProfessionalFees,
    VerificationId,
    TitlesSearch,
    RegisteredPlan,
    TransportRoads,
    ContaminatedLand,
    HeritageSearch,
    QbccInsurance,
    QcatRecords,
    CouncilRates,
    WaterServices,
    BodyCorporateCts,
    CmsDealing,
    BodyCorporateCert,
    AsicSearch,
    QbccPoolSafety,
    CouncilZoning
  ]

  /** No two lines share an id. */
  ghost predicate IdsDistinct(cat: seq<CatalogueItem>) {
    forall i, j | 0 <= i < j < |cat| :: cat[i].id != cat[j].id
  }

  /** `cat.find(item => item.id === id)`: the first line carrying `id`, or
      nothing when no line does. */
  function Find(cat: seq<CatalogueItem>, id: string): (r: Option<CatalogueItem>)
    ensures r.None? <==> forall i | 0 <= i < |cat| :: cat[i].id != id
    ensures r.Some? ==> r.value.id == id
    ensures r.Some? ==> exists i | 0 <= i < |cat| :: cat[i] == r.value && cat[i].id == id
                                    && forall j | 0 <= j < i :: cat[j].id != id
  {
    if |cat| == 0 then None
    else if cat[0].id == id then Some(cat[0])
    else
      var r := Find(cat[1..], id);
      assert forall i | 1 <= i < |cat| :: cat[i] == cat[1..][i - 1];
      r
  }

  /** With distinct ids, looking up a line's id returns that line. */
  lemma {:induction false} FindDistinct(cat: seq<CatalogueItem>, i: int)
    requires IdsDistinct(cat)
    requires 0 <= i < |cat|
    ensures Find(cat, cat[i].id) == Some(cat[i])
  {
    var r := Find(cat, cat[i].id);
    var j :| 0 <= j < |cat| && cat[j] == r.value && cat[j].id == cat[i].id
             && forall k | 0 <= k < j :: cat[k].id != cat[i].id;
  }

  /** The ids `propertyType` selects: every line whose `propertyTypes`
      contains it. */
  function MatchedIds(cat: seq<CatalogueItem>, propertyType: string): set<string> {
    set i | 0 <= i < |cat| && propertyType in cat[i].propertyTypes :: cat[i].id
  }

  /** Two decimal places, non-negative and below 10^8: a value a
      `decimal(10, 2)` column can hold. */
  predicate IsDecimal10x2(r: real) {
    0.0 <= r < 100000000.0 && (r * 100.0).Floor as real == r * 100.0
  }

  /** Length and last character: enough to tell the shipped ids apart.
      `IdKey` and `Row` are a proof device, not part of the estimator: they
      let the distinctness of the seventeen ids follow from one small table
      instead of from comparing every pair of strings. */
  function IdKey(id: string): (int, char) {
    if |id| == 0 then (0, ' ') else (|id|, id[|id| - 1])
  }

  /** The row of the shipped catalogue an id sits in, read off its key; -1
      for a key no shipped id has. */
  function Row(id: string): int {
    match IdKey(id)
    case (17, 's') => 0  case (15, 'd') => 1  case (13, 'h') => 2  case (15, 'n') => 3
    case (15, 's') => 4  case (17, 'd') => 5  case (15, 'h') => 6  case (14, 'e') => 7
    case (12, 's') => 8  case (13, 's') => 9  case (14, 's') => 10 case (18, 's') => 11
    case (11, 'g') => 12 case (19, 't') => 13 case (11, 'h') => 14 case (16, 'y') => 15
    case (14, 'g') => 16 case _ => -1
  }

  lemma DefaultRows()
    ensures forall i | 0 <= i < |Default| :: Row(Default[i].id) == i
  {
    FirstRows();
    LastRows();
  }

  lemma FirstRows()
    ensures forall i | 0 <= i < 9 :: Row(Default[i].id) == i
  {
  }

  lemma LastRows()
    ensures forall i | 9 <= i < |Default| :: Row(Default[i].id) == i
  {
  }

  lemma DefaultIdsDistinct()
    ensures IdsDistinct(Default)
  {
    DefaultRows();
  }

  /** Every tag in the shipped catalogue is one of the three property types
      the form offers. */
  lemma DefaultPropertyTypesKnown()
    ensures forall i, t | 0 <= i < |Default| && t in Default[i].propertyTypes ::
              t == "land" || t == "house" || t == "unit"
  {
  }

  /** So any other tag selects nothing. */
  lemma UnknownPropertyTypeMatchesNothing(t: string)
    requires t != "land" && t != "house" && t != "unit"
    ensures MatchedIds(Default, t) == {}
  {
    DefaultPropertyTypesKnown();
  }

  /** The free lines store a zero cost; that, not their category, is what
      makes them add nothing. */
  lemma DefaultFreeItemsCostZero()
    ensures forall i | 0 <= i < |Default| && Default[i].category == Free ::
              Default[i].unitCost == 0.0
    ensures forall i | 0 <= i < |Default| && Default[i].category == Free ::
              Default[i].id == "qbcc-pool-safety" || Default[i].id == "council-zoning"
    ensures Default[15].id == "qbcc-pool-safety" && Default[15].category == Free
    ensures Default[16].id == "council-zoning" && Default[16].category == Free
  {
  }

  /** Every stored cost fits the `decimal(10, 2)` unit-cost column. */
  lemma DefaultCostsAreDecimal10x2()
    ensures forall i | 0 <= i < |Default| :: IsDecimal10x2(Default[i].unitCost)
  {
    FirstCostsAreDecimal10x2();
    LastCostsAreDecimal10x2();
  }

  lemma FirstCostsAreDecimal10x2()
    ensures forall i | 0 <= i < 9 :: IsDecimal10x2(Default[i].unitCost)
  {
  }

  lemma LastCostsAreDecimal10x2()
    ensures forall i | 9 <= i < |Default| :: IsDecimal10x2(Default[i].unitCost)
  {
  }

  /** `council-zoning` applies to no property type, so choosing a type never
      selects it. */
  lemma CouncilZoningNeverMatched(t: string)
    ensures "council-zoning" !in MatchedIds(Default, t)
  {
    DefaultIdsDistinct();
  }

  /** The two body-corporate searches are selected by `unit` and by nothing
      else. */
  lemma BodyCorporateOnlyUnit(t: string)
    ensures "body-corporate-cts" in MatchedIds(Default, t) <==> t == "unit"
    ensures "body-corporate-cert" in MatchedIds(Default, t) <==> t == "unit"
  {
    DefaultIdsDistinct();
    if t == "unit" {
      assert Default[11].id == "body-corporate-cts";
      assert Default[13].id == "body-corporate-cert";
    }
  }

  /** The ids in rows `rows` of `cat`. */
  function RowIds(cat: seq<CatalogueItem>, rows: set<int>): set<string> {
    set i | i in rows && 0 <= i < |cat| :: cat[i].id
  }

  /** When `t` tags exactly the rows `rows`, it selects exactly their ids. */
  lemma MatchedIdsByRows(cat: seq<CatalogueItem>, t: string, rows: set<int>)
    requires forall i | 0 <= i < |cat| :: t in cat[i].propertyTypes <==> i in rows
    ensures MatchedIds(cat, t) == RowIds(cat, rows)
  {
  }

  const LandRows: set<int> := {0, 1, 2, 3, 4, 6, 8, 9, 14}
  const HouseRows: set<int> := {0, 1, 2, 3, 4, 5, 6, 7, 8, 9, 10, 12, 14, 15}
  const UnitRows: set<int> := {0, 1, 2, 3, 4, 5, 6, 7, 8, 9, 10, 11, 12, 13, 14, 15}

  lemma LandRowsTagged()
    ensures forall i | 0 <= i < |Default| :: "land" in Default[i].propertyTypes <==> i in LandRows
  {
  }

  lemma HouseRowsTagged()
    ensures forall i | 0 <= i < |Default| :: "house" in Default[i].propertyTypes <==> i in HouseRows
  {
  }

  /** Every row but the last is tagged `unit`. */
  lemma UnitRowsTagged()
    ensures forall i | 0 <= i < |Default| :: "unit" in Default[i].propertyTypes <==> i in UnitRows
  {
    assert |Default| == 17;
    UnitRowsBelow();
    assert forall i | 0 <= i < |Default| :: "unit" in Default[i].propertyTypes <==> i < 16;
  }

  lemma UnitRowsBelow()
    ensures forall i | 0 <= i < 17 :: i in UnitRows <==> i < 16
  {
  }

  /** `land` selects exactly these nine items. */
  lemma LandMatches()
    ensures MatchedIds(Default, "land") == {"professional-fees", "verification-id", "titles-search", "registered-plan", "transport-roads", "heritage-search", "qcat-records", "council-rates", "asic-search"}
  {
    LandRowsTagged();
    MatchedIdsByRows(Default, "land", LandRows);
  }

  /** `house` selects those nine and five more: `contaminated-land`,
      `qbcc-insurance`, `water-services`, `cms-dealing` and
      `qbcc-pool-safety`. */
  lemma HouseMatches()
    ensures MatchedIds(Default, "house") == {"professional-fees", "verification-id", "titles-search", "registered-plan", "transport-roads", "contaminated-land", "heritage-search", "qbcc-insurance", "qcat-records", "council-rates", "water-services", "cms-dealing", "asic-search", "qbcc-pool-safety"}
  {
    HouseRowsTagged();
    MatchedIdsByRows(Default, "house", HouseRows);
  }

  /** `unit` selects every line but `council-zoning`. */
  lemma UnitMatches()
    ensures MatchedIds(Default, "unit") == {"professional-fees", "verification-id", "titles-search", "registered-plan", "transport-roads", "contaminated-land", "heritage-search", "qbcc-insurance", "qcat-records", "council-rates", "water-services", "body-corporate-cts", "cms-dealing", "body-corporate-cert", "asic-search", "qbcc-pool-safety"}
  {
    UnitRowsTagged();
    MatchedIdsByRows(Default, "unit", UnitRows);
  }

  /** Hence the default selections are nested. */
  lemma DefaultMatchesNested()
    ensures MatchedIds(Default, "land") <= MatchedIds(Default, "house") <= MatchedIds(Default, "unit")
  {
    LandRowsTagged();
    HouseRowsTagged();
    UnitRowsTagged();
    MatchedIdsByRows(Default, "land", LandRows);
    MatchedIdsByRows(Default, "house", HouseRows);
    MatchedIdsByRows(Default, "unit", UnitRows);
  }
}
