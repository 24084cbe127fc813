/** The carbon routes (server/routes/carbon.js): `/calculate`, which
    recomputes and saves a product's total and score and returns a per-stage
    breakdown, and `/dashboard`, the requester's own products rolled up. */
module CarbonRoutes {
  import opened Common
  import opened Collections
  import opened Rollup
  import opened ProductModel
  import opened ProductRoutes
  import D = Dashboard

  /** One entry of `supplyChainBreakdown`. */
  datatype StageSummary = StageSummary(stage: Option<StageKind>, carbonFootprint: CarbonFootprint,
                                       location: Option<Location>)

  function Summary(s: Stage): StageSummary
  {
    StageSummary(s.stage, s.carbonFootprint, s.location)
  }

  /** `product.supplyChain.map(...)`: one entry per stage, in stage order. */
  function Breakdown(stages: seq<Stage>): (r: seq<StageSummary>)
    ensures |r| == |stages|
    ensures forall i :: 0 <= i < |stages| ==>
              && r[i].stage == stages[i].stage
              && r[i].carbonFootprint == stages[i].carbonFootprint
              && r[i].location == stages[i].location
  {
    if stages == [] then [] else [Summary(stages[0])] + Breakdown(stages[1..])
  }

  /** The breakdown carries exactly the stage values the total sums. */
  lemma {:induction false} BreakdownSumsToTotal(stages: seq<Stage>)
    ensures SumOf(Breakdown(stages), (e: StageSummary) => OrElse(e.carbonFootprint.value, 0)) == TotalCarbon(stages)
  {
    if stages != [] {
      BreakdownSumsToTotal(stages[1..]);
    }
  }

  /** The document `/calculate` saves: total recomputed, placeholder score,
      then the save's hook and stamp. */
  function Recalculated(d: ProductDoc, now: nat): (r: ProductDoc)
    ensures CarbonConsistent(r)
    ensures r.totalCarbonFootprint == CarbonTotal(TotalCarbon(d.supplyChain), CARBON_UNIT, now)
    ensures r.sustainabilityScore == PlaceholderScore()
    ensures r.supplyChain == d.supplyChain && r.id == d.id && r.sku == d.sku && r.producer == d.producer
    ensures d.qrCode != "" ==> r.qrCode == d.qrCode
    ensures r.updatedAt == now
    ensures ValidDoc(d) ==> ValidDoc(r)
  {
    WithQrCode(d.(totalCarbonFootprint := CarbonTotal(TotalCarbon(d.supplyChain), CARBON_UNIT, now),
                  sustainabilityScore := PlaceholderScore(),
                  updatedAt := now), now)
  }

  /** Recalculating again changes nothing but the two timestamps. */
  lemma RecalculateIdempotent(d: ProductDoc, t1: nat, t2: nat)
    ensures var once := Recalculated(d, t1);
            Recalculated(once, t2)
            == once.(totalCarbonFootprint := once.totalCarbonFootprint.(lastCalculated := t2), updatedAt := t2)
  {
  }

  /** On a product whose stored total is up to date, recalculating leaves
      the total's value where it was. */
  lemma RecalculateKeepsConsistentTotal(d: ProductDoc, now: nat)
    requires CarbonConsistent(d)
    ensures Recalculated(d, now).totalCarbonFootprint.value == d.totalCarbonFootprint.value
  {
  }

  datatype Calculation = Calculation(totalCarbonFootprint: CarbonTotal, sustainabilityScore: Score,
                                     supplyChainBreakdown: seq<StageSummary>)

  /** POST /api/carbon/calculate. Any authenticated user may recalculate any
      product: there is no ownership check. */
  method Calculate(store: ProductStore, productId: Id, now: nat) returns (code: int, out: Option<Calculation>)
    requires store.Valid()
    modifies store
    ensures store.Valid()
    ensures match IndexOf(old(store.docs), productId)
            case None => code == NOT_FOUND && out.None? && store.docs == old(store.docs)
            case Some(k) =>
              var r := Recalculated(old(store.docs)[k], now);
              if ClashFree(old(store.docs), k, r) then
                && code == OK && store.docs == old(store.docs)[k := r]
                && out == Some(Calculation(r.totalCarbonFootprint, r.sustainabilityScore, Breakdown(r.supplyChain)))
              else
                code == SERVER_ERROR && out.None? && store.docs == old(store.docs)
    ensures code == OK ==>
              && out.Some?
              && out.value.totalCarbonFootprint.value == TotalCarbon(old(store.docs)[IndexOf(old(store.docs), productId).value].supplyChain)
              && |out.value.supplyChainBreakdown| == |old(store.docs)[IndexOf(old(store.docs), productId).value].supplyChain|
  {
    var k := IndexOf(store.docs, productId);
    if k.None? {
      return NOT_FOUND, None;
    }
    var p := new Product.Load(store.docs[k.value]);
    var total := p.CalculateTotalCarbonFootprint(now);
    var score := p.CalculateSustainabilityScore();
    p.sustainabilityScore := score;
    code := store.Save(k.value, p, now);
    if code != OK {
      return code, None;
    }
    var saved := store.docs[k.value];
    out := Some(Calculation(saved.totalCarbonFootprint, saved.sustainabilityScore, Breakdown(saved.supplyChain)));
  }

  datatype CarbonSummary = CarbonSummary(totalProducts: nat, totalCarbonFootprint: int,
                                         averageSustainabilityScore: int, carbonByCategory: map<Category, int>)

  /** GET /api/carbon/dashboard: `Product.find({ producer: req.user.id })`
      whatever the requester's role; `timeframe` is read but unused. */
  method GetCarbonDashboard(user: User, products: seq<ProductDoc>) returns (r: CarbonSummary)
    ensures var mine := Filter(products, d => D.OwnedByRequester(d, user.id));
            && r.totalProducts == |mine|
            && r.totalCarbonFootprint == SumOf(mine, StoredCarbon)
            && r.averageSustainabilityScore == RoundedMean(SumOf(mine, OverallScore), |mine|)
            && r.carbonByCategory == TallyOf(mine, D.CategoryOf, StoredCarbon)
    ensures r.totalProducts == 0 ==> r.averageSustainabilityScore == 0 && r.totalCarbonFootprint == 0
    ensures MapTotal(r.carbonByCategory) == r.totalCarbonFootprint
    ensures forall c :: c in r.carbonByCategory ==>
              exists d :: d in products && D.OwnedByRequester(d, user.id) && d.category == c
  {
    var mine := Filter(products, d => D.OwnedByRequester(d, user.id));
    var total := SumOf(mine, StoredCarbon);
    var average := RoundedMean(SumOf(mine, OverallScore), |mine|);
    var byCategory := Tally(mine, D.CategoryOf, StoredCarbon);
    TallyConserves(mine, D.CategoryOf, StoredCarbon);
    TallyKeys(mine, D.CategoryOf, StoredCarbon);
    forall c | c in byCategory
      ensures exists d :: d in products && D.OwnedByRequester(d, user.id) && d.category == c
    {
      var i :| 0 <= i < |mine| && D.CategoryOf(mine[i]) == c;
      assert mine[i] in mine;
    }
    r := CarbonSummary(|mine|, total, average, byCategory);
  }

  /** Over valid products the dashboard's average lies in the schema's [0, 100]. */
  lemma DashboardAverageInRange(user: User, products: seq<ProductDoc>)
    requires forall k :: 0 <= k < |products| ==> ValidDoc(products[k])
    ensures var mine := Filter(products, d => D.OwnedByRequester(d, user.id));
            0 <= RoundedMean(SumOf(mine, OverallScore), |mine|) <= 100
  {
    var mine := Filter(products, d => D.OwnedByRequester(d, user.id));
    assert forall k :: 0 <= k < |mine| ==> mine[k] in products;
    D.AverageInRange(mine);
  }
}
