/** The dashboard read routes (server/routes/dashboard.js): `/overview` with
    its per-role scoping and counts, and `/analytics` with its per-category,
    per-type and per-status reductions. Both read the products and the
    credentials collections as they stand. */
module Dashboard {
  import opened Common
  import opened Collections
  import opened Rollup
  import C = CredentialModel
  import P = ProductModel

  /** The `filter` object after the role branch: empty, or `{ producer }`. */
  datatype Scope = Everything | OwnedBy(producer: Id)

  function ScopeOf(user: User): (s: Scope)
    ensures s.OwnedBy? <==> user.role == Producer
    ensures s.OwnedBy? ==> s.producer == user.id
  {
    if user.role == Producer then OwnedBy(user.id) else Everything
  }

  predicate OwnedByRequester(d: P.ProductDoc, producer: Id)
  {
    d.producer == producer
  }

  /** `Product.find(filter)`. */
  function ProductsIn(products: seq<P.ProductDoc>, scope: Scope): (r: seq<P.ProductDoc>)
    ensures |r| <= |products|
    ensures forall d :: d in r <==> d in products && (scope.OwnedBy? ==> d.producer == scope.producer)
  {
    match scope
    case Everything => products
    case OwnedBy(id) => Filter(products, d => OwnedByRequester(d, id))
  }

  /** `Credential.find(filter)` with the same filter. Credentials have no
      `producer` path: with Mongoose's `strictQuery` on, the unknown path is
      dropped and every credential matches; with it off, none does. */
  function CredentialsIn(creds: seq<C.CredentialDoc>, scope: Scope, strictQuery: bool): seq<C.CredentialDoc>
  {
    if scope.Everything? || strictQuery then creds else []
  }

  /** `Credential.find({ "verification.verifier": id })`. */
  predicate VerifiedByRequester(c: C.CredentialDoc, id: Id)
  {
    c.verification.Some? && c.verification.value.verifier == id
  }

  predicate IsVerified(c: C.CredentialDoc)
  {
    c.status == C.Verified
  }

  predicate IsPending(c: C.CredentialDoc)
  {
    c.status == C.PendingVerification
  }

  // ---------------------------------------------------------------------
  // GET /api/dashboard/overview

  const RECENT_VERIFICATIONS: nat := 5

  datatype Overview =
    | VerifierOverview(totalVerifiedCredentials: nat, recentVerifications: seq<C.CredentialDoc>)
    | SummaryOverview(totalProducts: nat, totalCredentials: nat, verifiedCredentials: nat,
                      pendingCredentials: nat, totalCarbonFootprint: int, averageSustainabilityScore: int)

  function GetOverview(user: User, products: seq<P.ProductDoc>, creds: seq<C.CredentialDoc>,
                       strictQuery: bool): (r: Overview)
    ensures r.VerifierOverview? <==> user.role == Verifier
    ensures r.VerifierOverview? ==>
              var mine := Filter(creds, c => VerifiedByRequester(c, user.id));
              && r.totalVerifiedCredentials == |mine|
              && |r.recentVerifications| == Min(RECENT_VERIFICATIONS, |mine|)
              && r.recentVerifications == mine[..|r.recentVerifications|]
              && forall c :: c in r.recentVerifications ==> c in creds && VerifiedByRequester(c, user.id)
    ensures r.SummaryOverview? ==>
              var ps := ProductsIn(products, ScopeOf(user));
              var cs := CredentialsIn(creds, ScopeOf(user), strictQuery);
              && r.totalProducts == |ps| && r.totalCredentials == |cs|
              && r.verifiedCredentials == |Filter(cs, IsVerified)|
              && r.pendingCredentials == |Filter(cs, IsPending)|
              && r.verifiedCredentials + r.pendingCredentials <= r.totalCredentials
              && r.totalCarbonFootprint == SumOf(ps, P.StoredCarbon)
              && r.averageSustainabilityScore == RoundedMean(SumOf(ps, P.OverallScore), |ps|)
              && (ps == [] ==> r.averageSustainabilityScore == 0)
  {
    if user.role == Verifier then
      var mine := Filter(creds, c => VerifiedByRequester(c, user.id));
      var recent := mine[..Min(RECENT_VERIFICATIONS, |mine|)];
      assert forall c :: c in recent ==> c in mine;
      VerifierOverview(|mine|, recent)
    else
      var ps := ProductsIn(products, ScopeOf(user));
      var cs := CredentialsIn(creds, ScopeOf(user), strictQuery);
      FilterDisjointCount(cs, IsVerified, IsPending);
      SummaryOverview(|ps|, |cs|, |Filter(cs, IsVerified)|, |Filter(cs, IsPending)|,
                      SumOf(ps, P.StoredCarbon), RoundedMean(SumOf(ps, P.OverallScore), |ps|))
  }

  /** A producer's overview counts only that producer's products; an admin's
      or a consumer's counts every product. */
  lemma OverviewScoping(user: User, products: seq<P.ProductDoc>, creds: seq<C.CredentialDoc>, strictQuery: bool)
    requires user.role != Verifier
    ensures var r := GetOverview(user, products, creds, strictQuery);
            && (user.role == Producer ==>
                  r.totalProducts == |Filter(products, d => OwnedByRequester(d, user.id))|
                  && r.totalProducts <= |products|)
            && (user.role != Producer ==> r.totalProducts == |products| && r.totalCredentials == |creds|)
  {
  }

  /** For a producer the credential figures hinge on `strictQuery`: with it
      on they cover every credential, with it off there are none. */
  lemma ProducerCredentialFigures(user: User, products: seq<P.ProductDoc>, creds: seq<C.CredentialDoc>, strictQuery: bool)
    requires user.role == Producer
    ensures var r := GetOverview(user, products, creds, strictQuery);
            && (strictQuery ==> r.totalCredentials == |creds|)
            && (!strictQuery ==> r.totalCredentials == 0 && r.verifiedCredentials == 0 && r.pendingCredentials == 0)
  {
  }

  /** Over valid products the average score lies within the schema's [0, 100]. */
  lemma OverviewAverageInRange(user: User, products: seq<P.ProductDoc>, creds: seq<C.CredentialDoc>, strictQuery: bool)
    requires user.role != Verifier
    requires forall k :: 0 <= k < |products| ==> P.ValidDoc(products[k])
    ensures var r := GetOverview(user, products, creds, strictQuery);
            0 <= r.averageSustainabilityScore <= 100
  {
    var ps := ProductsIn(products, ScopeOf(user));
    assert forall k :: 0 <= k < |ps| ==> ps[k] in products;
    AverageInRange(ps);
  }

  /** The rounded mean of overall scores in [0, 100] stays in [0, 100]. */
  lemma AverageInRange(ps: seq<P.ProductDoc>)
    requires forall k :: 0 <= k < |ps| ==> P.ValidDoc(ps[k])
    ensures 0 <= RoundedMean(SumOf(ps, P.OverallScore), |ps|) <= 100
  {
    if ps != [] {
      SumOfBounds(ps, P.OverallScore, 0, 100);
      RoundedMeanWithin(SumOf(ps, P.OverallScore), |ps|, 0, 100);
    }
  }

  // ---------------------------------------------------------------------
  // GET /api/dashboard/analytics

  function CategoryOf(d: P.ProductDoc): P.Category
  {
    d.category
  }

  function TypeOf(c: C.CredentialDoc): C.CredentialType
  {
    c.ctype
  }

  function StatusOf(c: C.CredentialDoc): C.Status
  {
    c.status
  }

  datatype Analytics = Analytics(
    carbonByCategory: map<P.Category, int>, credentialsByType: map<C.CredentialType, int>,
    credentialsByStatus: map<C.Status, int>, totalProducts: nat, totalCredentials: nat)

  /** The analytics route; the verifier gets no branch of its own here, and
      `timeframe` is read but unused. */
  method GetAnalytics(user: User, products: seq<P.ProductDoc>, creds: seq<C.CredentialDoc>, strictQuery: bool)
    returns (a: Analytics)
    ensures var ps := ProductsIn(products, ScopeOf(user));
            var cs := CredentialsIn(creds, ScopeOf(user), strictQuery);
            && a.totalProducts == |ps| && a.totalCredentials == |cs|
            && a.carbonByCategory == TallyOf(ps, CategoryOf, P.StoredCarbon)
            && a.credentialsByType == TallyOf(cs, TypeOf, One)
            && a.credentialsByStatus == TallyOf(cs, StatusOf, One)
    ensures MapTotal(a.credentialsByType) == a.totalCredentials
    ensures MapTotal(a.credentialsByStatus) == a.totalCredentials
    ensures MapTotal(a.carbonByCategory) == SumOf(ProductsIn(products, ScopeOf(user)), P.StoredCarbon)
  {
    var ps := ProductsIn(products, ScopeOf(user));
    var cs := CredentialsIn(creds, ScopeOf(user), strictQuery);
    var byCategory := Tally(ps, CategoryOf, P.StoredCarbon);
    var byType := Tally(cs, TypeOf, One);
    var byStatus := Tally(cs, StatusOf, One);
    TallyConserves(ps, CategoryOf, P.StoredCarbon);
    CountsConserve(cs, TypeOf);
    CountsConserve(cs, StatusOf);
    a := Analytics(byCategory, byType, byStatus, |ps|, |cs|);
  }

  /** The per-status counts agree with the overview's: the `verified` bucket
      counts what the overview reports as verified credentials. */
  lemma AnalyticsAgreesWithOverview(user: User, products: seq<P.ProductDoc>, creds: seq<C.CredentialDoc>,
                                    strictQuery: bool)
    requires user.role != Verifier
    ensures var cs := CredentialsIn(creds, ScopeOf(user), strictQuery);
            var byStatus := TallyOf(cs, StatusOf, One);
            var r := GetOverview(user, products, creds, strictQuery);
            && (C.Verified in byStatus ==> byStatus[C.Verified] == r.verifiedCredentials)
            && (C.Verified !in byStatus ==> r.verifiedCredentials == 0)
  {
    VerifiedBucket(CredentialsIn(creds, ScopeOf(user), strictQuery));
  }

  lemma VerifiedBucket(cs: seq<C.CredentialDoc>)
    ensures var byStatus := TallyOf(cs, StatusOf, One);
            && (C.Verified in byStatus ==> byStatus[C.Verified] == |Filter(cs, IsVerified)|)
            && (C.Verified !in byStatus ==> |Filter(cs, IsVerified)| == 0)
  {
    if C.Verified in TallyOf(cs, StatusOf, One) {
      VerifiedBucketPresent(cs);
    } else {
      VerifiedBucketAbsent(cs);
    }
  }

  lemma VerifiedBucketPresent(cs: seq<C.CredentialDoc>)
    requires C.Verified in TallyOf(cs, StatusOf, One)
    ensures TallyOf(cs, StatusOf, One)[C.Verified] == |Filter(cs, IsVerified)|
  {
    TallyBucket(cs, StatusOf, One, C.Verified);
    FilterExt(cs, HasKey(StatusOf, C.Verified), IsVerified);
    SumOfOnes(Filter(cs, IsVerified));
  }

  lemma VerifiedBucketAbsent(cs: seq<C.CredentialDoc>)
    requires C.Verified !in TallyOf(cs, StatusOf, One)
    ensures Filter(cs, IsVerified) == []
  {
    TallyKeys(cs, StatusOf, One);
    assert forall i :: 0 <= i < |cs| ==> !IsVerified(cs[i]);
    FilterNone(cs, IsVerified);
  }
}
