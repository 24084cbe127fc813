/** The product REST handlers (server/routes/products.js) over an in-memory
    products collection: create, list, get by id, get by QR payload, update,
    add a supply-chain stage and delete, each answering with the status code
    the handler sends. */
module ProductRoutes {
  import opened Common
  import opened Collections
  import opened Paging
  import opened JsString
  import opened ProductModel

  // ---------------------------------------------------------------------
  // The collection's unique indexes and lookups

  /** `_id`, `sku` and `qrCode` are unique indexes. */
  predicate Unique(docs: seq<ProductDoc>)
  {
    forall i, j :: 0 <= i < j < |docs| ==>
      && docs[i].id != docs[j].id && docs[i].sku != docs[j].sku && docs[i].qrCode != docs[j].qrCode
  }

  /** Writing `d` at position `skip` (or appending it, `skip == |docs|`)
      violates no unique index. */
  predicate ClashFree(docs: seq<ProductDoc>, skip: int, d: ProductDoc)
  {
    forall j :: 0 <= j < |docs| && j != skip ==>
      && docs[j].id != d.id && docs[j].sku != d.sku && docs[j].qrCode != d.qrCode
  }

  lemma UniqueAppend(docs: seq<ProductDoc>, d: ProductDoc)
    requires Unique(docs) && ClashFree(docs, |docs|, d)
    ensures Unique(docs + [d])
  {
  }

  /** Appending a valid document keeps every document valid, and appending
      one whose total is up to date keeps every total up to date. */
  lemma AppendKeepsDocs(docs: seq<ProductDoc>, d: ProductDoc)
    ensures (forall k :: 0 <= k < |docs| ==> ValidDoc(docs[k])) && ValidDoc(d) ==>
              forall k :: 0 <= k < |docs + [d]| ==> ValidDoc((docs + [d])[k])
    ensures AllCarbonConsistent(docs) && CarbonConsistent(d) ==> AllCarbonConsistent(docs + [d])
  {
    forall k | 0 <= k < |docs| ensures (docs + [d])[k] == docs[k] {
    }
  }

  /** Removing a document keeps the others valid and their totals up to date. */
  lemma RemoveKeepsDocs(docs: seq<ProductDoc>, k: nat, r: seq<ProductDoc>)
    requires k < |docs| && r == docs[..k] + docs[k + 1..]
    ensures (forall i :: 0 <= i < |docs| ==> ValidDoc(docs[i])) ==> forall i :: 0 <= i < |r| ==> ValidDoc(r[i])
    ensures AllCarbonConsistent(docs) ==> AllCarbonConsistent(r)
  {
    assert forall i :: 0 <= i < k ==> r[i] == docs[i];
    assert forall i :: k <= i < |r| ==> r[i] == docs[i + 1];
  }

  lemma UniqueReplace(docs: seq<ProductDoc>, k: nat, d: ProductDoc)
    requires Unique(docs) && k < |docs| && ClashFree(docs, k, d)
    ensures Unique(docs[k := d])
  {
  }

  lemma UniqueRemove(docs: seq<ProductDoc>, k: nat)
    requires Unique(docs) && k < |docs|
    ensures Unique(docs[..k] + docs[k + 1..])
  {
    var r := docs[..k] + docs[k + 1..];
    forall i, j | 0 <= i < j < |r|
      ensures r[i].id != r[j].id && r[i].sku != r[j].sku && r[i].qrCode != r[j].qrCode
    {
      var i', j' := if i < k then i else i + 1, if j < k then j else j + 1;
      assert r[i] == docs[i'] && r[j] == docs[j'];
    }
  }

  function ProductId(d: ProductDoc): Id { d.id }

  function QrCodeOf(d: ProductDoc): string { d.qrCode }

  /** `findById`: the position of the document with this id, if any. */
  function IndexOf(docs: seq<ProductDoc>, id: Id): (r: Option<nat>)
    ensures r.None? <==> forall i :: 0 <= i < |docs| ==> docs[i].id != id
    ensures r.Some? ==> r.value < |docs| && docs[r.value].id == id
    ensures r.Some? ==> forall i :: 0 <= i < r.value ==> docs[i].id != id
  {
    FindFirst(docs, ProductId, id)
  }

  /** `findOne({ qrCode })`: the first document in natural order with this payload. */
  function IndexOfQr(docs: seq<ProductDoc>, qr: string): (r: Option<nat>)
    ensures r.None? <==> forall i :: 0 <= i < |docs| ==> docs[i].qrCode != qr
    ensures r.Some? ==> r.value < |docs| && docs[r.value].qrCode == qr
    ensures r.Some? ==> forall i :: 0 <= i < r.value ==> docs[i].qrCode != qr
  {
    FindFirst(docs, QrCodeOf, qr)
  }

  /** The ownership check of the update, stage and delete routes. */
  predicate MayEdit(user: User, d: ProductDoc)
  {
    d.producer == user.id || user.role == Admin
  }

  // ---------------------------------------------------------------------
  // GET /api/products/:id and GET /api/products/qr/:qrCode (public)

  function GetProduct(docs: seq<ProductDoc>, id: Id): (r: Result<ProductDoc>)
    ensures r.Err? <==> forall i :: 0 <= i < |docs| ==> docs[i].id != id
    ensures r.Err? ==> r.code == NOT_FOUND
    ensures r.Ok? ==> r.value in docs && r.value.id == id
  {
    match IndexOf(docs, id)
    case None => Err(NOT_FOUND)
    case Some(k) => Ok(docs[k])
  }

  function GetProductByQr(docs: seq<ProductDoc>, qr: string): (r: Result<ProductDoc>)
    ensures r.Err? <==> forall i :: 0 <= i < |docs| ==> docs[i].qrCode != qr
    ensures r.Err? ==> r.code == NOT_FOUND
    ensures r.Ok? ==> r.value in docs && r.value.qrCode == qr
  {
    match IndexOfQr(docs, qr)
    case None => Err(NOT_FOUND)
    case Some(k) => Ok(docs[k])
  }

  /** Under the unique indexes a stored product's payload leads back to
      exactly that product, as does its id. */
  lemma LookupsFindStored(docs: seq<ProductDoc>, k: nat)
    requires Unique(docs) && k < |docs|
    ensures GetProductByQr(docs, docs[k].qrCode) == Ok(docs[k])
    ensures GetProduct(docs, docs[k].id) == Ok(docs[k])
  {
    var q := IndexOfQr(docs, docs[k].qrCode);
    assert q.Some? && q.value <= k;
    var i := IndexOf(docs, docs[k].id);
    assert i.Some? && i.value <= k;
  }

  // ---------------------------------------------------------------------
  // GET /api/products (public)

  /** The `sortBy` fields with a numeric (date or number) value. */
  datatype SortField = ByCreatedAt | ByUpdatedAt | ByTotalCarbon | ByOverallScore

  function SortKey(f: SortField): ProductDoc -> int
  {
    match f
    case ByCreatedAt => (d: ProductDoc) => d.createdAt
    case ByUpdatedAt => (d: ProductDoc) => d.updatedAt
    case ByTotalCarbon => (d: ProductDoc) => d.totalCarbonFootprint.value
    case ByOverallScore => (d: ProductDoc) => d.sustainabilityScore.overall
  }

  datatype ProductQuery = ProductQuery(
    category: Option<string>, producer: Option<Id>, status: Option<string>,
    page: Option<int>, limit: Option<int>, sortBy: Option<SortField>, sortOrder: Option<string>)

  /** The `filter`: each truthy query value must equal the stored one. */
  predicate MatchesQuery(d: ProductDoc, q: ProductQuery)
  {
    && (Given(q.category) ==> CategoryName(d.category) == q.category.value)
    && (Given(q.producer) ==> d.producer == q.producer.value)
    && (Given(q.status) ==> StatusName(d.status) == q.status.value)
  }

  /** `sortOrder === "desc" ? -1 : 1`, with "desc" the default. */
  predicate Descending(q: ProductQuery)
  {
    OrElse(q.sortOrder, "desc") == "desc"
  }

  function SortOf(q: ProductQuery): ProductDoc -> int
  {
    SortKey(OrElse(q.sortBy, ByCreatedAt))
  }

  function ListProducts(docs: seq<ProductDoc>, q: ProductQuery): (r: Result<Page<ProductDoc>>)
    ensures var page, limit := OrElse(q.page, DEFAULT_PAGE), OrElse(q.limit, DEFAULT_LIMIT);
            && (r.Err? <==> (page - 1) * limit < 0)
            && (r.Err? ==> r.code == SERVER_ERROR)
            && (r.Ok? ==> r.value.page == page && r.value.limit == limit)
            && (r.Ok? && limit > 0 ==> |r.value.items| <= limit)
            && (r.Ok? ==> r.value.pages == PageCount(r.value.total, limit))
    ensures r.Ok? ==> forall d :: d in r.value.items ==> d in docs && MatchesQuery(d, q)
    ensures r.Ok? ==> SortedBy(r.value.items, SortOf(q), Descending(q))
    ensures r.Ok? ==> r.value.total == |Filter(docs, d => MatchesQuery(d, q))|
    ensures r.Ok? ==> exists sorted :: IsOrdering(sorted, Filter(docs, d => MatchesQuery(d, q)), SortOf(q), Descending(q))
                                      && IsPageOf(r.value.items, sorted, OrElse(q.page, DEFAULT_PAGE),
                                                  OrElse(q.limit, DEFAULT_LIMIT))
  {
    Listing(docs, d => MatchesQuery(d, q), SortOf(q), Descending(q), OrElse(q.page, DEFAULT_PAGE), OrElse(q.limit, DEFAULT_LIMIT))
  }

  /** Whether product `d` is among the items of page `p` of the listing. */
  predicate ListedOn(docs: seq<ProductDoc>, q: ProductQuery, p: int, d: ProductDoc)
  {
    var r := ListProducts(docs, q.(page := Some(p)));
    r.Ok? && d in r.value.items
  }

  /** With a positive limit, paging through the catalogue reaches every
      product the filter matches: none falls between two pages. */
  lemma EveryMatchListed(docs: seq<ProductDoc>, q: ProductQuery, d: ProductDoc)
    requires OrElse(q.limit, DEFAULT_LIMIT) > 0
    requires d in docs && MatchesQuery(d, q)
    ensures exists p :: p >= 1 && ListedOn(docs, q, p, d)
  {
    var limit := OrElse(q.limit, DEFAULT_LIMIT);
    var sel := x => MatchesQuery(x, q);
    EverySelectedListed(docs, sel, SortOf(q), Descending(q), limit, d);
    var p :| p >= 1 && Listing(docs, sel, SortOf(q), Descending(q), p, limit).Ok?
             && d in Listing(docs, sel, SortOf(q), Descending(q), p, limit).value.items;
    var q' := q.(page := Some(p));
    FilterExt(docs, x => MatchesQuery(x, q'), sel);
    assert ListedOn(docs, q, p, d);
  }

  /** With no filter the total is the size of the collection. */
  lemma UnfilteredListCountsAll(docs: seq<ProductDoc>, page: Option<int>, limit: Option<int>,
                                sortBy: Option<SortField>, sortOrder: Option<string>)
    ensures var r := ListProducts(docs, ProductQuery(None, None, None, page, limit, sortBy, sortOrder));
            r.Ok? ==> r.value.total == |docs|
  {
    var q := ProductQuery(None, None, None, page, limit, sortBy, sortOrder);
    FilterAll(docs, d => MatchesQuery(d, q));
  }

  // ---------------------------------------------------------------------
  // Request bodies

  /** `GP-${category.toUpperCase()}-${Date.now()}-${uuidv4().slice(0, 8)}`. */
  function Sku(category: string, now: nat, uuid: string): (r: string)
    ensures |r| == 5 + |category| + |Decimal(now)| + Min(8, |uuid|)
    ensures r[..3] == "GP-" && r[3..3 + |category|] == ToUpper(category)
    ensures r[3 + |category|] == '-'
    ensures r[4 + |category|..4 + |category| + |Decimal(now)|] == Decimal(now)
    ensures r[4 + |category| + |Decimal(now)|] == '-'
    ensures r[5 + |category| + |Decimal(now)|..] == uuid[..Min(8, |uuid|)]
  {
    "GP-" + ToUpper(category) + "-" + Decimal(now) + "-" + uuid[..Min(8, |uuid|)]
  }

  datatype ProductBody = ProductBody(name: Option<string>, description: Option<string>, category: Option<string>)

  /** The `$set` an update body amounts to; `None` leaves a path untouched. */
  datatype ProductPatch = ProductPatch(
    name: Option<string>, description: Option<string>, category: Option<string>,
    sku: Option<string>, qrCode: Option<string>, producer: Option<Id>,
    status: Option<ProductStatus>, sustainabilityScore: Option<Score>,
    supplyChain: Option<seq<Stage>>)

  /** `runValidators`: the validators of the updated paths only. */
  predicate PatchValid(p: ProductPatch)
  {
    && (p.name.Some? ==> Trim(p.name.value) != "")
    && (p.description.Some? ==> p.description.value != "")
    && (p.category.Some? ==> CategoryFromName(p.category.value).Some?)
    && (p.sku.Some? ==> p.sku.value != "")
    && (p.sustainabilityScore.Some? ==> ValidScore(p.sustainabilityScore.value))
  }

  /** The document after `findByIdAndUpdate`: supplied paths replaced (the
      name through its `trim` setter), `updatedAt` stamped, and no document
      hook run, so neither the QR payload nor the carbon total is recomputed. */
  function Patched(d: ProductDoc, p: ProductPatch, now: int): (r: ProductDoc)
    requires PatchValid(p)
    ensures r.id == d.id && r.createdAt == d.createdAt && r.updatedAt == now
    ensures r.name == (if p.name.Some? then Trim(p.name.value) else d.name)
    ensures r.sku == OrElse(p.sku, d.sku) && r.qrCode == OrElse(p.qrCode, d.qrCode)
    ensures p.category.Some? ==> CategoryFromName(p.category.value) == Some(r.category)
                                 && CategoryName(r.category) == p.category.value
    ensures p.category.None? ==> r.category == d.category
    ensures r.description == OrElse(p.description, d.description)
    ensures r.supplyChain == OrElse(p.supplyChain, d.supplyChain)
    ensures r.producer == OrElse(p.producer, d.producer)
    ensures r.status == OrElse(p.status, d.status)
    ensures r.sustainabilityScore == OrElse(p.sustainabilityScore, d.sustainabilityScore)
    ensures r.totalCarbonFootprint == d.totalCarbonFootprint
    ensures r == d.(name := r.name, description := r.description, category := r.category,
                    sku := r.sku, qrCode := r.qrCode, producer := r.producer, status := r.status,
                    sustainabilityScore := r.sustainabilityScore, supplyChain := r.supplyChain,
                    updatedAt := r.updatedAt)
    ensures ValidDoc(d) ==> ValidDoc(r)
  {
    var category := if p.category.Some? then CategoryFromName(p.category.value).value else d.category;
    d.(name := if p.name.Some? then Trim(p.name.value) else d.name,
       description := OrElse(p.description, d.description),
       category := category,
       sku := OrElse(p.sku, d.sku),
       qrCode := OrElse(p.qrCode, d.qrCode),
       producer := OrElse(p.producer, d.producer),
       status := OrElse(p.status, d.status),
       sustainabilityScore := OrElse(p.sustainabilityScore, d.sustainabilityScore),
       supplyChain := OrElse(p.supplyChain, d.supplyChain),
       updatedAt := now)
  }

  /** An empty body only moves `updatedAt`. */
  lemma EmptyPatchTouchesOnly(d: ProductDoc, now: int)
    ensures Patched(d, ProductPatch(None, None, None, None, None, None, None, None, None), now)
            == d.(updatedAt := now)
  {
  }

  /** The stored total agrees with the stages it was computed from. */
  predicate CarbonConsistent(d: ProductDoc)
  {
    d.totalCarbonFootprint.value == TotalCarbon(d.supplyChain)
  }

  /** An update that replaces the stages with a chain of a different total
      leaves the stored total stale, since no hook recomputes it; a product
      stays consistent exactly when the replacement chain has the stored total. */
  lemma PatchingStagesLeavesTotalStale(d: ProductDoc, p: ProductPatch, now: int)
    requires PatchValid(p) && CarbonConsistent(d) && p.supplyChain.Some?
    ensures CarbonConsistent(Patched(d, p, now)) <==> TotalCarbon(p.supplyChain.value) == TotalCarbon(d.supplyChain)
    ensures TotalCarbon(p.supplyChain.value) != TotalCarbon(d.supplyChain) ==> !CarbonConsistent(Patched(d, p, now))
  {
  }

  /** Such patches exist: one stage of 5 over an empty chain. */
  lemma StalePatchExists(d: ProductDoc, s: Stage, now: int)
    requires d.supplyChain == [] && CarbonConsistent(d)
    requires s.carbonFootprint.value == Some(5)
    ensures var p := ProductPatch(None, None, None, None, None, None, None, None, Some([s]));
            !CarbonConsistent(Patched(d, p, now))
  {
    TotalCarbonAppend([], s);
    assert [] + [s] == [s];
  }

  /** The document the stage route saves: the stage pushed, the total
      recomputed, the placeholder score set, then the save's hook and stamp. */
  function AfterStage(d: ProductDoc, s: StageInput, now: nat): (r: ProductDoc)
    ensures r.supplyChain == d.supplyChain + [StageOf(s, now)]
    ensures r.totalCarbonFootprint
            == CarbonTotal(TotalCarbon(d.supplyChain) + StageCarbon(StageOf(s, now)), CARBON_UNIT, now)
    ensures CarbonConsistent(r)
    ensures r.sustainabilityScore == PlaceholderScore()
    ensures r.id == d.id && r.sku == d.sku && r.producer == d.producer && r.updatedAt == now
    ensures d.qrCode != "" ==> r.qrCode == d.qrCode
    ensures ValidDoc(d) ==> ValidDoc(r)
  {
    var chain := d.supplyChain + [StageOf(s, now)];
    TotalCarbonAppend(d.supplyChain, StageOf(s, now));
    WithQrCode(d.(supplyChain := chain,
                  totalCarbonFootprint := CarbonTotal(TotalCarbon(chain), CARBON_UNIT, now),
                  sustainabilityScore := PlaceholderScore(),
                  updatedAt := now), now)
  }

  ghost predicate AllCarbonConsistent(docs: seq<ProductDoc>)
  {
    forall k :: 0 <= k < |docs| ==> CarbonConsistent(docs[k])
  }

  // ---------------------------------------------------------------------
  // The collection and the mutating routes

  class ProductStore {
    var docs: seq<ProductDoc>

    ghost predicate Valid()
      reads this
    {
      Unique(docs) && forall k :: 0 <= k < |docs| ==> ValidDoc(docs[k])
    }

    constructor ()
      ensures Valid() && docs == []
    {
      docs := [];
    }

    /** `await product.save()` for the loaded document at position `k`:
        validation, the pre-save hook and the `updatedAt` stamp, then the
        write, which fails on a unique-index clash. */
    method Save(k: nat, p: Product, now: nat) returns (code: int)
      requires Valid() && k < |docs| && p.Doc().id == docs[k].id
      modifies this, p
      ensures Valid()
      ensures var s := WithQrCode(old(p.Doc()), now).(updatedAt := now);
              if ValidDoc(old(p.Doc())) && ClashFree(old(docs), k, s) then
                code == OK && docs == old(docs)[k := s]
              else
                code == SERVER_ERROR && docs == old(docs)
    {
      if !ValidDoc(p.Doc()) {
        return SERVER_ERROR;
      }
      p.PreSave(now);
      p.updatedAt := now;
      if !ClashFree(docs, k, p.Doc()) {
        return SERVER_ERROR;
      }
      UniqueReplace(docs, k, p.Doc());
      docs := docs[k := p.Doc()];
      code := OK;
    }

    /** POST /api/products. A failure to render the QR image after the save
        (`qrRenders == false`) answers 500 with the product already stored. */
    method Create(user: User, body: ProductBody, newId: Id, now: nat, uuid: string, qrRenders: bool)
      returns (code: int)
      requires Valid()
      modifies this
      ensures Valid()
      ensures !Authorized(user, {Producer, Admin}) ==> code == FORBIDDEN && docs == old(docs)
      ensures Authorized(user, {Producer, Admin}) && body.category.None? ==>
                code == SERVER_ERROR && docs == old(docs)
      ensures Authorized(user, {Producer, Admin}) && body.category.Some? ==>
                var cat := body.category.value;
                match CategoryFromName(cat)
                case None => code == SERVER_ERROR && docs == old(docs)
                case Some(c) =>
                  var d := NewProduct(newId, body.name, body.description, user.id, c, Sku(cat, now, uuid), now);
                  var s := WithQrCode(d, now);
                  if !ValidDoc(d) || !ClashFree(old(docs), |old(docs)|, s) then
                    code == SERVER_ERROR && docs == old(docs)
                  else
                    docs == old(docs) + [s] && code == (if qrRenders then CREATED else SERVER_ERROR)
      ensures AllCarbonConsistent(old(docs)) ==> AllCarbonConsistent(docs)
    {
      if !Authorized(user, {Producer, Admin}) {
        return FORBIDDEN;
      }
      if body.category.None? {
        return SERVER_ERROR;
      }
      var cat := body.category.value;
      var sku := Sku(cat, now, uuid);
      var c := CategoryFromName(cat);
      if c.None? {
        return SERVER_ERROR;
      }
      var p := new Product.Load(NewProduct(newId, body.name, body.description, user.id, c.value, sku, now));
      if !ValidDoc(p.Doc()) {
        return SERVER_ERROR;
      }
      p.PreSave(now);
      if !ClashFree(docs, |docs|, p.Doc()) {
        return SERVER_ERROR;
      }
      TotalCarbonEmpty();
      UniqueAppend(docs, p.Doc());
      AppendKeepsDocs(docs, p.Doc());
      docs := docs + [p.Doc()];
      code := if qrRenders then CREATED else SERVER_ERROR;
    }

    /** PUT /api/products/:id */
    method Update(user: User, id: Id, patch: ProductPatch, now: nat) returns (code: int)
      requires Valid()
      modifies this
      ensures Valid()
      ensures match IndexOf(old(docs), id)
              case None => code == NOT_FOUND && docs == old(docs)
              case Some(k) =>
                if !MayEdit(user, old(docs)[k]) then code == FORBIDDEN && docs == old(docs)
                else if !PatchValid(patch) then code == SERVER_ERROR && docs == old(docs)
                else
                  var r := Patched(old(docs)[k], patch, now);
                  if ClashFree(old(docs), k, r) then code == OK && docs == old(docs)[k := r]
                  else code == SERVER_ERROR && docs == old(docs)
      ensures patch.supplyChain.None? && AllCarbonConsistent(old(docs)) ==> AllCarbonConsistent(docs)
    {
      var k := IndexOf(docs, id);
      if k.None? {
        return NOT_FOUND;
      }
      if !MayEdit(user, docs[k.value]) {
        return FORBIDDEN;
      }
      if !PatchValid(patch) {
        return SERVER_ERROR;
      }
      var r := Patched(docs[k.value], patch, now);
      if !ClashFree(docs, k.value, r) {
        return SERVER_ERROR;
      }
      UniqueReplace(docs, k.value, r);
      docs := docs[k.value := r];
      code := OK;
    }

    /** POST /api/products/:id/supply-chain */
    method AddStage(user: User, id: Id, stage: StageInput, now: nat) returns (code: int)
      requires Valid()
      modifies this
      ensures Valid()
      ensures match IndexOf(old(docs), id)
              case None => code == NOT_FOUND && docs == old(docs)
              case Some(k) =>
                if !MayEdit(user, old(docs)[k]) then code == FORBIDDEN && docs == old(docs)
                else
                  var r := AfterStage(old(docs)[k], stage, now);
                  && (ClashFree(old(docs), k, r) ==> code == OK && docs == old(docs)[k := r])
                  && (!ClashFree(old(docs), k, r) ==> code == SERVER_ERROR && docs == old(docs))
                  && (old(docs)[k].qrCode != "" ==> code == OK)
      ensures AllCarbonConsistent(old(docs)) ==> AllCarbonConsistent(docs)
    {
      var k := IndexOf(docs, id);
      if k.None? {
        return NOT_FOUND;
      }
      var d := docs[k.value];
      if !MayEdit(user, d) {
        return FORBIDDEN;
      }
      var p := new Product.Load(d);
      p.PushStage(StageOf(stage, now));
      var total := p.CalculateTotalCarbonFootprint(now);
      var score := p.CalculateSustainabilityScore();
      p.sustainabilityScore := score;
      TotalCarbonAppend(d.supplyChain, StageOf(stage, now));
      assert ValidDoc(p.Doc());
      code := Save(k.value, p, now);
    }

    /** DELETE /api/products/:id */
    method Delete(user: User, id: Id) returns (code: int)
      requires Valid()
      modifies this
      ensures Valid()
      ensures match IndexOf(old(docs), id)
              case None => code == NOT_FOUND && docs == old(docs)
              case Some(k) =>
                if !MayEdit(user, old(docs)[k]) then code == FORBIDDEN && docs == old(docs)
                else code == OK && docs == old(docs)[..k] + old(docs)[k + 1..]
      ensures AllCarbonConsistent(old(docs)) ==> AllCarbonConsistent(docs)
    {
      var k := IndexOf(docs, id);
      if k.None? {
        return NOT_FOUND;
      }
      if !MayEdit(user, docs[k.value]) {
        return FORBIDDEN;
      }
      UniqueRemove(docs, k.value);
      RemoveKeepsDocs(docs, k.value, docs[..k.value] + docs[k.value + 1..]);
      docs := docs[..k.value] + docs[k.value + 1..];
      code := OK;
    }
  }
}
