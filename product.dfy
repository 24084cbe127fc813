/** The Product document (server/models/Product.js): fields, defaults and
    validators, the pre-save QR payload hook, `calculateSustainabilityScore`
    and `calculateTotalCarbonFootprint`.

    A persisted product is a `ProductDoc` value; a loaded document is a
    `Product` object whose methods change its fields in place. */
module ProductModel {
  import opened Common
  import opened Collections
  import opened JsString

  datatype Category = Agriculture | Textiles | Electronics | Food | Cosmetics | Energy | Other

  function CategoryName(c: Category): string
  {
    match c
    case Agriculture => "agriculture"
    case Textiles => "textiles"
    case Electronics => "electronics"
    case Food => "food"
    case Cosmetics => "cosmetics"
    case Energy => "energy"
    case Other => "other"
  }

  datatype ProductStatus = Draft | PendingVerification | Verified | Rejected | Archived

  datatype StageKind = RawMaterials | Production | Packaging | Transport | Retail | EndOfLife

  datatype DataSource = Manual | Iot | Api | DocumentSource

  datatype StageEvidenceType = Image | Document | SensorData | Certificate

  datatype Coordinates = Coordinates(lat: int, lng: int)

  datatype Location = Location(country: Option<string>, city: Option<string>, coordinates: Option<Coordinates>)

  datatype CarbonFootprint = CarbonFootprint(value: Option<int>, unit: string, calculationMethod: Option<string>)

  datatype StageEvidence = StageEvidence(kind: Option<StageEvidenceType>, url: Option<string>,
                                         description: Option<string>, uploadedAt: int)

  /** One supply-chain stage; `timestamp` defaults to the time it is added. */
  datatype Stage = Stage(
    stage: Option<StageKind>, location: Option<Location>, timestamp: int,
    carbonFootprint: CarbonFootprint, dataSource: Option<DataSource>,
    evidence: seq<StageEvidence>)

  datatype Score = Score(overall: int, carbon: int, social: int, environmental: int)

  datatype CarbonTotal = CarbonTotal(value: int, unit: string, lastCalculated: int)

  /** A stored product. `qrCode` is "" while no payload has been generated. */
  datatype ProductDoc = ProductDoc(
    id: Id, name: string, description: string, producer: Id, category: Category,
    sku: string, qrCode: string, supplyChain: seq<Stage>, sustainabilityScore: Score,
    totalCarbonFootprint: CarbonTotal, status: ProductStatus, createdAt: int, updatedAt: int)

  const CARBON_UNIT: string := "kg CO2e"

  predicate InRange(x: int)
  {
    0 <= x <= 100
  }

  /** Each sub-score within the schema's [0, 100]. */
  predicate ValidScore(s: Score)
  {
    InRange(s.overall) && InRange(s.carbon) && InRange(s.social) && InRange(s.environmental)
  }

  /** The validators `save()` runs: required strings non-empty, sub-scores
      within bounds. */
  predicate ValidDoc(d: ProductDoc)
  {
    && d.name != "" && d.description != "" && d.sku != ""
    && ValidScore(d.sustainabilityScore)
  }

  /** The enum check on `category`: the stored name of each category. */
  function CategoryFromName(s: string): (r: Option<Category>)
    ensures r.Some? ==> CategoryName(r.value) == s
    ensures r.None? ==> forall c :: CategoryName(c) != s
  {
    if s == "agriculture" then Some(Agriculture)
    else if s == "textiles" then Some(Textiles)
    else if s == "electronics" then Some(Electronics)
    else if s == "food" then Some(Food)
    else if s == "cosmetics" then Some(Cosmetics)
    else if s == "energy" then Some(Energy)
    else if s == "other" then Some(Other)
    else None
  }

  /** Every category passes the enum check as itself. */
  lemma CategoryNameRoundTrip(c: Category)
    ensures CategoryFromName(CategoryName(c)) == Some(c)
  {
  }

  function StatusName(s: ProductStatus): string
  {
    match s
    case Draft => "draft"
    case PendingVerification => "pending_verification"
    case Verified => "verified"
    case Rejected => "rejected"
    case Archived => "archived"
  }

  /** The document `new Product({...})` builds, before validation: a missing
      `name` or `description` is held as "" (both fail `required` alike), the
      name goes through the `trim` setter, and the defaults apply: status
      `draft`, every sub-score 0, no stages, a zero total stamped now. */
  function NewProduct(id: Id, name: Option<string>, description: Option<string>, producer: Id,
                      category: Category, sku: string, now: int): (d: ProductDoc)
    ensures d.status == Draft && d.sustainabilityScore == Score(0, 0, 0, 0)
    ensures d.totalCarbonFootprint == CarbonTotal(0, CARBON_UNIT, now)
    ensures d.supplyChain == [] && d.qrCode == ""
    ensures d.id == id && d.producer == producer && d.category == category && d.sku == sku
    ensures d.name == Trim(OrElse(name, "")) && d.description == OrElse(description, "")
    ensures d.createdAt == now && d.updatedAt == now
    ensures ValidDoc(d) <==> d.name != "" && Given(description) && sku != ""
  {
    var desc := OrElse(description, "");
    assert Given(description) <==> desc != "";
    ProductDoc(id, Trim(OrElse(name, "")), desc, producer, category, sku, "", [],
               Score(0, 0, 0, 0), CarbonTotal(0, CARBON_UNIT, now), Draft, now, now)
  }

  /** `GP-${sku}-${Date.now()}`. */
  function QrPayload(sku: string, now: nat): (r: string)
    ensures |r| == 4 + |sku| + |Decimal(now)|
    ensures r[..3] == "GP-" && r[3..3 + |sku|] == sku && r[3 + |sku|] == '-'
    ensures r[4 + |sku|..] == Decimal(now)
  {
    "GP-" + sku + "-" + Decimal(now)
  }

  /** The payload determines the SKU and the instant it was generated at:
      the timestamp has no '-', so the last '-' separates the two. */
  lemma QrPayloadInjective(sku1: string, t1: nat, sku2: string, t2: nat)
    requires QrPayload(sku1, t1) == QrPayload(sku2, t2)
    ensures sku1 == sku2 && t1 == t2
  {
    var r := QrPayload(sku1, t1);
    if |sku1| < |sku2| {
      SeparatorNotInDigits(sku1, t1, 3 + |sku2|);
      assert false;
    } else if |sku2| < |sku1| {
      SeparatorNotInDigits(sku2, t2, 3 + |sku1|);
      assert false;
    }
    assert sku1 == r[3..3 + |sku1|] == sku2;
    assert Decimal(t1) == r[4 + |sku1|..] == Decimal(t2);
    DecimalInjective(t1, t2);
  }

  lemma SeparatorNotInDigits(sku: string, t: nat, i: int)
    requires 4 + |sku| <= i < |QrPayload(sku, t)|
    ensures QrPayload(sku, t)[i] != '-'
  {
    var r := QrPayload(sku, t);
    assert r[i] == r[4 + |sku|..][i - 4 - |sku|];
  }

  /** The pre-save hook: a payload is generated only when none is set. */
  function WithQrCode(d: ProductDoc, now: nat): (r: ProductDoc)
    ensures d.qrCode != "" ==> r == d
    ensures d.qrCode == "" ==> r == d.(qrCode := QrPayload(d.sku, now))
    ensures r.qrCode != ""
  {
    if d.qrCode == "" then d.(qrCode := QrPayload(d.sku, now)) else d
  }

  /** Once a payload is stored, later saves keep it: the hook is idempotent. */
  lemma QrCodeStable(d: ProductDoc, t1: nat, t2: nat)
    ensures WithQrCode(WithQrCode(d, t1), t2) == WithQrCode(d, t1)
    ensures d.qrCode != "" ==> WithQrCode(d, t1).qrCode == d.qrCode
  {
  }

  /** The fields of a pushed stage as the request body gives them. */
  datatype CarbonInput = CarbonInput(value: Option<int>, unit: Option<string>, calculationMethod: Option<string>)

  datatype StageEvidenceInput = StageEvidenceInput(kind: Option<StageEvidenceType>, url: Option<string>,
                                                   description: Option<string>, uploadedAt: Option<int>)

  datatype StageInput = StageInput(
    stage: Option<StageKind>, location: Option<Location>, carbonFootprint: Option<CarbonInput>,
    dataSource: Option<DataSource>, evidence: seq<StageEvidenceInput>)

  /** One stage evidence item as cast: `uploadedAt` defaults to now only
      when the body leaves it out. */
  function StageEvidenceOf(e: StageEvidenceInput, now: int): (r: StageEvidence)
    ensures r.uploadedAt == OrElse(e.uploadedAt, now)
    ensures r.kind == e.kind && r.url == e.url && r.description == e.description
  {
    StageEvidence(e.kind, e.url, e.description, OrElse(e.uploadedAt, now))
  }

  function MapStageEvidence(es: seq<StageEvidenceInput>, now: int): (r: seq<StageEvidence>)
    ensures |r| == |es|
    ensures forall i :: 0 <= i < |es| ==> r[i] == StageEvidenceOf(es[i], now)
  {
    MapSeq(es, e => StageEvidenceOf(e, now))
  }

  /** The subdocument Mongoose casts from a pushed stage: the timestamp is
      now, each evidence's `uploadedAt` is the supplied one or else now, and
      the carbon unit is the supplied one or else "kg CO2e" (also when no
      footprint is given at all). */
  function StageOf(s: StageInput, now: int): (r: Stage)
    ensures r.timestamp == now && r.stage == s.stage && r.dataSource == s.dataSource
    ensures r.carbonFootprint.value == (if s.carbonFootprint.Some? then s.carbonFootprint.value.value else None)
    ensures r.location == s.location && r.evidence == MapStageEvidence(s.evidence, now)
    ensures forall i :: 0 <= i < |s.evidence| ==> r.evidence[i].uploadedAt == OrElse(s.evidence[i].uploadedAt, now)
    ensures r.carbonFootprint.unit ==
              if s.carbonFootprint.Some? && s.carbonFootprint.value.unit.Some?
              then s.carbonFootprint.value.unit.value else CARBON_UNIT
    ensures r.carbonFootprint.calculationMethod ==
              if s.carbonFootprint.Some? then s.carbonFootprint.value.calculationMethod else None
  {
    var cf := match s.carbonFootprint
              case None => CarbonFootprint(None, CARBON_UNIT, None)
              case Some(c) => CarbonFootprint(c.value, OrElse(c.unit, CARBON_UNIT), c.calculationMethod);
    Stage(s.stage, s.location, now, cf, s.dataSource, MapStageEvidence(s.evidence, now))
  }

  /** `stage.carbonFootprint?.value || 0`. */
  function StageCarbon(s: Stage): int
  {
    OrElse(s.carbonFootprint.value, 0)
  }

  /** The `reduce` over the supply chain. */
  function TotalCarbon(stages: seq<Stage>): int
  {
    SumOf(stages, StageCarbon)
  }

  lemma TotalCarbonEmpty()
    ensures TotalCarbon([]) == 0
  {
  }

  /** Appending a stage raises the total by exactly that stage's value. */
  lemma TotalCarbonAppend(stages: seq<Stage>, s: Stage)
    ensures TotalCarbon(stages + [s]) == TotalCarbon(stages) + StageCarbon(s)
  {
    SumOfSnoc(stages, s, StageCarbon);
  }

  /** `product.totalCarbonFootprint?.value || 0`, as the rollups read it. */
  function StoredCarbon(d: ProductDoc): int
  {
    d.totalCarbonFootprint.value
  }

  /** `product.sustainabilityScore?.overall || 0`, as the rollups read it. */
  function OverallScore(d: ProductDoc): int
  {
    d.sustainabilityScore.overall
  }

  /** The placeholder scoring: the same four numbers for every product. */
  function PlaceholderScore(): (s: Score)
    ensures ValidScore(s)
  {
    Score(75, 80, 70, 75)
  }

  class Product {
    var id: Id
    var name: string
    var description: string
    var producer: Id
    var category: Category
    var sku: string
    var qrCode: string
    var supplyChain: seq<Stage>
    var sustainabilityScore: Score
    var totalCarbonFootprint: CarbonTotal
    var status: ProductStatus
    var createdAt: int
    var updatedAt: int

    function Doc(): ProductDoc
      reads this
    {
      ProductDoc(id, name, description, producer, category, sku, qrCode, supplyChain,
                 sustainabilityScore, totalCarbonFootprint, status, createdAt, updatedAt)
    }

    constructor Load(d: ProductDoc)
      ensures Doc() == d
    {
      id, name, description, producer, category := d.id, d.name, d.description, d.producer, d.category;
      sku, qrCode, supplyChain := d.sku, d.qrCode, d.supplyChain;
      sustainabilityScore, totalCarbonFootprint := d.sustainabilityScore, d.totalCarbonFootprint;
      status, createdAt, updatedAt := d.status, d.createdAt, d.updatedAt;
    }

    /** The `pre("save")` hook, with `Date.now()` read as `now`. */
    method PreSave(now: nat)
      modifies this
      ensures Doc() == WithQrCode(old(Doc()), now)
    {
      if qrCode == "" {
        qrCode := QrPayload(sku, now);
      }
    }

    /** `calculateSustainabilityScore()`: reads nothing of the product. */
    method CalculateSustainabilityScore() returns (s: Score)
      ensures s == PlaceholderScore()
    {
      s := Score(75, 80, 70, 75);
    }

    /** `calculateTotalCarbonFootprint()`: stores and returns the stage sum. */
    method CalculateTotalCarbonFootprint(now: int) returns (total: int)
      modifies this
      ensures total == TotalCarbon(old(supplyChain))
      ensures Doc() == old(Doc()).(totalCarbonFootprint := CarbonTotal(total, CARBON_UNIT, now))
    {
      total := SumOf(supplyChain, StageCarbon);
      totalCarbonFootprint := CarbonTotal(total, CARBON_UNIT, now);
    }

    /** `supplyChain.push(stage)`. */
    method PushStage(s: Stage)
      modifies this
      ensures Doc() == old(Doc()).(supplyChain := old(supplyChain) + [s])
    {
      supplyChain := supplyChain + [s];
    }
  }
}
