/** The Credential document (server/models/Credential.js): its fields and
    defaults, the save-time validators, the pre-save expiry hook and the three
    document methods `addAuditEntry`, `verify` and `revoke`.

    A persisted credential is a `CredentialDoc` value; a loaded, mutable
    document is a `Credential` object whose methods change its fields in
    place, each specified by a function on `CredentialDoc`. */
module CredentialModel {
  import opened Common
  import opened Collections
  import opened JsString

  datatype CredentialType =
    | OrganicCertification | FairTrade | CarbonNeutral | Recyclable
    | CrueltyFree | SustainableMaterials | EnergyEfficient | WaterConservation
    | BiodiversityProtection | SocialResponsibility | RegenerativeAgriculture
    | CircularEconomy

  datatype Status = Draft | PendingVerification | Verified | Rejected | Expired | Revoked

  datatype EvidenceType = Document | Image | SensorData | TestResult | AuditReport | Certificate

  datatype VerificationMethod = DocumentReview | SiteVisit | ThirdPartyAudit | AutomatedCheck

  datatype AuditAction =
    | CreatedAction | SubmittedAction | VerifiedAction | RejectedAction
    | ExpiredAction | RevokedAction | UpdatedAction

  /** One evidence attachment; `uploadedAt` defaults to the creation time. */
  datatype Evidence = Evidence(
    kind: Option<EvidenceType>, title: Option<string>, description: Option<string>,
    url: Option<string>, hash: Option<string>, uploadedAt: int,
    verifiedBy: Option<Id>, verifiedAt: Option<int>)

  /** One criteria requirement; `isMet` defaults to false. */
  datatype Requirement = Requirement(
    criterion: Option<string>, isMet: bool, evidence: Option<string>,
    verifiedBy: Option<Id>, verifiedAt: Option<int>)

  datatype Criteria = Criteria(standard: string, version: Option<string>, requirements: seq<Requirement>)

  datatype ValidityPeriod = ValidityPeriod(issuedAt: int, expiresAt: int, isExpired: bool)

  /** The `verification` block, present once `verify` has run. */
  datatype Verification = Verification(
    verifier: Id, verifiedAt: int, vmethod: Option<VerificationMethod>,
    notes: Option<string>, score: Option<int>)

  datatype AuditEntry = AuditEntry(action: AuditAction, performedBy: Id, timestamp: int, notes: string)

  /** A stored credential. `createdAt` is the schema's automatic timestamp
      (milliseconds, like every instant here). */
  datatype CredentialDoc = CredentialDoc(
    id: Id, name: string, ctype: CredentialType, issuer: Id, holder: Id,
    product: Option<Id>, guardianPolicyId: string, status: Status,
    validity: ValidityPeriod, evidence: seq<Evidence>, criteria: Criteria,
    verification: Option<Verification>, auditTrail: seq<AuditEntry>, createdAt: int)

  const SCORE_MIN: int := 0
  const SCORE_MAX: int := 100

  /** The validators `save()` runs: required strings non-empty and a
      verification score, when present, in [0, 100]. */
  predicate ValidDoc(d: CredentialDoc)
  {
    && d.name != ""
    && d.guardianPolicyId != ""
    && d.criteria.standard != ""
    && (d.verification.Some? && d.verification.value.score.Some? ==>
          SCORE_MIN <= d.verification.value.score.value <= SCORE_MAX)
  }

  // ---------------------------------------------------------------------
  // Creating a document: `new Credential({...})` with the schema defaults

  datatype EvidenceInput = EvidenceInput(
    kind: Option<EvidenceType>, title: Option<string>, description: Option<string>,
    url: Option<string>, hash: Option<string>, uploadedAt: Option<int>,
    verifiedBy: Option<Id>, verifiedAt: Option<int>)

  datatype RequirementInput = RequirementInput(
    criterion: Option<string>, isMet: Option<bool>, evidence: Option<string>,
    verifiedBy: Option<Id>, verifiedAt: Option<int>)

  datatype CriteriaInput = CriteriaInput(standard: Option<string>, version: Option<string>, requirements: seq<RequirementInput>)

  datatype ValidityInput = ValidityInput(issuedAt: Option<int>, expiresAt: Option<int>, isExpired: Option<bool>)

  /** The constructor's input object (a request body's fields plus the issuer). */
  datatype CredentialInput = CredentialInput(
    name: Option<string>, ctype: Option<CredentialType>, issuer: Id, holder: Option<Id>,
    product: Option<Id>, guardianPolicyId: Option<string>,
    validityPeriod: Option<ValidityInput>, criteria: Option<CriteriaInput>,
    evidence: seq<EvidenceInput>)

  function EvidenceOf(e: EvidenceInput, now: int): (r: Evidence)
    ensures r.uploadedAt == OrElse(e.uploadedAt, now)
  {
    Evidence(e.kind, e.title, e.description, e.url, e.hash, OrElse(e.uploadedAt, now),
             e.verifiedBy, e.verifiedAt)
  }

  function RequirementOf(q: RequirementInput): (r: Requirement)
    ensures r.isMet == OrElse(q.isMet, false)
  {
    Requirement(q.criterion, OrElse(q.isMet, false), q.evidence, q.verifiedBy, q.verifiedAt)
  }

  function MapEvidence(es: seq<EvidenceInput>, now: int): (r: seq<Evidence>)
    ensures |r| == |es|
    ensures forall i :: 0 <= i < |es| ==> r[i] == EvidenceOf(es[i], now)
  {
    MapSeq(es, e => EvidenceOf(e, now))
  }

  function MapRequirements(qs: seq<RequirementInput>): (r: seq<Requirement>)
    ensures |r| == |qs|
    ensures forall i :: 0 <= i < |qs| ==> r[i] == RequirementOf(qs[i])
  {
    MapSeq(qs, RequirementOf)
  }

  /** Whether the required paths of a new document are all present:
      name (after trimming), type, holder, guardianPolicyId,
      validityPeriod.expiresAt and criteria.standard. */
  predicate HasRequired(input: CredentialInput)
  {
    && input.name.Some? && Trim(input.name.value) != ""
    && input.ctype.Some?
    && input.holder.Some?
    && Given(input.guardianPolicyId)
    && input.validityPeriod.Some? && input.validityPeriod.value.expiresAt.Some?
    && input.criteria.Some? && Given(input.criteria.value.standard)
  }

  /** The document `new Credential(input)` builds when the required paths are
      present, with the schema defaults filled in; None when validation of
      the required paths would make `save()` throw. */
  function NewCredential(input: CredentialInput, id: Id, now: int): (r: Option<CredentialDoc>)
    ensures r.Some? <==> HasRequired(input)
    ensures r.Some? ==>
              && r.value.id == id
              && r.value.issuer == input.issuer
              && r.value.status == Draft
              && r.value.validity.isExpired == OrElse(input.validityPeriod.value.isExpired, false)
              && r.value.validity.issuedAt == OrElse(input.validityPeriod.value.issuedAt, now)
              && r.value.validity.expiresAt == input.validityPeriod.value.expiresAt.value
              && r.value.verification.None?
              && r.value.auditTrail == []
              && r.value.createdAt == now
              && r.value.evidence == MapEvidence(input.evidence, now)
    ensures r.Some? ==>
              && r.value.ctype == input.ctype.value
              && r.value.holder == input.holder.value
              && r.value.product == input.product
              && r.value.guardianPolicyId == input.guardianPolicyId.value
              && r.value.criteria.standard == input.criteria.value.standard.value
              && r.value.criteria.version == input.criteria.value.version
              && r.value.criteria.requirements == MapRequirements(input.criteria.value.requirements)
    ensures r.Some? ==> ValidDoc(r.value) && r.value.name == Trim(input.name.value)
  {
    if !HasRequired(input) then None
    else
      var v := input.validityPeriod.value;
      var c := input.criteria.value;
      Some(CredentialDoc(
        id, Trim(input.name.value), input.ctype.value, input.issuer, input.holder.value,
        input.product, input.guardianPolicyId.value, Draft,
        ValidityPeriod(OrElse(v.issuedAt, now), v.expiresAt.value, OrElse(v.isExpired, false)),
        MapEvidence(input.evidence, now),
        Criteria(c.standard.value, c.version, MapRequirements(c.requirements)),
        None, [], now))
  }

  // ---------------------------------------------------------------------
  // The document transitions, as functions on stored values

  /** The pre-save hook: past `expiresAt` the credential is flagged expired,
      and a verified one becomes `expired`. */
  function CheckExpiry(d: CredentialDoc, now: int): (r: CredentialDoc)
    ensures now > d.validity.expiresAt ==> r.validity.isExpired
    ensures now <= d.validity.expiresAt ==> r == d
    ensures r.status != d.status ==> d.status == Verified && r.status == Expired
    ensures d.status == Verified && now > d.validity.expiresAt ==> r.status == Expired
    ensures r == d.(status := r.status, validity := r.validity)
    ensures r.validity.issuedAt == d.validity.issuedAt && r.validity.expiresAt == d.validity.expiresAt
  {
    if now > d.validity.expiresAt then
      d.(validity := d.validity.(isExpired := true),
         status := if d.status == Verified then Expired else d.status)
    else d
  }

  /** `addAuditEntry(action, performedBy, notes = "")` stamped at `now`. */
  function WithAuditEntry(d: CredentialDoc, action: AuditAction, performedBy: Id,
                          notes: Option<string>, now: int): (r: CredentialDoc)
    ensures |r.auditTrail| == |d.auditTrail| + 1
    ensures r.auditTrail[..|d.auditTrail|] == d.auditTrail
    ensures r.auditTrail[|d.auditTrail|] == AuditEntry(action, performedBy, now, OrElse(notes, ""))
    ensures r == d.(auditTrail := r.auditTrail)
  {
    d.(auditTrail := d.auditTrail + [AuditEntry(action, performedBy, now, OrElse(notes, ""))])
  }

  /** `verify(verifier, method, notes, score)`. */
  function VerifiedBy(d: CredentialDoc, verifier: Id, vmethod: Option<VerificationMethod>,
                      notes: Option<string>, score: Option<int>, now: int): (r: CredentialDoc)
    ensures r.status == Verified
    ensures r.verification == Some(Verification(verifier, now, vmethod, notes, score))
    ensures |r.auditTrail| == |d.auditTrail| + 1 && r.auditTrail[..|d.auditTrail|] == d.auditTrail
    ensures r.auditTrail[|d.auditTrail|] == AuditEntry(VerifiedAction, verifier, now, OrElse(notes, ""))
    ensures r == d.(status := Verified, verification := r.verification, auditTrail := r.auditTrail)
  {
    WithAuditEntry(d.(status := Verified,
                      verification := Some(Verification(verifier, now, vmethod, notes, score))),
                   VerifiedAction, verifier, notes, now)
  }

  /** `revoke(performedBy, reason)`. */
  function RevokedBy(d: CredentialDoc, performedBy: Id, reason: Option<string>, now: int): (r: CredentialDoc)
    ensures r.status == Revoked
    ensures |r.auditTrail| == |d.auditTrail| + 1 && r.auditTrail[..|d.auditTrail|] == d.auditTrail
    ensures r.auditTrail[|d.auditTrail|] == AuditEntry(RevokedAction, performedBy, now, OrElse(reason, ""))
    ensures r == d.(status := Revoked, auditTrail := r.auditTrail)
  {
    WithAuditEntry(d.(status := Revoked), RevokedAction, performedBy, reason, now)
  }

  // ---------------------------------------------------------------------
  // The mutable document

  class Credential {
    var id: Id
    var name: string
    var ctype: CredentialType
    var issuer: Id
    var holder: Id
    var product: Option<Id>
    var guardianPolicyId: string
    var status: Status
    var validityPeriod: ValidityPeriod
    var evidence: seq<Evidence>
    var criteria: Criteria
    var verification: Option<Verification>
    var auditTrail: seq<AuditEntry>
    var createdAt: int

    /** The document's current value, as it would be written by `save()`. */
    function Doc(): CredentialDoc
      reads this
    {
      CredentialDoc(id, name, ctype, issuer, holder, product, guardianPolicyId, status,
                    validityPeriod, evidence, criteria, verification, auditTrail, createdAt)
    }

    /** Hydrates a document read from the collection. */
    constructor Load(d: CredentialDoc)
      ensures Doc() == d
    {
      id, name, ctype, issuer, holder := d.id, d.name, d.ctype, d.issuer, d.holder;
      product, guardianPolicyId, status := d.product, d.guardianPolicyId, d.status;
      validityPeriod, evidence, criteria := d.validity, d.evidence, d.criteria;
      verification, auditTrail, createdAt := d.verification, d.auditTrail, d.createdAt;
    }

    /** The `pre("save")` hook, with `new Date()` read as `now`. */
    method PreSave(now: int)
      modifies this
      ensures Doc() == CheckExpiry(old(Doc()), now)
    {
      if now > validityPeriod.expiresAt {
        validityPeriod := validityPeriod.(isExpired := true);
        if status == Verified {
          status := Expired;
        }
      }
    }

    method AddAuditEntry(action: AuditAction, performedBy: Id, notes: Option<string>, now: int)
      modifies this
      ensures Doc() == WithAuditEntry(old(Doc()), action, performedBy, notes, now)
    {
      var text := OrElse(notes, "");
      auditTrail := auditTrail + [AuditEntry(action, performedBy, now, text)];
    }

    method Verify(verifier: Id, vmethod: Option<VerificationMethod>, notes: Option<string>,
                  score: Option<int>, now: int)
      modifies this
      ensures Doc() == VerifiedBy(old(Doc()), verifier, vmethod, notes, score, now)
    {
      status := Verified;
      verification := Some(Verification(verifier, now, vmethod, notes, score));
      AddAuditEntry(VerifiedAction, verifier, notes, now);
    }

    method Revoke(performedBy: Id, reason: Option<string>, now: int)
      modifies this
      ensures Doc() == RevokedBy(old(Doc()), performedBy, reason, now)
    {
      status := Revoked;
      AddAuditEntry(RevokedAction, performedBy, reason, now);
    }
  }

  // ---------------------------------------------------------------------
  // Properties of the transitions

  /** Running the expiry hook twice at the same instant is running it once. */
  lemma CheckExpiryIdempotent(d: CredentialDoc, now: int)
    ensures CheckExpiry(CheckExpiry(d, now), now) == CheckExpiry(d, now)
  {
  }

  /** The expired flag is never cleared: once a save has flagged it, every
      later save keeps it. */
  lemma CheckExpirySticky(d: CredentialDoc, t1: int, t2: int)
    requires CheckExpiry(d, t1).validity.isExpired
    ensures CheckExpiry(CheckExpiry(d, t1), t2).validity.isExpired
  {
  }

  /** After a save at `now`, a credential past its expiry is never `verified`. */
  lemma NoVerifiedPastExpiry(d: CredentialDoc, now: int)
    requires now > d.validity.expiresAt
    ensures CheckExpiry(d, now).status != Verified
    ensures CheckExpiry(d, now).validity.isExpired
  {
  }

  /** The expiry hook keeps a valid document valid and never touches the
      audit trail. */
  lemma CheckExpiryKeepsValid(d: CredentialDoc, now: int)
    requires ValidDoc(d)
    ensures ValidDoc(CheckExpiry(d, now))
    ensures CheckExpiry(d, now).auditTrail == d.auditTrail
  {
  }

  /** A verified document is valid exactly when the score given is absent or
      within [0, 100]. */
  lemma VerifiedByValid(d: CredentialDoc, verifier: Id, vmethod: Option<VerificationMethod>,
                        notes: Option<string>, score: Option<int>, now: int)
    requires ValidDoc(d)
    ensures ValidDoc(VerifiedBy(d, verifier, vmethod, notes, score, now))
            <==> (score.None? || SCORE_MIN <= score.value <= SCORE_MAX)
  {
  }

  /** Verifying a pending credential whose expiry has already passed leaves it
      `expired` once saved, with the verification block and the `verified`
      audit entry in place. */
  lemma VerifyPastExpiryEndsExpired(d: CredentialDoc, verifier: Id, vmethod: Option<VerificationMethod>,
                                    notes: Option<string>, score: Option<int>, now: int)
    requires now > d.validity.expiresAt
    ensures var r := CheckExpiry(VerifiedBy(d, verifier, vmethod, notes, score, now), now);
            && r.status == Expired
            && r.verification == Some(Verification(verifier, now, vmethod, notes, score))
            && r.auditTrail[|r.auditTrail| - 1].action == VerifiedAction
  {
  }
}
