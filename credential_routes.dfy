/** The credential REST handlers (server/routes/credentials.js) over an
    in-memory credentials collection: create, list, get-by-id, verify, reject
    and revoke, each answering with the status code the handler sends. */
module CredentialRoutes {
  import opened Common
  import opened Collections
  import opened Paging
  import opened CredentialModel

  // ---------------------------------------------------------------------
  // Lookups and access rules

  predicate UniqueIds(docs: seq<CredentialDoc>)
  {
    forall i, j :: 0 <= i < j < |docs| ==> docs[i].id != docs[j].id
  }

  function CredentialId(d: CredentialDoc): Id { d.id }

  /** `findById`: the position of the document with this id, if any. */
  function IndexOf(docs: seq<CredentialDoc>, id: Id): (r: Option<nat>)
    ensures r.None? <==> forall i :: 0 <= i < |docs| ==> docs[i].id != id
    ensures r.Some? ==> r.value < |docs| && docs[r.value].id == id
    ensures r.Some? ==> forall i :: 0 <= i < r.value ==> docs[i].id != id
  {
    FindFirst(docs, CredentialId, id)
  }

  /** Who may see a credential: an admin, its issuer or its holder. The list
      route applies it as the `$or` scope, the get route as its 403 check. */
  predicate Visible(user: User, d: CredentialDoc)
  {
    user.role == Admin || d.issuer == user.id || d.holder == user.id
  }

  /** Who may revoke a credential: an admin or its issuer. */
  predicate MayRevoke(user: User, d: CredentialDoc)
  {
    user.role == Admin || d.issuer == user.id
  }

  // ---------------------------------------------------------------------
  // GET /api/credentials/:id

  function GetCredential(docs: seq<CredentialDoc>, id: Id, user: User): (r: Result<CredentialDoc>)
    ensures IndexOf(docs, id).None? <==> r == Err(NOT_FOUND)
    ensures IndexOf(docs, id).Some? ==>
              var d := docs[IndexOf(docs, id).value];
              && (Visible(user, d) ==> r == Ok(d))
              && (!Visible(user, d) ==> r == Err(FORBIDDEN))
    ensures r.Ok? ==> r.value in docs && r.value.id == id && Visible(user, r.value)
  {
    match IndexOf(docs, id)
    case None => Err(NOT_FOUND)
    case Some(k) => if Visible(user, docs[k]) then Ok(docs[k]) else Err(FORBIDDEN)
  }

  /** Reading a credential does not run the expiry hook: a verified
      credential past its expiry is still reported `verified` until its next
      save. */
  lemma FetchDoesNotExpire(docs: seq<CredentialDoc>, k: nat, user: User, now: int)
    requires UniqueIds(docs) && k < |docs|
    requires docs[k].status == Verified && now > docs[k].validity.expiresAt
    requires Visible(user, docs[k])
    ensures GetCredential(docs, docs[k].id, user) == Ok(docs[k])
    ensures GetCredential(docs, docs[k].id, user).value.status == Verified
  {
    var r := IndexOf(docs, docs[k].id);
    assert r.Some? && r.value <= k;
  }

  // ---------------------------------------------------------------------
  // GET /api/credentials

  datatype CredentialQuery = CredentialQuery(
    ctype: Option<CredentialType>, status: Option<Status>,
    issuer: Option<Id>, holder: Option<Id>,
    page: Option<int>, limit: Option<int>)

  /** The `filter` built from the query: each supplied value must match. */
  predicate MatchesQuery(d: CredentialDoc, q: CredentialQuery)
  {
    && (q.ctype.Some? ==> d.ctype == q.ctype.value)
    && (q.status.Some? ==> d.status == q.status.value)
    && (Given(q.issuer) ==> d.issuer == q.issuer.value)
    && (Given(q.holder) ==> d.holder == q.holder.value)
  }

  /** The whole filter: the query's fields and, for a non-admin, the scope. */
  predicate Selected(d: CredentialDoc, q: CredentialQuery, user: User)
  {
    MatchesQuery(d, q) && Visible(user, d)
  }

  function CreatedAt(d: CredentialDoc): int
  {
    d.createdAt
  }

  function ListCredentials(docs: seq<CredentialDoc>, q: CredentialQuery, user: User): (r: Result<Page<CredentialDoc>>)
    ensures var page, limit := OrElse(q.page, DEFAULT_PAGE), OrElse(q.limit, DEFAULT_LIMIT);
            && (r.Err? <==> (page - 1) * limit < 0)
            && (r.Ok? ==> r.value.page == page && r.value.limit == limit)
            && (r.Ok? && limit > 0 ==> |r.value.items| <= limit)
            && (r.Ok? ==> r.value.pages == PageCount(r.value.total, limit))
    ensures r.Ok? ==> forall d :: d in r.value.items ==> d in docs && MatchesQuery(d, q) && Visible(user, d)
    ensures r.Ok? ==> SortedBy(r.value.items, CreatedAt, true)
    ensures r.Ok? ==> r.value.total == |Filter(docs, d => Selected(d, q, user))|
    ensures r.Ok? ==> exists sorted :: IsOrdering(sorted, Filter(docs, d => Selected(d, q, user)), CreatedAt, true)
                                      && IsPageOf(r.value.items, sorted, OrElse(q.page, DEFAULT_PAGE),
                                                  OrElse(q.limit, DEFAULT_LIMIT))
  {
    Listing(docs, d => Selected(d, q, user), CreatedAt, true, OrElse(q.page, DEFAULT_PAGE), OrElse(q.limit, DEFAULT_LIMIT))
  }

  /** Whether credential `d` is among the items of page `p` of the listing. */
  predicate ListedOn(docs: seq<CredentialDoc>, q: CredentialQuery, user: User, p: int, d: CredentialDoc)
  {
    var r := ListCredentials(docs, q.(page := Some(p)), user);
    r.Ok? && d in r.value.items
  }

  /** With a positive limit, paging through the listing reaches every
      credential the query selects: none falls between two pages. */
  lemma EveryMatchListed(docs: seq<CredentialDoc>, q: CredentialQuery, user: User, d: CredentialDoc)
    requires OrElse(q.limit, DEFAULT_LIMIT) > 0
    requires d in docs && Selected(d, q, user)
    ensures exists p :: p >= 1 && ListedOn(docs, q, user, p, d)
  {
    var limit := OrElse(q.limit, DEFAULT_LIMIT);
    var sel := x => Selected(x, q, user);
    EverySelectedListed(docs, sel, CreatedAt, true, limit, d);
    var p :| p >= 1 && Listing(docs, sel, CreatedAt, true, p, limit).Ok?
             && d in Listing(docs, sel, CreatedAt, true, p, limit).value.items;
    var q' := q.(page := Some(p));
    FilterExt(docs, x => Selected(x, q', user), sel);
    assert ListedOn(docs, q, user, p, d);
  }

  /** An admin's unfiltered listing counts every credential in the collection. */
  lemma AdminSeesAll(docs: seq<CredentialDoc>, user: User, page: Option<int>, limit: Option<int>)
    requires user.role == Admin
    ensures var r := ListCredentials(docs, CredentialQuery(None, None, None, None, page, limit), user);
            r.Ok? ==> r.value.total == |docs|
  {
    var q := CredentialQuery(None, None, None, None, page, limit);
    assert forall d :: d in docs ==> Selected(d, q, user);
    FilterAll(docs, d => Selected(d, q, user));
  }

  // ---------------------------------------------------------------------
  // Request bodies and the inline reject transition

  /** The POST body. `issuer` and `status` model fields a client may send;
      the handler never reads them. */
  datatype CredentialBody = CredentialBody(
    name: Option<string>, ctype: Option<CredentialType>, issuer: Option<Id>, holder: Option<Id>,
    product: Option<Id>, guardianPolicyId: Option<string>, status: Option<Status>,
    validityPeriod: Option<ValidityInput>, criteria: Option<CriteriaInput>,
    evidence: seq<EvidenceInput>)

  /** The object passed to `new Credential(...)`: the body's fields with the
      requester as issuer. */
  function InputOf(body: CredentialBody, user: User): (r: CredentialInput)
    ensures r.issuer == user.id
  {
    CredentialInput(body.name, body.ctype, user.id, body.holder, body.product,
                    body.guardianPolicyId, body.validityPeriod, body.criteria, body.evidence)
  }

  /** Whatever issuer or status the body names, a created credential is
      issued by the requester and starts as a draft with an empty trail. */
  lemma CreatedByRequester(body: CredentialBody, user: User, id: Id, now: int)
    requires NewCredential(InputOf(body, user), id, now).Some?
    ensures var d := CheckExpiry(NewCredential(InputOf(body, user), id, now).value, now);
            && d.issuer == user.id
            && d.status == Draft
            && d.auditTrail == []
            && d.validity.isExpired == (OrElse(body.validityPeriod.value.isExpired, false)
                                        || now > body.validityPeriod.value.expiresAt.value)
  {
  }

  /** `credential.status = "rejected"` followed by `addAuditEntry("rejected", ...)`. */
  function RejectedBy(d: CredentialDoc, performedBy: Id, reason: Option<string>, now: int): (r: CredentialDoc)
    ensures r.status == Rejected
    ensures |r.auditTrail| == |d.auditTrail| + 1 && r.auditTrail[..|d.auditTrail|] == d.auditTrail
    ensures r.auditTrail[|d.auditTrail|] == AuditEntry(RejectedAction, performedBy, now, OrElse(reason, ""))
    ensures r == d.(status := Rejected, auditTrail := r.auditTrail)
  {
    WithAuditEntry(d.(status := Rejected), RejectedAction, performedBy, reason, now)
  }

  /** Every trail in `after` extends the trail of the same position in
      `before` by at most one entry, and nothing is removed. */
  ghost predicate TrailsAppendOnly(before: seq<CredentialDoc>, after: seq<CredentialDoc>)
  {
    && |before| <= |after|
    && forall k :: 0 <= k < |before| ==>
         && after[k].id == before[k].id
         && |before[k].auditTrail| <= |after[k].auditTrail| <= |before[k].auditTrail| + 1
         && after[k].auditTrail[..|before[k].auditTrail|] == before[k].auditTrail
  }

  /** No credential is awaiting verification. None of these routes ever sets
      `pending_verification`, so from an empty collection this always holds. */
  ghost predicate NonePending(docs: seq<CredentialDoc>)
  {
    forall k :: 0 <= k < |docs| ==> docs[k].status != PendingVerification
  }

  /** Appending a document with a fresh id keeps the ids distinct and the
      earlier trails as they were. */
  lemma AppendFresh(docs: seq<CredentialDoc>, d: CredentialDoc)
    requires UniqueIds(docs) && forall i :: 0 <= i < |docs| ==> docs[i].id != d.id
    ensures UniqueIds(docs + [d]) && TrailsAppendOnly(docs, docs + [d])
    ensures NonePending(docs) && d.status != PendingVerification ==> NonePending(docs + [d])
    ensures (forall k :: 0 <= k < |docs| ==> ValidDoc(docs[k])) && ValidDoc(d) ==>
              forall k :: 0 <= k < |docs + [d]| ==> ValidDoc((docs + [d])[k])
  {
    var after := docs + [d];
    forall k | 0 <= k < |docs|
      ensures after[k] == docs[k]
    {
    }
  }

  // ---------------------------------------------------------------------
  // The collection and the mutating routes

  class CredentialStore {
    var docs: seq<CredentialDoc>

    ghost predicate Valid()
      reads this
    {
      UniqueIds(docs) && forall k :: 0 <= k < |docs| ==> ValidDoc(docs[k])
    }

    constructor ()
      ensures Valid() && docs == []
    {
      docs := [];
    }

    /** `await credential.save()` for the loaded document at position `k`:
        validation, then the pre-save hook, then the write. */
    method Save(k: nat, c: Credential, now: int) returns (code: int)
      requires Valid() && k < |docs| && c.Doc().id == docs[k].id
      modifies this, c
      ensures Valid()
      ensures ValidDoc(old(c.Doc())) ==> code == OK && docs == old(docs)[k := CheckExpiry(old(c.Doc()), now)]
      ensures !ValidDoc(old(c.Doc())) ==> code == SERVER_ERROR && docs == old(docs)
    {
      if !ValidDoc(c.Doc()) {
        return SERVER_ERROR;
      }
      c.PreSave(now);
      CheckExpiryKeepsValid(old(c.Doc()), now);
      docs := docs[k := c.Doc()];
      code := OK;
    }

    /** POST /api/credentials */
    method Create(user: User, body: CredentialBody, newId: Id, now: int) returns (code: int)
      requires Valid()
      modifies this
      ensures Valid()
      ensures !Authorized(user, {Producer, Admin}) ==> code == FORBIDDEN && docs == old(docs)
      ensures Authorized(user, {Producer, Admin}) ==>
                match NewCredential(InputOf(body, user), newId, now)
                case None => code == SERVER_ERROR && docs == old(docs)
                case Some(d) =>
                  if IndexOf(old(docs), newId).Some? then code == SERVER_ERROR && docs == old(docs)
                  else code == CREATED && docs == old(docs) + [CheckExpiry(d, now)]
      ensures TrailsAppendOnly(old(docs), docs)
      ensures NonePending(old(docs)) ==> NonePending(docs)
    {
      if !Authorized(user, {Producer, Admin}) {
        return FORBIDDEN;
      }
      var built := NewCredential(InputOf(body, user), newId, now);
      if built.None? {
        return SERVER_ERROR;
      }
      if IndexOf(docs, newId).Some? {
        return SERVER_ERROR;
      }
      var c := new Credential.Load(built.value);
      c.PreSave(now);
      CheckExpiryKeepsValid(built.value, now);
      AppendFresh(docs, c.Doc());
      docs := docs + [c.Doc()];
      code := CREATED;
    }

    /** PUT /api/credentials/:id/verify */
    method Verify(user: User, id: Id, vmethod: Option<VerificationMethod>, notes: Option<string>,
                  score: Option<int>, now: int) returns (code: int)
      requires Valid()
      modifies this
      ensures Valid()
      ensures !Authorized(user, {Verifier, Admin}) ==> code == FORBIDDEN && docs == old(docs)
      ensures Authorized(user, {Verifier, Admin}) ==>
                match IndexOf(old(docs), id)
                case None => code == NOT_FOUND && docs == old(docs)
                case Some(k) =>
                  if old(docs)[k].status != PendingVerification then
                    code == BAD_REQUEST && docs == old(docs)
                  else if score.Some? && !(SCORE_MIN <= score.value <= SCORE_MAX) then
                    code == SERVER_ERROR && docs == old(docs)
                  else
                    code == OK && docs == old(docs)[k := CheckExpiry(VerifiedBy(old(docs)[k], user.id, vmethod, notes, score, now), now)]
      ensures TrailsAppendOnly(old(docs), docs)
      ensures NonePending(old(docs)) ==> docs == old(docs) && code != OK
    {
      if !Authorized(user, {Verifier, Admin}) {
        return FORBIDDEN;
      }
      var k := IndexOf(docs, id);
      if k.None? {
        return NOT_FOUND;
      }
      var c := new Credential.Load(docs[k.value]);
      if c.status != PendingVerification {
        return BAD_REQUEST;
      }
      c.Verify(user.id, vmethod, notes, score, now);
      VerifiedByValid(docs[k.value], user.id, vmethod, notes, score, now);
      code := Save(k.value, c, now);
    }

    /** PUT /api/credentials/:id/reject (no gate on the current status). */
    method Reject(user: User, id: Id, reason: Option<string>, now: int) returns (code: int)
      requires Valid()
      modifies this
      ensures Valid()
      ensures !Authorized(user, {Verifier, Admin}) ==> code == FORBIDDEN && docs == old(docs)
      ensures Authorized(user, {Verifier, Admin}) ==>
                match IndexOf(old(docs), id)
                case None => code == NOT_FOUND && docs == old(docs)
                case Some(k) =>
                  code == OK && docs == old(docs)[k := CheckExpiry(RejectedBy(old(docs)[k], user.id, reason, now), now)]
      ensures TrailsAppendOnly(old(docs), docs)
      ensures NonePending(old(docs)) ==> NonePending(docs)
    {
      if !Authorized(user, {Verifier, Admin}) {
        return FORBIDDEN;
      }
      var k := IndexOf(docs, id);
      if k.None? {
        return NOT_FOUND;
      }
      var c := new Credential.Load(docs[k.value]);
      c.status := Rejected;
      c.AddAuditEntry(RejectedAction, user.id, reason, now);
      code := Save(k.value, c, now);
    }

    /** PUT /api/credentials/:id/revoke (no role middleware, no status gate). */
    method Revoke(user: User, id: Id, reason: Option<string>, now: int) returns (code: int)
      requires Valid()
      modifies this
      ensures Valid()
      ensures match IndexOf(old(docs), id)
              case None => code == NOT_FOUND && docs == old(docs)
              case Some(k) =>
                if !MayRevoke(user, old(docs)[k]) then code == FORBIDDEN && docs == old(docs)
                else code == OK && docs == old(docs)[k := CheckExpiry(RevokedBy(old(docs)[k], user.id, reason, now), now)]
      ensures TrailsAppendOnly(old(docs), docs)
      ensures NonePending(old(docs)) ==> NonePending(docs)
    {
      var k := IndexOf(docs, id);
      if k.None? {
        return NOT_FOUND;
      }
      var c := new Credential.Load(docs[k.value]);
      if !MayRevoke(user, c.Doc()) {
        return FORBIDDEN;
      }
      c.Revoke(user.id, reason, now);
      code := Save(k.value, c, now);
    }
  }
}
