/** Vocabulary shared by every route and model: identities, roles, optional
    values, handler results and the HTTP status codes the handlers send. */
module Common {

  datatype Option<T> = None | Some(value: T)

  /** A handler's outcome: a value, or the HTTP status code of the error envelope. */
  datatype Result<T> = Ok(value: T) | Err(code: int)

  /** Document and account identifiers (Mongo ObjectIds) are opaque strings. */
  type Id = string

  datatype Role = Producer | Consumer | Verifier | Admin

  /** The authenticated requester (`req.user`): an account id and its role. */
  datatype User = User(id: Id, role: Role)

  const OK: int := 200
  const CREATED: int := 201
  const BAD_REQUEST: int := 400
  const FORBIDDEN: int := 403
  const NOT_FOUND: int := 404
  const SERVER_ERROR: int := 500

  function OrElse<T>(o: Option<T>, default: T): (r: T)
    ensures o.None? ==> r == default
    ensures o.Some? ==> r == o.value
  {
    match o
    case Some(v) => v
    case None => default
  }

  function Min(a: int, b: int): int
  {
    if a <= b then a else b
  }

  function Abs(x: int): nat
  {
    if x < 0 then -x else x
  }

  /** JavaScript truthiness of an optional string value: present and not "". */
  predicate Given(o: Option<string>)
  {
    o.Some? && o.value != ""
  }

  /** The role check done by `authorize(...)`: the requester's role is one of `allowed`. */
  predicate Authorized(user: User, allowed: set<Role>)
  {
    user.role in allowed
  }

  // Two steps of non-linear arithmetic the solver does not take unaided.

  lemma MulLe(a: int, b: int, n: nat)
    requires a <= b
    ensures a * n <= b * n
  {
  }

  lemma MulSucc(n: nat, c: int)
    ensures (n + 1) * c == n * c + c
  {
  }
}
