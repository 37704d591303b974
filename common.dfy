/** Shared vocabulary of the platform's back end: document ids, timestamps,
    the authenticated actor, HTTP result codes, and the "find" of a
    collection as a list of (id, document) pairs in id order. */
module Common {

  /** A document id (an ObjectId in the database). */
  type Id = nat

  /** A timestamp in milliseconds since the epoch (JavaScript Date). */
  type Time = int

  const MsPerDay: int := 86400000

  datatype Option<T> = None | Some(value: T)

  /** `x || 0` for a number taken from a request body: absent and 0 both give 0. */
  function OrZero(x: Option<int>): int {
    if x.Some? then x.value else 0
  }

  /** The three account roles of a User. */
  datatype Role = Customer | Restaurant | NGO

  /** What the authentication middleware resolves a token to. Absent names are "". */
  datatype Profile = Profile(role: Role, name: string, organizationName: string)

  /** The caller of an endpoint: its user id and profile, trusted as given. */
  datatype Actor = Actor(id: Id, profile: Profile)

  /** `user.organizationName || user.name`: the snapshot name of a restaurant or claimant. */
  function OrgOrName(p: Profile): string {
    if p.organizationName != "" then p.organizationName else p.name
  }

  /** `user.name || user.organizationName`: the volunteer routes' `req.userName`. */
  function NameOrOrg(p: Profile): string {
    if p.name != "" then p.name else p.organizationName
  }

  /** The outcome of a request. ServerError is a failed save (schema validation). */
  datatype Code = Ok | Created | BadRequest | Forbidden | NotFound | ServerError

  function HttpStatus(c: Code): (n: int)
    ensures (200 <= n < 300) <==> (c == Ok || c == Created)
    ensures c == Ok <==> n == 200
    ensures c == Created <==> n == 201
    ensures c == BadRequest <==> n == 400
    ensures c == Forbidden <==> n == 403
    ensures c == NotFound <==> n == 404
    ensures c == ServerError <==> n == 500
  {
    match c
    case Ok => 200
    case Created => 201
    case BadRequest => 400
    case Forbidden => 403
    case NotFound => 404
    case ServerError => 500
  }

  /** The number of elements of `s` that satisfy `p`. */
  function Count<T>(s: seq<T>, p: T -> bool): (n: nat)
    ensures n <= |s|
  {
    if s == [] then 0 else Count(s[..|s| - 1], p) + (if p(s[|s| - 1]) then 1 else 0)
  }

  /** The ids of `m` whose documents satisfy `p`: a query's filter. */
  function IdsWhere<T>(m: map<Id, T>, p: T -> bool): (ids: set<Id>)
    ensures ids <= m.Keys
  {
    set id | id in m && p(m[id])
  }

  /** Each entry of a query result has a larger id than the entries before it. */
  ghost predicate IdsAscending<T>(r: seq<(Id, T)>) {
    forall k, l :: 0 <= k < l < |r| ==> r[k].0 < r[l].0
  }

  /** The documents of `m` whose ids are in `ids` and below `bound`, in ascending
      id order (creation order), paired with their ids: a query's result. */
  function InIdOrder<T>(m: map<Id, T>, ids: set<Id>, bound: nat): (r: seq<(Id, T)>)
    ensures forall k :: 0 <= k < |r| ==>
      r[k].0 < bound && r[k].0 in ids && r[k].0 in m && r[k].1 == m[r[k].0]
    ensures forall id :: id in ids && id in m && id < bound ==> (id, m[id]) in r
    ensures IdsAscending(r)
    decreases bound
  {
    if bound == 0 then []
    else
      var prefix := InIdOrder(m, ids, bound - 1);
      var last := bound - 1;
      if last in ids && last in m then prefix + [(last, m[last])] else prefix
  }

  /** The documents of a query result, without their ids. */
  function Docs<T>(r: seq<(Id, T)>): (ds: seq<T>)
    ensures |ds| == |r|
    ensures forall k :: 0 <= k < |r| ==> ds[k] == r[k].1
  {
    seq(|r|, k requires 0 <= k < |r| => r[k].1)
  }
}
