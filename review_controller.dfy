// The middleware that runs before a review is created: a review posted
// under a tour's route, by a signed-in user, need not name its tour or its
// author, because both are taken from the request when the body leaves
// them out.

module ReviewController {

  /** A value of a parsed JSON request body. */
  datatype Json =
    | Undefined
    | Null
    | Bool(b: bool)
    | Num(n: int)
    | Text(s: string)
    | List(items: seq<Json>)
    | Object(fields: map<string, Json>)

  /** JavaScript truthiness: `undefined`, `null`, `false`, `0` and the empty
      string are falsy; every array and object is truthy. The query string's
      values have their own `ApiFeatures.Truthy`, which follows the same
      rules. */
  predicate Truthy(v: Json)
  {
    match v
    case Undefined => false
    case Null => false
    case Bool(b) => b
    case Num(n) => n != 0
    case Text(s) => s != ""
    case List(_) => true
    case Object(_) => true
  }

  /** `body[key]`, which is `undefined` for a missing key. */
  function Field(body: map<string, Json>, key: string): Json
  {
    if key in body then body[key] else Undefined
  }

  /** `req.params.tourID`: the route parameter, `undefined` on a route
      without one. */
  function TourParam(params: map<string, string>): Json
  {
    if "tourID" in params then Text(params["tourID"]) else Undefined
  }

  /** The body after the defaults: `tour` and `user` are replaced by the
      given identifiers exactly when they are falsy; every other key keeps
      its value; both keys are present afterwards. */
  function WithIds(body: map<string, Json>, tourId: Json, userId: Json): (r: map<string, Json>)
    ensures r.Keys == body.Keys + {"tour", "user"}
    ensures Truthy(Field(body, "tour")) ==> r["tour"] == body["tour"]
    ensures !Truthy(Field(body, "tour")) ==> r["tour"] == tourId
    ensures Truthy(Field(body, "user")) ==> r["user"] == body["user"]
    ensures !Truthy(Field(body, "user")) ==> r["user"] == userId
    ensures forall k :: k in body && k != "tour" && k != "user" ==> r[k] == body[k]
  {
    var withTour := if Truthy(Field(body, "tour")) then body else body["tour" := tourId];
    if Truthy(Field(withTour, "user")) then withTour else withTour["user" := userId]
  }

  /** The parts of the request the middleware reads and writes. */
  class Request {
    var body: map<string, Json>
    var params: map<string, string>
    /** `req.user.id`, set by the authentication middleware before this one. */
    var userId: string

    constructor(body: map<string, Json>, params: map<string, string>, userId: string)
      ensures this.body == body && this.params == params && this.userId == userId
    {
      this.body := body;
      this.params := params;
      this.userId := userId;
    }
  }

  /** The `next` callback: records the body as it is at each call. */
  class Next {
    var calls: seq<map<string, Json>>

    constructor()
      ensures calls == []
    {
      calls := [];
    }

    method Call(body: map<string, Json>)
      modifies this
      ensures calls == old(calls) + [body]
    {
      calls := calls + [body];
    }
  }

  /** Fills in the tour from the route and the author from the signed-in
      user, in place, then hands on to the next middleware exactly once. */
  method SetTourUserIds(req: Request, next: Next)
    modifies req`body, next
    ensures req.body == WithIds(old(req.body), TourParam(req.params), Text(req.userId))
    ensures next.calls == old(next.calls) + [req.body]
  {
    if !Truthy(Field(req.body, "tour")) {
      req.body := req.body["tour" := TourParam(req.params)];
    }
    if !Truthy(Field(req.body, "user")) {
      req.body := req.body["user" := Text(req.userId)];
    }
    next.Call(req.body);
  }

  /** Running the defaults twice changes nothing more. */
  lemma WithIdsIdempotent(body: map<string, Json>, tourId: Json, userId: Json)
    ensures WithIds(WithIds(body, tourId, userId), tourId, userId) == WithIds(body, tourId, userId)
  {
  }

  /** A body that already names a tour and an author is passed on as it is. */
  lemma WithIdsKeepsGivenIds(body: map<string, Json>, tourId: Json, userId: Json)
    requires Truthy(Field(body, "tour")) && Truthy(Field(body, "user"))
    ensures WithIds(body, tourId, userId) == body
  {
  }

  /** A review posted under `/tours/:tourID/reviews` by a signed-in user with
      no ids in its body is attributed to that tour and that user. */
  lemma EmptyBodyGetsBothIds(body: map<string, Json>, params: map<string, string>, userId: string)
    requires "tourID" in params
    requires !Truthy(Field(body, "tour")) && !Truthy(Field(body, "user"))
    ensures WithIds(body, TourParam(params), Text(userId))["tour"] == Text(params["tourID"])
    ensures WithIds(body, TourParam(params), Text(userId))["user"] == Text(userId)
  {
  }
}
