/**
 * The middleware pattern both controllers share: a stage either continues
 * (`next()`) or halts with a status and an error (`next({status, message})`),
 * and an exported operation is an ordered chain of stages that stops at the
 * first one that halts. The stages that are the same in both controllers
 * (field presence, the id locator) are defined here once.
 */
module Pipeline {
  import opened Json

  datatype Option<T> = None | Some(value: T)

  const BadRequest := 400
  const NotFoundStatus := 404
  /** What a thrown TypeError reaches the application's error handler as. */
  const Uncaught := 500

  /** The errors a stage can report; the message text is reduced to its tag and data. */
  datatype Error =
    | MissingField(field: string)
    | NoDishes
    | BadQuantity(index: nat)
    | DeliveredOrder
    | BadStatus
    | NotFound(id: string)
    | IdMismatch(bodyId: Value, routeId: string)
    | NotPending
    | BadPrice
    | TypeError

  /** One signal of a stage: `next()` or `next({status, message})`. */
  datatype Outcome = Continue | Halt(status: int, error: Error)

  /** What a terminal handler or the error handler sends back. */
  datatype Response<R> =
    | Data(status: int, data: R)
    | NoContent(status: int)
    | Failure(status: int, error: Error)

  /** The response for a chain that halted. */
  function Reject<R>(o: Outcome): (r: Response<R>)
    requires o.Halt?
    ensures r.Failure? && r.status == o.status && r.error == o.error
  {
    Failure(o.status, o.error)
  }

  /**
   * Runs a chain of stages: each runs only if every stage before it
   * continued, and the first that halts decides the result.
   */
  function Run<S>(stages: seq<S>, eval: S -> Outcome): (r: Outcome)
    ensures r == Continue <==> forall k :: 0 <= k < |stages| ==> eval(stages[k]) == Continue
    ensures r.Halt? ==> exists k :: 0 <= k < |stages| && eval(stages[k]) == r
    decreases |stages|
  {
    if stages == [] then Continue
    else if eval(stages[0]).Halt? then eval(stages[0])
    else
      var rest := Run(stages[1..], eval);
      assert forall k :: 1 <= k < |stages| ==> stages[1..][k - 1] == stages[k];
      rest
  }

  /** The first stage that halts decides the outcome of the chain. */
  lemma {:induction false} FirstHaltDecides<S>(stages: seq<S>, eval: S -> Outcome, k: nat)
    requires k < |stages|
    requires forall j :: 0 <= j < k ==> eval(stages[j]) == Continue
    requires eval(stages[k]).Halt?
    ensures Run(stages, eval) == eval(stages[k])
  {
    if k > 0 {
      assert eval(stages[0]) == Continue;
      assert forall j :: 0 <= j < k - 1 ==> stages[1..][j] == stages[j + 1];
      FirstHaltDecides(stages[1..], eval, k - 1);
    }
  }

  /** Splitting a chain: the second part runs only if the first part continued. */
  lemma {:induction false} RunAppend<S>(first: seq<S>, second: seq<S>, eval: S -> Outcome)
    ensures Run(first + second, eval) ==
            if Run(first, eval).Halt? then Run(first, eval) else Run(second, eval)
  {
    if first != [] {
      assert (first + second)[0] == first[0];
      assert (first + second)[1..] == first[1..] + second;
      RunAppend(first[1..], second, eval);
    } else {
      assert first + second == second;
    }
  }

  /** A stage appended to a chain runs only if the chain continued. */
  lemma RunSnoc<S>(first: seq<S>, last: S, eval: S -> Outcome)
    ensures Run(first + [last], eval) ==
            if Run(first, eval).Halt? then Run(first, eval) else eval(last)
  {
    RunAppend(first, [last], eval);
    assert [last][1..] == [];
  }

  /** A chain gives the same outcome under two evaluations that agree on its stages. */
  lemma {:induction false} RunAgrees<S>(stages: seq<S>, eval1: S -> Outcome, eval2: S -> Outcome)
    requires forall k :: 0 <= k < |stages| ==> eval1(stages[k]) == eval2(stages[k])
    ensures Run(stages, eval1) == Run(stages, eval2)
  {
    if stages != [] {
      assert eval1(stages[0]) == eval2(stages[0]);
      assert forall k :: 0 <= k < |stages| - 1 ==> stages[1..][k] == stages[k + 1];
      RunAgrees(stages[1..], eval1, eval2);
    }
  }

  /** `hasProperty(field)`: the field must be truthy, else 400 naming it. */
  function HasProperty(data: Payload, field: string): (r: Outcome)
    ensures r == Continue <==>
            Get(data, field) !in {Undefined, Null, Bool(false), Int(0), Str("")}
    ensures r != Continue ==> r == Halt(BadRequest, MissingField(field))
  {
    if Truthy(Get(data, field)) then Continue else Halt(BadRequest, MissingField(field))
  }

  /** `collection.find(r => r.id === id)` on the ids of a collection, as an index. */
  function FindFirst(ids: seq<string>, id: string): (r: Option<nat>)
    ensures r.None? <==> id !in ids
    ensures r.Some? ==> r.value < |ids| && ids[r.value] == id
    ensures r.Some? ==> forall j :: 0 <= j < r.value ==> ids[j] != id
  {
    if ids == [] then None
    else if ids[0] == id then Some(0)
    else
      match FindFirst(ids[1..], id)
      case None => None
      case Some(k) => Some(k + 1)
  }

  /** The ids of a collection, in order; `key` reads a record's id. */
  function Ids<R>(records: seq<R>, key: R -> string): (ids: seq<string>)
    ensures |ids| == |records|
    ensures forall i :: 0 <= i < |records| ==> ids[i] == key(records[i])
  {
    seq(|records|, i requires 0 <= i < |records| => key(records[i]))
  }

  /** No two records share an id. */
  predicate UniqueIds(ids: seq<string>) {
    forall i, j :: 0 <= i < j < |ids| ==> ids[i] != ids[j]
  }

  /** Pushing a record changes the ids by pushing its id. */
  lemma IdsPush<R>(records: seq<R>, key: R -> string, record: R)
    ensures Ids(records + [record], key) == Ids(records, key) + [key(record)]
  {
    var grown := records + [record];
    assert forall i :: 0 <= i < |records| ==> grown[i] == records[i];
  }

  /** Pushing a record under a fresh id keeps the ids unique. */
  lemma PushKeepsIdsUnique<R>(records: seq<R>, key: R -> string, record: R)
    requires UniqueIds(Ids(records, key)) && key(record) !in Ids(records, key)
    ensures UniqueIds(Ids(records + [record], key))
  {
    IdsPush(records, key, record);
  }

  /**
   * `collection.find(r => r.id === routeId)`: the first record with the id,
   * the one `res.locals` holds.
   */
  function Located<R>(records: seq<R>, key: R -> string, routeId: string): (r: Option<R>)
    ensures r.Some? <==> routeId in Ids(records, key)
    ensures r.Some? ==>
              exists i :: 0 <= i < |records| && records[i] == r.value && key(records[i]) == routeId &&
                          forall j :: 0 <= j < i ==> key(records[j]) != routeId
  {
    match FindFirst(Ids(records, key), routeId)
    case None => None
    case Some(i) => Some(records[i])
  }

  /**
   * `id && id != routeId` on the body id. A non-string body id is taken to
   * differ from the route id (JavaScript's loose comparison would convert it).
   */
  predicate BodyIdMismatch(bodyId: Value, routeId: string) {
    Truthy(bodyId) && bodyId != Str(routeId)
  }

  /**
   * The locator as a single signal: the first signal `orderExist` and
   * `dishExist` emit, which is the only one that decides the chain.
   */
  function Locate(ids: seq<string>, routeId: string, bodyId: Value): (r: Outcome)
    ensures r == Continue <==> routeId in ids && !BodyIdMismatch(bodyId, routeId)
    ensures routeId !in ids ==> r == Halt(NotFoundStatus, NotFound(routeId))
    ensures routeId in ids && BodyIdMismatch(bodyId, routeId) ==>
              r == Halt(BadRequest, IdMismatch(bodyId, routeId))
  {
    if FindFirst(ids, routeId).None? then Halt(NotFoundStatus, NotFound(routeId))
    else if BodyIdMismatch(bodyId, routeId) then Halt(BadRequest, IdMismatch(bodyId, routeId))
    else Continue
  }

  /**
   * `orderExist` / `dishExist` as written: the not-found and mismatch
   * branches call `next(error)` without returning, so one call can emit
   * several signals. `found` is the record attached to `res.locals`.
   */
  method Exist(ids: seq<string>, routeId: string, bodyId: Value)
    returns (signals: seq<Outcome>, found: Option<nat>)
    ensures found.Some? <==> routeId in ids
    ensures found.Some? ==> found.value < |ids| && ids[found.value] == routeId
    ensures found.Some? ==> forall j :: 0 <= j < found.value ==> ids[j] != routeId
    ensures signals != [] && signals[0] == Locate(ids, routeId, bodyId)
    ensures routeId in ids && !BodyIdMismatch(bodyId, routeId) ==> signals == [Continue]
    ensures routeId in ids && BodyIdMismatch(bodyId, routeId) ==>
              signals == [Halt(BadRequest, IdMismatch(bodyId, routeId)), Continue]
    ensures routeId !in ids ==>
              signals == [Halt(NotFoundStatus, NotFound(routeId))] +
                         (if BodyIdMismatch(bodyId, routeId)
                          then [Halt(BadRequest, IdMismatch(bodyId, routeId))] else [])
  {
    found := FindFirst(ids, routeId);
    signals := [];
    if found.None? {
      signals := signals + [Halt(NotFoundStatus, NotFound(routeId))];
    }
    if BodyIdMismatch(bodyId, routeId) {
      signals := signals + [Halt(BadRequest, IdMismatch(bodyId, routeId))];
    }
    if found.Some? {
      signals := signals + [Continue];
    }
  }
}
