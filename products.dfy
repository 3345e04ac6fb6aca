/**
 * The Express product server of 02_express/index.js: a process-wide array of
 * product records `prodData`, an id counter `Uniqueid`, and five handlers
 * (create, list, get by id, update, delete) acting on them.
 *
 * Each handler is defined once, as a function from the store before the
 * request to the store after it together with what the handler sends
 * (`PostProduct`, `GetProducts`, `GetProduct`, `PutProduct`,
 * `DeleteProduct`); the class `ProductStore` at the end holds the two
 * variables and runs each handler as a method proved against that function.
 * The handlers are modelled as written, defects included: delete removes the
 * first record whatever the id, and get and update carry on after their
 * not-found reply.
 *
 * `name` and `price` are whatever the request body held; they are the type
 * parameters N and P, about which nothing is assumed.
 */
module ProductApi {

  import opened Wrappers
  import opened Ecma

  /** A record `{ id, name, price }`. */
  datatype Product<N, P> = Product(id: int, name: N, price: P)

  /** The process-wide state: the array `prodData` and the counter `Uniqueid`. */
  datatype Store<N, P> = Store(prodData: seq<Product<N, P>>, uniqueId: int)

  /** The state when the process starts: no records, the counter at 1. */
  function Init<N, P>(): Store<N, P>
  {
    Store([], 1)
  }

  /** What a handler hands to `res.send`. */
  datatype Body<N, P> =
    | Record(product: Product<N, P>)
    | Records(products: seq<Product<N, P>>)
    | Text(text: string)

  datatype Response<N, P> = Response(status: int, body: Body<N, P>)

  /**
   * How a handler ends.  `Done`: it sent its one response.  `FailedAfter`:
   * it sent this response and then went on into a failure (a second send
   * after the first, or a property write on `undefined`) that touches neither
   * `prodData` nor `Uniqueid`.
   */
  datatype Outcome<N, P> = Done(response: Response<N, P>) | FailedAfter(response: Response<N, P>)

  /** The store after a handler, with how the handler ended. */
  datatype Step<N, P> = Step(store: Store<N, P>, outcome: Outcome<N, P>)

  const NotFoundOnGet := "No Product Found!"
  const NotFoundOnChange := "No product Found!"
  const DeletedText := "Deleted"

  // ---------------------------------------------------------------------------
  // Looking a record up: `prodData.find(pid => pid.id === parseInt(req.params.id))`
  // ---------------------------------------------------------------------------

  /** The predicate handed to `find`: the record's (numeric) id is strictly equal to the parsed key. */
  predicate Matches<N, P>(p: Product<N, P>, key: JsNumber)
  {
    StrictEquals(Int(p.id), key)
  }

  /** The position of the first record `find` accepts, if any. */
  function FindIndex<N, P>(s: seq<Product<N, P>>, key: JsNumber): (r: Option<nat>)
    ensures r.Some? ==> r.value < |s| && Matches(s[r.value], key)
    ensures r.Some? ==> forall j :: 0 <= j < r.value ==> !Matches(s[j], key)
    ensures r.None? <==> forall j :: 0 <= j < |s| ==> !Matches(s[j], key)
  {
    if |s| == 0 then None
    else if Matches(s[0], key) then Some(0)
    else
      match FindIndex(s[1..], key)
      case None => None
      case Some(k) => Some(k + 1)
  }

  /** What `find` returns: the first matching record object, or `undefined`. */
  datatype Found<N, P> = Undefined | Object(record: Product<N, P>)

  function Find<N, P>(s: seq<Product<N, P>>, key: JsNumber): (r: Found<N, P>)
    ensures r.Undefined? <==> forall p :: p in s ==> !Matches(p, key)
    ensures r.Object? ==> FindIndex(s, key).Some? && r.record == s[FindIndex(s, key).value]
  {
    match FindIndex(s, key)
    case None => Undefined
    case Some(k) => Object(s[k])
  }

  /** `!prod` is true exactly of `undefined`: every object is truthy. */
  predicate Falsy<N, P>(v: Found<N, P>)
  {
    v.Undefined?
  }

  /** `prod === -1`: a strict comparison between an object or `undefined` and a number is always false. */
  predicate StrictEqualsMinusOne<N, P>(v: Found<N, P>)
  {
    match v
    case Undefined => false
    case Object(_) => false
  }

  /**
   * ToNumber of what `find` returned: `undefined` is NaN, and a record object
   * becomes the string "[object Object]" first, which is NaN too.
   */
  function ToNumber<N, P>(v: Found<N, P>): JsNumber
  {
    match v
    case Undefined => NaN
    case Object(_) => NaN
  }

  // ---------------------------------------------------------------------------
  // The five handlers
  // ---------------------------------------------------------------------------

  /** POST /product: `{ id: Uniqueid++, name, price }` is pushed and sent back with 201. */
  function PostProduct<N, P>(s: Store<N, P>, name: N, price: P): (r: Step<N, P>)
    ensures |r.store.prodData| == |s.prodData| + 1
    ensures r.store.prodData[..|s.prodData|] == s.prodData
    ensures r.store.prodData[|s.prodData|] == Product(s.uniqueId, name, price)
    ensures r.store.uniqueId == s.uniqueId + 1
    ensures r.outcome == Done(Response(201, Record(r.store.prodData[|s.prodData|])))
  {
    var newProd := Product(s.uniqueId, name, price);
    Step(Store(s.prodData + [newProd], s.uniqueId + 1), Done(Response(201, Record(newProd))))
  }

  /** GET /product: the whole array, in insertion order, with 201; nothing changes. */
  function GetProducts<N, P>(s: Store<N, P>): (r: Step<N, P>)
    ensures r.store == s
    ensures r.outcome.Done? && r.outcome.response.status == 201
    ensures r.outcome.response.body == Records(r.store.prodData)
  {
    Step(s, Done(Response(201, Records(s.prodData))))
  }

  /**
   * GET /product/:id: the first record with that id, with 202.  On a miss the
   * 404 text goes out first and the handler then fails on its second send.
   */
  function GetProduct<N, P>(s: Store<N, P>, key: JsNumber): (r: Step<N, P>)
    ensures r.store == s
    ensures r.outcome.Done? <==> exists k :: 0 <= k < |s.prodData| && Matches(s.prodData[k], key)
    ensures r.outcome.Done? ==>
      var k := FindIndex(s.prodData, key);
      k.Some? && r.outcome.response == Response(202, Record(s.prodData[k.value]))
    ensures r.outcome.FailedAfter? ==> r.outcome.response == Response(404, Text(NotFoundOnGet))
  {
    var prod := Find(s.prodData, key);
    if Falsy(prod) then
      Step(s, FailedAfter(Response(404, Text(NotFoundOnGet))))
    else
      Step(s, Done(Response(202, Record(prod.record))))
  }

  /**
   * PUT /product/:id: the found record's `name` and `price` are overwritten
   * in place and it is sent back with 200.  On a miss the 404 text goes out,
   * then `prod.name = name` throws on `undefined` before anything is written.
   */
  function PutProduct<N, P>(s: Store<N, P>, key: JsNumber, name: N, price: P): (r: Step<N, P>)
    ensures r.store.uniqueId == s.uniqueId
    ensures |r.store.prodData| == |s.prodData|
    ensures forall k :: 0 <= k < |s.prodData| ==> r.store.prodData[k].id == s.prodData[k].id
    ensures FindIndex(s.prodData, key).None? ==>
      r.store == s && r.outcome == FailedAfter(Response(404, Text(NotFoundOnChange)))
    ensures FindIndex(s.prodData, key).Some? ==>
      var i := FindIndex(s.prodData, key).value;
      && r.store.prodData[i] == Product(s.prodData[i].id, name, price)
      && (forall k :: 0 <= k < |s.prodData| && k != i ==> r.store.prodData[k] == s.prodData[k])
      && r.outcome == Done(Response(200, Record(r.store.prodData[i])))
  {
    match FindIndex(s.prodData, key)
    case None =>
      Step(s, FailedAfter(Response(404, Text(NotFoundOnChange))))
    case Some(i) =>
      var updated := s.prodData[i].(name := name, price := price);
      Step(s.(prodData := s.prodData[i := updated]), Done(Response(200, Record(updated))))
  }

  /**
   * DELETE /product/:id as written: the guard `prod === -1` never holds, and
   * `splice(prod, 1)` coerces its object-or-undefined start to NaN and then
   * to 0, so the first record goes, whatever the id; 204 "Deleted" follows.
   */
  function DeleteProduct<N, P>(s: Store<N, P>, key: JsNumber): (r: Step<N, P>)
    ensures r.store.uniqueId == s.uniqueId
    ensures r.store.prodData == if |s.prodData| == 0 then [] else s.prodData[1..]
    ensures r.outcome == Done(Response(204, Text(DeletedText)))
  {
    var prod := Find(s.prodData, key);
    var rest := Splice(s.prodData, ToNumber(prod), Int(1));
    if StrictEqualsMinusOne(prod) then
      Step(s.(prodData := rest), FailedAfter(Response(404, Text(NotFoundOnChange))))
    else
      Step(s.(prodData := rest), Done(Response(204, Text(DeletedText))))
  }

  // ---------------------------------------------------------------------------
  // Requests, and the event loop running one handler to completion at a time
  // ---------------------------------------------------------------------------

  /** The five routes of the app, with the parsed `:id` and the body's `name` and `price`. */
  datatype Request<N, P> =
    | PostProductRequest(name: N, price: P)
    | GetProductsRequest
    | GetProductRequest(key: JsNumber)
    | PutProductRequest(key: JsNumber, name: N, price: P)
    | DeleteProductRequest(key: JsNumber)

  /** The handler registered for a request's route. Only POST moves the counter, by exactly one. */
  function Handle<N, P>(s: Store<N, P>, req: Request<N, P>): (r: Step<N, P>)
    ensures r.store.uniqueId == s.uniqueId + (if req.PostProductRequest? then 1 else 0)
  {
    match req
    case PostProductRequest(name, price) => PostProduct(s, name, price)
    case GetProductsRequest => GetProducts(s)
    case GetProductRequest(key) => GetProduct(s, key)
    case PutProductRequest(key, name, price) => PutProduct(s, key, name, price)
    case DeleteProductRequest(key) => DeleteProduct(s, key)
  }

  /** The store after the requests are handled one after another. */
  function Run<N, P>(s: Store<N, P>, reqs: seq<Request<N, P>>): Store<N, P>
    decreases |reqs|
  {
    if |reqs| == 0 then s else Run(Handle(s, reqs[0]).store, reqs[1..])
  }

  /** The ids that the create responses report, in the order of the requests. */
  function AssignedIds<N, P>(s: Store<N, P>, reqs: seq<Request<N, P>>): seq<int>
    decreases |reqs|
  {
    if |reqs| == 0 then []
    else
      var step := Handle(s, reqs[0]);
      var here := match step.outcome.response.body
                  case Record(p) => if reqs[0].PostProductRequest? then [p.id] else []
                  case _ => [];
      here + AssignedIds(step.store, reqs[1..])
  }

  // ---------------------------------------------------------------------------
  // The invariant of the store
  // ---------------------------------------------------------------------------

  /**
   * Ids along `prodData` are positive and strictly increasing, and all lie
   * below the counter, which is at least 1.
   */
  ghost predicate WellFormed<N, P>(s: Store<N, P>)
  {
    && 1 <= s.uniqueId
    && (forall k :: 0 <= k < |s.prodData| - 1 ==> s.prodData[k].id < s.prodData[k + 1].id)
    && (|s.prodData| > 0 ==> 1 <= s.prodData[0].id && s.prodData[|s.prodData| - 1].id < s.uniqueId)
  }

  lemma {:induction false} AscendingBetween<N, P>(s: Store<N, P>, i: int, j: int)
    requires WellFormed(s)
    requires 0 <= i < j < |s.prodData|
    ensures s.prodData[i].id < s.prodData[j].id
    decreases j - i
  {
    if i + 1 < j {
      AscendingBetween(s, i + 1, j);
    }
  }

  lemma {:induction false} BelowCounter<N, P>(s: Store<N, P>, i: int)
    requires WellFormed(s)
    requires 0 <= i < |s.prodData|
    ensures 1 <= s.prodData[i].id < s.uniqueId
  {
    var last := |s.prodData| - 1;
    if 0 < i {
      AscendingBetween(s, 0, i);
    }
    if i < last {
      AscendingBetween(s, i, last);
    }
  }

  /**
   * In a well-formed store the ids are ordered pairwise, so no two records
   * share an id, and every id is below the counter, the next id handed out.
   */
  lemma IdsAscending<N, P>(s: Store<N, P>)
    requires WellFormed(s)
    ensures forall i, j :: 0 <= i < j < |s.prodData| ==> s.prodData[i].id < s.prodData[j].id
    ensures forall i :: 0 <= i < |s.prodData| ==> 1 <= s.prodData[i].id < s.uniqueId
  {
    forall i, j | 0 <= i < j < |s.prodData|
      ensures s.prodData[i].id < s.prodData[j].id
    {
      AscendingBetween(s, i, j);
    }
    forall i | 0 <= i < |s.prodData|
      ensures 1 <= s.prodData[i].id < s.uniqueId
    {
      BelowCounter(s, i);
    }
  }

  /** The id a create hands out is used by no record in a well-formed store, deleted or not. */
  lemma PostIdIsFresh<N, P>(s: Store<N, P>, name: N, price: P)
    requires WellFormed(s)
    ensures forall p :: p in s.prodData ==> p.id != PostProduct(s, name, price).store.prodData[|s.prodData|].id
  {
    IdsAscending(s);
  }

  /** In a well-formed store the lookup by a record's id finds that very record. */
  lemma FindsOwnRecord<N, P>(s: Store<N, P>, i: int)
    requires WellFormed(s)
    requires 0 <= i < |s.prodData|
    ensures FindIndex(s.prodData, Int(s.prodData[i].id)) == Some(i)
  {
    IdsAscending(s);
  }

  lemma PostPreservesWellFormed<N, P>(s: Store<N, P>, name: N, price: P)
    requires WellFormed(s)
    ensures WellFormed(PostProduct(s, name, price).store)
  {
  }

  lemma PutPreservesWellFormed<N, P>(s: Store<N, P>, key: JsNumber, name: N, price: P)
    requires WellFormed(s)
    ensures WellFormed(PutProduct(s, key, name, price).store)
  {
  }

  lemma DeletePreservesWellFormed<N, P>(s: Store<N, P>, key: JsNumber)
    requires WellFormed(s)
    ensures WellFormed(DeleteProduct(s, key).store)
  {
  }

  /** Every handler keeps the store well formed. */
  lemma HandlePreservesWellFormed<N, P>(s: Store<N, P>, req: Request<N, P>)
    requires WellFormed(s)
    ensures WellFormed(Handle(s, req).store)
  {
    match req
    case PostProductRequest(name, price) => PostPreservesWellFormed(s, name, price);
    case PutProductRequest(key, name, price) => PutPreservesWellFormed(s, key, name, price);
    case DeleteProductRequest(key) => DeletePreservesWellFormed(s, key);
    case _ =>
  }

  /** Any sequence of requests from a well-formed store leaves it well formed. */
  lemma {:induction false} RunPreservesWellFormed<N, P>(s: Store<N, P>, reqs: seq<Request<N, P>>)
    requires WellFormed(s)
    ensures WellFormed(Run(s, reqs))
    decreases |reqs|
  {
    if |reqs| > 0 {
      HandlePreservesWellFormed(s, reqs[0]);
      RunPreservesWellFormed(Handle(s, reqs[0]).store, reqs[1..]);
    }
  }

  /** Every state the running process can reach is well formed. */
  lemma ReachableStoresAreWellFormed<N, P>(reqs: seq<Request<N, P>>)
    ensures WellFormed(Run(Init<N, P>(), reqs))
  {
    RunPreservesWellFormed(Init<N, P>(), reqs);
  }

  /**
   * The creates of a request sequence are handed consecutive ids starting at
   * the counter, whatever lies between them, and the counter ends just past
   * the last of them.
   */
  lemma {:induction false} AssignedIdsConsecutive<N, P>(s: Store<N, P>, reqs: seq<Request<N, P>>)
    ensures Run(s, reqs).uniqueId == s.uniqueId + |AssignedIds(s, reqs)|
    ensures forall i :: 0 <= i < |AssignedIds(s, reqs)| ==> AssignedIds(s, reqs)[i] == s.uniqueId + i
    decreases |reqs|
  {
    if |reqs| > 0 {
      var step := Handle(s, reqs[0]);
      AssignedIdsConsecutive(step.store, reqs[1..]);
      var rest := AssignedIds(step.store, reqs[1..]);
      if reqs[0].PostProductRequest? {
        assert AssignedIds(s, reqs) == [s.uniqueId] + rest;
      } else {
        assert AssignedIds(s, reqs) == rest;
      }
    }
  }

  /**
   * From a fresh process the n-th create gets id n, regardless of the
   * updates and deletes in between, so no id is ever handed out twice.
   */
  lemma IdsFromStartAreOneToN<N, P>(reqs: seq<Request<N, P>>)
    ensures forall i :: 0 <= i < |AssignedIds(Init<N, P>(), reqs)| ==> AssignedIds(Init<N, P>(), reqs)[i] == i + 1
    ensures forall i, j :: 0 <= i < j < |AssignedIds(Init<N, P>(), reqs)| ==>
      AssignedIds(Init<N, P>(), reqs)[i] < AssignedIds(Init<N, P>(), reqs)[j]
  {
    AssignedIdsConsecutive(Init<N, P>(), reqs);
  }

  /** A read after an update sees the new `name` and `price` under the old id. */
  lemma PutThenGet<N, P>(s: Store<N, P>, key: JsNumber, name: N, price: P)
    requires FindIndex(s.prodData, key).Some?
    ensures var i := FindIndex(s.prodData, key).value;
      GetProduct(PutProduct(s, key, name, price).store, key).outcome
        == Done(Response(202, Record(Product(s.prodData[i].id, name, price))))
  {
  }

  /** Delete ignores its id: any two ids give the same store and the same reply. */
  lemma DeleteIgnoresId<N, P>(s: Store<N, P>, key1: JsNumber, key2: JsNumber)
    ensures DeleteProduct(s, key1) == DeleteProduct(s, key2)
  {
  }

  /**
   * The defect made concrete: deleting id 2 from records 1 and 2 removes
   * record 1 and keeps record 2, and still answers 204.
   */
  lemma DeleteRemovesWrongRecord<N, P>(n1: N, p1: P, n2: N, p2: P)
    ensures var s := Store([Product(1, n1, p1), Product(2, n2, p2)], 3);
      DeleteProduct(s, Int(2)) == Step(Store([Product(2, n2, p2)], 3), Done(Response(204, Text(DeletedText))))
  {
  }

  /**
   * The worked example: after creating a record on a fresh process, the list
   * holds exactly that record with id 1, get finds it with 202, an unknown
   * id gets the 404 text, and after an update get shows the new values.
   */
  lemma PenScenario()
    ensures var s := PostProduct(Init<string, int>(), "Pen", 10).store;
      && GetProducts(s).outcome == Done(Response(201, Records([Product(1, "Pen", 10)])))
      && GetProduct(s, Int(1)).outcome == Done(Response(202, Record(Product(1, "Pen", 10))))
      && GetProduct(s, Int(999)).outcome == FailedAfter(Response(404, Text(NotFoundOnGet)))
      && GetProduct(PutProduct(s, Int(1), "Pencil", 5).store, Int(1)).outcome
           == Done(Response(202, Record(Product(1, "Pencil", 5))))
  {
  }

  // ---------------------------------------------------------------------------
  // The running server: the two module-level variables and the handlers
  // ---------------------------------------------------------------------------

  class ProductStore<N, P> {

    var prodData: seq<Product<N, P>>
    var uniqueId: int

    function State(): Store<N, P>
      reads this
    {
      Store(prodData, uniqueId)
    }

    ghost predicate Valid()
      reads this
    {
      WellFormed(State())
    }

    /** `let prodData = []; let Uniqueid = 1;` */
    constructor ()
      ensures Valid()
      ensures State() == Init()
    {
      prodData := [];
      uniqueId := 1;
    }

    method Post(name: N, price: P) returns (outcome: Outcome<N, P>)
      requires Valid()
      modifies this
      ensures Valid()
      ensures Step(State(), outcome) == PostProduct(old(State()), name, price)
    {
      var newProd := Product(uniqueId, name, price);
      uniqueId := uniqueId + 1;
      prodData := prodData + [newProd];
      outcome := Done(Response(201, Record(newProd)));
    }

    method GetAll() returns (outcome: Outcome<N, P>)
      ensures Step(State(), outcome) == GetProducts(State())
    {
      outcome := Done(Response(201, Records(prodData)));
    }

    method GetById(key: JsNumber) returns (outcome: Outcome<N, P>)
      ensures outcome.Done? <==> exists k :: 0 <= k < |prodData| && Matches(prodData[k], key)
      ensures Step(State(), outcome) == GetProduct(State(), key)
    {
      var prod := Find(prodData, key);
      if Falsy(prod) {
        outcome := FailedAfter(Response(404, Text(NotFoundOnGet)));
      } else {
        outcome := Done(Response(202, Record(prod.record)));
      }
    }

    method Put(key: JsNumber, name: N, price: P) returns (outcome: Outcome<N, P>)
      requires Valid()
      modifies this
      ensures Valid()
      ensures Step(State(), outcome) == PutProduct(old(State()), key, name, price)
    {
      var found := FindIndex(prodData, key);
      if found.None? {
        outcome := FailedAfter(Response(404, Text(NotFoundOnChange)));
        return;
      }
      var i := found.value;
      prodData := prodData[i := prodData[i].(name := name)];
      prodData := prodData[i := prodData[i].(price := price)];
      outcome := Done(Response(200, Record(prodData[i])));
      PutPreservesWellFormed(old(State()), key, name, price);
    }

    method Delete(key: JsNumber) returns (outcome: Outcome<N, P>)
      requires Valid()
      modifies this
      ensures Valid()
      ensures Step(State(), outcome) == DeleteProduct(old(State()), key)
    {
      var prod := Find(prodData, key);
      var notFound := StrictEqualsMinusOne(prod);
      prodData := Splice(prodData, ToNumber(prod), Int(1));
      if notFound {
        outcome := FailedAfter(Response(404, Text(NotFoundOnChange)));
      } else {
        outcome := Done(Response(204, Text(DeletedText)));
      }
      DeletePreservesWellFormed(old(State()), key);
    }
  }
}
