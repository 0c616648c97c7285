/**
 * The fast-registration list: which collections are offered, and what the
 * "learn now" handler does with the service's answer.
 *
 * Server data is modelled as JavaScript values (Json). Numbers are integers;
 * NaN and -0 do not occur.
 */
module FastRegister {
  import opened Wrappers

  datatype Json = Undefined | Null | Bool(b: bool) | Num(n: int) | Str(s: string) | Obj(fields: Object)

  type Object = map<string, Json>

  /** The daily goal every fast registration asks for. */
  const DefaultGoal: int := 20

  /** The keys the handler writes over what the response spreads in. */
  const Overrides: set<string> :=
    {"collection_id", "collection", "mastered_card_count", "today_learned_count", "learned_card_count", "is_registered"}

  /** The keys of the collection snapshot the handler builds. */
  const SnapshotKeys: set<string> := {"id", "name", "card_count", "icon"}

  /** JavaScript truthiness. */
  predicate Truthy(v: Json) {
    match v
    case Undefined => false
    case Null => false
    case Bool(b) => b
    case Num(n) => n != 0
    case Str(s) => s != ""
    case Obj(_) => true
  }

  predicate Nullish(v: Json) {
    v.Undefined? || v.Null?
  }

  /** `o.k` on an object: a missing key reads as undefined. */
  function Get(o: Object, k: string): Json {
    if k in o then o[k] else Undefined
  }

  /** What went wrong; each is shown as an error toast. */
  datatype RegisterError =
    | ServiceError   // registerCollection rejected
    | NotRegistered  // the response was falsy, so the handler threw its own Error
    | TypeError      // a member of undefined or null was read

  /** `v.k` on any value: a TypeError on undefined and null; the keys read here are no property of a primitive. */
  function Member(v: Json, k: string): (r: Result<Json, RegisterError>)
    ensures r.Err? <==> Nullish(v)
    ensures r.Err? ==> r.error == TypeError
    ensures v.Obj? ==> r == Ok(Get(v.fields, k))
    ensures !v.Obj? && !Nullish(v) ==> r == Ok(Undefined)
  {
    match v
    case Undefined => Err(TypeError)
    case Null => Err(TypeError)
    case Obj(fields) => Ok(Get(fields, k))
    case _ => Ok(Undefined)
  }

  /** The filter predicate: `is_registered` is exactly false; a missing flag, or any other value, does not pass. */
  predicate Offered(item: Object) {
    Get(item, "is_registered") == Bool(false)
  }

  /** Standard subsequence: a can be obtained from b by deleting elements. */
  predicate IsSubsequence<T(==)>(a: seq<T>, b: seq<T>)
    decreases |b|
  {
    if a == [] then true
    else if b == [] then false
    else (a[0] == b[0] && IsSubsequence(a[1..], b[1..])) || IsSubsequence(a, b[1..])
  }

  /** The collections offered for registration: the items whose flag is exactly false, in their original order. */
  function FilterCollections(items: seq<Object>): (r: seq<Object>)
    ensures |r| <= |items|
    ensures forall i :: 0 <= i < |r| ==> Offered(r[i])
    decreases |items|
  {
    if items == [] then []
    else
      var rest := FilterCollections(items[1..]);
      if Offered(items[0]) then [items[0]] + rest else rest
  }

  /** Each item that passes the test is kept as often as it occurs; every other item is dropped. */
  lemma {:induction false} FilterKeepsExactlyOffered(items: seq<Object>)
    ensures forall x :: multiset(FilterCollections(items))[x] == if Offered(x) then multiset(items)[x] else 0
    decreases |items|
  {
    if items != [] {
      FilterKeepsExactlyOffered(items[1..]);
      assert items == [items[0]] + items[1..];
    }
  }

  /** The kept items appear in the input in the same order. */
  lemma {:induction false} FilterIsSubsequence(items: seq<Object>)
    ensures IsSubsequence(FilterCollections(items), items)
    decreases |items|
  {
    if items != [] {
      FilterIsSubsequence(items[1..]);
      var rest := FilterCollections(items[1..]);
      if Offered(items[0]) {
        assert ([items[0]] + rest)[1..] == rest;
      }
    }
  }

  /** Filtering an already filtered list changes nothing. */
  lemma {:induction false} FilterIdempotent(items: seq<Object>)
    ensures FilterCollections(FilterCollections(items)) == FilterCollections(items)
    decreases |items|
  {
    if items != [] {
      FilterIdempotent(items[1..]);
      var rest := FilterCollections(items[1..]);
      if Offered(items[0]) {
        assert ([items[0]] + rest)[1..] == rest;
      }
    }
  }

  /** Filtering distributes over concatenation: each part of the list is filtered on its own. */
  lemma {:induction false} FilterAppend(xs: seq<Object>, ys: seq<Object>)
    ensures FilterCollections(xs + ys) == FilterCollections(xs) + FilterCollections(ys)
    decreases |xs|
  {
    if xs != [] {
      assert (xs + ys)[1..] == xs[1..] + ys;
      FilterAppend(xs[1..], ys);
    } else {
      assert xs + ys == ys;
    }
  }

  /** The collection snapshot `{id, name, card_count, icon}`: id from the response, the rest from its `collection`. */
  function CollectionSnapshot(res: Object): (r: Result<Object, RegisterError>)
    ensures r.Err? <==> Nullish(Get(res, "collection"))
    ensures r.Err? ==> r.error == TypeError
    ensures r.Ok? ==> r.value.Keys == SnapshotKeys
    ensures r.Ok? ==> r.value["id"] == Get(res, "collection_id")
    ensures r.Ok? ==> forall k :: k in {"name", "card_count", "icon"} ==>
                        Ok(r.value[k]) == Member(Get(res, "collection"), k)
  {
    var collection := Get(res, "collection");
    // The first read throws exactly when the later two would.
    var name :- Member(collection, "name");
    Ok(map[
      "id" := Get(res, "collection_id"),
      "name" := name,
      "card_count" := Member(collection, "card_count").value,
      "icon" := Member(collection, "icon").value
    ])
  }

  /** The progress record dispatched to the store: the response spread in, then the overrides, which win. */
  function BuildRecord(res: Object): (r: Result<Object, RegisterError>)
    ensures r.Err? <==> Nullish(Get(res, "collection"))
    ensures r.Err? ==> r.error == TypeError
    ensures r.Ok? ==> r.value.Keys == res.Keys + Overrides
    ensures r.Ok? ==> forall k :: k in res && k !in Overrides ==> r.value[k] == res[k]
    ensures r.Ok? ==> && r.value["mastered_card_count"] == Num(0)
                      && r.value["today_learned_count"] == Num(0)
                      && r.value["learned_card_count"] == Num(0)
                      && r.value["is_registered"] == Bool(true)
    ensures r.Ok? ==> r.value["collection_id"] == Get(res, "collection_id")
    ensures r.Ok? ==> r.value["collection"].Obj? && CollectionSnapshot(res) == Ok(r.value["collection"].fields)
  {
    var snapshot :- CollectionSnapshot(res);
    Ok(res + map[
      "collection_id" := Get(res, "collection_id"),
      "collection" := Obj(snapshot),
      "mastered_card_count" := Num(0),
      "today_learned_count" := Num(0),
      "learned_card_count" := Num(0),
      "is_registered" := Bool(true)
    ])
  }

  /** The outcome of the registration call. */
  datatype ServiceOutcome = Resolved(response: Json) | Rejected

  /** A successful registration: the record is dispatched, the app moves to the collection's quiz and the popular list is invalidated. */
  datatype Registration = Registration(record: Object, quizRoute: int)

  /** The service call the handler makes: the collection and the goal asked for. */
  datatype RegisterCall = RegisterCall(collectionId: int, goal: int)

  /** One press of "learn now": the call sent, and what follows from its outcome. */
  datatype LearnNow = LearnNow(call: RegisterCall, result: Result<Registration, RegisterError>)

  /** handlePressLearnNow: the registration call, then either a registration or the error its catch shows. */
  function HandlePressLearnNow(collectionId: int, outcome: ServiceOutcome): (h: LearnNow)
    ensures h.call == RegisterCall(collectionId, 20)
    ensures outcome.Rejected? ==> h.result == Err(ServiceError)
    ensures outcome.Resolved? && !Truthy(outcome.response) ==> h.result == Err(NotRegistered)
    ensures outcome.Resolved? && Truthy(outcome.response) && h.result.Err? ==> h.result.error == TypeError
    ensures h.result.Ok? ==> outcome.Resolved? && Truthy(outcome.response)
    ensures h.result.Ok? <==> outcome.Resolved? && outcome.response.Obj? && !Nullish(Get(outcome.response.fields, "collection"))
    ensures h.result.Ok? ==> h.result.value.quizRoute == collectionId
                             && BuildRecord(outcome.response.fields) == Ok(h.result.value.record)
  {
    var call := RegisterCall(collectionId, DefaultGoal);
    match outcome
    case Rejected => LearnNow(call, Err(ServiceError))
    case Resolved(res) =>
      if !Truthy(res) then LearnNow(call, Err(NotRegistered))
      else
        var fields := if res.Obj? then res.fields else map[];
        match BuildRecord(fields)
        case Err(e) => LearnNow(call, Err(e))
        case Ok(record) => LearnNow(call, Ok(Registration(record, collectionId)))
  }
}
