/**
 * The quiz session hook: a batch of quiz items, the index of the item on
 * screen and the batch length recorded for the skip logic.
 *
 * The asynchronous quiz service is split at its `await`: calling fetchQuiz
 * appends a Request to the hook's log and marks it in flight; its completion
 * arrives later as FetchSucceeded or FetchFailed. Completions are applied in
 * whatever order they arrive and are not matched against the request that
 * caused them.
 */
module UseFetchQuiz {
  import opened Wrappers

  /** A quiz item as the quiz service returns it. */
  datatype Quiz = Quiz(id: int, isNew: bool, questionType: string)

  /** One call of the quiz service: the collection asked for and the review flag sent with it. */
  datatype Request = Request(collectionId: int, isReview: bool)

  /** The hook's arguments; an absent collection id (undefined or null) is None. */
  datatype Props = Props(collectionId: Option<int>, isReview: bool, isRefetchQuiz: bool)

  /** The session state: the batch, the current position and the recorded batch length. */
  datatype Cursor = Cursor(quizList: seq<Quiz>, currentIndex: nat, quizListLength: nat)

  /** The cursor a freshly mounted hook starts from. */
  const Initial: Cursor := Cursor([], 0, 0)

  /** `!collectionId` is false exactly for a present, non-zero id. */
  predicate HasId(id: Option<int>) {
    id.Some? && id.value != 0
  }

  /** The bounds invariant: the recorded length is the batch's, and the index points into a non-empty batch and is 0 otherwise. */
  predicate InBounds(c: Cursor) {
    && c.quizListLength == |c.quizList|
    && (if c.quizListLength > 0 then c.currentIndex < c.quizListLength else c.currentIndex == 0)
  }

  /** The service calls one invocation of fetchQuiz makes: none when the id guard returns early. */
  function FetchRequests(id: Option<int>, isReview: bool): (r: seq<Request>)
    ensures |r| <= 1
    ensures r != [] <==> HasId(id)
    ensures forall q :: q in r ==> q.collectionId != 0 && id == Some(q.collectionId) && q.isReview == isReview
  {
    if HasId(id) then [Request(id.value, isReview)] else []
  }

  /** The session after a successful call: the response replaces the batch wholesale, whatever the state before. */
  function Fetched(response: Option<seq<Quiz>>): (r: Cursor)
    ensures InBounds(r)
    ensures r.currentIndex == 0
    ensures r.quizList == (if response.Some? then response.value else [])
  {
    var batch := if response.Some? && |response.value| > 0 then response.value else [];
    Cursor(batch, 0, |batch|)
  }

  /** True when one more skip runs past the recorded length: handleSkip then wraps and refills. */
  predicate Exhausted(c: Cursor) {
    c.currentIndex + 1 >= c.quizListLength
  }

  /** The session after handleSkip's state update. */
  function Skipped(c: Cursor): (r: Cursor)
    ensures r.quizList == c.quizList && r.quizListLength == c.quizListLength
    ensures r.currentIndex == 0 <==> Exhausted(c)
    ensures !Exhausted(c) ==> r.currentIndex == c.currentIndex + 1
    ensures r.currentIndex < r.quizListLength || r.quizListLength == 0 == r.currentIndex
    ensures InBounds(c) ==> InBounds(r)
  {
    if c.currentIndex + 1 < c.quizListLength then c.(currentIndex := c.currentIndex + 1)
    else c.(currentIndex := 0)
  }

  /** k skips in a row, with no fetch completing in between. */
  function SkipTimes(c: Cursor, k: nat): Cursor
    decreases k
  {
    if k == 0 then c else SkipTimes(Skipped(c), k - 1)
  }

  /** How many of those k skips call fetchQuiz. */
  function RefillsIn(c: Cursor, k: nat): nat
    decreases k
  {
    if k == 0 then 0 else (if Exhausted(c) then 1 else 0) + RefillsIn(Skipped(c), k - 1)
  }

  /** Skipping k times from index i, while i + k is still in the batch, lands on i + k and asks for no refill. */
  lemma {:induction false} SkipsWalkBatch(c: Cursor, k: nat)
    requires InBounds(c)
    requires c.currentIndex + k < c.quizListLength
    ensures SkipTimes(c, k) == c.(currentIndex := c.currentIndex + k)
    ensures RefillsIn(c, k) == 0
    decreases k
  {
    if k > 0 {
      SkipsWalkBatch(Skipped(c), k - 1);
    }
  }

  /** From index i of a non-empty batch, the (length - i)-th skip wraps to 0, and exactly one of those skips asks for a refill. */
  lemma {:induction false} SkipsWrapOnce(c: Cursor)
    requires InBounds(c)
    requires c.quizListLength > 0
    ensures SkipTimes(c, c.quizListLength - c.currentIndex) == c.(currentIndex := 0)
    ensures RefillsIn(c, c.quizListLength - c.currentIndex) == 1
    decreases c.quizListLength - c.currentIndex
  {
    if !Exhausted(c) {
      SkipsWrapOnce(Skipped(c));
    } else {
      assert SkipTimes(Skipped(c), 0) == c.(currentIndex := 0);
    }
  }

  /** A fresh batch of n items stays the batch over n skips; after k < n skips item k is on screen, so every item is shown once, in order; the n-th skip returns to the first item and is the only one that refills. */
  lemma BatchVisitedInOrder(response: seq<Quiz>, k: nat)
    requires response != []
    requires k <= |response|
    ensures SkipTimes(Fetched(Some(response)), k).quizList == response
    ensures k < |response| ==> SkipTimes(Fetched(Some(response)), k).currentIndex == k
    ensures RefillsIn(Fetched(Some(response)), k) == (if k == |response| then 1 else 0)
  {
    var c := Fetched(Some(response));
    if k < |response| {
      SkipsWalkBatch(c, k);
    } else {
      SkipsWrapOnce(c);
    }
  }

  /** The two operations the invariant is stated over, and a failed completion. */
  datatype Event = Skip | FetchSuccess(response: Option<seq<Quiz>>) | FetchFailure

  function Step(c: Cursor, e: Event): Cursor {
    match e
    case Skip => Skipped(c)
    case FetchSuccess(response) => Fetched(response)
    case FetchFailure => c
  }

  function Run(c: Cursor, es: seq<Event>): Cursor
    decreases |es|
  {
    if es == [] then c else Run(Step(c, es[0]), es[1..])
  }

  /** Any interleaving of skips and fetch completions keeps the bounds invariant. */
  lemma {:induction false} RunStaysInBounds(c: Cursor, es: seq<Event>)
    requires InBounds(c)
    ensures InBounds(Run(c, es))
    decreases |es|
  {
    if es != [] {
      RunStaysInBounds(Step(c, es[0]), es[1..]);
    }
  }

  /** Service calls made when the hook mounts: the first effect always calls fetchQuiz, the second only when isRefetchQuiz is true. */
  function MountRequests(p: Props): (r: seq<Request>)
    ensures |r| == (if !HasId(p.collectionId) then 0 else if p.isRefetchQuiz then 2 else 1)
    ensures forall q :: q in r ==> p.collectionId == Some(q.collectionId) && q.isReview == p.isReview
  {
    FetchRequests(p.collectionId, p.isReview)
      + (if p.isRefetchQuiz then FetchRequests(p.collectionId, p.isReview) else [])
  }

  /**
   * Service calls made when the hook re-renders from prev to next: the first
   * effect runs when collectionId or isReview changed, the second when
   * isRefetchQuiz changed, and that one calls fetchQuiz only when it is now true.
   */
  function RerenderRequests(prev: Props, next: Props): (r: seq<Request>)
    ensures |r| <= 2
    ensures !HasId(next.collectionId) ==> r == []
    ensures HasId(next.collectionId) && (prev.collectionId != next.collectionId || prev.isReview != next.isReview) ==> r != []
    ensures prev.collectionId == next.collectionId && prev.isReview == next.isReview ==>
              (r != [] <==> HasId(next.collectionId) && next.isRefetchQuiz && !prev.isRefetchQuiz)
    ensures HasId(next.collectionId) ==>
              |r| == (if prev.collectionId != next.collectionId || prev.isReview != next.isReview then 1 else 0)
                     + (if next.isRefetchQuiz && !prev.isRefetchQuiz then 1 else 0)
    ensures forall q :: q in r ==> next.collectionId == Some(q.collectionId) && q.isReview == next.isReview
  {
    var first := if prev.collectionId != next.collectionId || prev.isReview != next.isReview
                 then FetchRequests(next.collectionId, next.isReview) else [];
    var second := if prev.isRefetchQuiz != next.isRefetchQuiz && next.isRefetchQuiz
                  then FetchRequests(next.collectionId, next.isReview) else [];
    first + second
  }

  /** The hook as a stateful object: the session fields plus what it has sent to the quiz service. */
  class QuizHook {
    /** The arguments of the latest render. */
    var props: Props
    var quizList: seq<Quiz>
    var currentIndex: nat
    var quizListLength: nat
    /** The isReview that the memoised handleSkip sees: its dependencies omit isReview, so it is the value of the last render in which collectionId changed. */
    var skipReview: bool
    /** Every call sent to the quiz service, oldest first. */
    var requests: seq<Request>
    /** Calls sent whose response has not arrived. */
    var inFlight: nat
    /** Error toasts shown for failed calls. */
    var errorToasts: nat

    function Session(): Cursor
      reads this
    {
      Cursor(quizList, currentIndex, quizListLength)
    }

    ghost predicate Valid()
      reads this
    {
      && InBounds(Session())
      && inFlight <= |requests|
      && forall q :: q in requests ==> q.collectionId != 0
    }

    /** Mounting the hook: empty session, then both effects run once. */
    constructor (p: Props)
      ensures Valid()
      ensures props == p && skipReview == p.isReview
      ensures Session() == Initial
      ensures requests == MountRequests(p) && inFlight == |requests|
      ensures errorToasts == 0
    {
      props := p;
      quizList := [];
      currentIndex := 0;
      quizListLength := 0;
      skipReview := p.isReview;
      requests := MountRequests(p);
      inFlight := |MountRequests(p)|;
      errorToasts := 0;
    }

    /** A re-render with new arguments: the effects whose dependencies changed run; the session is untouched until a response arrives. */
    method Rerender(next: Props)
      requires Valid()
      modifies this
      ensures Valid()
      ensures props == next
      ensures Session() == old(Session())
      ensures requests == old(requests) + RerenderRequests(old(props), next)
      ensures inFlight == old(inFlight) + |RerenderRequests(old(props), next)|
      ensures skipReview == (if next.collectionId != old(props).collectionId then next.isReview else old(skipReview))
      ensures errorToasts == old(errorToasts)
    {
      var sent := RerenderRequests(props, next);
      if next.collectionId != props.collectionId {
        skipReview := next.isReview;
      }
      requests := requests + sent;
      inFlight := inFlight + |sent|;
      props := next;
    }

    /** fetchQuiz called directly (the hook returns it): a no-op without an id, otherwise one service call. */
    method FetchQuiz()
      requires Valid()
      modifies this
      ensures Valid()
      ensures Session() == old(Session())
      ensures requests == old(requests) + FetchRequests(props.collectionId, props.isReview)
      ensures !HasId(props.collectionId) ==> requests == old(requests) && inFlight == old(inFlight)
      ensures HasId(props.collectionId) ==> inFlight == old(inFlight) + 1
      ensures props == old(props) && skipReview == old(skipReview) && errorToasts == old(errorToasts)
    {
      var sent := FetchRequests(props.collectionId, props.isReview);
      requests := requests + sent;
      inFlight := inFlight + |sent|;
    }

    /** A call resolved: its response replaces the batch, the recorded length follows it and the index returns to 0. */
    method FetchSucceeded(response: Option<seq<Quiz>>)
      requires Valid()
      requires inFlight > 0
      modifies this
      ensures Valid()
      ensures Session() == Fetched(response)
      ensures quizListLength == |quizList| && currentIndex == 0
      ensures inFlight == old(inFlight) - 1
      ensures requests == old(requests) && props == old(props) && skipReview == old(skipReview)
      ensures errorToasts == old(errorToasts)
    {
      var next := Fetched(response);
      quizList := next.quizList;
      quizListLength := next.quizListLength;
      currentIndex := next.currentIndex;
      inFlight := inFlight - 1;
    }

    /** A call failed: only an error toast; the session stays on its previous batch. */
    method FetchFailed()
      requires Valid()
      requires inFlight > 0
      modifies this
      ensures Valid()
      ensures Session() == old(Session())
      ensures errorToasts == old(errorToasts) + 1
      ensures inFlight == old(inFlight) - 1
      ensures requests == old(requests) && props == old(props) && skipReview == old(skipReview)
    {
      errorToasts := errorToasts + 1;
      inFlight := inFlight - 1;
    }

    /** handleSkip: step to the next item, or wrap to 0 and call fetchQuiz (with the review flag its closure captured). */
    method Skip()
      requires Valid()
      modifies this
      ensures Valid()
      ensures Session() == Skipped(old(Session()))
      ensures quizList == old(quizList) && quizListLength == old(quizListLength)
      ensures requests == old(requests)
                          + (if Exhausted(old(Session())) then FetchRequests(props.collectionId, skipReview) else [])
      ensures inFlight == old(inFlight) + (if Exhausted(old(Session())) && HasId(props.collectionId) then 1 else 0)
      ensures props == old(props) && skipReview == old(skipReview) && errorToasts == old(errorToasts)
    {
      if !Exhausted(Session()) {
        currentIndex := currentIndex + 1;
      } else {
        var sent := FetchRequests(props.collectionId, skipReview);
        requests := requests + sent;
        inFlight := inFlight + |sent|;
        currentIndex := 0;
      }
    }

    /** The item the screen shows, `quizList[currentIndex]`, guarded as the screen guards it by a non-empty batch. */
    method CurrentQuiz() returns (q: Option<Quiz>)
      requires Valid()
      ensures q.Some? <==> quizList != []
      ensures q.Some? ==> currentIndex < |quizList| && q.value == quizList[currentIndex]
    {
      if |quizList| > 0 {
        q := Some(quizList[currentIndex]);
      } else {
        q := None;
      }
    }
  }
}
