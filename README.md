# Quiz session cursor and fast registration, in Dafny

This project models two pieces of a vocabulary-learning app's client:

- **The quiz session hook** (`hooks/useFetchQuiz.ts`), module `UseFetchQuiz`.
  The hook holds a batch of quiz items (`quizList`), the position of the item
  on screen (`currentIndex`) and the batch length recorded for the skip logic
  (`quizListLength`). `fetchQuiz` asks the quiz service for a new batch. It
  does nothing when the collection id is absent or 0. `handleSkip` moves to
  the next item. At the end of the batch it wraps to 0 and calls `fetchQuiz`
  again. Two effects call `fetchQuiz`. The first runs on mount and when
  `collectionId` or `isReview` changes. The second runs on mount and when
  `isRefetchQuiz` changes, and calls `fetchQuiz` only when the flag is then
  true.
  The value-level part is made of the `Cursor` datatype, its transitions
  `Fetched` and `Skipped`, and the service calls each effect makes. Class
  `QuizHook` has the hook's fields. Each of its methods is tied to one of
  those transition functions.
- **Fast registration** (`components/fast-register.tsx`), module
  `FastRegister`. This covers the filter that picks which collections are
  offered. It also covers the progress record built after a successful
  registration, and the handler's success and error outcomes. Server data is
  modelled as JavaScript values (`Json`). The model covers truthiness,
  property access that throws on `undefined` and `null`, and object spread
  where later keys win.

The two remote services are parameters, not calls. A quiz fetch is split at
its `await`. Issuing a fetch appends a `Request` to `QuizHook.requests` and
counts it in `inFlight`. The response arrives later as `FetchSucceeded(response)`
or `FetchFailed()`. The registration handler is a function of the service's
outcome (`Resolved(value)` or `Rejected`).

Three behaviours of the code are easy to miss:

- The id guard is `!collectionId`. It rejects only an absent id or 0. It does
  not check that the collection is registered.
- `handleSkip` is memoised on `[quizListLength, collectionId]`. Its refill
  therefore sends the `isReview` value from the last render in which
  `collectionId` changed, not the current one. `QuizHook.skipReview` records
  that value.
- Responses are applied in arrival order, with no staleness guard. A late
  response for an earlier collection still replaces the batch.

## Model

| member | source | states |
|---|---|---|
| `UseFetchQuiz.FetchRequests` | hooks/useFetchQuiz.ts:15-19 | fetchQuiz makes at most one service call. It makes one exactly when the id is present and non-zero, and that call carries the id and the review flag. |
| `UseFetchQuiz.Fetched` | hooks/useFetchQuiz.ts:19-22 | A successful response gives a session that satisfies the bounds invariant. The index is 0 and the batch is the response, or `[]` when there is none. The result does not depend on the session before. |
| `UseFetchQuiz.Skipped` | hooks/useFetchQuiz.ts:37-45 | A skip leaves the batch and its length alone. The index becomes 0 exactly when the batch is exhausted, and is the next index otherwise. After a skip the index is always below the length, or 0 when the length is 0, whatever it was before. A skip keeps the bounds invariant. |
| `UseFetchQuiz.SkipsWalkBatch` | hooks/useFetchQuiz.ts:38-40 | k skips that stay inside the batch move the index forward by k and ask for no refill. |
| `UseFetchQuiz.SkipsWrapOnce` | hooks/useFetchQuiz.ts:41-44 | From index i of a non-empty batch, length − i skips bring the index back to 0. Exactly one of those skips asks for a refill. |
| `UseFetchQuiz.BatchVisitedInOrder` | hooks/useFetchQuiz.ts:19-44 | After a fresh batch of n items, the batch stays the response for n skips. After k < n skips the index is k, so item k of the response is on screen and every item is shown once, in order. The n-th skip is the only refill. |
| `UseFetchQuiz.RunStaysInBounds` | hooks/useFetchQuiz.ts:15-46 | Every sequence of skips and fetch completions keeps the bounds invariant: the index is below the length when the length is positive, and 0 when it is 0. |
| `UseFetchQuiz.MountRequests` | hooks/useFetchQuiz.ts:28-35 | On mount the hook makes no call without an id. With an id it makes one call, or two when isRefetchQuiz is true. Each call uses the current id and review flag. |
| `UseFetchQuiz.RerenderRequests` | hooks/useFetchQuiz.ts:28-35 | On re-render the hook makes no call without an id. With an id, it makes exactly one call if the id or review mode changed, plus exactly one more if isRefetchQuiz has just become true, and no others. Every call uses the new id and review flag. |
| `UseFetchQuiz.QuizHook.constructor` | hooks/useFetchQuiz.ts:9-35 | The hook starts with an empty batch at index 0. It has sent exactly its mount calls, all still in flight. |
| `UseFetchQuiz.QuizHook.Rerender` | hooks/useFetchQuiz.ts:28-46 | A re-render leaves the session unchanged and appends the effects' calls. The skip closure's review flag is refreshed only when the id changed. |
| `UseFetchQuiz.QuizHook.FetchQuiz` | hooks/useFetchQuiz.ts:15-19 | Without an id nothing changes. With an id exactly one call is appended. The session is untouched until the response arrives. |
| `UseFetchQuiz.QuizHook.FetchSucceeded` | hooks/useFetchQuiz.ts:19-22 | The batch is replaced by the response, the length follows it and the index is 0. Nothing else changes apart from the in-flight count. |
| `UseFetchQuiz.QuizHook.FetchFailed` | hooks/useFetchQuiz.ts:23-25 | The batch, its length and the index are unchanged. Only one error toast is added. |
| `UseFetchQuiz.QuizHook.Skip` | hooks/useFetchQuiz.ts:37-46 | The session follows `Skipped`. The batch and length are untouched. One call is appended exactly when the batch was exhausted and an id is present, using the closure's review flag. |
| `UseFetchQuiz.QuizHook.CurrentQuiz` | hooks/useFetchQuiz.ts:48 | The hook returns its state here. The screen reads `quizList[currentIndex]` only when the batch is non-empty (app/(tabs)/quiz/[id].tsx:186-196). Under the invariant, the returned index is always safe to read. An item exists exactly when the batch is non-empty, and it is `quizList[currentIndex]`. |
| `FastRegister.FilterCollections` | components/fast-register.tsx:31 | Every kept item has `is_registered` exactly `false`, and the result is no longer than the input. |
| `FastRegister.FilterKeepsExactlyOffered` | components/fast-register.tsx:31 | Each item whose flag is exactly `false` is kept as often as it occurs. Every other item, including one with no flag, is dropped. |
| `FastRegister.FilterIsSubsequence` | components/fast-register.tsx:31 | The result is a subsequence of the input, so the kept items keep their relative order. |
| `FastRegister.FilterIdempotent` | components/fast-register.tsx:31 | Filtering a filtered list changes nothing. |
| `FastRegister.FilterAppend` | components/fast-register.tsx:31 | Filtering a concatenation is the concatenation of the filtered parts. |
| `FastRegister.Member` | components/fast-register.tsx:48-50 | For the keys the handler reads (`name`, `card_count`, `icon`): reading a property throws a TypeError exactly on undefined or null. On an object it reads the field, or undefined when the key is missing. On any other value it reads undefined. Prototype properties such as a string's `length` are not modelled. |
| `FastRegister.CollectionSnapshot` | components/fast-register.tsx:46-51 | The snapshot has exactly the keys id, name, card_count and icon. The id is the response's collection_id and the other three are read from the response's collection. Building it fails with a TypeError exactly when that collection is undefined or null. |
| `FastRegister.BuildRecord` | components/fast-register.tsx:42-56 | The record has the response's keys plus the override keys. Keys that are not overridden keep their values from the response. The three counters are 0 and is_registered is true, whatever the response held. collection_id is copied and collection is the snapshot. |
| `FastRegister.HandlePressLearnNow` | components/fast-register.tsx:38-65 | The handler always asks the service for the given collection with the fixed goal 20. A rejected call gives a service error. A falsy response gives the handler's own error. A truthy response without a usable `collection` gives a TypeError. A registration results exactly when the response is an object whose collection is defined, so only a truthy response dispatches. The registration carries the built record and the quiz route of the collection. |

## Left out

- Rendering, styles, theme colours and the list markup (components/fast-register.tsx:68-133): presentation only.
- components/quiz-setting.tsx is not part of this model. Its `handleStopLearning` is one service call and a dispatch to a store reducer that is not modelled. Its `!collectionId` guard is the same test as `UseFetchQuiz.HasId`.
- The quiz and collection services, the react-query invalidation of the popular list, router navigation and toast display: foreign calls. The model keeps only their outcomes, the requests sent, a toast count and the quiz route.
- Async interleaving within one render: in the source `quizListLength` is a ref, assigned at once, while `quizList` and `currentIndex` change on the next render. The model applies a response as one atomic step.
- The exposed `setCurrentIndex` (hooks/useFetchQuiz.ts:48): it can set any index and bypasses the bounds invariant. The invariant is stated over fetch and skip only.
- React strict mode, which may run the `handleSkip` updater twice: not modelled.
- The distinction between `undefined` and `null` for the collection id, and between `undefined` and `false` for `isRefetchQuiz` and `isReview`, is not modelled. The source's guards treat `undefined` and `false` the same. `isReview` is sent to the service unchanged, and the only caller always passes a boolean (app/(tabs)/quiz/[id].tsx:42,74).
- Elements of the popular list that are not objects are not modelled, because the list is typed as objects. In the source, `item.is_registered` throws a TypeError on a null or undefined element, and a primitive element is dropped because its flag reads as undefined.
- Numbers are integers. NaN, -0 and fractional ids are not modelled.
- Spreading a truthy string or array response into the record is not modelled. Such a response has no `collection`, so the handler throws before the record is used.
- Matching a response to the request it answers: the source has no staleness guard, so the model does not pair them either.
- The progress-store reducers (`register`, `changeStatus`), the day-boundary check and the quiz screen's answer and mastery flows: these live outside the modelled files.
