# Course store and error channel

A model, in Dafny, of the client-side state of a small Angular course
application:

- `CoursesStore` keeps one snapshot of the course list. The snapshot starts
  empty and is replaced by the initial load. `saveCourse` updates it
  optimistically, copy-on-write. `filterByCategory` derives, for each snapshot,
  the courses of one category sorted by `seqNo`.
- `MessagesService` holds the last published batch of error strings. Its
  `errors$` stream passes on only non-empty batches.
- `MessagesComponent` opens its error panel for every delivered batch and
  closes it locally with `onClose`.

Files:

- `courses.dfy`, module `Courses`: the course record and the partial update.
  It also holds the pure functions behind the store: the spread merge, the
  category filter, a stable sort by `seqNo`, `findIndex` and the slot
  replacement of a save.
- `messages.dfy`, module `Messages`: the classes `Bus` (`MessagesService`) and
  `Panel` (`MessagesComponent`). They live in one module because each refers
  to the other.
- `courses_store.dfy`, module `CoursesStore`: the class `Store` with the cache
  field. Its load and save take the outcome of their HTTP request as an
  argument.

Streams are modelled by the value they hold, plus ghost logs of what they
emit:

- `Store.published` logs every snapshot pushed with `subject.next`.
- `Bus.delivered` logs every batch `errors$` handed to the subscribed panel.

The comparator `sortCoursesBySeqNo` lives in `src/app/model/course.ts`, which
is not part of this model. It is modelled as ascending order of `seqNo`. The
sort is modelled as stable, like `Array.prototype.sort` in ECMAScript 2019 and
later, and its stability is proved (`SortKeepsRuns`).

Three behaviours of the code that the model keeps as they are:

- Course ids are not assumed unique: `saveCourse` replaces only the first
  course with the id (`findIndex`).
- A failed load is not returned to any caller: the store subscribes to the
  load itself, with no error handler (`courses.store.service.ts:48`), so
  `LoadAllCourses` returns the failure the load stream ends with and it stops
  there.
- The PUT is issued only when the caller subscribes to the observable that
  `saveCourse` returns. `SaveCourse` takes the outcome of that subscription.
  The optimistic update happens whether or not anyone subscribes.

## Model

| member | source | states |
|---|---|---|
| `Courses.Merge` | src/app/services/courses.store.service.ts:56-59 | a field set in the changes takes the new value (the id included), every other field and every extra field keeps the old one |
| `Courses.MergeNoChanges` | src/app/services/courses.store.service.ts:56-59 | spreading no changes over a course gives the same course |
| `Courses.MergeIdempotent` | src/app/services/courses.store.service.ts:56-59 | spreading the same changes twice equals spreading them once |
| `Courses.MergeCombine` | src/app/services/courses.store.service.ts:56-59 | two successive merges equal one merge of the combined changes |
| `Courses.InCategory` | src/app/services/courses.store.service.ts:29 | every course kept has the category, and each course of that category occurs exactly as often as in the cache (the others never) |
| `Courses.InCategoryAppend` | src/app/services/courses.store.service.ts:29 | filtering a concatenation filters each part, so the kept courses stay in cache order |
| `Courses.InCategoryWithSeqNo` | src/app/services/courses.store.service.ts:29 | keeping one category and keeping one `seqNo` commute |
| `Courses.InsertBySeqNo` | src/app/services/courses.store.service.ts:30 | inserting into a sorted sequence keeps it sorted by `seqNo` and adds exactly that one course |
| `Courses.SortBySeqNo` | src/app/services/courses.store.service.ts:30 | the result is sorted ascending by `seqNo` and is a permutation of the input |
| `Courses.InsertKeepsRuns` | src/app/services/courses.store.service.ts:30 | insertion puts the course ahead of the courses with an equal `seqNo` and leaves every other order alone |
| `Courses.SortKeepsRuns` | src/app/services/courses.store.service.ts:30 | the sort is stable: courses with equal `seqNo` keep their cache order |
| `Courses.ByCategory` | src/app/services/courses.store.service.ts:25-33 | the emitted list for a snapshot has only courses of the category, is a permutation of the snapshot's courses of that category, is sorted by `seqNo`, and its courses of any one `seqNo` are exactly the category filter of the snapshot's courses of that `seqNo`, in cache order; being a function it changes no state |
| `Courses.FindIndex` | src/app/services/courses.store.service.ts:53 | -1 exactly when no course has the id, otherwise the first index holding it |
| `Courses.SavedCache` | src/app/services/courses.store.service.ts:52-61 | same length; the first course with the id becomes the merge of the changes over it and every other slot is unchanged; with the id absent the cache is unchanged |
| `Courses.SaveIdempotent` | src/app/services/courses.store.service.ts:52-61 | saving the same changes twice gives the cache of saving them once, when the changes keep the id |
| `CoursesStore.Store.constructor` | src/app/services/courses.store.service.ts:13 | the cache starts empty and nothing has been pushed |
| `CoursesStore.Store.LoadAllCourses` | src/app/services/courses.store.service.ts:35-49 | a successful GET replaces the cache with the envelope's payload, pushes it and leaves the bus alone; a failed GET publishes exactly `["Could not load courses"]`, opens a subscribed panel, keeps the cache and pushes nothing, and ends in failure |
| `CoursesStore.Store.SaveCourse` | src/app/services/courses.store.service.ts:51-75 | the new cache is the slot replacement of `SavedCache`, pushed whatever the PUT's outcome (no rollback); a failed PUT publishes exactly `["Could not save course"]` and fails the result; an absent id changes nothing, pushes nothing and returns no observable |
| `CoursesStore.SortTwoBeginners` | src/app/services/courses.store.service.ts:27-31 | two courses of the category whose second has the smaller `seqNo` come out in swapped order |
| `CoursesStore.LoadThenFailedSave` | src/app/services/courses.store.service.ts:35-75 | after loading c1 (seqNo 2) and c2 (seqNo 1) and a failed save of seqNo 5 on c1, the query yields c2 then the updated c1 and the bus holds the save error |
| `CoursesStore.FailedFirstLoad` | src/app/services/courses.store.service.ts:13-49 | a failed first load leaves the cache empty and the bus holding the load error |
| `Messages.Bus.constructor` | src/app/messages/messages.service.ts:7 | the held batch starts empty, nothing is subscribed, nothing delivered |
| `Messages.Bus.ShowErrors` | src/app/messages/messages.service.ts:9-18 | the held batch becomes exactly the arguments; it is delivered, unmodified, to the subscribed panel if and only if it is non-empty, with no deduplication, and a delivery opens the panel |
| `Messages.Bus.Subscribe` | src/app/messages/messages.service.ts:7-14 | a new subscriber gets the held batch replayed through the non-empty filter; the held batch is unchanged |
| `Messages.Panel.constructor` | src/app/messages/messages.component.ts:11-15 | the panel starts closed |
| `Messages.Panel.NgOnInit` | src/app/messages/messages.component.ts:17-21 | builds the tapped `errors$` and, standing in for the template's subscription to it, subscribes the panel to the bus; the held batch is replayed and opens the panel if non-empty |
| `Messages.Panel.OnDelivered` | src/app/messages/messages.component.ts:18-20 | every delivered batch opens the panel |
| `Messages.Panel.OnClose` | src/app/messages/messages.component.ts:23-25 | the panel is closed and the bus is left exactly as it was |
| `Messages.CloseThenRepublish` | src/app/messages/messages.component.ts:18-25 | after a close, publishing a non-empty batch, even the one already held, is a fresh delivery and opens the panel again |
| `Messages.PublishTwice` | src/app/messages/messages.service.ts:9-18 | the initial empty batch is not delivered, and the same non-empty batch published twice is delivered twice |

## Left out

- The HTTP client: the URLs and the requests themselves are not modelled. Each request is replaced by the outcome it ends with. The body of a successful PUT is passed through to the caller untouched.
- `LoadingService.showLoaderUntilCompleted` and its busy flag: `src/app/loading/loading.service.ts` is not part of this model.
- `shareReplay`, multicasting, and the timing of subscriptions: only the value each subject holds and the logs of what was pushed or delivered are modelled.
- The store's constructor starts the load, but the response arrives later. The model therefore splits this into two steps: `Store.constructor` (empty cache) and `Store.LoadAllCourses` (the response).
- `Messages.Bus.Subscribe`: only one panel can be subscribed to a bus at a time, because the source's one component is the only subscriber. A second subscriber, which `errors$` would also serve, is not modelled.
- `Messages.Panel.NgOnInit` also performs the subscription that the template makes to `errors$`. The template is not modelled, so this assumes it subscribes once, right after `ngOnInit`, for the component's whole life.
- `console.log` calls, Angular decorators and dependency injection, the template and the stylesheet.
- A change that sets a field explicitly to `undefined` is not modelled. Neither is a GET response without a `payload` field, which would push `undefined` as the cache. The model covers only partials whose set fields hold values, and envelopes that carry a payload.
- Whether `saveCourse` on an absent id should be an error, whether a successful PUT's response should be merged into the cache, and whether a failed save should roll back: the model keeps the code's behaviour for all three and does not resolve them.
