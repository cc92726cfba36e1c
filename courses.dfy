/** The value side of the course cache: the course record, the partial
    update that `saveCourse` spreads over it, and the pure derivations the
    store computes from a cache snapshot (the per-category query and the
    copy-on-write replacement of one slot). */
module Courses {

  datatype Option<T> = None | Some(value: T)

  /** One course. The store inspects `id`, `category` and `seqNo`; every
      other field is carried along untouched, as a name-to-value map.
      `extra` never holds the keys "id", "category" or "seqNo": those three
      fields live only in their own components. */
  datatype Course = Course(id: string, category: string, seqNo: int, extra: map<string, string>)

  /** A `Partial<Course>`: each of the three inspected fields is either set
      or absent, and `extra` holds the other fields that are set (never the
      keys "id", "category" or "seqNo"). */
  datatype Partial = Partial(id: Option<string>, category: Option<string>, seqNo: Option<int>, extra: map<string, string>)

  /** The partial that sets no field at all. */
  const NoChanges := Partial(None, None, None, map[])

  function Pick<T>(o: Option<T>, default: T): T {
    if o.Some? then o.value else default
  }

  /** The object spread `{...course, ...changes}`: a field set in `changes`
      wins, every other field keeps the course's value. */
  function Merge(course: Course, changes: Partial): (r: Course)
    ensures changes.id.Some? ==> r.id == changes.id.value
    ensures changes.id.None? ==> r.id == course.id
    ensures changes.category.Some? ==> r.category == changes.category.value
    ensures changes.category.None? ==> r.category == course.category
    ensures changes.seqNo.Some? ==> r.seqNo == changes.seqNo.value
    ensures changes.seqNo.None? ==> r.seqNo == course.seqNo
    ensures forall k :: k in r.extra <==> k in course.extra || k in changes.extra
    ensures forall k :: k in changes.extra ==> r.extra[k] == changes.extra[k]
    ensures forall k :: k in course.extra && k !in changes.extra ==> r.extra[k] == course.extra[k]
  {
    Course(Pick(changes.id, course.id), Pick(changes.category, course.category),
           Pick(changes.seqNo, course.seqNo), course.extra + changes.extra)
  }

  /** The spread of two partials, `{...first, ...second}`. */
  function Combine(first: Partial, second: Partial): Partial {
    Partial(if second.id.Some? then second.id else first.id,
            if second.category.Some? then second.category else first.category,
            if second.seqNo.Some? then second.seqNo else first.seqNo,
            first.extra + second.extra)
  }

  /** Spreading nothing over a course gives the same course back. */
  lemma MergeNoChanges(course: Course)
    ensures Merge(course, NoChanges) == course
  {
  }

  /** Applying the same changes twice is the same as applying them once. */
  lemma MergeIdempotent(course: Course, changes: Partial)
    ensures Merge(Merge(course, changes), changes) == Merge(course, changes)
  {
  }

  /** Two successive saves of the same course amount to one save of the
      combined changes. */
  lemma MergeCombine(course: Course, first: Partial, second: Partial)
    ensures Merge(Merge(course, first), second) == Merge(course, Combine(first, second))
  {
  }

  // ---------------------------------------------------------------------
  // filterByCategory: `courses.filter(c => c.category === category).sort(bySeqNo)`

  /** The courses of one category, in cache order. */
  function InCategory(courses: seq<Course>, category: string): (r: seq<Course>)
    ensures |r| <= |courses|
    ensures forall i :: 0 <= i < |r| ==> r[i].category == category
    ensures forall c {:trigger multiset(r)[c]} :: multiset(r)[c] == if c.category == category then multiset(courses)[c] else 0
  {
    if courses == [] then []
    else
      assert courses == [courses[0]] + courses[1..];
      var rest := InCategory(courses[1..], category);
      if courses[0].category == category then [courses[0]] + rest else rest
  }

  /** Filtering a concatenation filters each part: together with the
      one-course case, which is the definition's first step, this says the
      kept courses stay in cache order. */
  lemma {:induction false} InCategoryAppend(a: seq<Course>, b: seq<Course>, category: string)
    ensures InCategory(a + b, category) == InCategory(a, category) + InCategory(b, category)
  {
    if a != [] {
      InCategoryAppend(a[1..], b, category);
      assert (a + b)[1..] == a[1..] + b;
    } else {
      assert a + b == b;
    }
  }

  /** Ascending by `seqNo`, the order of the `sortCoursesBySeqNo` comparator. */
  predicate SortedBySeqNo(s: seq<Course>) {
    forall i, j :: 0 <= i < j < |s| ==> s[i].seqNo <= s[j].seqNo
  }

  /** The courses of `s` whose `seqNo` is `k`, in the order of `s`. */
  function WithSeqNo(s: seq<Course>, k: int): seq<Course> {
    if s == [] then []
    else if s[0].seqNo == k then [s[0]] + WithSeqNo(s[1..], k)
    else WithSeqNo(s[1..], k)
  }

  /** Inserts `x` into a sorted sequence before the first element whose
      `seqNo` is not smaller, so that `x` precedes the equal ones. */
  function InsertBySeqNo(x: Course, s: seq<Course>): (r: seq<Course>)
    requires SortedBySeqNo(s)
    ensures |r| == |s| + 1
    ensures r[0] == x || (s != [] && r[0] == s[0])
    ensures SortedBySeqNo(r)
    ensures multiset(r) == multiset(s) + multiset{x}
  {
    if s == [] || x.seqNo <= s[0].seqNo then [x] + s
    else
      assert s == [s[0]] + s[1..];
      [s[0]] + InsertBySeqNo(x, s[1..])
  }

  /** A stable sort by `seqNo` (insertion sort). */
  function SortBySeqNo(s: seq<Course>): (r: seq<Course>)
    ensures |r| == |s|
    ensures SortedBySeqNo(r)
    ensures multiset(r) == multiset(s)
  {
    if s == [] then []
    else
      assert s == [s[0]] + s[1..];
      InsertBySeqNo(s[0], SortBySeqNo(s[1..]))
  }

  /** One unfolding of `WithSeqNo` on a sequence written as head and tail. */
  lemma WithSeqNoCons(x: Course, s: seq<Course>, k: int)
    ensures WithSeqNo([x] + s, k) == if x.seqNo == k then [x] + WithSeqNo(s, k) else WithSeqNo(s, k)
  {
  }

  /** Inserting `x` leaves the run of every other `seqNo` alone and puts `x`
      at the head of its own run. */
  lemma {:induction false} InsertKeepsRuns(x: Course, s: seq<Course>, k: int)
    requires SortedBySeqNo(s)
    ensures WithSeqNo(InsertBySeqNo(x, s), k) == if x.seqNo == k then [x] + WithSeqNo(s, k) else WithSeqNo(s, k)
  {
    if s == [] || x.seqNo <= s[0].seqNo {
      WithSeqNoCons(x, s, k);
    } else {
      InsertKeepsRuns(x, s[1..], k);
      WithSeqNoCons(s[0], InsertBySeqNo(x, s[1..]), k);
      WithSeqNoCons(s[0], s[1..], k);
      assert s == [s[0]] + s[1..];
    }
  }

  /** Stability: courses with equal `seqNo` keep their relative order. */
  lemma {:induction false} SortKeepsRuns(s: seq<Course>, k: int)
    ensures WithSeqNo(SortBySeqNo(s), k) == WithSeqNo(s, k)
  {
    if s != [] {
      SortKeepsRuns(s[1..], k);
      InsertKeepsRuns(s[0], SortBySeqNo(s[1..]), k);
      WithSeqNoCons(s[0], s[1..], k);
      assert s == [s[0]] + s[1..];
    }
  }

  /** Keeping one category and keeping one `seqNo` can be done in either
      order. */
  lemma {:induction false} InCategoryWithSeqNo(s: seq<Course>, category: string, k: int)
    ensures WithSeqNo(InCategory(s, category), k) == InCategory(WithSeqNo(s, k), category)
  {
    if s != [] {
      InCategoryWithSeqNo(s[1..], category, k);
      var rest := InCategory(s[1..], category);
      if s[0].category == category {
        WithSeqNoCons(s[0], rest, k);
      }
      if s[0].seqNo == k {
        assert ([s[0]] + WithSeqNo(s[1..], k))[1..] == WithSeqNo(s[1..], k);
      }
    }
  }

  /** What `filterByCategory(category)` emits for one cache snapshot: the
      courses of that category, ascending by `seqNo`, ties in cache order. */
  function ByCategory(courses: seq<Course>, category: string): (r: seq<Course>)
    ensures forall i :: 0 <= i < |r| ==> r[i].category == category
    ensures forall c {:trigger multiset(r)[c]} :: multiset(r)[c] == if c.category == category then multiset(courses)[c] else 0
    ensures SortedBySeqNo(r)
    ensures forall k :: WithSeqNo(r, k) == InCategory(WithSeqNo(courses, k), category)
  {
    var matching := InCategory(courses, category);
    assert forall k :: WithSeqNo(SortBySeqNo(matching), k) == InCategory(WithSeqNo(courses, k), category) by {
      forall k ensures WithSeqNo(SortBySeqNo(matching), k) == InCategory(WithSeqNo(courses, k), category) {
        SortKeepsRuns(matching, k);
        InCategoryWithSeqNo(courses, category, k);
      }
    }
    assert forall i :: 0 <= i < |SortBySeqNo(matching)| ==> SortBySeqNo(matching)[i] in multiset(matching);
    SortBySeqNo(matching)
  }

  // ---------------------------------------------------------------------
  // saveCourse: `findIndex`, then a copy of the array with one slot replaced

  /** `i` is the first position of `courses` holding a course with this id. */
  predicate FirstWithId(courses: seq<Course>, id: string, i: int) {
    0 <= i < |courses| && courses[i].id == id && forall j :: 0 <= j < i ==> courses[j].id != id
  }

  /** `Array.prototype.findIndex` on the id: the first match, or -1. */
  function FindIndex(courses: seq<Course>, id: string): (r: int)
    ensures -1 <= r < |courses|
    ensures r == -1 <==> forall i :: 0 <= i < |courses| ==> courses[i].id != id
    ensures r != -1 ==> FirstWithId(courses, id, r)
  {
    if courses == [] then -1
    else if courses[0].id == id then 0
    else
      var k := FindIndex(courses[1..], id);
      if k == -1 then -1 else k + 1
  }

  /** The cache `saveCourse` publishes: when some course has this id, the
      first such course is replaced by the merge of the changes over it and
      every other slot is kept; otherwise the cache is unchanged. */
  function SavedCache(courses: seq<Course>, id: string, changes: Partial): (r: seq<Course>)
    ensures |r| == |courses|
    ensures (forall i :: 0 <= i < |courses| ==> courses[i].id != id) ==> r == courses
    ensures forall i :: FirstWithId(courses, id, i) ==>
      r[i] == Merge(courses[i], changes) && forall j :: 0 <= j < |r| && j != i ==> r[j] == courses[j]
  {
    var index := FindIndex(courses, id);
    if index == -1 then courses else courses[index := Merge(courses[index], changes)]
  }

  /** Saving the same changes twice is the same as saving them once, as
      long as the changes keep the id the course is found by. */
  lemma SaveIdempotent(courses: seq<Course>, id: string, changes: Partial)
    requires changes.id.None? || changes.id == Some(id)
    ensures SavedCache(SavedCache(courses, id, changes), id, changes) == SavedCache(courses, id, changes)
  {
    var once := SavedCache(courses, id, changes);
    var i := FindIndex(courses, id);
    if i != -1 {
      assert FirstWithId(once, id, i);
      MergeIdempotent(courses[i], changes);
    }
  }
}
