/** `CoursesStore`: the cache of courses, its initial load and the
    optimistic save. The HTTP calls are not modelled; each operation is given
    the outcome its request ended with. */
module CoursesStore {
  import opened Courses
  import opened Messages

  /** How an HTTP request (and the observable returned to the caller) ends. */
  datatype Outcome<T> = Succeeded(value: T) | Failed

  /** The body of `GET /api/courses`. */
  datatype Envelope = Envelope(payload: seq<Course>)

  const LoadFailedMessage := "Could not load courses"
  const SaveFailedMessage := "Could not save course"

  class Store {
    /** The snapshot held by the subject behind `courses$`. */
    var cache: seq<Course>
    /** Every snapshot pushed with `subject.next`, in order. */
    ghost var published: seq<seq<Course>>
    /** The injected `MessagesService`. */
    const messages: Bus

    /** Keeps the ghost log consistent with the held snapshot: the subject
        holds its seed until the first push and the latest push afterwards.
        No other contract depends on it. */
    ghost predicate Valid()
      reads this
    {
      if published == [] then cache == [] else cache == published[|published| - 1]
    }

    constructor (messages: Bus)
      ensures Valid()
      ensures cache == [] && published == [] && this.messages == messages
    {
      cache := [];
      published := [];
      this.messages := messages;
    }

    /** `loadAllCourses`, once the GET has ended: a success replaces the
        cache with the envelope's payload; a failure publishes the load error
        to the bus and leaves the cache as it was. */
    method LoadAllCourses(response: Outcome<Envelope>) returns (r: Outcome<seq<Course>>)
      requires Valid() && messages.Valid()
      modifies this, messages, messages.listener
      ensures Valid() && messages.Valid()
      ensures response.Succeeded? ==>
        && cache == response.value.payload
        && published == old(published) + [cache]
        && r == Succeeded(cache)
        && unchanged(messages)
        && (messages.listener != null ==> unchanged(messages.listener))
      ensures response.Failed? ==>
        && cache == old(cache)
        && published == old(published)
        && r == Failed
        && messages.last == [LoadFailedMessage]
        && messages.listener == old(messages.listener)
        && messages.delivered == old(messages.delivered) + (if messages.listener != null then [[LoadFailedMessage]] else [])
        && (messages.listener != null ==> messages.listener.showMessages)
    {
      match response
      case Succeeded(envelope) =>
        var courses := envelope.payload;
        cache := courses;
        published := published + [courses];
        r := Succeeded(courses);
      case Failed =>
        messages.ShowErrors([LoadFailedMessage]);
        r := Failed;
    }

    /** `saveCourse(courseId, changes)`, with the outcome the PUT ends with.
        When the id is in the cache, the new cache is pushed before the
        outcome matters; a failed PUT then publishes the save error and the
        cache is not rolled back. When the id is absent nothing changes and
        no observable is returned. */
    method SaveCourse<B>(courseId: string, changes: Partial, response: Outcome<B>) returns (r: Option<Outcome<B>>)
      requires Valid() && messages.Valid()
      modifies this, messages, messages.listener
      ensures Valid() && messages.Valid()
      ensures cache == SavedCache(old(cache), courseId, changes)
      ensures FindIndex(old(cache), courseId) == -1 ==>
        && published == old(published)
        && r == None
        && unchanged(messages)
        && (messages.listener != null ==> unchanged(messages.listener))
      ensures FindIndex(old(cache), courseId) != -1 ==>
        && published == old(published) + [cache]
        && r == Some(response)
      ensures FindIndex(old(cache), courseId) != -1 && response.Succeeded? ==>
        && unchanged(messages)
        && (messages.listener != null ==> unchanged(messages.listener))
      ensures FindIndex(old(cache), courseId) != -1 && response.Failed? ==>
        && messages.last == [SaveFailedMessage]
        && messages.listener == old(messages.listener)
        && messages.delivered == old(messages.delivered) + (if messages.listener != null then [[SaveFailedMessage]] else [])
        && (messages.listener != null ==> messages.listener.showMessages)
    {
      var courses := cache;
      var index := FindIndex(courses, courseId);
      if index != -1 {
        var newCourse := Merge(courses[index], changes);
        var newCourses := courses[index := newCourse];
        cache := newCourses;
        published := published + [newCourses];
        if response.Failed? {
          messages.ShowErrors([SaveFailedMessage]);
        }
        r := Some(response);
      } else {
        r := None;
      }
    }
  }

  /** The store as the application builds it, followed by a load that
      returns two beginner courses and a save whose PUT fails. */
  method LoadThenFailedSave() returns (store: Store)
    ensures ByCategory(store.cache, "BEGINNER") == [Course("c2", "BEGINNER", 1, map[]), Course("c1", "BEGINNER", 5, map[])]
    ensures store.messages.last == [SaveFailedMessage]
  {
    var bus := new Bus();
    store := new Store(bus);
    var c1 := Course("c1", "BEGINNER", 2, map[]);
    var c2 := Course("c2", "BEGINNER", 1, map[]);
    var loaded := store.LoadAllCourses(Succeeded(Envelope([c1, c2])));
    SortTwoBeginners(c1, c2);
    var changes := Partial(None, None, Some(5), map[]);
    var c1Saved := Course("c1", "BEGINNER", 5, map[]);
    assert FindIndex([c1, c2], "c1") == 0;
    assert Merge(c1, changes) == c1Saved by {
      assert c1.extra + changes.extra == map[];
    }
    var saved: Option<Outcome<string>> := store.SaveCourse("c1", changes, Failed);
    assert store.cache == [c1Saved, c2];
    SortTwoBeginners(c1Saved, c2);
  }

  /** The query on a cache of two beginner courses, the second with the
      smaller `seqNo`, puts the second first. */
  lemma SortTwoBeginners(first: Course, second: Course)
    requires first.category == second.category == "BEGINNER"
    requires second.seqNo < first.seqNo
    ensures ByCategory([first, second], "BEGINNER") == [second, first]
  {
  }

  /** A load that fails leaves the freshly built store empty and publishes
      the load error. */
  method FailedFirstLoad() returns (store: Store)
    ensures store.cache == [] && store.messages.last == [LoadFailedMessage]
  {
    var bus := new Bus();
    store := new Store(bus);
    var loaded := store.LoadAllCourses(Failed);
  }
}
