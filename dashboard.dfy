/** The dashboard's list of the buyer's courses: the course catalogue kept
    to the ids recorded as purchased, the purchase list read from browser
    storage (absent meaning none), and the progress shown on each card.
    Storage and the catalogue fetch are passed in as their parsed values. */
module Dashboard {
  import opened Js

  datatype Course = Course(id: JsValue, name: string, description: string)

  /** `courses.filter(course => purchasedCourses.includes(course.id))`.
      Ids are compared as `includes` does; the model's values have no NaN,
      so that is plain equality. */
  function UserCourses(courses: seq<Course>, purchased: seq<JsValue>): (r: seq<Course>)
    ensures forall c :: c in r <==> c in courses && c.id in purchased
    ensures |r| <= |courses|
  {
    if |courses| == 0 then []
    else
      var rest := UserCourses(courses[1..], purchased);
      if courses[0].id in purchased then [courses[0]] + rest else rest
  }

  /** The filter works course by course: filtering a catalogue made of two
      parts is filtering each part, in the same order. */
  lemma {:induction false} UserCoursesAppend(a: seq<Course>, b: seq<Course>, purchased: seq<JsValue>)
    ensures UserCourses(a + b, purchased) == UserCourses(a, purchased) + UserCourses(b, purchased)
  {
    if |a| > 0 {
      assert (a + b)[0] == a[0];
      assert (a + b)[1..] == a[1..] + b;
      UserCoursesAppend(a[1..], b, purchased);
    } else {
      assert a + b == b;
    }
  }

  /** Each course appears in the result as often as in the catalogue when
      purchased and not at all otherwise: nothing is added or duplicated. */
  lemma {:induction false} UserCoursesCount(courses: seq<Course>, purchased: seq<JsValue>, c: Course)
    ensures multiset(UserCourses(courses, purchased))[c] == if c.id in purchased then multiset(courses)[c] else 0
  {
    if |courses| > 0 {
      UserCoursesCount(courses[1..], purchased, c);
      assert courses == [courses[0]] + courses[1..];
    }
  }

  /** Purchased ids that name no course make no difference. */
  lemma {:induction false} UnknownPurchasesIgnored(courses: seq<Course>, purchased: seq<JsValue>, extra: seq<JsValue>)
    requires forall i :: 0 <= i < |courses| ==> courses[i].id !in extra
    ensures UserCourses(courses, purchased + extra) == UserCourses(courses, purchased)
  {
    if |courses| > 0 {
      UnknownPurchasesIgnored(courses[1..], purchased, extra);
    }
  }

  /** `JSON.parse(localStorage.getItem('purchasedCourses') || '[]')`, with
      None for a missing entry. */
  function SavedPurchases(stored: Option<seq<JsValue>>): seq<JsValue> {
    if stored.Some? then stored.value else []
  }

  /** What the dashboard shows. */
  datatype DashboardView = Loading | NoCoursesYet | CourseCards(courses: seq<Course>)

  function View(isLoading: bool, courses: seq<Course>, stored: Option<seq<JsValue>>): (v: DashboardView)
    ensures isLoading <==> v == Loading
    ensures v.CourseCards? ==> v.courses == UserCourses(courses, SavedPurchases(stored)) && |v.courses| > 0
    ensures v == NoCoursesYet <==> !isLoading && UserCourses(courses, SavedPurchases(stored)) == []
  {
    var userCourses := UserCourses(courses, SavedPurchases(stored));
    if isLoading then Loading
    else if |userCourses| == 0 then NoCoursesYet
    else CourseCards(userCourses)
  }

  /** A missing purchase entry is read as the stored empty list: the
      dashboard cannot tell the two apart. */
  lemma MissingEntryIsEmptyList(isLoading: bool, courses: seq<Course>)
    ensures View(isLoading, courses, None) == View(isLoading, courses, Some([]))
  {
  }

  /** A buyer with no stored purchases sees the empty-state message once
      the catalogue has loaded, whatever it holds. */
  lemma {:induction false} NoPurchasesNoCourses(courses: seq<Course>)
    ensures View(false, courses, None) == NoCoursesYet
  {
    if |courses| > 0 {
      NoPurchasesNoCourses(courses[1..]);
    }
  }

  /** The progress figure on a card: the stored record's `progress` when
      truthy, else 0. `stored` is that field's value, Undefined when the
      record or the field is missing. */
  function DisplayedProgress(stored: JsValue): JsValue {
    if Truthy(stored) then stored else Num(0)
  }

  /** 0 is shown exactly when the recorded progress is missing, empty or
      zero; a recorded progress shows as recorded; what is shown is never
      blank (truthy or 0); and showing it again changes nothing. */
  lemma MissingProgressShowsZero(stored: JsValue)
    ensures DisplayedProgress(stored) == Num(0) <==> !Truthy(stored)
    ensures Truthy(DisplayedProgress(stored)) || DisplayedProgress(stored) == Num(0)
    ensures Truthy(stored) ==> DisplayedProgress(stored) == stored
    ensures DisplayedProgress(DisplayedProgress(stored)) == DisplayedProgress(stored)
  {
  }
}
