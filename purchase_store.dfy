/** The three state-changing handlers of the purchase controller, written as
    methods that update the store's tables step by step, each proved to end in
    the state (and answer) that module PurchaseModel gives for it. */
module PurchaseStore {
  import opened PurchaseModel

  /** The database as the controller sees it: four collections updated in place. */
  class Store {
    var purchases: seq<Purchase>
    var courses: map<CourseId, Course>
    var users: map<UserId, User>
    var lectures: map<LectureId, Lecture>

    /** The tables as one value. */
    function Snapshot(): Db
      reads this
    {
      Db(purchases, courses, users, lectures)
    }

    constructor (db: Db)
      ensures Snapshot() == db
    {
      purchases := db.purchases;
      courses := db.courses;
      users := db.users;
      lectures := db.lectures;
    }

    /** `createCheckoutSession` for buyer `userId`; `session` is what Stripe
        returned for the request the method also hands back. */
    method CreateCheckoutSession(userId: UserId, courseId: CourseId, session: Session)
      returns (request: Option<SessionRequest>, response: CheckoutResponse)
      modifies this
      ensures CheckoutOutcome(Snapshot(), request, response) == Checkout(old(Snapshot()), userId, courseId, session)
    {
      if courseId !in courses {
        return None, CourseNotFound;
      }
      var course := courses[courseId];
      var newPurchase := Purchase(courseId, userId, course.coursePrice, Pending, None);
      request := Some(SessionRequest(course.coursePrice * 100.0, 1, Currency, courseId, userId));
      if Falsy(session.url) {
        return request, SessionUrlMissing;
      }
      newPurchase := newPurchase.(paymentId := Some(session.id));
      purchases := purchases + [newPurchase];
      response := CheckoutUrl(session.url.value);
    }

    /** `Lecture.updateMany` over the lecture ids of one course, one id at a time. */
    method UnlockCourseLectures(ids: seq<LectureId>)
      modifies this
      ensures lectures == UnlockLectures(old(lectures), ids)
      ensures purchases == old(purchases) && courses == old(courses) && users == old(users)
    {
      var k := 0;
      while k < |ids|
        invariant 0 <= k <= |ids|
        invariant lectures.Keys == old(lectures).Keys
        invariant forall l :: l in lectures ==>
          lectures[l] == if l in ids[..k] then old(lectures)[l].(isPreviewFree := true) else old(lectures)[l]
        invariant purchases == old(purchases) && courses == old(courses) && users == old(users)
      {
        var l := ids[k];
        assert ids[..k + 1] == ids[..k] + [l];
        if l in lectures {
          lectures := lectures[l := lectures[l].(isPreviewFree := true)];
        }
        k := k + 1;
      }
      assert ids[..k] == ids;
    }

    /** `$addToSet` of a course into a user's `enrolledCourses`. */
    method AddEnrolledCourse(u: UserId, c: CourseId)
      modifies this
      ensures users == EnrollUser(old(users), u, c)
      ensures purchases == old(purchases) && courses == old(courses) && lectures == old(lectures)
    {
      if u in users {
        var user := users[u];
        users := users[u := user.(enrolledCourses := user.enrolledCourses + {c})];
      }
    }

    /** `$addToSet` of a user into a course's `enrolledStudents`. */
    method AddEnrolledStudent(c: CourseId, u: UserId)
      modifies this
      ensures courses == EnrollStudent(old(courses), c, u)
      ensures purchases == old(purchases) && users == old(users) && lectures == old(lectures)
    {
      if c in courses {
        var course := courses[c];
        courses := courses[c := course.(enrolledStudents := course.enrolledStudents + {u})];
      }
    }

    /** `stripeWebhook` after `constructEvent`, whose success is `verified`. */
    method StripeWebhook(verified: bool, event: WebhookEvent) returns (response: WebhookResponse)
      modifies this
      ensures WebhookOutcome(Snapshot(), response) == Webhook(old(Snapshot()), verified, event)
    {
      if !verified {
        return SignatureRejected;
      }
      if event.eventType != CheckoutSessionCompleted {
        return Received;
      }
      var found := FindOne(purchases, ByPaymentId(event.sessionId));
      if found.None? {
        return PurchaseNotFound;
      }
      var i := found.value;
      var purchase := purchases[i];
      ghost var completed := CompletedByEvent(purchase, event);
      // populate("courseId"): null when the referenced course is gone
      var course := if purchase.courseId in courses then Some(courses[purchase.courseId]) else None;
      if event.amountTotal.Some? && event.amountTotal.value != 0 {
        purchase := purchase.(amount := event.amountTotal.value as real / 100.0);
      }
      purchase := purchase.(status := Completed);
      if course.Some? && |course.value.lectures| > 0 {
        UnlockCourseLectures(course.value.lectures);
      }
      purchases := purchases[i := purchase];
      assert purchase == completed;
      if course.None? {
        // reading `purchase.courseId._id` throws: 500 after the save
        return ServerError;
      }
      AddEnrolledCourse(purchase.userId, purchase.courseId);
      AddEnrolledStudent(purchase.courseId, purchase.userId);
      response := Received;
    }

    /** `updatePurchaseStatus` for the body fields `courseId` and `userId`. */
    method UpdatePurchaseStatus(courseId: Option<CourseId>, userId: Option<UserId>) returns (response: UpdateResponse)
      modifies this
      ensures UpdateOutcome(Snapshot(), response) == UpdateStatus(old(Snapshot()), courseId, userId)
    {
      if Falsy(courseId) || Falsy(userId) {
        return IdsRequired;
      }
      var found := FindOne(purchases, ByCourseAndUser(courseId.value, userId.value));
      if found.None? {
        return UpdateNotFound;
      }
      var i := found.value;
      purchases := purchases[i := purchases[i].(status := Completed)];
      AddEnrolledCourse(userId.value, courseId.value);
      AddEnrolledStudent(courseId.value, userId.value);
      response := StatusUpdated;
    }
  }
}
