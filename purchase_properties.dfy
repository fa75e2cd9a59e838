/** Properties of the purchase handlers that relate several calls: replay of
    the same Stripe event, a checkout followed by its completion event,
    agreement of the two read-only queries, and what any sequence of handler
    calls can and cannot do to the store. */
module PurchaseProperties {
  import opened PurchaseModel

  // ---------------------------------------------------------------------
  // findOne after a matching record is rewritten
  // ---------------------------------------------------------------------

  /** Rewriting the first match of `q` with another record that still matches
      `q` leaves it the first match. */
  lemma FindOneAfterUpdate(ps: seq<Purchase>, q: Query, i: nat, p: Purchase)
    requires FindOne(ps, q) == Some(i)
    requires Matches(p, q)
    ensures FindOne(ps[i := p], q) == Some(i)
  {
    assert FirstMatch(ps[i := p], q, i);
  }

  // ---------------------------------------------------------------------
  // Replay of the completion event and of the manual status update
  // ---------------------------------------------------------------------

  /** `updateMany` with `$set` gives the same table when run again. */
  lemma UnlockLecturesIdempotent(ls: map<LectureId, Lecture>, ids: seq<LectureId>)
    ensures UnlockLectures(UnlockLectures(ls, ids), ids) == UnlockLectures(ls, ids)
  {  }

  /** A Stripe redelivery of the same event, with the same verification
      outcome, leaves the store exactly as the first delivery left it and
      gets the same answer.  The webhook has no "already completed" guard:
      this holds because every write it makes is idempotent. */
  lemma WebhookIdempotent(db: Db, verified: bool, e: WebhookEvent)
    ensures Webhook(Webhook(db, verified, e).db, verified, e) == Webhook(db, verified, e)
  {
    var once := Webhook(db, verified, e);
    if verified && e.eventType == CheckoutSessionCompleted {
      var q := ByPaymentId(e.sessionId);
      match FindOne(db.purchases, q)
      case None =>
      case Some(i) =>
        var p := db.purchases[i];
        var p' := CompletedByEvent(p, e);
        assert once.db.purchases == db.purchases[i := p'];
        FindOneAfterUpdate(db.purchases, q, i, p');
        assert FindOne(once.db.purchases, q) == Some(i);
        assert once.db.purchases[i] == p';
        assert CompletedByEvent(p', e) == p';
        assert once.db.purchases[i := p'] == once.db.purchases;
        if p.courseId in db.courses {
          UnlockLecturesIdempotent(db.lectures, db.courses[p.courseId].lectures);
          assert once.db.courses[p.courseId].lectures == db.courses[p.courseId].lectures;
        }
    }
  }

  /** Repeating a manual status update changes nothing more. */
  lemma UpdateStatusIdempotent(db: Db, courseId: Option<CourseId>, userId: Option<UserId>)
    ensures UpdateStatus(UpdateStatus(db, courseId, userId).db, courseId, userId) == UpdateStatus(db, courseId, userId)
  {
    var once := UpdateStatus(db, courseId, userId);
    if !Falsy(courseId) && !Falsy(userId) {
      var q := ByCourseAndUser(courseId.value, userId.value);
      match FindOne(db.purchases, q)
      case None =>
      case Some(i) =>
        var p' := db.purchases[i].(status := Completed);
        FindOneAfterUpdate(db.purchases, q, i, p');
        assert once.db.purchases[i := p'] == once.db.purchases;
    }
  }

  // ---------------------------------------------------------------------
  // A checkout followed by its completion event
  // ---------------------------------------------------------------------

  /** When Stripe's session id is new to the store, the completion event for
      it completes the purchase the checkout appended, settles its amount and
      enrolls the buyer; no earlier purchase changes. */
  lemma CheckoutThenWebhook(db: Db, userId: UserId, courseId: CourseId, session: Session, total: int)
    requires courseId in db.courses && !Falsy(session.url)
    requires forall j :: 0 <= j < |db.purchases| ==> db.purchases[j].paymentId != Some(session.id)
    requires total != 0
    ensures
      var paid := Checkout(db, userId, courseId, session).db;
      var done := Webhook(paid, true, WebhookEvent(CheckoutSessionCompleted, session.id, Some(total)));
      var n := |db.purchases|;
      && done.response == Received
      && |done.db.purchases| == n + 1
      && done.db.purchases[..n] == db.purchases
      && done.db.purchases[n] ==
         Purchase(courseId, userId, total as real / 100.0, Completed, Some(session.id))
      && (forall l :: l in done.db.lectures && l in db.courses[courseId].lectures ==> done.db.lectures[l].isPreviewFree)
      && courseId in done.db.courses && userId in done.db.courses[courseId].enrolledStudents
      && (userId in db.users ==> userId in done.db.users && courseId in done.db.users[userId].enrolledCourses)
  {
    var paid := Checkout(db, userId, courseId, session).db;
    var e := WebhookEvent(CheckoutSessionCompleted, session.id, Some(total));
    var n := |db.purchases|;
    assert paid.purchases[n].paymentId == Some(session.id);
    forall j | 0 <= j < n
      ensures !Matches(paid.purchases[j], ByPaymentId(session.id))
    {
      assert paid.purchases[j] == db.purchases[j];
    }
    assert FirstMatch(paid.purchases, ByPaymentId(session.id), n);
    var done := Webhook(paid, true, e);
    assert done.db.purchases == paid.purchases[n := CompletedByEvent(paid.purchases[n], e)];
    assert done.db.purchases[..n] == paid.purchases[..n];
  }

  /** Nothing keeps a pair to one completed purchase: two checkouts of the
      same course by the same buyer, followed by the two completion events,
      leave two completed purchases of that pair. */
  lemma TwoCompletedForOnePair()
    ensures
      var db0 := Db([], map["c" := Course(499.0, [], {})], map["u" := User({})], map[]);
      var db1 := Checkout(db0, "u", "c", Session("s1", Some("url1"))).db;
      var db2 := Checkout(db1, "u", "c", Session("s2", Some("url2"))).db;
      var db3 := Webhook(db2, true, WebhookEvent(CheckoutSessionCompleted, "s1", Some(49900))).db;
      var db4 := Webhook(db3, true, WebhookEvent(CheckoutSessionCompleted, "s2", Some(49900))).db;
      && |db4.purchases| == 2
      && Owns(db4.purchases[0], "u", "c") && Owns(db4.purchases[1], "u", "c")
  {
    var db0 := Db([], map["c" := Course(499.0, [], {})], map["u" := User({})], map[]);
    var db1 := Checkout(db0, "u", "c", Session("s1", Some("url1"))).db;
    var db2 := Checkout(db1, "u", "c", Session("s2", Some("url2"))).db;
    assert db2.purchases[0].paymentId == Some("s1") && db2.purchases[1].paymentId == Some("s2");
    assert FirstMatch(db2.purchases, ByPaymentId("s1"), 0);
    var db3 := Webhook(db2, true, WebhookEvent(CheckoutSessionCompleted, "s1", Some(49900))).db;
    assert db3.purchases[0].paymentId == Some("s1") && db3.purchases[1] == db2.purchases[1];
    assert FirstMatch(db3.purchases, ByPaymentId("s2"), 1);
  }

  // ---------------------------------------------------------------------
  // The two read-only queries agree
  // ---------------------------------------------------------------------

  /** Filtering distributes over concatenation, so the list keeps table order. */
  lemma {:induction false} CompletedPurchasesAppend(a: seq<Purchase>, b: seq<Purchase>)
    ensures CompletedPurchases(a + b) == CompletedPurchases(a) + CompletedPurchases(b)
  {
    if |a| == 0 {
      assert a + b == b;
    } else {
      assert (a + b)[1..] == a[1..] + b;
      CompletedPurchasesAppend(a[1..], b);
    }
  }

  /** A course shows as purchased exactly when one of the listed completed
      purchases is the buyer's purchase of it. */
  lemma PurchasedIffListed(db: Db, courseId: CourseId, userId: UserId)
    requires courseId in db.courses
    ensures CourseDetailWithPurchaseStatus(db, courseId, userId).purchased <==>
      exists p :: p in CompletedPurchases(db.purchases) && p.userId == userId && p.courseId == courseId
  {  }

  // ---------------------------------------------------------------------
  // Any sequence of handler calls
  // ---------------------------------------------------------------------

  /** One call to one of the three state-changing handlers. */
  datatype Request =
    | CheckoutRequest(userId: UserId, courseId: CourseId, session: Session)
    | WebhookRequest(verified: bool, event: WebhookEvent)
    | UpdateStatusRequest(bodyCourseId: Option<CourseId>, bodyUserId: Option<UserId>)

  function Step(db: Db, r: Request): Db {
    match r
    case CheckoutRequest(u, c, s) => Checkout(db, u, c, s).db
    case WebhookRequest(v, e) => Webhook(db, v, e).db
    case UpdateStatusRequest(c, u) => UpdateStatus(db, c, u).db
  }

  /** The store after the handlers serve `rs` one after another. */
  function Run(db: Db, rs: seq<Request>): Db
    decreases |rs|
  {
    if |rs| == 0 then db else Run(Step(db, rs[0]), rs[1..])
  }

  /** `q` is `p` after a handler: the same record, with the same or a completed status. */
  predicate Successor(p: Purchase, q: Purchase) {
    && q.courseId == p.courseId && q.userId == p.userId && q.paymentId == p.paymentId
    && (q.status == p.status || q.status == Completed)
  }

  /** What handlers may do to the store: append non-failed purchases, complete
      existing ones, grow the enrollment sets and raise preview flags; the
      key sets of the other tables, course prices, lecture lists and lecture
      titles stay as they are. */
  ghost predicate Evolves(a: Db, b: Db) {
    && PurchasesEvolve(a.purchases, b.purchases)
    && UsersGrow(a.users, b.users)
    && CoursesGrow(a.courses, b.courses)
    && LecturesRise(a.lectures, b.lectures)
  }

  ghost predicate PurchasesEvolve(a: seq<Purchase>, b: seq<Purchase>) {
    && |a| <= |b|
    && (forall i :: 0 <= i < |a| ==> Successor(a[i], b[i]))
    && (forall i :: |a| <= i < |b| ==> b[i].status != Failed)
  }

  ghost predicate UsersGrow(a: map<UserId, User>, b: map<UserId, User>) {
    && b.Keys == a.Keys
    && forall u :: u in a ==> a[u].enrolledCourses <= b[u].enrolledCourses
  }

  ghost predicate CoursesGrow(a: map<CourseId, Course>, b: map<CourseId, Course>) {
    && b.Keys == a.Keys
    && forall c :: c in a ==>
         && a[c].enrolledStudents <= b[c].enrolledStudents
         && b[c].coursePrice == a[c].coursePrice
         && b[c].lectures == a[c].lectures
  }

  ghost predicate LecturesRise(a: map<LectureId, Lecture>, b: map<LectureId, Lecture>) {
    && b.Keys == a.Keys
    && forall l :: l in a ==>
         && b[l].lectureTitle == a[l].lectureTitle
         && (a[l].isPreviewFree ==> b[l].isPreviewFree)
  }

  lemma EvolvesTransitive(a: Db, b: Db, c: Db)
    requires Evolves(a, b) && Evolves(b, c)
    ensures Evolves(a, c)
  {
    forall i | |a.purchases| <= i < |c.purchases|
      ensures c.purchases[i].status != Failed
    {
      if i < |b.purchases| {
        assert Successor(b.purchases[i], c.purchases[i]);
      }
    }
    assert PurchasesEvolve(a.purchases, c.purchases);
  }

  /** Completing one purchase in place is an evolution that rewrites no other record. */
  lemma CompleteOneEvolves(ps: seq<Purchase>, i: nat, p: Purchase)
    requires i < |ps| && Successor(ps[i], p) && p.status == Completed
    ensures PurchasesEvolve(ps, ps[i := p])
    ensures CompletesAtMostOne(ps, ps[i := p])
  {
  }

  /** Both `$addToSet` updates only grow the enrollment tables. */
  lemma EnrollmentGrows(db: Db, u: UserId, c: CourseId)
    ensures UsersGrow(db.users, EnrollUser(db.users, u, c))
    ensures CoursesGrow(db.courses, EnrollStudent(db.courses, c, u))
  {
  }

  /** `b` is `a` with at most one record rewritten, and a rewritten record is completed. */
  predicate CompletesAtMostOne(a: seq<Purchase>, b: seq<Purchase>) {
    && |b| == |a|
    && (forall i :: 0 <= i < |a| && b[i] != a[i] ==> b[i].status == Completed)
    && (forall i, j :: 0 <= i < |a| && 0 <= j < |a| && i != j && b[i] != a[i] ==> b[j] == a[j])
  }

  /** Checkout is an evolution that keeps the old purchases as a prefix,
      appends at most one purchase, which is pending, and touches no other table. */
  lemma CheckoutEvolves(db: Db, userId: UserId, courseId: CourseId, session: Session)
    ensures Evolves(db, Checkout(db, userId, courseId, session).db)
    ensures
      var after := Checkout(db, userId, courseId, session).db;
      && |db.purchases| <= |after.purchases| <= |db.purchases| + 1
      && after.purchases[..|db.purchases|] == db.purchases
      && (forall i :: |db.purchases| <= i < |after.purchases| ==> after.purchases[i].status == Pending)
      && after.courses == db.courses && after.users == db.users && after.lectures == db.lectures
  {  }

  /** The webhook is an evolution that appends nothing and completes at most one purchase. */
  lemma WebhookEvolves(db: Db, verified: bool, e: WebhookEvent)
    ensures Evolves(db, Webhook(db, verified, e).db)
    ensures CompletesAtMostOne(db.purchases, Webhook(db, verified, e).db.purchases)
  {
    if verified && e.eventType == CheckoutSessionCompleted {
      match FindOne(db.purchases, ByPaymentId(e.sessionId))
      case None =>
      case Some(i) =>
        var p := db.purchases[i];
        CompleteOneEvolves(db.purchases, i, CompletedByEvent(p, e));
        if p.courseId in db.courses {
          EnrollmentGrows(db, p.userId, p.courseId);
        }
    }
  }

  /** The status update is an evolution that appends nothing, completes at
      most one purchase, keeps every amount and leaves the lectures alone. */
  lemma UpdateStatusEvolves(db: Db, courseId: Option<CourseId>, userId: Option<UserId>)
    ensures Evolves(db, UpdateStatus(db, courseId, userId).db)
    ensures
      var after := UpdateStatus(db, courseId, userId).db;
      && CompletesAtMostOne(db.purchases, after.purchases)
      && (forall i :: 0 <= i < |db.purchases| ==> after.purchases[i].amount == db.purchases[i].amount)
      && after.lectures == db.lectures
  {
    if !Falsy(courseId) && !Falsy(userId) {
      match FindOne(db.purchases, ByCourseAndUser(courseId.value, userId.value))
      case None =>
      case Some(i) =>
        CompleteOneEvolves(db.purchases, i, db.purchases[i].(status := Completed));
        EnrollmentGrows(db, userId.value, courseId.value);
    }
  }

  lemma StepEvolves(db: Db, r: Request)
    ensures Evolves(db, Step(db, r))
  {
    match r
    case CheckoutRequest(u, c, s) => CheckoutEvolves(db, u, c, s);
    case WebhookRequest(v, e) => WebhookEvolves(db, v, e);
    case UpdateStatusRequest(c, u) => UpdateStatusEvolves(db, c, u);
  }

  /** Every run of handlers is an evolution of the store. */
  lemma {:induction false} RunEvolves(db: Db, rs: seq<Request>)
    ensures Evolves(db, Run(db, rs))
    decreases |rs|
  {
    if |rs| > 0 {
      StepEvolves(db, rs[0]);
      RunEvolves(Step(db, rs[0]), rs[1..]);
      EvolvesTransitive(db, Step(db, rs[0]), Run(db, rs));
    }
  }

  /** A completed purchase stays in place and stays completed, whatever the
      handlers do afterwards. */
  lemma CompletedNeverReverts(db: Db, rs: seq<Request>, i: nat)
    requires i < |db.purchases| && db.purchases[i].status == Completed
    ensures i < |Run(db, rs).purchases|
    ensures Run(db, rs).purchases[i].status == Completed
    ensures Run(db, rs).purchases[i].paymentId == db.purchases[i].paymentId
  {
    RunEvolves(db, rs);
    assert Successor(db.purchases[i], Run(db, rs).purchases[i]);
  }

  /** No handler writes the `failed` status. */
  lemma NoFailedStatusWritten(db: Db, rs: seq<Request>)
    requires forall i :: 0 <= i < |db.purchases| ==> db.purchases[i].status != Failed
    ensures forall i :: 0 <= i < |Run(db, rs).purchases| ==> Run(db, rs).purchases[i].status != Failed
  {
    RunEvolves(db, rs);
    var end := Run(db, rs);
    forall i | 0 <= i < |end.purchases|
      ensures end.purchases[i].status != Failed
    {
      if i < |db.purchases| {
        assert Successor(db.purchases[i], end.purchases[i]);
      }
    }
  }

  /** Once a buyer is enrolled in a course, later handler calls keep the
      enrollment on both sides. */
  lemma EnrollmentPersists(db: Db, rs: seq<Request>, userId: UserId, courseId: CourseId)
    requires userId in db.users && courseId in db.users[userId].enrolledCourses
    requires courseId in db.courses && userId in db.courses[courseId].enrolledStudents
    ensures userId in Run(db, rs).users && courseId in Run(db, rs).users[userId].enrolledCourses
    ensures courseId in Run(db, rs).courses && userId in Run(db, rs).courses[courseId].enrolledStudents
  {
    RunEvolves(db, rs);
  }
}
