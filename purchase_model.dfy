/** The data of the course-purchase controller and the meaning of its handlers,
    stated over an abstract in-memory snapshot of the four database tables it
    touches (purchases, courses, users, lectures).  The imperative handlers of
    module PurchaseStore are proved to compute exactly these functions. */
module PurchaseModel {

  datatype Option<T> = None | Some(value: T)

  type CourseId = string
  type UserId = string
  type LectureId = string

  /** The only Stripe event type the webhook acts on. */
  const CheckoutSessionCompleted: string := "checkout.session.completed"
  /** Currency of the line item sent to Stripe. */
  const Currency: string := "inr"

  /** Status of a purchase record; the controller writes only the first two. */
  datatype Status = Pending | Completed | Failed

  datatype Purchase = Purchase(
    courseId: CourseId,
    userId: UserId,
    amount: real,
    status: Status,
    paymentId: Option<string>)

  datatype Course = Course(coursePrice: real, lectures: seq<LectureId>, enrolledStudents: set<UserId>)

  datatype User = User(enrolledCourses: set<CourseId>)

  datatype Lecture = Lecture(lectureTitle: string, isPreviewFree: bool)

  /** A snapshot of the store.  The order of `purchases` is insertion order,
      which is the order in which `findOne` meets the records. */
  datatype Db = Db(
    purchases: seq<Purchase>,
    courses: map<CourseId, Course>,
    users: map<UserId, User>,
    lectures: map<LectureId, Lecture>)

  /** JavaScript falsiness of an optional string (absent, null or empty). */
  predicate Falsy(s: Option<string>) {
    s.None? || s.value == ""
  }

  // ---------------------------------------------------------------------
  // findOne over the purchase table
  // ---------------------------------------------------------------------

  /** A Mongo filter on purchases: each present field must be equal. */
  datatype Query = Query(
    paymentId: Option<string>,
    courseId: Option<CourseId>,
    userId: Option<UserId>,
    status: Option<Status>)

  function ByPaymentId(id: string): Query {
    Query(Some(id), None, None, None)
  }

  function ByCourseAndUser(courseId: CourseId, userId: UserId): Query {
    Query(None, Some(courseId), Some(userId), None)
  }

  function ByCompletedOwner(userId: UserId, courseId: CourseId): Query {
    Query(None, Some(courseId), Some(userId), Some(Completed))
  }

  predicate Matches(p: Purchase, q: Query) {
    && (q.paymentId.Some? ==> p.paymentId == q.paymentId)
    && (q.courseId.Some? ==> p.courseId == q.courseId.value)
    && (q.userId.Some? ==> p.userId == q.userId.value)
    && (q.status.Some? ==> p.status == q.status.value)
  }

  /** `i` is the position of the first record matching `q`. */
  predicate FirstMatch(ps: seq<Purchase>, q: Query, i: int) {
    && 0 <= i < |ps|
    && Matches(ps[i], q)
    && forall j :: 0 <= j < i ==> !Matches(ps[j], q)
  }

  /** `findOne(q)`: the index of the first matching purchase, if any. */
  function FindOne(ps: seq<Purchase>, q: Query): (r: Option<nat>)
    ensures r.Some? ==> FirstMatch(ps, q, r.value)
    ensures r.None? <==> forall j :: 0 <= j < |ps| ==> !Matches(ps[j], q)
  {
    if |ps| == 0 then None
    else if Matches(ps[0], q) then Some(0)
    else match FindOne(ps[1..], q)
      case None => None
      case Some(k) => Some(k + 1)
  }

  // ---------------------------------------------------------------------
  // Table updates used by the handlers
  // ---------------------------------------------------------------------

  /** `Lecture.updateMany({_id: {$in: ids}}, {$set: {isPreviewFree: true}})`. */
  function UnlockLectures(ls: map<LectureId, Lecture>, ids: seq<LectureId>): (r: map<LectureId, Lecture>)
    ensures r.Keys == ls.Keys
    ensures forall l :: l in r ==> r[l].lectureTitle == ls[l].lectureTitle
    ensures forall l :: l in r ==> r[l].isPreviewFree == (l in ids || ls[l].isPreviewFree)
    ensures forall l :: l in r && l !in ids ==> r[l] == ls[l]
  {
    map l | l in ls :: if l in ids then ls[l].(isPreviewFree := true) else ls[l]
  }

  /** `User.findByIdAndUpdate(u, {$addToSet: {enrolledCourses: c}})`; a missing user is left alone. */
  function EnrollUser(users: map<UserId, User>, u: UserId, c: CourseId): (r: map<UserId, User>)
    ensures r.Keys == users.Keys
    ensures u in users ==> r[u].enrolledCourses == users[u].enrolledCourses + {c}
    ensures forall v :: v in r && v != u ==> r[v] == users[v]
    ensures u in users && c in users[u].enrolledCourses ==> r == users
  {
    if u in users then
      var joined := users[u].(enrolledCourses := users[u].enrolledCourses + {c});
      assert c in users[u].enrolledCourses ==> joined == users[u];
      users[u := joined]
    else users
  }

  /** `Course.findByIdAndUpdate(c, {$addToSet: {enrolledStudents: u}})`; a missing course is left alone. */
  function EnrollStudent(courses: map<CourseId, Course>, c: CourseId, u: UserId): (r: map<CourseId, Course>)
    ensures r.Keys == courses.Keys
    ensures c in courses ==> r[c].enrolledStudents == courses[c].enrolledStudents + {u}
    ensures c in courses ==> r[c].coursePrice == courses[c].coursePrice && r[c].lectures == courses[c].lectures
    ensures forall d :: d in r && d != c ==> r[d] == courses[d]
    ensures c in courses && u in courses[c].enrolledStudents ==> r == courses
  {
    if c in courses then
      var joined := courses[c].(enrolledStudents := courses[c].enrolledStudents + {u});
      assert u in courses[c].enrolledStudents ==> joined == courses[c];
      courses[c := joined]
    else courses
  }

  // ---------------------------------------------------------------------
  // createCheckoutSession
  // ---------------------------------------------------------------------

  /** What Stripe returns for a session: its id and its (possibly absent) url. */
  datatype Session = Session(id: string, url: Option<string>)

  /** The line item and metadata the controller sends to Stripe. */
  datatype SessionRequest = SessionRequest(
    unitAmount: real,
    quantity: nat,
    currency: string,
    courseId: CourseId,
    userId: UserId)

  datatype CheckoutResponse = CourseNotFound | SessionUrlMissing | CheckoutUrl(url: string)

  datatype CheckoutOutcome = CheckoutOutcome(db: Db, request: Option<SessionRequest>, response: CheckoutResponse)

  /** The pending purchase a successful checkout stores. */
  function PendingPurchase(db: Db, userId: UserId, courseId: CourseId, session: Session): Purchase
    requires courseId in db.courses
  {
    Purchase(courseId, userId, db.courses[courseId].coursePrice, Pending, Some(session.id))
  }

  /** The meaning of `createCheckoutSession` for the session Stripe hands back. */
  function Checkout(db: Db, userId: UserId, courseId: CourseId, session: Session): (r: CheckoutOutcome)
    // 404: nothing is asked of Stripe and nothing is stored
    ensures r.response.CourseNotFound? <==> courseId !in db.courses
    ensures r.response.CourseNotFound? ==> r.db == db && r.request.None?
    // Stripe is asked for one unit at the price in minor units
    ensures courseId in db.courses ==>
      r.request == Some(SessionRequest(db.courses[courseId].coursePrice * 100.0, 1, Currency, courseId, userId))
    // 400: the session has no url; the purchase is never saved
    ensures r.response.SessionUrlMissing? <==> courseId in db.courses && Falsy(session.url)
    ensures r.response.SessionUrlMissing? ==> r.db == db
    // 200: exactly one pending purchase is appended and the url is returned
    ensures r.response.CheckoutUrl? ==>
      && session.url == Some(r.response.url) && r.response.url != ""
      && |r.db.purchases| == |db.purchases| + 1
      && r.db.purchases[..|db.purchases|] == db.purchases
      && r.db.purchases[|db.purchases|] == PendingPurchase(db, userId, courseId, session)
      && r.db.courses == db.courses && r.db.users == db.users && r.db.lectures == db.lectures
  {
    if courseId !in db.courses then CheckoutOutcome(db, None, CourseNotFound)
    else
      var request := SessionRequest(db.courses[courseId].coursePrice * 100.0, 1, Currency, courseId, userId);
      if Falsy(session.url) then CheckoutOutcome(db, Some(request), SessionUrlMissing)
      else
        var stored := db.(purchases := db.purchases + [PendingPurchase(db, userId, courseId, session)]);
        assert stored.purchases[..|db.purchases|] == db.purchases;
        CheckoutOutcome(stored, Some(request), CheckoutUrl(session.url.value))
  }

  // ---------------------------------------------------------------------
  // stripeWebhook (after signature verification)
  // ---------------------------------------------------------------------

  /** The parts of a Stripe event the webhook reads: `type`,
      `data.object.id` and `data.object.amount_total`. */
  datatype WebhookEvent = WebhookEvent(eventType: string, sessionId: string, amountTotal: Option<int>)

  datatype WebhookResponse = SignatureRejected | Received | PurchaseNotFound | ServerError

  datatype WebhookOutcome = WebhookOutcome(db: Db, response: WebhookResponse)

  /** The settled amount when `amount_total` is truthy, converted from minor
      units; the stored amount otherwise. */
  function SettledAmount(p: Purchase, e: WebhookEvent): real {
    if e.amountTotal.Some? && e.amountTotal.value != 0 then e.amountTotal.value as real / 100.0
    else p.amount
  }

  /** The purchase record after the two field assignments of the webhook. */
  function CompletedByEvent(p: Purchase, e: WebhookEvent): (r: Purchase)
    ensures r.status == Completed
    ensures r.courseId == p.courseId && r.userId == p.userId && r.paymentId == p.paymentId
    ensures e.amountTotal.Some? && e.amountTotal.value != 0 ==> r.amount * 100.0 == e.amountTotal.value as real
    ensures e.amountTotal.None? || e.amountTotal.value == 0 ==> r.amount == p.amount
  {
    p.(amount := SettledAmount(p, e), status := Completed)
  }

  /** The meaning of `stripeWebhook`; `verified` is the outcome of `constructEvent`. */
  function Webhook(db: Db, verified: bool, e: WebhookEvent): (r: WebhookOutcome)
    // 400 on a rejected signature, 200 on any other event type: nothing changes
    ensures !verified ==> r == WebhookOutcome(db, SignatureRejected)
    ensures verified && e.eventType != CheckoutSessionCompleted ==> r == WebhookOutcome(db, Received)
    // 404 exactly when no purchase carries the session id; nothing changes
    ensures r.response.PurchaseNotFound? <==>
      verified && e.eventType == CheckoutSessionCompleted &&
      forall j :: 0 <= j < |db.purchases| ==> db.purchases[j].paymentId != Some(e.sessionId)
    ensures r.response.PurchaseNotFound? ==> r.db == db
    // the first matching purchase is completed, then the course is unlocked and enrolled
    ensures forall i ::
      (verified && e.eventType == CheckoutSessionCompleted &&
       FirstMatch(db.purchases, ByPaymentId(e.sessionId), i)) ==>
        var p := db.purchases[i];
        && r.db.purchases == db.purchases[i := CompletedByEvent(p, e)]
        && (p.courseId in db.courses ==>
              && r.response == Received
              && r.db.lectures == UnlockLectures(db.lectures, db.courses[p.courseId].lectures)
              && r.db.users == EnrollUser(db.users, p.userId, p.courseId)
              && r.db.courses == EnrollStudent(db.courses, p.courseId, p.userId))
        && (p.courseId !in db.courses ==>
              r.response == ServerError && r.db.lectures == db.lectures &&
              r.db.users == db.users && r.db.courses == db.courses)
  {
    if !verified then WebhookOutcome(db, SignatureRejected)
    else if e.eventType != CheckoutSessionCompleted then WebhookOutcome(db, Received)
    else match FindOne(db.purchases, ByPaymentId(e.sessionId))
      case None => WebhookOutcome(db, PurchaseNotFound)
      case Some(i) =>
        var p := db.purchases[i];
        // populate: a dangling course reference becomes null
        var course := if p.courseId in db.courses then Some(db.courses[p.courseId]) else None;
        var lectures :=
          if course.Some? && |course.value.lectures| > 0 then UnlockLectures(db.lectures, course.value.lectures)
          else db.lectures;
        var saved := db.(purchases := db.purchases[i := CompletedByEvent(p, e)], lectures := lectures);
        if course.None? then
          // `purchase.courseId._id` throws after the save
          WebhookOutcome(saved, ServerError)
        else
          WebhookOutcome(saved.(users := EnrollUser(saved.users, p.userId, p.courseId),
                                courses := EnrollStudent(saved.courses, p.courseId, p.userId)), Received)
  }

  // ---------------------------------------------------------------------
  // updatePurchaseStatus
  // ---------------------------------------------------------------------

  datatype UpdateResponse = IdsRequired | UpdateNotFound | StatusUpdated

  datatype UpdateOutcome = UpdateOutcome(db: Db, response: UpdateResponse)

  /** The meaning of `updatePurchaseStatus` for the body fields `courseId`, `userId`. */
  function UpdateStatus(db: Db, courseId: Option<CourseId>, userId: Option<UserId>): (r: UpdateOutcome)
    // 400 when either id is falsy, nothing changes
    ensures r.response.IdsRequired? <==> Falsy(courseId) || Falsy(userId)
    ensures r.response.IdsRequired? ==> r.db == db
    // 404 when no purchase of the pair exists, in any status; nothing changes
    ensures r.response.UpdateNotFound? <==>
      !Falsy(courseId) && !Falsy(userId) &&
      forall j :: 0 <= j < |db.purchases| ==>
        !(db.purchases[j].courseId == courseId.value && db.purchases[j].userId == userId.value)
    ensures r.response.UpdateNotFound? ==> r.db == db
    // otherwise the first purchase of the pair is completed, amount and lectures untouched
    ensures forall i ::
      (!Falsy(courseId) && !Falsy(userId) &&
       FirstMatch(db.purchases, ByCourseAndUser(courseId.value, userId.value), i)) ==>
        && r.response == StatusUpdated
        && r.db.purchases == db.purchases[i := db.purchases[i].(status := Completed)]
        && r.db.purchases[i].amount == db.purchases[i].amount
        && r.db.lectures == db.lectures
        && r.db.users == EnrollUser(db.users, userId.value, courseId.value)
        && r.db.courses == EnrollStudent(db.courses, courseId.value, userId.value)
  {
    if Falsy(courseId) || Falsy(userId) then UpdateOutcome(db, IdsRequired)
    else match FindOne(db.purchases, ByCourseAndUser(courseId.value, userId.value))
      case None => UpdateOutcome(db, UpdateNotFound)
      case Some(i) =>
        var saved := db.(purchases := db.purchases[i := db.purchases[i].(status := Completed)]);
        UpdateOutcome(saved.(users := EnrollUser(saved.users, userId.value, courseId.value),
                             courses := EnrollStudent(saved.courses, courseId.value, userId.value)), StatusUpdated)
  }

  // ---------------------------------------------------------------------
  // Read-only queries
  // ---------------------------------------------------------------------

  /** `p` is a completed purchase of `courseId` by `userId`. */
  predicate Owns(p: Purchase, userId: UserId, courseId: CourseId) {
    p.userId == userId && p.courseId == courseId && p.status == Completed
  }

  datatype DetailResponse = DetailNotFound | CourseDetail(course: Course, purchased: bool)

  /** The meaning of `getCourseDetailWithPurchaseStatus`. */
  function CourseDetailWithPurchaseStatus(db: Db, courseId: CourseId, userId: UserId): (r: DetailResponse)
    ensures r.DetailNotFound? <==> courseId !in db.courses
    ensures r.CourseDetail? ==> r.course == db.courses[courseId]
    ensures r.CourseDetail? ==>
      (r.purchased <==> exists i :: 0 <= i < |db.purchases| && Owns(db.purchases[i], userId, courseId))
  {
    var purchased := FindOne(db.purchases, ByCompletedOwner(userId, courseId));
    if courseId !in db.courses then DetailNotFound
    else
      assert purchased.Some? ==> Owns(db.purchases[purchased.value], userId, courseId);
      CourseDetail(db.courses[courseId], purchased.Some?)
  }

  /** `CoursePurchase.find({status: "completed"})`, in table order. */
  function CompletedPurchases(ps: seq<Purchase>): (r: seq<Purchase>)
    ensures forall p :: multiset(r)[p] == if p.status == Completed then multiset(ps)[p] else 0
    ensures forall p :: p in r <==> p in ps && p.status == Completed
  {
    if |ps| == 0 then []
    else
      assert ps == [ps[0]] + ps[1..];
      var rest := CompletedPurchases(ps[1..]);
      if ps[0].status == Completed then [ps[0]] + rest else rest
  }
}
