# Course purchase to enrollment, modelled in Dafny

This project models the purchase controller of an online-learning backend
(`controllers/purchaseCourse.controller.js`). A buyer starts a Stripe checkout
for a course, which stores a `pending` purchase keyed by the Stripe session id.
Stripe's `checkout.session.completed` webhook then marks that purchase
`completed`, settles its amount, opens every lecture of the course for preview
and enrolls the buyer. An administrative endpoint completes a purchase by
(course, user) pair. Two read-only endpoints report whether a buyer owns a
course and list all completed purchases.

The database is an abstract in-memory store with four tables:
- purchases, a sequence in insertion order, because `findOne` returns the first match;
- courses, users and lectures, maps keyed by id.

Stripe's session, the webhook event and the outcome of signature verification
are plain inputs.

- `purchase_model.dfy`, module `PurchaseModel`: the records and `findOne`.
  It also gives the meaning of every handler as a function on a snapshot `Db`
  of the tables. These are `Checkout`, `Webhook`, `UpdateStatus`,
  `CourseDetailWithPurchaseStatus` and `CompletedPurchases`. Their `ensures`
  clauses state what each handler does and does not change.
- `purchase_store.dfy`, module `PurchaseStore`: class `Store`, whose fields
  are the four tables. The three writing handlers are methods that update
  those fields step by step, in the order the controller does. The lecture
  unlock is a loop over the course's lecture ids. Each method is proved to
  end in exactly the state and answer of its `PurchaseModel` function.
- `purchase_properties.dfy`, module `PurchaseProperties`, proves properties
  that span several calls:
  - replaying a webhook event, or repeating a status update, is idempotent;
  - a checkout followed by its completion event does what it should;
  - the two queries agree with each other;
  - over any sequence of handler calls, a completed purchase never reverts,
    `failed` is never written and enrollments only grow.

The model follows the code, including where the code departs from what a
payment reconciliation flow is usually expected to do:
- The webhook has no "already completed" guard. A replay writes everything
  again, and idempotence comes only from every write being idempotent
  (`WebhookIdempotent`).
- `updatePurchaseStatus` is not the same transition as the webhook. It
  completes the first purchase of the pair in any status, including `failed`.
  It does not change the amount and does not unlock lectures.
- A purchase is stored only after Stripe returns a session with a URL, and it
  already carries the session id. It is never stored without that id.
- Nothing stops two completed purchases for the same (course, user) pair.
  Two checkouts give two pending records, and each completion event
  completes its own record (`TwoCompletedForOnePair`).
- When the purchase's course has been deleted, `populate` yields `null`.
  Reading `purchase.courseId._id` then throws after the purchase was saved as
  completed. The model keeps that partial failure: the purchase is saved, the
  lectures are untouched, nobody is enrolled, and the answer is a 500
  (`ServerError`).

## Model

| member | source | states |
|---|---|---|
| `PurchaseModel.FindOne` | controllers/purchaseCourse.controller.js:96-98 | `findOne` returns the index of the first purchase matching every field of the filter, and returns none exactly when no purchase matches |
| `PurchaseModel.UnlockLectures` | controllers/purchaseCourse.controller.js:110-115 | `updateMany` keeps the same lecture ids and titles and sets `isPreviewFree` on every listed lecture that exists; lectures not listed are unchanged |
| `PurchaseModel.EnrollUser` | controllers/purchaseCourse.controller.js:120-124 | `$addToSet` adds the course to the user's `enrolledCourses` by set union; other users are untouched, a missing user is a no-op, and a course already present leaves the table unchanged |
| `PurchaseModel.EnrollStudent` | controllers/purchaseCourse.controller.js:127-131 | `$addToSet` adds the user to the course's `enrolledStudents`; price, lectures and other courses are untouched, a missing course is a no-op, and a user already present leaves the table unchanged |
| `PurchaseModel.Checkout` | controllers/purchaseCourse.controller.js:8-65 | missing course: 404, Stripe is not called, nothing is stored. Falsy session url: 400, nothing is stored. Otherwise exactly one `pending` purchase is appended, with `amount = coursePrice` and `paymentId = session.id`, its url is returned, and the other tables are unchanged. Whenever the course exists, Stripe is asked for one `inr` unit of `coursePrice * 100` |
| `PurchaseModel.CompletedByEvent` | controllers/purchaseCourse.controller.js:104-107 | the purchase becomes `completed` with the same course, user and payment id; `amount * 100 = amount_total` when the total is nonzero, and the amount is kept otherwise |
| `PurchaseModel.Webhook` | controllers/purchaseCourse.controller.js:71-138 | failed verification: 400, no change. Other event types: 200, no change. No purchase with `paymentId == session.id`: 404, no change. Otherwise the first such purchase is completed and, when its course exists, that course's lectures are unlocked and both enrollment sets gain the pair (200). A dangling course gives 500 with only the purchase saved |
| `PurchaseModel.UpdateStatus` | controllers/purchaseCourse.controller.js:198-235 | falsy `courseId` or `userId`: 400, no change. No purchase of the pair in any status: 404, no change. Otherwise the first purchase of the pair becomes `completed` with its amount kept, lectures are untouched, and both enrollment sets are unioned |
| `PurchaseModel.CourseDetailWithPurchaseStatus` | controllers/purchaseCourse.controller.js:140-151 | 404 exactly when the course is missing; otherwise returns the course, and `purchased` holds iff a `completed` purchase exists for exactly this user and course |
| `PurchaseModel.CompletedPurchases` | controllers/purchaseCourse.controller.js:182-191 | the list holds exactly the completed purchases, each as often as it occurs in the table |
| `PurchaseStore.Store.CreateCheckoutSession` | controllers/purchaseCourse.controller.js:8-65 | the method's new tables, Stripe request and answer are exactly those of `Checkout` on the old tables |
| `PurchaseStore.Store.UnlockCourseLectures` | controllers/purchaseCourse.controller.js:110-115 | the loop over lecture ids leaves the lecture table equal to `UnlockLectures` of the old one, and the other tables unchanged |
| `PurchaseStore.Store.AddEnrolledCourse` | controllers/purchaseCourse.controller.js:120-124 | the user table becomes `EnrollUser` of the old one, and nothing else changes |
| `PurchaseStore.Store.AddEnrolledStudent` | controllers/purchaseCourse.controller.js:127-131 | the course table becomes `EnrollStudent` of the old one, and nothing else changes |
| `PurchaseStore.Store.StripeWebhook` | controllers/purchaseCourse.controller.js:71-138 | a sequence of field assignments, then the lecture update, the save and the two `$addToSet` calls, in the controller's order, ends in the state and answer of `Webhook` |
| `PurchaseStore.Store.UpdatePurchaseStatus` | controllers/purchaseCourse.controller.js:198-235 | the state and answer are exactly those of `UpdateStatus` on the old tables |
| `PurchaseProperties.FindOneAfterUpdate` | controllers/purchaseCourse.controller.js:96-117 | rewriting the first match with a record that still matches keeps it the first match, so a replayed event finds the same purchase |
| `PurchaseProperties.UnlockLecturesIdempotent` | controllers/purchaseCourse.controller.js:111-114 | running the lecture update twice gives the table the first run gave |
| `PurchaseProperties.WebhookIdempotent` | controllers/purchaseCourse.controller.js:104-131 | delivering the same event a second time gives the same store and the same answer as delivering it once |
| `PurchaseProperties.UpdateStatusIdempotent` | controllers/purchaseCourse.controller.js:207-229 | repeating a status update gives the same store and answer as doing it once |
| `PurchaseProperties.CheckoutThenWebhook` | controllers/purchaseCourse.controller.js:53-131 | for a new session id, checkout and then its completion event with total `t` give one new purchase at the end of the table, `completed` with amount `t/100` and that payment id. Earlier purchases are unchanged, every existing lecture of the course is open for preview, the buyer is in the course's `enrolledStudents` and, when the buyer's user record exists, the course is in the buyer's `enrolledCourses` |
| `PurchaseProperties.TwoCompletedForOnePair` | controllers/purchaseCourse.controller.js:16-131 | from a store with one course and one user, two checkouts (sessions `s1`, `s2`) followed by their two completion events leave two purchases that are both completed purchases of that buyer for that course |
| `PurchaseProperties.CompletedPurchasesAppend` | controllers/purchaseCourse.controller.js:184-186 | the listing distributes over concatenation of the table, so it keeps table order |
| `PurchaseProperties.PurchasedIffListed` | controllers/purchaseCourse.controller.js:146-186 | for an existing course, `purchased` holds iff the listing of completed purchases has one of this user for this course |
| `PurchaseProperties.EvolvesTransitive` | controllers/purchaseCourse.controller.js:8-236 | the allowed evolution of the store is transitive |
| `PurchaseProperties.CheckoutEvolves` | controllers/purchaseCourse.controller.js:8-65 | the new store is an evolution of the old one (`Evolves`); the old purchases stay a prefix, at most one purchase is appended and it is `pending`, and courses, users and lectures are unchanged |
| `PurchaseProperties.WebhookEvolves` | controllers/purchaseCourse.controller.js:71-138 | the new store is an evolution of the old one (`Evolves`: enrollment sets and preview flags only grow); no purchase is appended, and at most one purchase is rewritten, which is then `completed` |
| `PurchaseProperties.UpdateStatusEvolves` | controllers/purchaseCourse.controller.js:198-235 | the new store is an evolution of the old one (`Evolves`: enrollment sets only grow); no purchase is appended, at most one purchase is rewritten and it is then `completed`, every amount is kept, and the lecture table is unchanged |
| `PurchaseProperties.RunEvolves` | controllers/purchaseCourse.controller.js:8-236 | over any sequence of handler calls: purchases are only appended; existing ones keep course, user and payment id and either keep their status or become `completed`; nothing written is `failed`; user and course ids, prices, lecture lists and lecture titles are kept; enrollment sets and preview flags only grow |
| `PurchaseProperties.CompletedNeverReverts` | controllers/purchaseCourse.controller.js:107-214 | a completed purchase is still at its position, still `completed` and has the same payment id after any sequence of handler calls |
| `PurchaseProperties.NoFailedStatusWritten` | controllers/purchaseCourse.controller.js:16-21 | starting from a store with no `failed` purchase, no sequence of handler calls produces one |
| `PurchaseProperties.EnrollmentPersists` | controllers/purchaseCourse.controller.js:120-131 | once a buyer and a course are enrolled in each other, they stay enrolled after any sequence of handler calls |

## Left out

- Stripe itself. Session creation (`stripe.checkout.sessions.create`) is modelled only as the request sent and the `(id, url)` value received. Nothing links the two, because that is Stripe's behaviour.
- Webhook verification is a boolean input whose failure gives 400 before any write. `generateTestHeaderString` signs the payload it is then checked against, so in the source this authenticates nothing. Only the `constructEvent` result is modelled.
- HTTP plumbing: `req`/`res`, JSON bodies and messages. Answers are one enum per handler.
- The success and cancel URLs built from `BASE_URI` or the body's `success_url`: environment-dependent strings sent to Stripe.
- The course title and thumbnail sent to Stripe, `payment_method_types` and `mode`: display or constant data.
- `populate` of `creator`/`lectures` in the course detail, and of `courseId` in the purchase listing. These only join display data. The listing is modelled as the completed purchase records.
- Floating point. `coursePrice * 100` and `amount_total / 100` are exact `real` arithmetic here, so IEEE rounding is not modelled.
- The catch blocks of `createCheckoutSession`, `getCourseDetailWithPurchaseStatus` and `getAllPurchasedCourse`. They only log and never answer, so a failed Stripe call or query is not modelled.
- Failures of the data store itself (a rejected `save` or `updateMany`), and concurrent or interleaved handler runs. Each handler is one sequential run against reliable tables.
- The 404 branch of `getAllPurchasedCourse`, which cannot be taken because `find` always returns an array.
- The commented-out second `getCourseDetailWithPurchaseStatus`.
- Ids are strings and a body id is falsy when absent or empty. Other falsy JSON values (`0`, `false`) and a malformed id that Mongoose fails to cast are not modelled.
