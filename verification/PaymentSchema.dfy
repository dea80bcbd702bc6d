/** The payment tables: mandate, checkout, reservation and its lines, payment attempt, and the
    Razorpay binding. What each row must satisfy, what each trigger lets through, and what one
    statement does. Statements run one at a time with triggers on. */
module PaymentSchema {
  import opened Relational

  /* ---- spending_mandate ---- */

  datatype MandateStatus = ACTIVE | REVOKED

  datatype Mandate = Mandate(
    merchant: Id, maxTotal: int, currency: string, maxQuantity: Option<int>,
    validFrom: Time, validUntil: Time, createdAt: Time,
    status: MandateStatus, revokedAt: Option<Time>)

  predicate MandateCheck(m: Mandate) {
    && (m.status == REVOKED) == m.revokedAt.Some?
    && Bigint(m.maxTotal) && m.maxTotal >= 0
    && (m.maxQuantity.Some? ==> Integer(m.maxQuantity.value) && m.maxQuantity.value > 0)
    && m.validUntil > m.validFrom
  }

  predicate MandateGuard(o: Mandate, n: Mandate) {
    && n == o.(status := n.status, revokedAt := n.revokedAt)
    && o.status == MandateStatus.ACTIVE
  }

  /* ---- checkout_session ---- */

  datatype CheckoutStatus = OPEN | CANCELLED | PAID

  datatype Checkout = Checkout(
    merchant: Id, mandate: Id, currency: string,
    subtotal: int, shipping: int, discount: int, total: int,
    createdAt: Time, expiresAt: Time,
    status: CheckoutStatus, cancelledAt: Option<Time>, paidAt: Option<Time>)

  predicate CheckoutCheck(c: Checkout) {
    && (c.status == CANCELLED) == c.cancelledAt.Some?
    && (c.status == PAID) == c.paidAt.Some?
    && c.expiresAt > c.createdAt
    && 0 <= c.subtotal && 0 <= c.shipping && 0 <= c.discount && 0 <= c.total
    && Bigint(c.subtotal) && Bigint(c.shipping) && Bigint(c.discount)
    && Bigint(c.subtotal + c.shipping)  // BIGINT addition raises rather than wraps
    && c.total == c.subtotal + c.shipping - c.discount
  }

  predicate CheckoutGuard(o: Checkout, n: Checkout) {
    && n == o.(status := n.status, cancelledAt := n.cancelledAt, paidAt := n.paidAt)
    && o.status == OPEN
  }

  /* ---- inventory_reservation and its lines ---- */

  datatype ReservationStatus = ACTIVE | COMMITTED | RELEASED | CONSUMED

  datatype Reservation = Reservation(
    merchant: Id, checkout: Id, createdAt: Time, expiresAt: Time,
    status: ReservationStatus, releasedAt: Option<Time>, consumedAt: Option<Time>)

  predicate ReservationCheck(r: Reservation) {
    && (r.status == RELEASED) == r.releasedAt.Some?
    && (r.status == CONSUMED) == r.consumedAt.Some?
    && r.expiresAt > r.createdAt
  }

  predicate Holding(s: ReservationStatus) { s == ReservationStatus.ACTIVE || s == COMMITTED }

  predicate ReservationGuard(o: Reservation, n: Reservation) {
    && n == o.(status := n.status, releasedAt := n.releasedAt, consumedAt := n.consumedAt)
    && o.status != RELEASED && o.status != CONSUMED
    && (o.status, n.status) in {
         (ReservationStatus.ACTIVE, ReservationStatus.ACTIVE),
         (ReservationStatus.ACTIVE, COMMITTED),
         (ReservationStatus.ACTIVE, RELEASED),
         (COMMITTED, COMMITTED),
         (COMMITTED, RELEASED),
         (COMMITTED, CONSUMED)}
  }

  datatype Line = Line(reservation: Id, merchant: Id, variant: Id, quantity: int, createdAt: Time)

  predicate LineCheck(l: Line) { l.quantity > 0 && Integer(l.quantity) }

  // Lines refuse any update at all.
  predicate LineGuard(o: Line, n: Line) { false }

  /* ---- payment_attempt ---- */

  datatype AttemptStatus = ADMITTED | IN_FLIGHT | SUCCEEDED | FAILED | UNKNOWN
  datatype OutcomeSource = EXECUTION | RECONCILIATION | OPERATOR | INTERACTIVE

  datatype Attempt = Attempt(
    merchant: Id, checkout: Id, mandate: Id, reservation: Id, idempotencyKey: string,
    amount: int, currency: string, createdAt: Time,
    status: AttemptStatus, providerReference: Option<string>, failureCode: Option<string>,
    outcomeSource: Option<OutcomeSource>, dispatchedAt: Option<Time>, resolvedAt: Option<Time>)

  predicate Settled(s: AttemptStatus) { s == SUCCEEDED || s == FAILED }
  predicate StillOpen(s: AttemptStatus) { !Settled(s) }

  predicate AttemptCheck(a: Attempt) {
    && (a.status == ADMITTED) == a.dispatchedAt.None?
    && (a.status == ADMITTED || a.status == IN_FLIGHT) == a.outcomeSource.None?
    && Settled(a.status) == a.resolvedAt.Some?
    && (a.failureCode.Some? ==> a.status == FAILED)
    && a.amount >= 0 && Bigint(a.amount)
  }

  predicate AttemptGuard(o: Attempt, n: Attempt) {
    && n == o.(status := n.status, providerReference := n.providerReference, failureCode := n.failureCode,
               outcomeSource := n.outcomeSource, dispatchedAt := n.dispatchedAt, resolvedAt := n.resolvedAt)
    && (o.dispatchedAt.Some? ==> n.dispatchedAt == o.dispatchedAt)
    && (o.resolvedAt.Some? ==> n.resolvedAt == o.resolvedAt)
    && !Settled(o.status)
    && (o.status, n.status) in {
         (ADMITTED, ADMITTED),
         (ADMITTED, IN_FLIGHT),
         (IN_FLIGHT, IN_FLIGHT),
         (IN_FLIGHT, SUCCEEDED),
         (IN_FLIGHT, FAILED),
         (IN_FLIGHT, UNKNOWN),
         (UNKNOWN, UNKNOWN),
         (UNKNOWN, SUCCEEDED),
         (UNKNOWN, FAILED)}
  }

  /* ---- razorpay_checkout ---- */

  datatype BindingStatus = PREPARING | AWAITING_PAYMENT | CONFIRMED

  datatype Binding = Binding(
    merchant: Id, attempt: Id, receipt: string, amount: int, currency: string, createdAt: Time,
    status: BindingStatus, orderId: Option<string>, paymentId: Option<string>,
    orderCreatedAt: Option<Time>, confirmedAt: Option<Time>)

  predicate BindingCheck(b: Binding) {
    && b.amount > 0 && Bigint(b.amount)
    && (b.status == PREPARING) == b.orderId.None?
    && b.orderId.None? == b.orderCreatedAt.None?
    && (b.status == CONFIRMED) == b.paymentId.Some?
    && (b.status == CONFIRMED) == b.confirmedAt.Some?
  }

  predicate BindingGuard(o: Binding, n: Binding) {
    && n == o.(status := n.status, orderId := n.orderId, paymentId := n.paymentId,
               orderCreatedAt := n.orderCreatedAt, confirmedAt := n.confirmedAt)
    && (o.orderId.Some? ==> n.orderId == o.orderId)
    && (o.orderCreatedAt.Some? ==> n.orderCreatedAt == o.orderCreatedAt)
    && o.status != CONFIRMED
    && (o.status, n.status) in {
         (PREPARING, PREPARING),
         (PREPARING, AWAITING_PAYMENT),
         (AWAITING_PAYMENT, AWAITING_PAYMENT),
         (AWAITING_PAYMENT, CONFIRMED)}
  }

  /* ---- how far along its lifecycle a row is ---- */

  // 0 before the row exists, then how far along its lifecycle it is.
  function MandateStage(s: Option<MandateStatus>): (r: int)
    ensures 0 <= r <= 2
  {
    match s case None => 0 case Some(ACTIVE) => 1 case Some(REVOKED) => 2
  }
  function CheckoutStage(s: Option<CheckoutStatus>): (r: int)
    ensures 0 <= r <= 2
  {
    match s case None => 0 case Some(OPEN) => 1 case Some(_) => 2
  }
  function ReservationStage(s: Option<ReservationStatus>): (r: int)
    ensures 0 <= r <= 3
  {
    match s case None => 0 case Some(ACTIVE) => 1 case Some(COMMITTED) => 2 case Some(_) => 3
  }
  function AttemptStage(s: Option<AttemptStatus>): (r: int)
    ensures 0 <= r <= 4
  {
    match s case None => 0 case Some(ADMITTED) => 1 case Some(IN_FLIGHT) => 2 case Some(UNKNOWN) => 3 case Some(_) => 4
  }
  function BindingStage(s: Option<BindingStatus>): (r: int)
    ensures 0 <= r <= 3
  {
    match s case None => 0 case Some(PREPARING) => 1 case Some(AWAITING_PAYMENT) => 2 case Some(CONFIRMED) => 3
  }

  /* ---- the database ---- */

  // What the tables beside these contribute: the rows that keys here point at, a variant with
  // its merchant, and the rows here that keys there point at, which are all RESTRICT:
  // constraint sets name mandates, mission runs name checkouts and attempts.
  datatype Outside = Outside(
    merchants: set<Id>, variants: map<Id, Id>,
    namedMandates: set<Id>, namedCheckouts: set<Id>, namedAttempts: set<Id>)

  datatype Db = Db(
    mandates: map<Id, Mandate>, checkouts: map<Id, Checkout>, reservations: map<Id, Reservation>,
    lines: map<Id, Line>, attempts: map<Id, Attempt>, bindings: map<Id, Binding>, outside: Outside)

  // Foreign keys: the identifier followed, and the columns that must agree with it.
  function CheckoutMandate(c: Checkout): Option<Id> { Some(c.mandate) }
  predicate SameMandateOwner(c: Checkout, m: Mandate) { c.merchant == m.merchant }

  function ReservationCheckout(r: Reservation): Option<Id> { Some(r.checkout) }
  predicate SameCheckoutOwner(r: Reservation, c: Checkout) { r.merchant == c.merchant }

  function LineReservation(l: Line): Option<Id> { Some(l.reservation) }
  predicate SameReservationOwner(l: Line, r: Reservation) { l.merchant == r.merchant }

  function AttemptCheckout(a: Attempt): Option<Id> { Some(a.checkout) }
  predicate QuotedExactly(a: Attempt, c: Checkout) {
    a.merchant == c.merchant && a.mandate == c.mandate && a.currency == c.currency && a.amount == c.total
  }

  function AttemptReservation(a: Attempt): Option<Id> { Some(a.reservation) }
  predicate HeldForCheckout(a: Attempt, r: Reservation) { a.merchant == r.merchant && a.checkout == r.checkout }

  function BindingAttempt(b: Binding): Option<Id> { Some(b.attempt) }
  predicate AdmittedExactly(b: Binding, a: Attempt) {
    b.merchant == a.merchant && b.amount == a.amount && b.currency == a.currency
  }

  // Unique constraints and partial unique indexes, as the key a row is indexed under.
  function HoldingCheckout(r: Reservation): Option<Id> { if Holding(r.status) then Some(r.checkout) else None }
  function LineVariant(l: Line): Option<(Id, Id)> { Some((l.reservation, l.variant)) }
  function AttemptIdentity(a: Attempt): Option<(Id, string)> { Some((a.checkout, a.idempotencyKey)) }
  function SucceededCheckout(a: Attempt): Option<Id> { if a.status == SUCCEEDED then Some(a.checkout) else None }
  function SucceededMandate(a: Attempt): Option<Id> { if a.status == SUCCEEDED then Some(a.mandate) else None }
  function OpenMandate(a: Attempt): Option<Id> { if StillOpen(a.status) then Some(a.mandate) else None }
  function BindingReceipt(b: Binding): Option<string> { Some(b.receipt) }
  function BindingOrder(b: Binding): Option<string> { b.orderId }

  ghost predicate MandatesOk(db: Db) {
    forall i :: i in db.mandates ==> MandateCheck(db.mandates[i])
  }

  ghost predicate CheckoutsOk(db: Db) {
    && (forall i :: i in db.checkouts ==> CheckoutCheck(db.checkouts[i]))
    && References(db.checkouts, db.mandates, CheckoutMandate, SameMandateOwner)
  }

  ghost predicate ReservationsOk(db: Db) {
    && (forall i :: i in db.reservations ==> ReservationCheck(db.reservations[i]))
    && Unique(db.reservations, HoldingCheckout)
    && References(db.reservations, db.checkouts, ReservationCheckout, SameCheckoutOwner)
  }

  ghost predicate LinesOk(db: Db) {
    && (forall i :: i in db.lines ==> LineCheck(db.lines[i]))
    && Unique(db.lines, LineVariant)
    && References(db.lines, db.reservations, LineReservation, SameReservationOwner)
  }

  ghost predicate AttemptsOk(db: Db) {
    && (forall i :: i in db.attempts ==> AttemptCheck(db.attempts[i]))
    && Unique(db.attempts, AttemptIdentity)
    && Unique(db.attempts, SucceededCheckout)
    && Unique(db.attempts, SucceededMandate)
    && Unique(db.attempts, OpenMandate)
    && References(db.attempts, db.checkouts, AttemptCheckout, QuotedExactly)
    && References(db.attempts, db.reservations, AttemptReservation, HeldForCheckout)
  }

  ghost predicate BindingsOk(db: Db) {
    && (forall i :: i in db.bindings ==> BindingCheck(db.bindings[i]))
    && Unique(db.bindings, BindingAttempt)
    && Unique(db.bindings, BindingReceipt)
    && Unique(db.bindings, BindingOrder)
    && References(db.bindings, db.attempts, BindingAttempt, AdmittedExactly)
  }

  predicate MandateGrounded(o: Outside, m: Mandate) { m.merchant in o.merchants }

  predicate LineGrounded(o: Outside, l: Line) { l.variant in o.variants && o.variants[l.variant] == l.merchant }

  // The keys to and from other tables.
  predicate Grounded(db: Db) {
    && (forall i :: i in db.mandates ==> MandateGrounded(db.outside, db.mandates[i]))
    && (forall i :: i in db.lines ==> LineGrounded(db.outside, db.lines[i]))
    && db.outside.namedMandates <= db.mandates.Keys
    && db.outside.namedCheckouts <= db.checkouts.Keys
    && db.outside.namedAttempts <= db.attempts.Keys
  }

  // Every constraint of the schema holds.
  ghost predicate Consistent(db: Db) {
    && MandatesOk(db) && CheckoutsOk(db) && ReservationsOk(db)
    && LinesOk(db) && AttemptsOk(db) && BindingsOk(db) && Grounded(db)
  }

  /* ---- statements ---- */

  datatype Statement =
    | OnMandate(mandate: Change<Mandate>)
    | OnCheckout(checkout: Change<Checkout>)
    | OnReservation(reservation: Change<Reservation>)
    | OnLine(line: Change<Line>)
    | OnAttempt(attempt: Change<Attempt>)
    | OnBinding(binding: Change<Binding>)
    | Elsewhere(outside: Outside)  // any change to the tables beside these

  // The statement addresses a row (or a fresh key), and the update trigger lets it through.
  // No table here has an INSERT or DELETE trigger.
  predicate Triggers(db: Db, s: Statement) {
    match s
    case OnMandate(c) => Addressed(db.mandates, c) && (c.Update? ==> MandateGuard(db.mandates[c.id], c.row))
    case OnCheckout(c) => Addressed(db.checkouts, c) && (c.Update? ==> CheckoutGuard(db.checkouts[c.id], c.row))
    case OnReservation(c) =>
      Addressed(db.reservations, c) && (c.Update? ==> ReservationGuard(db.reservations[c.id], c.row))
    case OnLine(c) => Addressed(db.lines, c) && (c.Update? ==> LineGuard(db.lines[c.id], c.row))
    case OnAttempt(c) => Addressed(db.attempts, c) && (c.Update? ==> AttemptGuard(db.attempts[c.id], c.row))
    case OnBinding(c) => Addressed(db.bindings, c) && (c.Update? ==> BindingGuard(db.bindings[c.id], c.row))
    case Elsewhere(_) => true
  }

  // ON DELETE CASCADE: a reservation takes its lines with it.
  function LinesOf(db: Db, reservation: Id): set<Id> {
    set i | i in db.lines && db.lines[i].reservation == reservation
  }

  function Post(db: Db, s: Statement): Db {
    match s
    case OnMandate(c) => db.(mandates := Written(db.mandates, c))
    case OnCheckout(c) => db.(checkouts := Written(db.checkouts, c))
    case OnReservation(c) =>
      db.(reservations := Written(db.reservations, c),
          lines := if c.Delete? then db.lines - LinesOf(db, c.id) else db.lines)
    case OnLine(c) => db.(lines := Written(db.lines, c))
    case OnAttempt(c) => db.(attempts := Written(db.attempts, c))
    case OnBinding(c) => db.(bindings := Written(db.bindings, c))
    case Elsewhere(o) => db.(outside := o)
  }

  // A statement takes effect when the triggers accept it and every constraint holds afterwards.
  // Otherwise it changes nothing.
  ghost predicate Accepts(db: Db, s: Statement) {
    Triggers(db, s) && Consistent(Post(db, s))
  }

  ghost function Step(db: Db, s: Statement): Db {
    if Accepts(db, s) then Post(db, s) else db
  }

  ghost function Run(db: Db, statements: seq<Statement>): Db
    decreases |statements|
  {
    if statements == [] then db else Run(Step(db, statements[0]), statements[1..])
  }

  const EMPTY := Db(map[], map[], map[], map[], map[], map[], Outside({}, map[], {}, {}, {}))

  lemma StepStaysConsistent(db: Db, s: Statement)
    requires Consistent(db)
    ensures Consistent(Step(db, s))
  {
  }

  lemma {:induction false} RunStaysConsistent(db: Db, statements: seq<Statement>)
    requires Consistent(db)
    ensures Consistent(Run(db, statements))
    decreases |statements|
  {
    if statements != [] {
      RunStaysConsistent(Step(db, statements[0]), statements[1..]);
    }
  }
}
