/** The tables behind the PostgreSQL store, and what every transaction of the order, wallet and payment code reads,
    locks and writes. A transaction is a program: from the row copies it has read under their locks, `Next` gives its
    next statement. */
module Rows {
  import opened Text
  import opened Domain
  import opened StoreModel

  datatype PaymentStatus = PaymentPending | PaymentPaid | PaymentCompleted | PaymentCanceled | PaymentExpired

  datatype UserRow = UserRow(balance: int, active: bool)

  datatype OrderRow = OrderRow(
    userId: string, serviceId: string, mailboxId: string, price: int, status: OrderStatus, refunded: bool,
    code: string, expiresAt: int)

  datatype MailboxRow = MailboxRow(
    provider: string, state: MailboxState, activeOrderId: string, verification: Verification, healthScore: int,
    connection: Connection, oauthValidUntil: int)

  datatype PaymentRow = PaymentRow(userId: string, amount: int, status: PaymentStatus)

  /** A (mailbox, platform) pair. */
  type Pair = (string, string)

  datatype Tables = Tables(
    users: map<string, UserRow>, orders: map<string, OrderRow>, mailboxes: map<string, MailboxRow>,
    slots: map<Pair, Slot>, payments: map<string, PaymentRow>)

  const NOTHING := Tables(map[], map[], map[], map[], map[])

  datatype Key =
    | UserKey(user: string) | OrderKey(order: string) | MailboxKey(mailbox: string)
    | SlotKey(pair: Pair) | PaymentKey(payment: string)

  predicate Has(d: Tables, k: Key) {
    match k
    case UserKey(id) => id in d.users
    case OrderKey(id) => id in d.orders
    case MailboxKey(id) => id in d.mailboxes
    case SlotKey(pair) => pair in d.slots
    case PaymentKey(id) => id in d.payments
  }

  /** Both have the row, with the same contents. */
  predicate Agree(a: Tables, b: Tables, k: Key) {
    && Has(a, k) && Has(b, k)
    && match k
       case UserKey(id) => a.users[id] == b.users[id]
       case OrderKey(id) => a.orders[id] == b.orders[id]
       case MailboxKey(id) => a.mailboxes[id] == b.mailboxes[id]
       case SlotKey(pair) => a.slots[pair] == b.slots[pair]
       case PaymentKey(id) => a.payments[id] == b.payments[id]
  }

  /** `c` with the row `k` of `d` added. */
  function Read(c: Tables, d: Tables, k: Key): Tables
    requires Has(d, k)
  {
    match k
    case UserKey(id) => c.(users := c.users[id := d.users[id]])
    case OrderKey(id) => c.(orders := c.orders[id := d.orders[id]])
    case MailboxKey(id) => c.(mailboxes := c.mailboxes[id := d.mailboxes[id]])
    case SlotKey(pair) => c.(slots := c.slots[pair := d.slots[pair]])
    case PaymentKey(id) => c.(payments := c.payments[id := d.payments[id]])
  }

  function Write(d: Tables, w: Tables): Tables {
    Tables(d.users + w.users, d.orders + w.orders, d.mailboxes + w.mailboxes, d.slots + w.slots,
           d.payments + w.payments)
  }

  /** One line of the append-only wallet ledger. */
  datatype Entry = Entry(userId: string, orderId: string, paymentId: string, amount: int, balanceAfter: int)

  // ---------------------------------------------------------------- transactions

  datatype Op =
    | CreateOrder(userId: string, serviceId: string, prices: map<string, int>, maximum: int, orderId: string, now: int)
    | CancelOrder(orderId: string, userId: string)
    | ReapOrder(orderId: string, now: int)
    | ReceiveCode(orderId: string, code: string, now: int)
    | CompleteOrder(orderId: string, userId: string)
    | VerifyMailbox(mailboxId: string, connection: Connection, status: Verification)
    | ReconcileOrder(orderId: string, mailboxId: string)
    | AdjustBalance(userId: string, amount: int)
    | CreatePayment(paymentId: string, userId: string, amount: int)
    | CancelPayment(paymentId: string, userId: string)
    | CompletePayment(paymentId: string, paid: int)
    | ExpirePayment(paymentId: string)
    | MarkConsumed(pair: Pair)
    | MarkRegistered(pair: Pair)
    | Register(userId: string)
    | InsertMailbox(mailboxId: string, edit: MailboxEdit)
    | InsertSlot(pair: Pair)
    | SaveMailbox(mailboxId: string, read: MailboxRow, edit: MailboxEdit)
    | ReinsertMailbox(mailboxId: string, read: MailboxRow, edit: MailboxEdit)

  /** What a caller passes: the prices of the requested providers, bounded by the maximum that was checked. */
  predicate WellFormed(op: Op) {
    match op
    case CreateOrder(_, _, prices, maximum, orderId, _) =>
      orderId != "" && forall p :: p in prices ==> 0 <= prices[p] <= maximum
    case CreatePayment(paymentId, _, _) => paymentId != ""
    case _ => true
  }

  datatype Action =
    | Lock(key: Key)
    | Pick
    | Commit(writes: Tables, entries: seq<Entry>)
    | Stop

  /** The WHERE clause of the mailbox query. */
  predicate Leasable(m: MailboxRow, op: Op)
    requires op.CreateOrder?
  {
    && m.state == MailboxAvailable && m.activeOrderId == "" && m.healthScore >= MINIMUM_HEALTH
    && m.verification == Verified && (m.connection == Imap || m.oauthValidUntil > op.now)
    && m.provider in op.prices
  }

  function Next(op: Op, picked: Option<string>, c: Tables): Action {
    match op
    case CreateOrder(_, _, _, _, _, _) => NextCreate(op, picked, c)
    case CancelOrder(orderId, userId) =>
      if orderId !in c.orders then Lock(OrderKey(orderId))
      else if userId != "" && c.orders[orderId].userId != userId then Stop
      else NextRefund(orderId, OrderCanceled, c)
    case ReapOrder(orderId, now) =>
      if orderId !in c.orders then Lock(OrderKey(orderId))
      else if c.orders[orderId].expiresAt > now then Stop
      else NextRefund(orderId, OrderExpiredRefunded, c)
    case ReceiveCode(orderId, code, now) => NextReceive(orderId, code, now, c)
    case CompleteOrder(orderId, userId) =>
      if orderId !in c.orders then Lock(OrderKey(orderId))
      else if (userId != "" && c.orders[orderId].userId != userId)
        || c.orders[orderId].status != OrderCodeReceived then Stop
      else Commit(NOTHING.(orders := map[orderId := c.orders[orderId].(status := OrderCompleted)]), [])
    case VerifyMailbox(mailboxId, connection, status) => NextVerify(mailboxId, connection, status, c)
    case ReconcileOrder(orderId, mailboxId) => NextReconcile(orderId, mailboxId, c)
    case AdjustBalance(userId, amount) =>
      if userId !in c.users then Lock(UserKey(userId))
      else if c.users[userId].balance + amount < 0 then Stop
      else Commit(NOTHING.(users := map[userId := Paid(c.users[userId], amount)]),
                  [Entry(userId, "", "", amount, c.users[userId].balance + amount)])
    case CreatePayment(paymentId, userId, amount) =>
      if amount < 100 || amount > 10000000 then Stop
      else Commit(NOTHING.(payments := map[paymentId := PaymentRow(userId, amount, PaymentPending)]), [])
    case CancelPayment(paymentId, userId) =>
      if paymentId !in c.payments then Lock(PaymentKey(paymentId))
      else if c.payments[paymentId].userId != userId || c.payments[paymentId].status != PaymentPending then Stop
      else Commit(NOTHING.(payments := map[paymentId := c.payments[paymentId].(status := PaymentCanceled)]), [])
    case CompletePayment(paymentId, paid) => NextTopUp(paymentId, paid, c)
    case ExpirePayment(paymentId) =>
      if paymentId !in c.payments then Lock(PaymentKey(paymentId))
      else if c.payments[paymentId].status != PaymentPending then Stop
      else Commit(NOTHING.(payments := map[paymentId := c.payments[paymentId].(status := PaymentExpired)]), [])
    case MarkConsumed(pair) =>
      if pair !in c.slots then Lock(SlotKey(pair))
      else if c.slots[pair].state != SlotAvailable then Stop
      else Commit(NOTHING.(slots := map[pair := c.slots[pair].(state := SlotConsumed)]), [])
    case MarkRegistered(pair) =>
      if pair !in c.slots then Lock(SlotKey(pair))
      else if c.slots[pair].state == SlotLeased || c.slots[pair].state == SlotConsumed then Stop
      else Commit(NOTHING.(slots := map[pair := c.slots[pair].(state := SlotConsumed)]), [])
    case Register(userId) => Commit(NOTHING.(users := map[userId := UserRow(0, true)]), [])
    case InsertMailbox(mailboxId, edit) => Commit(NOTHING.(mailboxes := map[mailboxId := InsertedRow(edit)]), [])
    case InsertSlot(pair) => Commit(NOTHING.(slots := map[pair := Slot(SlotAvailable, 0)]), [])
    case SaveMailbox(mailboxId, read, edit) =>
      if mailboxId !in c.mailboxes then Lock(MailboxKey(mailboxId))
      else Commit(NOTHING.(mailboxes := map[mailboxId := EditedRow(read, edit)]), [])
    case ReinsertMailbox(mailboxId, read, edit) =>
      Commit(NOTHING.(mailboxes := map[mailboxId := EditedRow(read, edit)]), [])
  }

  function Paid(u: UserRow, amount: int): UserRow {
    u.(balance := u.balance + amount)
  }

  predicate ActiveRow(o: OrderRow) {
    o.status == OrderAssigned || o.status == OrderWaitingCode
  }

  function PairOf(o: OrderRow): Pair {
    (o.mailboxId, o.serviceId)
  }

  /** The slot is written without looking at the state it is in by then. */
  function NextCreate(op: Op, picked: Option<string>, c: Tables): Action
    requires op.CreateOrder?
  {
    if op.userId !in c.users then Lock(UserKey(op.userId))
    else if !c.users[op.userId].active || c.users[op.userId].balance < op.maximum then Stop
    else if picked.None? then Pick
    else if picked.value !in c.mailboxes || c.mailboxes[picked.value].provider !in op.prices then Stop
    else if (picked.value, op.serviceId) !in c.slots then Lock(SlotKey((picked.value, op.serviceId)))
    else
      var m := c.mailboxes[picked.value];
      var price := op.prices[m.provider];
      var pair := (picked.value, op.serviceId);
      var order := OrderRow(op.userId, op.serviceId, picked.value, price, OrderWaitingCode, false, "",
                            op.now + MINIMUM_ORDER_TTL_SECONDS);
      Commit(Tables(map[op.userId := Paid(c.users[op.userId], -price)],
                    map[op.orderId := order],
                    map[picked.value := m.(state := MailboxLeased, activeOrderId := op.orderId)],
                    map[pair := c.slots[pair].(state := SlotLeased)], map[]),
             [Entry(op.userId, op.orderId, "", -price, c.users[op.userId].balance - price)])
  }

  /** The row `refundOrder` locks next, after the order. */
  function RefundKey(o: OrderRow, c: Tables): Option<Key> {
    if o.userId !in c.users then Some(UserKey(o.userId))
    else if o.mailboxId !in c.mailboxes then Some(MailboxKey(o.mailboxId))
    else if PairOf(o) !in c.slots then Some(SlotKey(PairOf(o)))
    else None
  }

  /** What `refundOrder` writes. */
  function RefundWrites(orderId: string, status: OrderStatus, c: Tables): Tables
    requires orderId in c.orders && RefundKey(c.orders[orderId], c).None?
  {
    var o := c.orders[orderId];
    var slot := c.slots[PairOf(o)];
    Tables(map[o.userId := Paid(c.users[o.userId], o.price)],
           map[orderId := o.(status := status, refunded := true)],
           map[o.mailboxId := c.mailboxes[o.mailboxId].(state := MailboxAvailable, activeOrderId := "")],
           map[PairOf(o) := if slot.state == SlotLeased then ReleaseSlot(slot, status == OrderExpiredRefunded)
               else slot],
           map[])
  }

  function RefundEntry(orderId: string, c: Tables): Entry
    requires orderId in c.orders && c.orders[orderId].userId in c.users
  {
    var o := c.orders[orderId];
    Entry(o.userId, orderId, "", o.price, c.users[o.userId].balance + o.price)
  }

  /** Cancellation and timeout, once the order is locked. */
  function NextRefund(orderId: string, status: OrderStatus, c: Tables): Action
    requires orderId in c.orders
  {
    var o := c.orders[orderId];
    if !ActiveRow(o) || o.refunded then Stop
    else
      match RefundKey(o, c)
      case Some(k) => Lock(k)
      case None => Commit(RefundWrites(orderId, status, c), [RefundEntry(orderId, c)])
  }

  function NextReceive(orderId: string, code: string, now: int, c: Tables): Action {
    if orderId !in c.orders then Lock(OrderKey(orderId))
    else
      var o := c.orders[orderId];
      if !ActiveRow(o) || now >= o.expiresAt || TrimSpace(code) == "" then Stop
      else if o.mailboxId !in c.mailboxes then Lock(MailboxKey(o.mailboxId))
      else if PairOf(o) !in c.slots then Lock(SlotKey(PairOf(o)))
      else Commit(Tables(map[], map[orderId := o.(status := OrderCodeReceived, code := TrimSpace(code))],
                         map[o.mailboxId := c.mailboxes[o.mailboxId].(state := MailboxAvailable, activeOrderId := "")],
                         map[PairOf(o) := c.slots[PairOf(o)].(state := SlotConsumed)], map[]), [])
  }

  /** The mailbox row that `UpdateMailboxVerification` saves. */
  function VerifiedRow(m: MailboxRow, connection: Connection, status: Verification): MailboxRow {
    var active := if status == VerificationFailed then "" else m.activeOrderId;
    var row := m.(connection := connection, verification := status, activeOrderId := active);
    if status == Verified then
      row.(healthScore := 100,
           state := if (m.state == MailboxError || m.state == MailboxPending) && active == "" then MailboxAvailable
             else m.state)
    else if status == VerificationFailed && m.state != MailboxBlocked then
      row.(state := MailboxError, healthScore := 0)
    else row
  }

  function NextVerify(mailboxId: string, connection: Connection, status: Verification, c: Tables): Action {
    if mailboxId !in c.mailboxes then Lock(MailboxKey(mailboxId))
    else
      var m := c.mailboxes[mailboxId];
      var saved := map[mailboxId := VerifiedRow(m, connection, status)];
      if status != VerificationFailed || m.activeOrderId == "" then Commit(NOTHING.(mailboxes := saved), [])
      else if m.activeOrderId !in c.orders then Lock(OrderKey(m.activeOrderId))
      else
        var o := c.orders[m.activeOrderId];
        if !ActiveRow(o) || o.refunded then Commit(NOTHING.(mailboxes := saved), [])
        else
          match RefundKey(o, c)
          case Some(k) => Lock(k)
          case None =>
            var refund := RefundWrites(m.activeOrderId, OrderExpiredRefunded, c);
            Commit(refund.(mailboxes := refund.mailboxes + saved), [RefundEntry(m.activeOrderId, c)])
  }

  /** The order's mailbox is read without a lock before this begins; an order never changes its mailbox. */
  function NextReconcile(orderId: string, mailboxId: string, c: Tables): Action {
    if mailboxId !in c.mailboxes then Lock(MailboxKey(mailboxId))
    else if c.mailboxes[mailboxId].verification == Verified then Stop
    else if orderId !in c.orders then Lock(OrderKey(orderId))
    else
      var o := c.orders[orderId];
      var m := c.mailboxes[mailboxId];
      var row := m.(activeOrderId := "", healthScore := 0, state := if m.state == MailboxBlocked then m.state
                    else MailboxError);
      if !ActiveRow(o) || o.mailboxId != mailboxId then Stop
      else if o.refunded then Commit(NOTHING.(mailboxes := map[mailboxId := row]), [])
      else
        match RefundKey(o, c)
        case Some(k) => Lock(k)
        case None =>
          var refund := RefundWrites(orderId, OrderExpiredRefunded, c);
          var kept := row.(state := if m.state == MailboxBlocked then MailboxAvailable else MailboxError);
          Commit(refund.(mailboxes := map[mailboxId := kept]), [RefundEntry(orderId, c)])
  }

  /** `SaveMailbox` on an address that is not there yet. */
  function InsertedRow(e: MailboxEdit): MailboxRow {
    var state := if e.state.Some? then e.state.value else MailboxAvailable;
    MailboxRow(e.provider, state, "", e.verification,
               if e.healthScore == 0 && state == MailboxAvailable then 100
                 else e.healthScore, e.connection, e.oauthValidUntil)
  }

  /** The whole row `SaveMailbox` writes back, from the copy `m` it read without a lock. */
  function EditedRow(m: MailboxRow, e: MailboxEdit): MailboxRow {
    m.(provider := e.provider, state := EditedState(m.state, m.activeOrderId, e),
       healthScore := if e.healthScore > 0 then e.healthScore else m.healthScore,
       oauthValidUntil := if e.oauthValidUntil != 0 then e.oauthValidUntil else m.oauthValidUntil,
       connection := if e.connection != Unspecified then e.connection else m.connection,
       verification := if e.verification != Unverified then e.verification else m.verification)
  }

  predicate CanComplete(status: PaymentStatus) {
    status == PaymentPending || status == PaymentPaid || status == PaymentExpired
  }

  function NextTopUp(paymentId: string, paid: int, c: Tables): Action {
    if paymentId !in c.payments then Lock(PaymentKey(paymentId))
    else
      var p := c.payments[paymentId];
      if p.status == PaymentCompleted || !CanComplete(p.status) || paid != p.amount then Stop
      else if p.userId !in c.users then Lock(UserKey(p.userId))
      else Commit(NOTHING.(users := map[p.userId := Paid(c.users[p.userId], p.amount)],
                           payments := map[paymentId := p.(status := PaymentCompleted)]),
                  [Entry(p.userId, "", paymentId, p.amount, c.users[p.userId].balance + p.amount)])
  }

  // ---------------------------------------------------------------- interleavings

  /** `copies` are the rows this transaction has read under their locks; `picked` is the mailbox its query returned. */
  datatype Tx = Tx(op: Op, picked: Option<string>, copies: Tables)

  /** Committed tables and ledger, row locks by transaction number, and the open transactions. */
  datatype World = World(db: Tables, ledger: seq<Entry>, locks: map<Key, nat>, txs: map<nat, Tx>)

  datatype Event =
    | Begin(t: nat, op: Op) | TakeLock(t: nat) | PickMailbox(t: nat, mailboxId: string) | Commits(t: nat) | Ends(t: nat)
    | Purges(ids: set<string>)

  function NextOf(w: World, t: nat): Action
    requires t in w.txs
  {
    Next(w.txs[t].op, w.txs[t].picked, w.txs[t].copies)
  }

  /** The row the operation inserts. */
  function Insert(op: Op): Option<Key> {
    match op
    case CreateOrder(_, _, _, _, orderId, _) => Some(OrderKey(orderId))
    case CreatePayment(paymentId, _, _) => Some(PaymentKey(paymentId))
    case Register(userId) => Some(UserKey(userId))
    case InsertMailbox(mailboxId, _) => Some(MailboxKey(mailboxId))
    case ReinsertMailbox(mailboxId, _, _) => Some(MailboxKey(mailboxId))
    case InsertSlot(pair) => Some(SlotKey(pair))
    case _ => None
  }

  function Released(locks: map<Key, nat>, t: nat): map<Key, nat> {
    map k | k in locks && locks[k] != t :: locks[k]
  }

  /** A row of the mailbox query that no transaction holds; its slot is read without a lock. */
  predicate Pickable(w: World, op: Op, b: string)
    requires op.CreateOrder?
  {
    && b in w.db.mailboxes && MailboxKey(b) !in w.locks && Leasable(w.db.mailboxes[b], op)
    && (b, op.serviceId) in w.db.slots && w.db.slots[(b, op.serviceId)].state == SlotAvailable
  }

  /** The WHERE clause of the batched deletion. */
  predicate Invalid(m: MailboxRow) {
    m.state == MailboxError && m.verification == VerificationFailed && m.activeOrderId == ""
  }

  function WithoutMailboxes(slots: map<Pair, Slot>, ids: set<string>): map<Pair, Slot> {
    map p | p in slots && p.0 !in ids :: slots[p]
  }

  function Purged(db: Tables, ids: set<string>): Tables {
    db.(mailboxes := db.mailboxes - ids, slots := WithoutMailboxes(db.slots, ids))
  }

  /** Invalid mailboxes that no transaction holds, nor any of their slots. */
  predicate Purgeable(w: World, ids: set<string>) {
    && (forall b :: b in ids ==> b in w.db.mailboxes && Invalid(w.db.mailboxes[b]) && MailboxKey(b) !in w.locks)
    && (forall p :: p in w.db.slots && p.0 in ids ==> SlotKey(p) !in w.locks)
  }

  /** What an operation read, without a lock, before its first locking statement. */
  predicate ReadBefore(db: Tables, op: Op) {
    match op
    case SaveMailbox(mailboxId, read, _) => mailboxId in db.mailboxes && db.mailboxes[mailboxId] == read
    case ReinsertMailbox(mailboxId, read, _) => mailboxId in db.mailboxes && db.mailboxes[mailboxId] == read
    case ReconcileOrder(orderId, mailboxId) => orderId in db.orders && db.orders[orderId].mailboxId == mailboxId
    case _ => true
  }

  /** A batch of the deletion locks what it deletes by the statement that finds it, so it is one step here. A save whose
      row is deleted after it was read inserts the row again.
      A transaction may end without effect at any moment: it stops, fails, misses a row, is chosen as a deadlock victim,
      or its process dies. Locking waits while another transaction holds the row; picking a mailbox skips such rows. */
  ghost predicate Step(w: World, e: Event, w': World) {
    match e
    case Begin(t, op) =>
      t !in w.txs && WellFormed(op) && ReadBefore(w.db, op) && w' == w.(txs := w.txs[t := Tx(op, None, NOTHING)])
    case TakeLock(t) =>
      && t in w.txs && NextOf(w, t).Lock?
      && var k := NextOf(w, t).key;
      && Has(w.db, k) && (k in w.locks ==> w.locks[k] == t)
      && w' == w.(locks := w.locks[k := t], txs := w.txs[t := w.txs[t].(copies := Read(w.txs[t].copies, w.db, k))])
    case PickMailbox(t, b) =>
      && t in w.txs && NextOf(w, t).Pick? && w.txs[t].op.CreateOrder?
      && Pickable(w, w.txs[t].op, b)
      && w' == w.(locks := w.locks[MailboxKey(b) := t],
                  txs := w.txs[t := w.txs[t].(picked := Some(b), copies := Read(w.txs[t].copies, w.db, MailboxKey(b)))])
    case Commits(t) =>
      && t in w.txs && NextOf(w, t).Commit?
      && (Insert(w.txs[t].op).Some? ==> !Has(w.db, Insert(w.txs[t].op).value))
      && w' == World(Write(w.db, NextOf(w, t).writes), w.ledger + NextOf(w, t).entries,
                     Released(w.locks, t), w.txs - {t})
    case Ends(t) => t in w.txs && w' == w.(locks := Released(w.locks, t), txs := w.txs - {t})
    case Purges(ids) => Purgeable(w, ids) && w' == w.(db := Purged(w.db, ids))
  }
}
