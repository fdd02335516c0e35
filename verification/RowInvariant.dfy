/** What holds of the committed tables and the ledger after every operation. */
module RowInvariant {
  import opened Text
  import opened Domain
  import opened StoreModel
  import opened StoreInvariant
  import opened Rows
  import opened RowLocks

  type OrderRows = map<string, OrderRow>
  type MailboxRows = map<string, MailboxRow>
  type SlotRows = map<Pair, Slot>

  // ---------------------------------------------------------------- leases

  predicate LeasesRow(o: OrderRow, id: string, mailboxes: MailboxRows, slots: SlotRows) {
    && o.mailboxId in mailboxes && mailboxes[o.mailboxId].activeOrderId == id
    && mailboxes[o.mailboxId].state == MailboxLeased
    && PairOf(o) in slots && slots[PairOf(o)].state == SlotLeased
  }

  predicate HeldRow(orders: OrderRows, b: string, m: MailboxRow) {
    m.activeOrderId in orders && ActiveRow(orders[m.activeOrderId]) && orders[m.activeOrderId].mailboxId == b
  }

  predicate SlotHeld(orders: OrderRows, mailboxes: MailboxRows, pair: Pair) {
    && pair.0 in mailboxes && HeldRow(orders, pair.0, mailboxes[pair.0])
    && orders[mailboxes[pair.0].activeOrderId].serviceId == pair.1
  }

  predicate MarkedLeased(m: MailboxRow) {
    m.activeOrderId != "" || m.state == MailboxLeased
  }

  ghost predicate LeaseRows(orders: OrderRows, mailboxes: MailboxRows, slots: SlotRows) {
    && "" !in orders
    && (forall id :: id in orders && ActiveRow(orders[id]) ==> LeasesRow(orders[id], id, mailboxes, slots))
    && (forall b :: b in mailboxes && MarkedLeased(mailboxes[b]) ==> HeldRow(orders, b, mailboxes[b]))
    && (forall p :: p in slots && slots[p].state == SlotLeased ==> SlotHeld(orders, mailboxes, p))
  }

  predicate SameOrder(a: OrderRow, b: OrderRow) {
    a.userId == b.userId && a.serviceId == b.serviceId && a.mailboxId == b.mailboxId && a.price == b.price
  }

  lemma EndKeepsRows(orders: OrderRows, mailboxes: MailboxRows, slots: SlotRows, id: string, o: OrderRow, m: MailboxRow,
                     slot: Slot)
    requires LeaseRows(orders, mailboxes, slots) && id in orders && ActiveRow(orders[id])
    requires SameOrder(orders[id], o) && !ActiveRow(o) && !MarkedLeased(m) && slot.state != SlotLeased
    ensures LeaseRows(orders[id := o], mailboxes[o.mailboxId := m], slots[PairOf(o) := slot])
  {
    var orders', mailboxes', slots' := orders[id := o], mailboxes[o.mailboxId := m], slots[PairOf(o) := slot];
    assert LeasesRow(orders[id], id, mailboxes, slots);
    forall other | other in orders' && ActiveRow(orders'[other])
      ensures LeasesRow(orders'[other], other, mailboxes', slots')
    {
      assert LeasesRow(orders[other], other, mailboxes, slots);
    }
    forall b | b in mailboxes' && MarkedLeased(mailboxes'[b]) ensures HeldRow(orders', b, mailboxes'[b]) {
      assert HeldRow(orders, b, mailboxes[b]);
    }
    forall p | p in slots' && slots'[p].state == SlotLeased ensures SlotHeld(orders', mailboxes', p) {
      assert SlotHeld(orders, mailboxes, p);
    }
  }

  lemma StartKeepsRows(orders: OrderRows, mailboxes: MailboxRows, slots: SlotRows, id: string, o: OrderRow,
                       m: MailboxRow, slot: Slot)
    requires LeaseRows(orders, mailboxes, slots) && id !in orders && id != "" && o.mailboxId in mailboxes
    requires !MarkedLeased(mailboxes[o.mailboxId]) && m.activeOrderId == id && m.state == MailboxLeased
    requires ActiveRow(o) && slot.state == SlotLeased
    ensures LeaseRows(orders[id := o], mailboxes[o.mailboxId := m], slots[PairOf(o) := slot])
  {
    var orders', mailboxes', slots' := orders[id := o], mailboxes[o.mailboxId := m], slots[PairOf(o) := slot];
    forall other | other in orders' && ActiveRow(orders'[other])
      ensures LeasesRow(orders'[other], other, mailboxes', slots')
    {
      if other != id { assert LeasesRow(orders[other], other, mailboxes, slots); }
    }
    forall b | b in mailboxes' && MarkedLeased(mailboxes'[b]) ensures HeldRow(orders', b, mailboxes'[b]) {
      if b != o.mailboxId { assert HeldRow(orders, b, mailboxes[b]); }
    }
    forall p | p in slots' && slots'[p].state == SlotLeased ensures SlotHeld(orders', mailboxes', p) {
      if p != PairOf(o) { assert SlotHeld(orders, mailboxes, p); }
    }
  }

  /** A mailbox row saved without touching its lease. */
  lemma SaveKeepsRows(orders: OrderRows, mailboxes: MailboxRows, slots: SlotRows, b: string, m: MailboxRow)
    requires LeaseRows(orders, mailboxes, slots) && b in mailboxes && m.activeOrderId == mailboxes[b].activeOrderId
    requires if m.activeOrderId == "" then m.state != MailboxLeased else m.state == mailboxes[b].state
    ensures LeaseRows(orders, mailboxes[b := m], slots)
  {
    var after := mailboxes[b := m];
    forall id | id in orders && ActiveRow(orders[id]) ensures LeasesRow(orders[id], id, after, slots) {
      assert LeasesRow(orders[id], id, mailboxes, slots);
    }
    forall p | p in slots && slots[p].state == SlotLeased ensures SlotHeld(orders, after, p) {
      assert SlotHeld(orders, mailboxes, p);
    }
  }

  lemma SlotKeepsRows(orders: OrderRows, mailboxes: MailboxRows, slots: SlotRows, p: Pair, slot: Slot)
    requires LeaseRows(orders, mailboxes, slots) && (p in slots ==> slots[p].state != SlotLeased)
      && slot.state != SlotLeased
    ensures LeaseRows(orders, mailboxes, slots[p := slot])
  {
    forall id | id in orders && ActiveRow(orders[id]) ensures LeasesRow(orders[id], id, mailboxes, slots[p := slot]) {
      assert LeasesRow(orders[id], id, mailboxes, slots);
    }
  }

  lemma ArchiveKeepsRows(orders: OrderRows, mailboxes: MailboxRows, slots: SlotRows, id: string, o: OrderRow)
    requires LeaseRows(orders, mailboxes, slots) && id in orders && !ActiveRow(orders[id]) && !ActiveRow(o)
    ensures LeaseRows(orders[id := o], mailboxes, slots)
  {
    forall p | p in slots && slots[p].state == SlotLeased ensures SlotHeld(orders[id := o], mailboxes, p) {
      assert SlotHeld(orders, mailboxes, p);
    }
  }

  // ---------------------------------------------------------------- money

  predicate OrderPaidOk(o: OrderRow, users: map<string, UserRow>) {
    o.userId in users && o.price >= 0 && (o.refunded <==> RefundStatus(o.status))
  }

  ghost predicate MoneyRows(db: Tables) {
    && (forall u :: u in db.users ==> db.users[u].balance >= 0)
    && (forall id :: id in db.orders ==> OrderPaidOk(db.orders[id], db.users))
    && "" !in db.orders && "" !in db.payments && (forall id :: id in db.payments ==> db.payments[id].amount >= 0)
  }

  datatype Account = OfUser(id: string) | OfOrder(id: string) | OfPayment(id: string)

  predicate Concerns(e: Entry, a: Account) {
    match a
    case OfUser(id) => e.userId == id
    case OfOrder(id) => e.orderId == id
    case OfPayment(id) => e.paymentId == id
  }

  function Sum(ledger: seq<Entry>, a: Account): int {
    if ledger == [] then 0
    else
      var last := ledger[|ledger| - 1];
      Sum(ledger[..|ledger| - 1], a) + if Concerns(last, a) then last.amount else 0
  }

  lemma SumSnoc(ledger: seq<Entry>, e: Entry, a: Account)
    ensures Sum(ledger + [e], a) == Sum(ledger, a) + if Concerns(e, a) then e.amount else 0
  {
    assert (ledger + [e])[..|ledger|] == ledger;
  }

  /** What an order has cost its owner so far. */
  function NetOfOrder(orders: OrderRows, id: string): int {
    if id in orders && !orders[id].refunded then -orders[id].price else 0
  }

  /** What a payment has brought its payer so far. */
  function NetOfPayment(payments: map<string, PaymentRow>, id: string): int {
    if id in payments && payments[id].status == PaymentCompleted then payments[id].amount else 0
  }

  /** Users who register later open with nothing. */
  function Opened(opening: map<string, int>, u: string): int {
    if u in opening then opening[u] else 0
  }

  predicate LineOk(opening: map<string, int>, ledger: seq<Entry>, i: nat)
    requires i < |ledger|
  {
    var e := ledger[i];
    e.balanceAfter == Opened(opening, e.userId) + Sum(ledger[..i + 1], OfUser(e.userId)) && e.balanceAfter >= 0
  }

  ghost predicate LinesOk(opening: map<string, int>, ledger: seq<Entry>) {
    forall i :: 0 <= i < |ledger| ==> LineOk(opening, ledger, i)
  }

  predicate BalanceOk(opening: map<string, int>, db: Tables, ledger: seq<Entry>, u: string)
    requires u in db.users
  {
    db.users[u].balance == Opened(opening, u) + Sum(ledger, OfUser(u))
  }

  ghost predicate NetsOk(db: Tables, ledger: seq<Entry>) {
    && (forall id :: id != "" ==> Sum(ledger, OfOrder(id)) == NetOfOrder(db.orders, id))
    && (forall id :: id != "" ==> Sum(ledger, OfPayment(id)) == NetOfPayment(db.payments, id))
  }

  /** Lines and first balances belong to existing users. */
  ghost predicate OwnersOk(opening: map<string, int>, users: map<string, UserRow>, ledger: seq<Entry>) {
    && (forall u :: u in opening ==> u in users)
    && (forall i :: 0 <= i < |ledger| ==> ledger[i].userId in users)
  }

  ghost predicate LedgerOk(opening: map<string, int>, db: Tables, ledger: seq<Entry>) {
    && (forall u :: u in db.users ==> BalanceOk(opening, db, ledger, u))
    && OwnersOk(opening, db.users, ledger) && LinesOk(opening, ledger) && NetsOk(db, ledger)
  }

  ghost predicate LeasesOk(db: Tables) {
    LeaseRows(db.orders, db.mailboxes, db.slots)
  }

  ghost predicate FundsOk(opening: map<string, int>, db: Tables, ledger: seq<Entry>) {
    MoneyRows(db) && LedgerOk(opening, db, ledger)
  }

  /** Money stays in order, and leases do if they were. */
  ghost predicate Keeps(opening: map<string, int>, db: Tables, db': Tables, ledger': seq<Entry>) {
    FundsOk(opening, db', ledger') && (LeasesOk(db) ==> LeasesOk(db'))
  }

  /** The operation changed what is owed by exactly the line it adds. */
  ghost predicate Accounts(db: Tables, db': Tables, e: Entry) {
    && (forall id :: id != "" ==>
          NetOfOrder(db'.orders, id) == NetOfOrder(db.orders, id) + if id == e.orderId then e.amount else 0)
    && (forall id :: id != "" ==>
          NetOfPayment(db'.payments, id) == NetOfPayment(db.payments, id) + if id == e.paymentId then e.amount else 0)
  }

  lemma LinesSnoc(opening: map<string, int>, ledger: seq<Entry>, e: Entry)
    requires LinesOk(opening, ledger)
    requires e.balanceAfter == Opened(opening, e.userId) + Sum(ledger, OfUser(e.userId)) + e.amount
      && e.balanceAfter >= 0
    ensures LinesOk(opening, ledger + [e])
  {
    var after := ledger + [e];
    forall i | 0 <= i < |after| ensures LineOk(opening, after, i) {
      if i < |ledger| {
        assert LineOk(opening, ledger, i);
        assert after[..i + 1] == ledger[..i + 1];
      } else {
        assert after[..i + 1] == after;
        SumSnoc(ledger, e, OfUser(e.userId));
      }
    }
  }

  lemma NetsSnoc(db: Tables, db': Tables, ledger: seq<Entry>, e: Entry)
    requires NetsOk(db, ledger) && Accounts(db, db', e)
    ensures NetsOk(db', ledger + [e])
  {
    hide NetOfOrder, NetOfPayment;
    forall id | id != ""
      ensures Sum(ledger + [e], OfOrder(id)) == NetOfOrder(db'.orders, id)
      ensures Sum(ledger + [e], OfPayment(id)) == NetOfPayment(db'.payments, id)
    {
      SumSnoc(ledger, e, OfOrder(id));
      SumSnoc(ledger, e, OfPayment(id));
    }
  }

  /** Posting a line together with the balance it states. */
  lemma PostKeepsLedger(opening: map<string, int>, db: Tables, db': Tables, ledger: seq<Entry>, e: Entry)
    requires LedgerOk(opening, db, ledger) && e.userId in db.users && Accounts(db, db', e)
    requires db'.users == db.users[e.userId := Paid(db.users[e.userId], e.amount)]
    requires e.balanceAfter == db.users[e.userId].balance + e.amount && e.balanceAfter >= 0
    ensures LedgerOk(opening, db', ledger + [e])
  {
    NetsSnoc(db, db', ledger, e);
    assert BalanceOk(opening, db, ledger, e.userId);
    LinesSnoc(opening, ledger, e);
    hide LinesOk, NetsOk, Accounts;
    forall u | u in db'.users ensures BalanceOk(opening, db', ledger + [e], u) {
      assert BalanceOk(opening, db, ledger, u);
      SumSnoc(ledger, e, OfUser(u));
    }
  }

  lemma QuietKeepsLedger(opening: map<string, int>, db: Tables, db': Tables, ledger: seq<Entry>)
    requires LedgerOk(opening, db, ledger) && db'.users == db.users
    requires forall id :: id != "" ==> NetOfOrder(db'.orders, id) == NetOfOrder(db.orders, id)
    requires forall id :: id != "" ==> NetOfPayment(db'.payments, id) == NetOfPayment(db.payments, id)
    ensures LedgerOk(opening, db', ledger)
  {
    forall u | u in db'.users ensures BalanceOk(opening, db', ledger, u) {
      assert BalanceOk(opening, db, ledger, u);
    }
  }

  lemma {:induction false} SumOfNobody(ledger: seq<Entry>, u: string)
    requires forall i :: 0 <= i < |ledger| ==> ledger[i].userId != u
    ensures Sum(ledger, OfUser(u)) == 0
  {
    if ledger != [] { SumOfNobody(ledger[..|ledger| - 1], u); }
  }

  // ---------------------------------------------------------------- the operations

  function FreedSlot(slot: Slot, status: OrderStatus): (freed: Slot)
    ensures freed.state != SlotLeased
  {
    if slot.state == SlotLeased then ReleaseSlot(slot, status == OrderExpiredRefunded) else slot
  }

  /** The tables after a refund that writes the mailbox rows `rows`. */
  function Refunded(id: string, status: OrderStatus, rows: MailboxRows, db: Tables): Tables
    requires id in db.orders && RefundKey(db.orders[id], db).None?
  {
    var o := db.orders[id];
    Tables(db.users[o.userId := Paid(db.users[o.userId], o.price)],
           db.orders[id := o.(status := status, refunded := true)],
           db.mailboxes + rows,
           db.slots[PairOf(o) := FreedSlot(db.slots[PairOf(o)], status)],
           db.payments)
  }

  /** The one mailbox row written is that of the order, and it is free. */
  predicate Frees(rows: MailboxRows, b: string) {
    b in rows && rows.Keys == {b} && !MarkedLeased(rows[b])
  }

  lemma MapPlusOne<K, V>(m: map<K, V>, k: K, v: V)
    ensures m + map[k := v] == m[k := v]
  {
  }

  lemma WriteOfRefund(id: string, status: OrderStatus, rows: MailboxRows, db: Tables)
    requires id in db.orders && RefundKey(db.orders[id], db).None?
    ensures Write(db, RefundWrites(id, status, db).(mailboxes := rows)) == Refunded(id, status, rows, db)
  {
    var o := db.orders[id];
    hide ReleaseSlot;
    MapPlusOne(db.users, o.userId, Paid(db.users[o.userId], o.price));
    MapPlusOne(db.orders, id, o.(status := status, refunded := true));
    MapPlusOne(db.slots, PairOf(o), FreedSlot(db.slots[PairOf(o)], status));
    assert db.payments + map[] == db.payments;
  }

  lemma RefundKeepsLeases(db: Tables, id: string, status: OrderStatus, rows: MailboxRows)
    requires LeasesOk(db) && id in db.orders && ActiveRow(db.orders[id]) && RefundStatus(status)
    requires RefundKey(db.orders[id], db).None? && Frees(rows, db.orders[id].mailboxId)
    ensures LeasesOk(Refunded(id, status, rows, db))
  {
    var o := db.orders[id];
    assert rows == map[o.mailboxId := rows[o.mailboxId]];
    MapPlusOne(db.mailboxes, o.mailboxId, rows[o.mailboxId]);
    EndKeepsRows(db.orders, db.mailboxes, db.slots, id, o.(status := status, refunded := true), rows[o.mailboxId],
                 FreedSlot(db.slots[PairOf(o)], status));
  }

  /** A refund in any of its four forms: the order ends, its owner gets the price, mailbox and slot are free. */
  lemma RefundKeepsDb(opening: map<string, int>, db: Tables, ledger: seq<Entry>, id: string, status: OrderStatus,
                      rows: MailboxRows)
    requires FundsOk(opening, db, ledger) && id in db.orders && ActiveRow(db.orders[id]) && RefundStatus(status)
    requires RefundKey(db.orders[id], db).None? && (LeasesOk(db) ==> Frees(rows, db.orders[id].mailboxId))
    ensures Keeps(opening, db, Write(db, RefundWrites(id, status, db).(mailboxes := rows)),
                  ledger + [RefundEntry(id, db)])
  {
    var after := Refunded(id, status, rows, db);
    WriteOfRefund(id, status, rows, db);
    RefundPays(db, id);
    assert id != "";
    assert after.users == db.users[db.orders[id].userId := Paid(db.users[db.orders[id].userId], db.orders[id].price)]
      && after.orders == db.orders[id := after.orders[id]] && after.payments == db.payments;
    hide LeasesOk, MoneyRows, LedgerOk, Write, RefundWrites, FreedSlot, Frees;
    if LeasesOk(db) { RefundKeepsLeases(db, id, status, rows); }
    PayBackKeepsMoney(db, after, id);
    PostKeepsLedger(opening, db, after, ledger, RefundEntry(id, db));
  }

  lemma RefundPays(db: Tables, id: string)
    requires MoneyRows(db) && id in db.orders && ActiveRow(db.orders[id])
    ensures var o := db.orders[id];
      !o.refunded && o.userId in db.users && o.price >= 0 && db.users[o.userId].balance >= 0
  {
    assert OrderPaidOk(db.orders[id], db.users);
  }

  lemma PayBackKeepsMoney(db: Tables, after: Tables, id: string)
    requires MoneyRows(db) && id in db.orders && !db.orders[id].refunded && id in after.orders
    requires SameOrder(db.orders[id], after.orders[id]) && after.orders[id].refunded
      && RefundStatus(after.orders[id].status)
    requires var o := db.orders[id];
      && o.userId in db.users && after.users == db.users[o.userId := Paid(db.users[o.userId], o.price)]
      && after.orders == db.orders[id := after.orders[id]] && after.payments == db.payments
    requires RefundKey(db.orders[id], db).None? && id != ""
    ensures MoneyRows(after) && Accounts(db, after, RefundEntry(id, db))
  {
    assert OrderPaidOk(db.orders[id], db.users);
    forall other | other in after.orders ensures OrderPaidOk(after.orders[other], after.users) {
      assert OrderPaidOk(db.orders[other], db.users);
    }
  }

  /** A cancellation or a timeout. */
  lemma CancelKeepsDb(opening: map<string, int>, db: Tables, ledger: seq<Entry>, id: string, status: OrderStatus)
    requires FundsOk(opening, db, ledger) && id in db.orders && RefundStatus(status)
      && NextRefund(id, status, db).Commit?
    ensures Keeps(opening, db, Write(db, NextRefund(id, status, db).writes),
                  ledger + NextRefund(id, status, db).entries)
  {
    hide FundsOk, Keeps, LeasesOk, Write;
    var writes := RefundWrites(id, status, db);
    RefundKeepsDb(opening, db, ledger, id, status, writes.mailboxes);
    assert writes.(mailboxes := writes.mailboxes) == writes;
  }

  lemma ReconcileKeepsDb(opening: map<string, int>, db: Tables, ledger: seq<Entry>, id: string, b: string)
    requires FundsOk(opening, db, ledger) && NextReconcile(id, b, db).Commit?
    ensures Keeps(opening, db, Write(db, NextReconcile(id, b, db).writes), ledger + NextReconcile(id, b, db).entries)
  {
    RefundPays(db, id);
    var writes := NextReconcile(id, b, db).writes;
    hide FundsOk, Keeps, LeasesOk, Write, RefundEntry;
    RefundKeepsDb(opening, db, ledger, id, OrderExpiredRefunded, writes.mailboxes);
  }

  /** Under the invariant, a mailbox that names an order is leased to it. */
  lemma NamedOrderIsActive(db: Tables, b: string)
    requires LeasesOk(db) && MoneyRows(db) && b in db.mailboxes && MarkedLeased(db.mailboxes[b])
    ensures var a := db.mailboxes[b].activeOrderId;
      && a != "" && a in db.orders && ActiveRow(db.orders[a]) && db.orders[a].mailboxId == b && !db.orders[a].refunded
      && LeasesRow(db.orders[a], a, db.mailboxes, db.slots) && db.mailboxes[b].state == MailboxLeased
      && db.orders[a].userId in db.users && RefundKey(db.orders[a], db).None?
  {
    var a := db.mailboxes[b].activeOrderId;
    assert HeldRow(db.orders, b, db.mailboxes[b]);
    assert OrderPaidOk(db.orders[a], db.users);
    assert LeasesRow(db.orders[a], a, db.mailboxes, db.slots);
  }

  lemma FailedVerificationCommits(db: Tables, b: string, connection: Connection)
    requires LeasesOk(db) && MoneyRows(db) && b in db.mailboxes && db.mailboxes[b].activeOrderId != ""
    ensures var a := db.mailboxes[b].activeOrderId;
    var row := VerifiedRow(db.mailboxes[b], connection, VerificationFailed);
      && a in db.orders && ActiveRow(db.orders[a]) && RefundKey(db.orders[a], db).None? && db.orders[a].mailboxId == b
      && !MarkedLeased(row)
      && NextVerify(b, connection, VerificationFailed, db)
         == Commit(RefundWrites(a, OrderExpiredRefunded, db).(mailboxes := map[b := row]), [RefundEntry(a, db)])
  {
    NamedOrderIsActive(db, b);
    var row := VerifiedRow(db.mailboxes[b], connection, VerificationFailed);
    hide LeaseRows, MoneyRows;
    assert RefundWrites(db.mailboxes[b].activeOrderId, OrderExpiredRefunded, db).mailboxes + map[b := row]
      == map[b := row];
  }

  lemma FailedVerificationKeepsDb(opening: map<string, int>, db: Tables, ledger: seq<Entry>, b: string,
                                  connection: Connection, a: string)
    requires FundsOk(opening, db, ledger) && b in db.mailboxes && a == db.mailboxes[b].activeOrderId && a != ""
      && a in db.orders
    requires ActiveRow(db.orders[a]) && NextVerify(b, connection, VerificationFailed, db).Commit?
    ensures Keeps(opening, db, Write(db, NextVerify(b, connection, VerificationFailed, db).writes),
                  ledger + NextVerify(b, connection, VerificationFailed, db).entries)
  {
    RefundPays(db, a);
    var rows := NextVerify(b, connection, VerificationFailed, db).writes.mailboxes;
    if LeasesOk(db) {
      FailedVerificationCommits(db, b, connection);
      assert Frees(rows, b);
    }
    hide FundsOk, Keeps, LeasesOk, Write, RefundEntry, VerifiedRow, Frees;
    RefundKeepsDb(opening, db, ledger, a, OrderExpiredRefunded, rows);
  }

  /** The lease of the stored row survives writing `row` over it. */
  predicate KeepsLease(row: MailboxRow, stored: MailboxRow) {
    && row.activeOrderId == stored.activeOrderId
    && if stored.activeOrderId == "" then row.state != MailboxLeased else row.state == stored.state
  }

  /** Marked as leased and naming an order, or neither: what holds of every row while leases and orders correspond. */
  predicate Whole(m: MailboxRow) {
    m.activeOrderId != "" <==> m.state == MailboxLeased
  }

  /** A row that names an order is marked as leased. Unlike `Whole`, nothing ever breaks this. */
  predicate NamedIsLeased(m: MailboxRow) {
    m.activeOrderId != "" ==> m.state == MailboxLeased
  }

  /** The order the stored row names, if there is a row. */
  function StoredOrder(db: Tables, b: string): string {
    if b in db.mailboxes then db.mailboxes[b].activeOrderId else ""
  }

  /** What a caller of a save can look at: the order in the row has changed since the save read it, or the save leaves
      an idle mailbox marked as leased, because it asks for that, or because it asks for nothing and the row it read
      was so marked by hand. */
  predicate Misses(read: MailboxRow, edit: MailboxEdit, storedOrder: string) {
    || read.activeOrderId != storedOrder
    || (read.activeOrderId == "" && EditedState(read.state, "", edit) == MailboxLeased)
  }

  /** If the row was also whole when it was read, only asking for it leaves an idle mailbox marked. */
  lemma WholeReadMisses(read: MailboxRow, edit: MailboxEdit, storedOrder: string)
    requires Whole(read)
    ensures Misses(read, edit, storedOrder)
       <==> read.activeOrderId != storedOrder || (read.activeOrderId == "" && edit.state == Some(MailboxLeased))
  {
  }

  predicate SavesRow(op: Op) {
    op.SaveMailbox? || op.ReinsertMailbox?
  }

  /** A save harms exactly if it misses, as long as the row it read was marked when it named an order. */
  lemma SaveHarmsExactly(op: Op, db: Tables)
    requires SavesRow(op) && NamedIsLeased(op.read) && LeasesOk(db)
      && (op.mailboxId in db.mailboxes <==> op.SaveMailbox?)
    ensures Harmless(op, db) <==> !Misses(op.read, op.edit, StoredOrder(db, op.mailboxId))
  {
    if op.SaveMailbox? { RowsAreWhole(db, op.mailboxId); }
  }

  ghost predicate NamedRows(db: Tables) {
    forall b :: b in db.mailboxes ==> NamedIsLeased(db.mailboxes[b])
  }

  lemma WritesNamed(op: Op, picked: Option<string>, db: Tables)
    requires Next(op, picked, db).Commit? && NamedRows(db) && (SavesRow(op) ==> NamedIsLeased(op.read))
    ensures forall b :: b in Next(op, picked, db).writes.mailboxes ==>
      NamedIsLeased(Next(op, picked, db).writes.mailboxes[b])
  {
    hide ReleaseSlot, RefundEntry;
  }

  /** Not even a harmful save leaves a row that names an order without marking it. */
  lemma AloneKeepsNamed(op: Op, picked: Option<string>, db: Tables, ledger: seq<Entry>, db': Tables,
                        ledger': seq<Entry>)
    requires Alone(op, picked, db, ledger, db', ledger') && NamedRows(db) && (SavesRow(op) ==> NamedIsLeased(op.read))
    ensures NamedRows(db')
  {
    WritesNamed(op, picked, db);
    hide Next, Leasable, WellFormed, NamedIsLeased;
  }

  lemma RowsAreWhole(db: Tables, b: string)
    requires LeasesOk(db) && b in db.mailboxes
    ensures Whole(db.mailboxes[b])
  {
    if MarkedLeased(db.mailboxes[b]) {
      var a := db.mailboxes[b].activeOrderId;
      assert HeldRow(db.orders, b, db.mailboxes[b]);
      assert LeasesRow(db.orders[a], a, db.mailboxes, db.slots);
    }
  }

  lemma LeaseMarksBreak(db: Tables, b: string, row: MailboxRow)
    requires LeasesOk(db) && b in db.mailboxes && !KeepsLease(row, db.mailboxes[b])
    ensures !LeasesOk(db.(mailboxes := db.mailboxes[b := row]))
  {
    var stored, after := db.mailboxes[b], db.mailboxes[b := row];
    if stored.activeOrderId != "" {
      var a := stored.activeOrderId;
      assert HeldRow(db.orders, b, stored);
      assert !LeasesRow(db.orders[a], a, after, db.slots);
    } else {
      assert MarkedLeased(after[b]);
    }
  }

  /** Writing a whole mailbox row keeps leases and orders in correspondence if and only if it keeps the lease the row
      has at that moment and does not mark an idle row as leased. No money moves either way. */
  lemma SaveKeepsExactly(opening: map<string, int>, db: Tables, ledger: seq<Entry>, b: string, row: MailboxRow)
    requires FundsOk(opening, db, ledger) && b in db.mailboxes
    ensures var after := Write(db, NOTHING.(mailboxes := map[b := row]));
      && FundsOk(opening, after, ledger + [])
      && (LeasesOk(db) ==> (LeasesOk(after) <==> KeepsLease(row, db.mailboxes[b])))
  {
    var after := db.(mailboxes := db.mailboxes[b := row]);
    WriteMailbox(db, b, row);
    QuietKeepsLedger(opening, db, after, ledger);
    assert ledger + [] == ledger;
    assert MoneyRows(after);
    hide LedgerOk, MoneyRows, Write;
    if LeasesOk(db) {
      if KeepsLease(row, db.mailboxes[b]) {
        SaveKeepsRows(db.orders, db.mailboxes, db.slots, b, row);
      } else {
        hide LeasesOk;
        LeaseMarksBreak(db, b, row);
      }
    }
  }

  lemma VerifyKeepsDb(opening: map<string, int>, db: Tables, ledger: seq<Entry>, b: string, connection: Connection,
                      status: Verification)
    requires FundsOk(opening, db, ledger) && NextVerify(b, connection, status, db).Commit?
    ensures Keeps(opening, db, Write(db, NextVerify(b, connection, status, db).writes),
                  ledger + NextVerify(b, connection, status, db).entries)
  {
    var m := db.mailboxes[b];
    var row := VerifiedRow(m, connection, status);
    if status == VerificationFailed && m.activeOrderId != "" && ActiveRow(db.orders[m.activeOrderId]) {
      hide FundsOk, Keeps, Write;
      FailedVerificationKeepsDb(opening, db, ledger, b, connection, m.activeOrderId);
    } else {
      if LeasesOk(db) && MarkedLeased(m) { NamedOrderIsActive(db, b); }
      assert LeasesOk(db) ==> KeepsLease(row, m);
      hide FundsOk, LeasesOk, Write, KeepsLease;
      SaveKeepsExactly(opening, db, ledger, b, row);
    }
  }

  lemma WriteMailbox(db: Tables, b: string, m: MailboxRow)
    ensures Write(db, NOTHING.(mailboxes := map[b := m])) == db.(mailboxes := db.mailboxes[b := m])
  {
    WriteNothing(db);
    MapPlusOne(db.mailboxes, b, m);
  }

  lemma WriteOrder(db: Tables, id: string, o: OrderRow)
    ensures Write(db, NOTHING.(orders := map[id := o])) == db.(orders := db.orders[id := o])
  {
    WriteNothing(db);
    MapPlusOne(db.orders, id, o);
  }

  lemma WriteUser(db: Tables, u: string, row: UserRow)
    ensures Write(db, NOTHING.(users := map[u := row])) == db.(users := db.users[u := row])
  {
    WriteNothing(db);
    MapPlusOne(db.users, u, row);
  }

  lemma WriteSlot(db: Tables, p: Pair, slot: Slot)
    ensures Write(db, NOTHING.(slots := map[p := slot])) == db.(slots := db.slots[p := slot])
  {
    WriteNothing(db);
    MapPlusOne(db.slots, p, slot);
  }

  lemma WritePayment(db: Tables, id: string, p: PaymentRow)
    ensures Write(db, NOTHING.(payments := map[id := p])) == db.(payments := db.payments[id := p])
  {
    WriteNothing(db);
    MapPlusOne(db.payments, id, p);
  }

  lemma WriteNothing(db: Tables)
    ensures db.users + NOTHING.users == db.users && db.orders + NOTHING.orders == db.orders
    ensures db.mailboxes + NOTHING.mailboxes == db.mailboxes && db.slots + NOTHING.slots == db.slots
    ensures db.payments + NOTHING.payments == db.payments
  {
  }

  function Received(id: string, code: string, db: Tables): Tables
    requires id in db.orders && db.orders[id].mailboxId in db.mailboxes && PairOf(db.orders[id]) in db.slots
  {
    var o := db.orders[id];
    db.(orders := db.orders[id := o.(status := OrderCodeReceived, code := TrimSpace(code))],
        mailboxes := db.mailboxes[o.mailboxId :=
                                  db.mailboxes[o.mailboxId].(state := MailboxAvailable, activeOrderId := "")],
        slots := db.slots[PairOf(o) := db.slots[PairOf(o)].(state := SlotConsumed)])
  }

  lemma WriteOfReceive(id: string, code: string, now: int, db: Tables)
    requires NextReceive(id, code, now, db).Commit?
    ensures id in db.orders && ActiveRow(db.orders[id])
    ensures db.orders[id].mailboxId in db.mailboxes && PairOf(db.orders[id]) in db.slots
    ensures Write(db, NextReceive(id, code, now, db).writes) == Received(id, code, db)
      && NextReceive(id, code, now, db).entries == []
  {
    var o := db.orders[id];
    var t := Received(id, code, db);
    WriteNothing(db);
    MapPlusOne(db.orders, id, t.orders[id]);
    MapPlusOne(db.mailboxes, o.mailboxId, t.mailboxes[o.mailboxId]);
    MapPlusOne(db.slots, PairOf(o), t.slots[PairOf(o)]);
  }

  lemma ReceivedKeepsLeases(id: string, code: string, db: Tables)
    requires LeasesOk(db) && id in db.orders && ActiveRow(db.orders[id])
    requires db.orders[id].mailboxId in db.mailboxes && PairOf(db.orders[id]) in db.slots
    ensures LeasesOk(Received(id, code, db))
  {
    var t := Received(id, code, db);
    var o := t.orders[id];
    EndKeepsRows(db.orders, db.mailboxes, db.slots, id, o, t.mailboxes[o.mailboxId], t.slots[PairOf(o)]);
  }

  lemma ReceiveKeepsDb(opening: map<string, int>, db: Tables, ledger: seq<Entry>, id: string, code: string, now: int)
    requires FundsOk(opening, db, ledger) && NextReceive(id, code, now, db).Commit?
    ensures Keeps(opening, db, Write(db, NextReceive(id, code, now, db).writes),
                  ledger + NextReceive(id, code, now, db).entries)
  {
    hide Write, NextReceive, LeasesOk, MoneyRows, LedgerOk, NetOfOrder;
    WriteOfReceive(id, code, now, db);
    var after := Received(id, code, db);
    if LeasesOk(db) { ReceivedKeepsLeases(id, code, db); }
    RestateOrder(db, after, id, after.orders[id]);
    QuietKeepsLedger(opening, db, after, ledger);
    assert ledger + [] == ledger;
  }

  /** An order that changes status without a refund. */
  lemma RestateOrder(db: Tables, after: Tables, id: string, o: OrderRow)
    requires after.users == db.users && after.orders == db.orders[id := o] && after.payments == db.payments
    requires MoneyRows(db) && id in db.orders && SameOrder(db.orders[id], o) && db.orders[id].refunded == o.refunded
    requires RefundStatus(db.orders[id].status) == RefundStatus(o.status)
    ensures MoneyRows(after)
    ensures forall other :: NetOfOrder(after.orders, other) == NetOfOrder(db.orders, other)
  {
    assert OrderPaidOk(db.orders[id], db.users);
  }

  lemma CompleteKeepsDb(opening: map<string, int>, db: Tables, ledger: seq<Entry>, id: string)
    requires FundsOk(opening, db, ledger) && id in db.orders && db.orders[id].status == OrderCodeReceived
    ensures Keeps(opening, db, Write(db, NOTHING.(orders := map[id := db.orders[id].(status := OrderCompleted)])),
                  ledger + [])
  {
    hide Write, LeasesOk, LedgerOk, MoneyRows, NetOfOrder;
    var o := db.orders[id].(status := OrderCompleted);
    var after := db.(orders := db.orders[id := o]);
    WriteOrder(db, id, o);
    if LeasesOk(db) { ArchiveKeepsLeases(db, id, o); }
    RestateOrder(db, after, id, o);
    QuietKeepsLedger(opening, db, after, ledger);
    assert ledger + [] == ledger;
  }

  /** A slot that is not leased is consumed, or created. */
  lemma SlotKeepsDb(opening: map<string, int>, db: Tables, ledger: seq<Entry>, p: Pair, slot: Slot)
    requires FundsOk(opening, db, ledger) && (p in db.slots ==> db.slots[p].state != SlotLeased)
      && slot.state != SlotLeased
    ensures Keeps(opening, db, Write(db, NOTHING.(slots := map[p := slot])), ledger + [])
  {
    hide Write, LeasesOk, LedgerOk;
    var after := db.(slots := db.slots[p := slot]);
    WriteSlot(db, p, slot);
    if LeasesOk(db) { SlotKeepsLeases(db, p, slot); }
    QuietKeepsLedger(opening, db, after, ledger);
    assert ledger + [] == ledger;
  }

  lemma UsersKeepMoney(db: Tables, after: Tables, u: string)
    requires MoneyRows(db) && u in after.users && after == db.(users := db.users[u := after.users[u]])
      && after.users[u].balance >= 0
    ensures MoneyRows(after)
  {
    forall id | id in db.orders ensures OrderPaidOk(db.orders[id], after.users) {
      assert OrderPaidOk(db.orders[id], db.users);
    }
  }

  lemma ArchiveKeepsLeases(db: Tables, id: string, o: OrderRow)
    requires LeasesOk(db) && id in db.orders && !ActiveRow(db.orders[id]) && !ActiveRow(o)
    ensures LeasesOk(db.(orders := db.orders[id := o]))
  {
    ArchiveKeepsRows(db.orders, db.mailboxes, db.slots, id, o);
  }

  lemma SlotKeepsLeases(db: Tables, p: Pair, slot: Slot)
    requires LeasesOk(db) && (p in db.slots ==> db.slots[p].state != SlotLeased) && slot.state != SlotLeased
    ensures LeasesOk(db.(slots := db.slots[p := slot]))
  {
    SlotKeepsRows(db.orders, db.mailboxes, db.slots, p, slot);
  }

  /** An administrator's adjustment. */
  lemma AdjustKeepsDb(opening: map<string, int>, db: Tables, ledger: seq<Entry>, u: string, amount: int)
    requires FundsOk(opening, db, ledger) && u in db.users && db.users[u].balance + amount >= 0
    ensures Keeps(opening, db, Write(db, NOTHING.(users := map[u := Paid(db.users[u], amount)])),
                 ledger + [Entry(u, "", "", amount, db.users[u].balance + amount)])
  {
    hide Write, LedgerOk;
    var after := db.(users := db.users[u := Paid(db.users[u], amount)]);
    WriteUser(db, u, Paid(db.users[u], amount));
    assert LeasesOk(db) ==> LeasesOk(after);
    hide LeasesOk;
    UsersKeepMoney(db, after, u);
    hide MoneyRows;
    PostKeepsLedger(opening, db, after, ledger, Entry(u, "", "", amount, db.users[u].balance + amount));
  }

  /** A payment that is created, canceled or expires: no money moves. */
  lemma PaymentKeepsDb(opening: map<string, int>, db: Tables, ledger: seq<Entry>, id: string, p: PaymentRow)
    requires FundsOk(opening, db, ledger) && p.amount >= 0 && p.status != PaymentCompleted
    requires id != "" && (id in db.payments ==> db.payments[id].status != PaymentCompleted)
    ensures Keeps(opening, db, Write(db, NOTHING.(payments := map[id := p])), ledger + [])
  {
    hide Write, LedgerOk;
    var after := db.(payments := db.payments[id := p]);
    WritePayment(db, id, p);
    assert LeasesOk(db) ==> LeasesOk(after);
    hide LeasesOk;
    QuietKeepsLedger(opening, db, after, ledger);
    assert ledger + [] == ledger;
  }

  lemma TopUpCommits(db: Tables, id: string, paid: int) returns (after: Tables, e: Entry)
    requires MoneyRows(db) && NextTopUp(id, paid, db).Commit?
    ensures Write(db, NextTopUp(id, paid, db).writes) == after && NextTopUp(id, paid, db).entries == [e]
    ensures after.orders == db.orders && after.mailboxes == db.mailboxes && after.slots == db.slots
    ensures e.userId in db.users && after.users == db.users[e.userId := Paid(db.users[e.userId], e.amount)]
    ensures e.balanceAfter == db.users[e.userId].balance + e.amount && e.balanceAfter >= 0
    ensures MoneyRows(after) && Accounts(db, after, e)
  {
    var p := db.payments[id];
    var u := db.users[p.userId];
    e := Entry(p.userId, "", id, p.amount, u.balance + p.amount);
    after := db.(users := db.users[p.userId := Paid(u, p.amount)],
                 payments := db.payments[id := p.(status := PaymentCompleted)]);
    WriteNothing(db);
    MapPlusOne(db.users, p.userId, Paid(u, p.amount));
    MapPlusOne(db.payments, id, p.(status := PaymentCompleted));
    forall o | o in db.orders ensures OrderPaidOk(db.orders[o], after.users) {
      assert OrderPaidOk(db.orders[o], db.users);
    }
  }

  lemma TopUpKeepsDb(opening: map<string, int>, db: Tables, ledger: seq<Entry>, id: string, paid: int)
    requires FundsOk(opening, db, ledger) && NextTopUp(id, paid, db).Commit?
    ensures Keeps(opening, db, Write(db, NextTopUp(id, paid, db).writes), ledger + NextTopUp(id, paid, db).entries)
  {
    hide Write, LeaseRows, MoneyRows, LedgerOk, NextTopUp, Accounts;
    var after, e := TopUpCommits(db, id, paid);
    PostKeepsLedger(opening, db, after, ledger, e);
  }

  /** The creating transaction has its user, a leasable mailbox and the slot. */
  predicate MayStart(op: Op, b: string, db: Tables) {
    && op.CreateOrder? && op.orderId != "" && op.orderId !in db.orders
    && op.userId in db.users && b in db.mailboxes && (b, op.serviceId) in db.slots
    && !MarkedLeased(db.mailboxes[b]) && db.mailboxes[b].provider in op.prices
    && 0 <= op.prices[db.mailboxes[b].provider] <= db.users[op.userId].balance
  }

  /** The tables after an order was created on mailbox `b`. */
  function Started(op: Op, b: string, db: Tables): Tables
    requires MayStart(op, b, db)
  {
    var price := op.prices[db.mailboxes[b].provider];
    var o := OrderRow(op.userId, op.serviceId, b, price, OrderWaitingCode, false, "",
                      op.now + MINIMUM_ORDER_TTL_SECONDS);
    Tables(db.users[op.userId := Paid(db.users[op.userId], -price)], db.orders[op.orderId := o],
           db.mailboxes[b := db.mailboxes[b].(state := MailboxLeased, activeOrderId := op.orderId)],
           db.slots[(b, op.serviceId) := db.slots[(b, op.serviceId)].(state := SlotLeased)], db.payments)
  }

  function ChargeEntry(op: Op, b: string, db: Tables): Entry
    requires MayStart(op, b, db)
  {
    var price := op.prices[db.mailboxes[b].provider];
    Entry(op.userId, op.orderId, "", -price, db.users[op.userId].balance - price)
  }

  lemma CreateMayStart(op: Op, picked: Option<string>, db: Tables)
    requires op.CreateOrder? && WellFormed(op) && op.orderId !in db.orders && NextCreate(op, picked, db).Commit?
    requires picked.Some? ==> picked.value in db.mailboxes && Leasable(db.mailboxes[picked.value], op)
    ensures picked.Some? && MayStart(op, picked.value, db)
    ensures NextCreate(op, picked, db).entries == [ChargeEntry(op, picked.value, db)]
  {
  }

  lemma WriteOfCreate(op: Op, picked: Option<string>, db: Tables)
    requires op.CreateOrder? && NextCreate(op, picked, db).Commit? && picked.Some? && MayStart(op, picked.value, db)
    ensures Write(db, NextCreate(op, picked, db).writes) == Started(op, picked.value, db)
  {
    var t := Started(op, picked.value, db);
    MapPlusOne(db.users, op.userId, t.users[op.userId]);
    MapPlusOne(db.orders, op.orderId, t.orders[op.orderId]);
    MapPlusOne(db.mailboxes, picked.value, t.mailboxes[picked.value]);
    MapPlusOne(db.slots, (picked.value, op.serviceId), t.slots[(picked.value, op.serviceId)]);
    assert db.payments + map[] == db.payments;
  }

  lemma StartedKeepsLeases(op: Op, b: string, db: Tables)
    requires LeasesOk(db) && MayStart(op, b, db)
    ensures LeasesOk(Started(op, b, db))
  {
    var t := Started(op, b, db);
    StartKeepsRows(db.orders, db.mailboxes, db.slots, op.orderId, t.orders[op.orderId], t.mailboxes[b],
                   t.slots[(b, op.serviceId)]);
  }

  lemma StartedCharges(op: Op, b: string, db: Tables)
    requires MoneyRows(db) && MayStart(op, b, db)
    ensures var t := Started(op, b, db); var e := ChargeEntry(op, b, db);
      && MoneyRows(t) && Accounts(db, t, e) && e.userId in db.users
      && t.users == db.users[e.userId := Paid(db.users[e.userId], e.amount)]
      && e.balanceAfter == db.users[e.userId].balance + e.amount && e.balanceAfter >= 0
  {
    var t := Started(op, b, db);
    hide MoneyRows, Accounts;
    ChargeKeepsMoney(db, t, op.orderId, t.orders[op.orderId]);
  }

  lemma StartedKeepsDb(opening: map<string, int>, db: Tables, ledger: seq<Entry>, op: Op, b: string)
    requires FundsOk(opening, db, ledger) && MayStart(op, b, db)
    ensures Keeps(opening, db, Started(op, b, db), ledger + [ChargeEntry(op, b, db)])
  {
    hide Started, ChargeEntry, MayStart, LeasesOk, MoneyRows, LedgerOk, Accounts;
    if LeasesOk(db) { StartedKeepsLeases(op, b, db); }
    StartedCharges(op, b, db);
    PostKeepsLedger(opening, db, Started(op, b, db), ledger, ChargeEntry(op, b, db));
  }

  lemma CreateKeepsDb(opening: map<string, int>, db: Tables, ledger: seq<Entry>, op: Op, picked: Option<string>)
    requires FundsOk(opening, db, ledger) && op.CreateOrder? && WellFormed(op) && op.orderId !in db.orders
    requires NextCreate(op, picked, db).Commit?
    requires picked.Some? ==> picked.value in db.mailboxes && Leasable(db.mailboxes[picked.value], op)
    ensures Keeps(opening, db, Write(db, NextCreate(op, picked, db).writes),
                  ledger + NextCreate(op, picked, db).entries)
  {
    hide FundsOk, Keeps, Write, Started, NextCreate, ChargeEntry, MayStart, WellFormed, Leasable;
    CreateMayStart(op, picked, db);
    WriteOfCreate(op, picked, db);
    StartedKeepsDb(opening, db, ledger, op, picked.value);
  }

  lemma ChargeKeepsMoney(db: Tables, after: Tables, id: string, o: OrderRow)
    requires MoneyRows(db) && id != "" && id !in db.orders && o.userId in db.users && ActiveRow(o) && !o.refunded
    requires 0 <= o.price <= db.users[o.userId].balance
    requires after.users == db.users[o.userId := Paid(db.users[o.userId], -o.price)]
    requires after.orders == db.orders[id := o] && after.payments == db.payments
    ensures MoneyRows(after)
    ensures Accounts(db, after, Entry(o.userId, id, "", -o.price, db.users[o.userId].balance - o.price))
  {
    forall other | other in after.orders ensures OrderPaidOk(after.orders[other], after.users) {
      if other != id { assert OrderPaidOk(db.orders[other], db.users); }
    }
  }

  /** A new user opens with nothing and has no line. */
  lemma RegisterKeepsDb(opening: map<string, int>, db: Tables, ledger: seq<Entry>, u: string)
    requires FundsOk(opening, db, ledger) && u !in db.users
    ensures Keeps(opening, db, Write(db, NOTHING.(users := map[u := UserRow(0, true)])), ledger + [])
  {
    hide Write;
    var after := db.(users := db.users[u := UserRow(0, true)]);
    WriteUser(db, u, UserRow(0, true));
    assert LeasesOk(db) ==> LeasesOk(after);
    hide LeasesOk;
    assert ledger + [] == ledger;
    UsersKeepMoney(db, after, u);
    hide MoneyRows;
    forall v | v in after.users ensures BalanceOk(opening, after, ledger, v) {
      if v == u { SumOfNobody(ledger, u); } else { assert BalanceOk(opening, db, ledger, v); }
    }
  }

  /** A row inserted by an administrator fits unless it is marked as leased. */
  lemma InsertKeepsExactly(opening: map<string, int>, db: Tables, ledger: seq<Entry>, b: string, row: MailboxRow)
    requires FundsOk(opening, db, ledger) && b !in db.mailboxes
    ensures var after := Write(db, NOTHING.(mailboxes := map[b := row]));
      && FundsOk(opening, after, ledger + [])
      && (LeasesOk(db) ==> (LeasesOk(after) <==> !MarkedLeased(row)))
  {
    var after := db.(mailboxes := db.mailboxes[b := row]);
    WriteMailbox(db, b, row);
    QuietKeepsLedger(opening, db, after, ledger);
    assert ledger + [] == ledger;
    assert MoneyRows(after);
    hide LedgerOk, MoneyRows, Write;
    if LeasesOk(db) {
      NewRowLeases(db, b, row);
    }
  }

  lemma NewRowLeases(db: Tables, b: string, row: MailboxRow)
    requires LeasesOk(db) && b !in db.mailboxes
    ensures LeasesOk(db.(mailboxes := db.mailboxes[b := row])) <==> !MarkedLeased(row)
  {
    var after := db.mailboxes[b := row];
    forall id | id in db.orders && ActiveRow(db.orders[id]) ensures db.orders[id].mailboxId != b {
      assert LeasesRow(db.orders[id], id, db.mailboxes, db.slots);
    }
    if MarkedLeased(row) {
      assert MarkedLeased(after[b]) && !HeldRow(db.orders, b, after[b]);
    } else {
      forall id | id in db.orders && ActiveRow(db.orders[id]) ensures LeasesRow(db.orders[id], id, after, db.slots) {
        assert LeasesRow(db.orders[id], id, db.mailboxes, db.slots);
      }
      forall p | p in db.slots && db.slots[p].state == SlotLeased ensures SlotHeld(db.orders, after, p) {
        assert SlotHeld(db.orders, db.mailboxes, p);
      }
    }
  }

  predicate OnOrders(op: Op) {
    op.CreateOrder? || op.CancelOrder? || op.ReapOrder? || op.ReceiveCode? || op.CompleteOrder? || op.ReconcileOrder?
  }

  lemma OrderOpKeepsDb(opening: map<string, int>, op: Op, picked: Option<string>, db: Tables, ledger: seq<Entry>,
                       db': Tables, ledger': seq<Entry>)
    requires FundsOk(opening, db, ledger) && Alone(op, picked, db, ledger, db', ledger') && OnOrders(op)
    ensures Keeps(opening, db, db', ledger')
  {
    hide FundsOk, Keeps, Write, NextCreate, NextRefund, NextReceive, NextVerify, NextReconcile, NextTopUp, Leasable;
    match op
    case CreateOrder(_, _, _, _, _, _) => CreateKeepsDb(opening, db, ledger, op, picked);
    case CancelOrder(orderId, _) => CancelKeepsDb(opening, db, ledger, orderId, OrderCanceled);
    case ReapOrder(orderId, _) => CancelKeepsDb(opening, db, ledger, orderId, OrderExpiredRefunded);
    case ReceiveCode(orderId, code, now) => ReceiveKeepsDb(opening, db, ledger, orderId, code, now);
    case CompleteOrder(orderId, _) => CompleteKeepsDb(opening, db, ledger, orderId);
    case ReconcileOrder(orderId, b) => ReconcileKeepsDb(opening, db, ledger, orderId, b);
  }

  predicate OnPayments(op: Op) {
    op.CreatePayment? || op.CancelPayment? || op.CompletePayment? || op.ExpirePayment?
  }

  lemma PaymentOpKeepsDb(opening: map<string, int>, op: Op, picked: Option<string>, db: Tables, ledger: seq<Entry>,
                         db': Tables, ledger': seq<Entry>)
    requires FundsOk(opening, db, ledger) && Alone(op, picked, db, ledger, db', ledger') && OnPayments(op)
    ensures Keeps(opening, db, db', ledger')
  {
    hide FundsOk, Keeps, Alone;
    if op.CompletePayment? {
      TopUpOpKeepsDb(opening, op, picked, db, ledger, db', ledger');
    } else {
      StatusOpKeepsDb(opening, op, picked, db, ledger, db', ledger');
    }
  }

  lemma TopUpOpKeepsDb(opening: map<string, int>, op: Op, picked: Option<string>, db: Tables, ledger: seq<Entry>,
                       db': Tables, ledger': seq<Entry>)
    requires FundsOk(opening, db, ledger) && Alone(op, picked, db, ledger, db', ledger') && op.CompletePayment?
    ensures Keeps(opening, db, db', ledger')
  {
    hide FundsOk, Keeps, Write, NextTopUp, Has, WellFormed, Leasable;
    TopUpKeepsDb(opening, db, ledger, op.paymentId, op.paid);
  }

  lemma StatusOpKeepsDb(opening: map<string, int>, op: Op, picked: Option<string>, db: Tables, ledger: seq<Entry>,
                        db': Tables, ledger': seq<Entry>)
    requires FundsOk(opening, db, ledger) && Alone(op, picked, db, ledger, db', ledger')
    requires OnPayments(op) && !op.CompletePayment?
    ensures Keeps(opening, db, db', ledger')
  {
    AmountsOk(opening, db, ledger);
    var p := StatusWrites(op, picked, db);
    hide FundsOk, Keeps, Write, Next, Leasable;
    PaymentKeepsDb(opening, db, ledger, op.paymentId, p);
  }

  /** What the payment operations other than a callback write. */
  lemma StatusWrites(op: Op, picked: Option<string>, db: Tables) returns (p: PaymentRow)
    requires Next(op, picked, db).Commit? && OnPayments(op) && !op.CompletePayment?
    requires op.CreatePayment? ==> op.paymentId !in db.payments
    ensures Next(op, picked, db) == Commit(NOTHING.(payments := map[op.paymentId := p]), [])
      && p.status != PaymentCompleted
    ensures if op.CreatePayment? then p.amount >= 0
            else op.paymentId in db.payments && db.payments[op.paymentId].status != PaymentCompleted
                 && p.amount == db.payments[op.paymentId].amount
  {
    p := Next(op, picked, db).writes.payments[op.paymentId];
  }

  predicate OnRows(op: Op) {
    op.VerifyMailbox? || op.AdjustBalance? || op.MarkConsumed? || op.MarkRegistered? || op.Register? || op.InsertSlot?
  }

  lemma RowOpKeepsDb(opening: map<string, int>, op: Op, picked: Option<string>, db: Tables, ledger: seq<Entry>,
                     db': Tables, ledger': seq<Entry>)
    requires FundsOk(opening, db, ledger) && Alone(op, picked, db, ledger, db', ledger') && OnRows(op)
    ensures Keeps(opening, db, db', ledger')
  {
    hide FundsOk, Keeps, Alone;
    if op.VerifyMailbox? {
      VerifyOpKeepsDb(opening, op, picked, db, ledger, db', ledger');
    } else {
      OneRowOpKeepsDb(opening, op, picked, db, ledger, db', ledger');
    }
  }

  lemma VerifyOpKeepsDb(opening: map<string, int>, op: Op, picked: Option<string>, db: Tables, ledger: seq<Entry>,
                        db': Tables, ledger': seq<Entry>)
    requires FundsOk(opening, db, ledger) && Alone(op, picked, db, ledger, db', ledger') && op.VerifyMailbox?
    ensures Keeps(opening, db, db', ledger')
  {
    hide FundsOk, Keeps, Write, NextVerify, Leasable;
    VerifyKeepsDb(opening, db, ledger, op.mailboxId, op.connection, op.status);
  }

  lemma OneRowOpKeepsDb(opening: map<string, int>, op: Op, picked: Option<string>, db: Tables, ledger: seq<Entry>,
                        db': Tables, ledger': seq<Entry>)
    requires FundsOk(opening, db, ledger) && Alone(op, picked, db, ledger, db', ledger')
    requires OnRows(op) && !op.VerifyMailbox?
    ensures Keeps(opening, db, db', ledger')
  {
    hide FundsOk, Keeps, Write, Leasable;
    match op
    case AdjustBalance(u, amount) => AdjustKeepsDb(opening, db, ledger, u, amount);
    case MarkConsumed(pair) => SlotKeepsDb(opening, db, ledger, pair, db.slots[pair].(state := SlotConsumed));
    case MarkRegistered(pair) => SlotKeepsDb(opening, db, ledger, pair, db.slots[pair].(state := SlotConsumed));
    case InsertSlot(pair) => SlotKeepsDb(opening, db, ledger, pair, Slot(SlotAvailable, 0));
    case Register(u) => RegisterKeepsDb(opening, db, ledger, u);
  }

  /** Everything but an administrator's write of a mailbox row is harmless; that is if it keeps the lease in the row. */
  predicate Harmless(op: Op, db: Tables) {
    match op
    case SaveMailbox(b, read, edit) => b in db.mailboxes ==> KeepsLease(EditedRow(read, edit), db.mailboxes[b])
    case InsertMailbox(_, edit) => !MarkedLeased(InsertedRow(edit))
    case ReinsertMailbox(_, read, edit) => !MarkedLeased(EditedRow(read, edit))
    case _ => true
  }

  /** Every operation, run alone, keeps money and ledger in order, and keeps leases and orders in correspondence if and
      only if it is harmless. */
  lemma AloneKeepsExactly(opening: map<string, int>, op: Op, picked: Option<string>, db: Tables, ledger: seq<Entry>,
                          db': Tables, ledger': seq<Entry>)
    requires FundsOk(opening, db, ledger) && Alone(op, picked, db, ledger, db', ledger')
    ensures FundsOk(opening, db', ledger')
    ensures LeasesOk(db) ==> (LeasesOk(db') <==> Harmless(op, db))
  {
    if OnOrders(op) {
      hide Alone, FundsOk;
      OrderOpKeepsDb(opening, op, picked, db, ledger, db', ledger');
    } else if OnPayments(op) {
      hide Alone, FundsOk;
      PaymentOpKeepsDb(opening, op, picked, db, ledger, db', ledger');
    } else if OnRows(op) {
      hide Alone, FundsOk;
      RowOpKeepsDb(opening, op, picked, db, ledger, db', ledger');
    } else {
      hide FundsOk, LeasesOk, Write, KeepsLease, EditedRow, InsertedRow, MarkedLeased, Leasable;
      match op
      case SaveMailbox(b, read, edit) => SaveKeepsExactly(opening, db, ledger, b, EditedRow(read, edit));
      case InsertMailbox(b, edit) => InsertKeepsExactly(opening, db, ledger, b, InsertedRow(edit));
      case ReinsertMailbox(b, read, edit) => InsertKeepsExactly(opening, db, ledger, b, EditedRow(read, edit));
    }
  }

  /** The batched deletion takes no mailbox of an active order, and no money. */
  lemma PurgeKeepsDb(opening: map<string, int>, db: Tables, ledger: seq<Entry>, ids: set<string>)
    requires FundsOk(opening, db, ledger) && forall b :: b in ids ==> b in db.mailboxes && Invalid(db.mailboxes[b])
    ensures Keeps(opening, db, Purged(db, ids), ledger)
  {
    QuietKeepsLedger(opening, db, Purged(db, ids), ledger);
    hide LedgerOk;
    if LeasesOk(db) { PurgeKeepsRows(db.orders, db.mailboxes, db.slots, ids); }
  }

  lemma PurgeKeepsRows(orders: OrderRows, mailboxes: MailboxRows, slots: SlotRows, ids: set<string>)
    requires LeaseRows(orders, mailboxes, slots) && forall b :: b in ids ==> b in mailboxes && Invalid(mailboxes[b])
    ensures LeaseRows(orders, mailboxes - ids, WithoutMailboxes(slots, ids))
    ensures forall id :: id in orders && ActiveRow(orders[id]) ==>
      orders[id].mailboxId !in ids && LeasesRow(orders[id], id, mailboxes - ids, WithoutMailboxes(slots, ids))
  {
    var mailboxes', slots' := mailboxes - ids, WithoutMailboxes(slots, ids);
    forall id | id in orders && ActiveRow(orders[id])
      ensures orders[id].mailboxId !in ids && LeasesRow(orders[id], id, mailboxes', slots')
    {
      assert LeasesRow(orders[id], id, mailboxes, slots);
    }
    forall p | p in slots' && slots'[p].state == SlotLeased ensures SlotHeld(orders, mailboxes', p) {
      assert SlotHeld(orders, mailboxes, p);
    }
  }

  lemma AmountsOk(opening: map<string, int>, db: Tables, ledger: seq<Entry>)
    requires FundsOk(opening, db, ledger)
    ensures forall id :: id in db.payments ==> id != "" && db.payments[id].amount >= 0
  {
  }
}
