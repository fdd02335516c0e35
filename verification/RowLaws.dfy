/** What each transaction of Rows decides and does, column by column: whatever else runs, it decides by the committed
    tables as they are at its last statement, and its commit changes exactly what is said here. */
module RowLaws {
  import opened Text
  import opened Domain
  import opened StoreModel
  import opened StoreLaws
  import opened Rows
  import opened RowLocks
  import opened RowInvariant

  /** The transaction has read all it needs: it commits next or gives up. */
  predicate Settles(w: World, t: nat) {
    t in w.txs && (NextOf(w, t).Commit? || NextOf(w, t).Stop?)
  }

  lemma CopiesAreRows(w: World, t: nat)
    requires LocksOk(w) && t in w.txs
    ensures Part(w.txs[t].copies, w.db) && PickOk(w.txs[t])
    ensures w.txs[t].picked.Some? ==> w.txs[t].op.CreateOrder? && w.txs[t].picked.value in w.txs[t].copies.mailboxes
  {
    assert TxOk(w, t);
    WithinIsPart(w.txs[t].copies, w.db);
  }

  lemma CommitWrites(w: World, t: nat, w': World)
    requires LocksOk(w) && Step(w, Commits(t), w')
    ensures t in w.txs && NextOf(w, t).Commit? && WellFormed(w.txs[t].op)
    ensures w'.db == Write(w.db, NextOf(w, t).writes) && w'.ledger == w.ledger + NextOf(w, t).entries
    ensures Insert(w.txs[t].op).Some? ==> !Has(w.db, Insert(w.txs[t].op).value)
  {
    assert TxOk(w, t);
  }

  lemma WrittenOnce(db: Tables, u: string, user: UserRow, o: string, order: OrderRow, b: string, m: MailboxRow,
                    p: Pair, slot: Slot)
    ensures Write(db, Tables(map[u := user], map[o := order], map[b := m], map[p := slot], map[]))
         == db.(users := db.users[u := user], orders := db.orders[o := order],
                mailboxes := db.mailboxes[b := m], slots := db.slots[p := slot])
  {
    WriteNothing(db);
    MapPlusOne(db.users, u, user);
    MapPlusOne(db.orders, o, order);
    MapPlusOne(db.mailboxes, b, m);
    MapPlusOne(db.slots, p, slot);
  }

  /** No transaction locks a row it has already read, so on finite tables it settles or waits for a mailbox. */
  lemma LocksNewRows(op: Op, picked: Option<string>, c: Tables)
    ensures Next(op, picked, c).Lock? ==> !Has(c, Next(op, picked, c).key)
    ensures Next(op, picked, c).Pick? ==> op.CreateOrder? && picked.None?
  {
    hide RefundWrites, RefundEntry, VerifiedRow;
  }

  // ---------------------------------------------------------------- creating an order

  /** Which mailboxes an order may take, column by column. */
  lemma PickExactly(w: World, t: nat, b: string)
    requires t in w.txs && w.txs[t].op.CreateOrder? && NextOf(w, t).Pick?
    ensures (exists w' :: Step(w, PickMailbox(t, b), w'))
       <==> var op := w.txs[t].op;
            && b in w.db.mailboxes && MailboxKey(b) !in w.locks && var m := w.db.mailboxes[b];
            && m.state == MailboxAvailable && m.activeOrderId == "" && m.healthScore >= 60 && m.verification == Verified
            && (m.connection == Imap || m.oauthValidUntil > op.now) && m.provider in op.prices
            && (b, op.serviceId) in w.db.slots && w.db.slots[(b, op.serviceId)].state == SlotAvailable
  {
    if Pickable(w, w.txs[t].op, b) {
      var tx := w.txs[t];
      var w' := w.(locks := w.locks[MailboxKey(b) := t],
                   txs := w.txs[t := tx.(picked := Some(b), copies := Read(tx.copies, w.db, MailboxKey(b)))]);
      assert Step(w, PickMailbox(t, b), w');
    }
  }

  /** An order is refused exactly when its user is not active or cannot pay the dearest requested provider. */
  lemma CreateDecides(w: World, t: nat)
    requires LocksOk(w) && Settles(w, t) && w.txs[t].op.CreateOrder?
    ensures var op := w.txs[t].op; op.userId in w.db.users && var u := w.db.users[op.userId];
      NextOf(w, t).Commit? <==> u.active && u.balance >= op.maximum
  {
    CopiesAreRows(w, t);
    hide LocksOk, Part;
    PartUsers(w.txs[t].copies, w.db);
  }

  lemma PartUsers(c: Tables, db: Tables)
    requires Part(c, db)
    ensures forall id :: id in c.users ==> id in db.users && db.users[id] == c.users[id]
  {
  }

  /** At the moment of commit the mailbox picked earlier still is one an order may take, the user is active and can
      pay, and the order is new. */
  lemma CreateTakes(w: World, t: nat, w': World)
    requires LocksOk(w) && Step(w, Commits(t), w') && w.txs[t].op.CreateOrder?
    ensures w.txs[t].picked.Some? && var op, b := w.txs[t].op, w.txs[t].picked.value;
      && op.orderId !in w.db.orders && op.userId in w.db.users && b in w.db.mailboxes && (b, op.serviceId) in w.db.slots
      && var u, m := w.db.users[op.userId], w.db.mailboxes[b];
      && m.provider in op.prices && u.active && u.balance >= op.maximum >= op.prices[m.provider] >= 0
      && m.state == MailboxAvailable && m.activeOrderId == "" && m.healthScore >= 60 && m.verification == Verified
      && (m.connection == Imap || m.oauthValidUntil > op.now)
  {
    CommitWrites(w, t, w');
    CopiesAreRows(w, t);
    hide *;
    CreateRows(w.txs[t].op, w.txs[t].picked, w.txs[t].copies, w.db);
    PickedColumns(w, t);
  }

  /** The order `op` asks for was created on mailbox `b`, which it leases. The price is that of the mailbox's provider:
      the order states it, the user pays it, and one ledger line says so. */
  ghost predicate Charges(w: World, w': World, op: Op, b: string)
    requires op.CreateOrder?
  {
    && op.userId in w.db.users && b in w.db.mailboxes && (b, op.serviceId) in w.db.slots
    && w.db.mailboxes[b].provider in op.prices
    && var u, m, price := w.db.users[op.userId], w.db.mailboxes[b], op.prices[w.db.mailboxes[b].provider];
    && w'.db == w.db.(
         users := w.db.users[op.userId := u.(balance := u.balance - price)],
         orders := w.db.orders[op.orderId := OrderRow(op.userId, op.serviceId, b, price, OrderWaitingCode, false, "",
                                                      op.now + 1800)],
         mailboxes := w.db.mailboxes[b := m.(state := MailboxLeased, activeOrderId := op.orderId)],
         slots := w.db.slots[(b, op.serviceId) := w.db.slots[(b, op.serviceId)].(state := SlotLeased)])
    && w'.ledger == w.ledger + [Entry(op.userId, op.orderId, "", -price, u.balance - price)]
  }

  lemma CreateCharges(w: World, t: nat, w': World)
    requires LocksOk(w) && Step(w, Commits(t), w') && w.txs[t].op.CreateOrder?
    ensures w.txs[t].picked.Some? && Charges(w, w', w.txs[t].op, w.txs[t].picked.value)
  {
    CommitWrites(w, t, w');
    CopiesAreRows(w, t);
    hide Step, LocksOk, Charges, Next, Write, Part;
    ChargesByRows(w, w', w.txs[t].op, w.txs[t].picked, w.txs[t].copies);
  }

  lemma ChargesByRows(w: World, w': World, op: Op, picked: Option<string>, c: Tables)
    requires Part(c, w.db) && op.CreateOrder? && Next(op, picked, c).Commit?
    requires w'.db == Write(w.db, Next(op, picked, c).writes) && w'.ledger == w.ledger + Next(op, picked, c).entries
    ensures picked.Some? && Charges(w, w', op, picked.value)
  {
    hide Next, Write, Part;
    CreateRows(op, picked, c, w.db);
    CreateTables(op, picked, c, w.db);
  }

  lemma PickedColumns(w: World, t: nat)
    requires t in w.txs && w.txs[t].op.CreateOrder? && w.txs[t].picked.Some? && PickOk(w.txs[t])
      && WellFormed(w.txs[t].op)
    requires Part(w.txs[t].copies, w.db)
    requires Insert(w.txs[t].op).Some? ==> !Has(w.db, Insert(w.txs[t].op).value)
    ensures var op, b := w.txs[t].op, w.txs[t].picked.value;
      && op.orderId !in w.db.orders && b in w.db.mailboxes && var m := w.db.mailboxes[b];
      && m.provider in op.prices && 0 <= op.prices[m.provider] <= op.maximum
      && m.state == MailboxAvailable && m.activeOrderId == "" && m.healthScore >= 60 && m.verification == Verified
      && (m.connection == Imap || m.oauthValidUntil > op.now)
  {
  }

  lemma CreateTables(op: Op, picked: Option<string>, c: Tables, db: Tables)
    requires Part(c, db) && op.CreateOrder? && Next(op, picked, c).Commit?
    ensures picked.Some? && op.userId in db.users && picked.value in db.mailboxes && var b := picked.value;
      && (b, op.serviceId) in db.slots && db.mailboxes[b].provider in op.prices
      && var u, m, price := db.users[op.userId], db.mailboxes[b], op.prices[db.mailboxes[b].provider];
      && Write(db, Next(op, picked, c).writes) == db.(
           users := db.users[op.userId := u.(balance := u.balance - price)],
           orders := db.orders[op.orderId := OrderRow(op.userId, op.serviceId, b, price, OrderWaitingCode, false, "",
                                                      op.now + 1800)],
           mailboxes := db.mailboxes[b := m.(state := MailboxLeased, activeOrderId := op.orderId)],
           slots := db.slots[(b, op.serviceId) := db.slots[(b, op.serviceId)].(state := SlotLeased)])
  {
    CreateRows(op, picked, c, db);
    hide *;
    var b := picked.value;
    var u, m, price := db.users[op.userId], db.mailboxes[b], op.prices[db.mailboxes[b].provider];
    WrittenOnce(db, op.userId, u.(balance := u.balance - price), op.orderId,
                OrderRow(op.userId, op.serviceId, b, price, OrderWaitingCode, false, "", op.now + 1800),
                b, m.(state := MailboxLeased, activeOrderId := op.orderId),
                (b, op.serviceId), db.slots[(b, op.serviceId)].(state := SlotLeased));
  }

  lemma CreateRows(op: Op, picked: Option<string>, c: Tables, db: Tables)
    requires Part(c, db) && op.CreateOrder? && Next(op, picked, c).Commit?
    ensures picked.Some? && op.userId in db.users && picked.value in db.mailboxes && var b := picked.value;
      && (b, op.serviceId) in db.slots && db.mailboxes[b].provider in op.prices
      && var u, m, price := db.users[op.userId], db.mailboxes[b], op.prices[db.mailboxes[b].provider];
      && u.active && u.balance >= op.maximum
      && Next(op, picked, c) == Commit(
           Tables(map[op.userId := u.(balance := u.balance - price)],
                  map[op.orderId := OrderRow(op.userId, op.serviceId, b, price, OrderWaitingCode, false, "",
                                             op.now + 1800)],
                  map[b := m.(state := MailboxLeased, activeOrderId := op.orderId)],
                  map[(b, op.serviceId) := db.slots[(b, op.serviceId)].(state := SlotLeased)], map[]),
           [Entry(op.userId, op.orderId, "", -price, u.balance - price)])
  {
  }

  // ---------------------------------------------------------------- the end of a lease

  lemma ReleaseFrees(slot: Slot, timedOut: bool)
    ensures Freed(slot, if slot.state == SlotLeased then ReleaseSlot(slot, timedOut) else slot, timedOut)
  {
  }

  /** The tables after the price of order `id` was given back, its row got `status`, and its mailbox the row `m`. */
  ghost predicate PaysBack(w: World, w': World, id: string, status: OrderStatus, m: MailboxRow) {
    && id in w.db.orders && var o := w.db.orders[id];
    && o.userId in w.db.users && o.mailboxId in w.db.mailboxes && (o.mailboxId, o.serviceId) in w.db.slots
    && (o.mailboxId, o.serviceId) in w'.db.slots
    && var u, pair := w.db.users[o.userId], (o.mailboxId, o.serviceId);
    && Freed(w.db.slots[pair], w'.db.slots[pair], status == OrderExpiredRefunded)
    && w'.db == w.db.(
         users := w.db.users[o.userId := u.(balance := u.balance + o.price)],
         orders := w.db.orders[id := o.(status := status, refunded := true)],
         mailboxes := w.db.mailboxes[o.mailboxId := m],
         slots := w.db.slots[pair := w'.db.slots[pair]])
    && w'.ledger == w.ledger + [Entry(o.userId, id, "", o.price, u.balance + o.price)]
  }

  lemma RefundPaysBack(w: World, w': World, c: Tables, id: string, status: OrderStatus, m: MailboxRow)
    requires Part(c, w.db) && id in c.orders && RefundKey(c.orders[id], c).None?
    requires w'.db == Write(w.db, RefundWrites(id, status, c).(mailboxes := map[c.orders[id].mailboxId := m]))
    requires w'.ledger == w.ledger + [RefundEntry(id, c)]
    ensures PaysBack(w, w', id, status, m)
  {
    var o := c.orders[id];
    var slot := w.db.slots[PairOf(o)];
    var freed := if slot.state == SlotLeased then ReleaseSlot(slot, status == OrderExpiredRefunded) else slot;
    RefundRows(c, w.db, id, status, m);
    ReleaseFrees(slot, status == OrderExpiredRefunded);
    hide Write, ReleaseSlot, RefundWrites, RefundEntry, Part, Freed, PaysBack, RefundKey;
    WrittenOnce(w.db, o.userId, Paid(w.db.users[o.userId], o.price), id, o.(status := status, refunded := true),
                o.mailboxId, m, PairOf(o), freed);
    WrittenPaysBack(w, w', id, status, m, freed);
  }

  lemma WrittenPaysBack(w: World, w': World, id: string, status: OrderStatus, m: MailboxRow, freed: Slot)
    requires id in w.db.orders && var o := w.db.orders[id];
      && o.userId in w.db.users && o.mailboxId in w.db.mailboxes && PairOf(o) in w.db.slots
      && Freed(w.db.slots[PairOf(o)], freed, status == OrderExpiredRefunded)
      && w'.db == w.db.(users := w.db.users[o.userId := Paid(w.db.users[o.userId], o.price)],
                        orders := w.db.orders[id := o.(status := status, refunded := true)],
                        mailboxes := w.db.mailboxes[o.mailboxId := m], slots := w.db.slots[PairOf(o) := freed])
      && w'.ledger == w.ledger + [Entry(o.userId, id, "", o.price, w.db.users[o.userId].balance + o.price)]
    ensures PaysBack(w, w', id, status, m)
  {
    hide Freed;
  }

  lemma RefundRows(c: Tables, db: Tables, id: string, status: OrderStatus, m: MailboxRow)
    requires Part(c, db) && id in c.orders && RefundKey(c.orders[id], c).None?
    ensures id in db.orders && db.orders[id] == c.orders[id] && var o := db.orders[id];
      && o.userId in db.users && o.mailboxId in db.mailboxes && PairOf(o) in db.slots
      && var u, slot := db.users[o.userId], db.slots[PairOf(o)];
      && RefundWrites(id, status, c).(mailboxes := map[o.mailboxId := m])
         == Tables(map[o.userId := Paid(u, o.price)], map[id := o.(status := status, refunded := true)],
                   map[o.mailboxId := m],
                   map[PairOf(o) :=
                     if slot.state == SlotLeased then ReleaseSlot(slot, status == OrderExpiredRefunded) else slot],
                   map[])
      && RefundEntry(id, c) == Entry(o.userId, id, "", o.price, u.balance + o.price)
  {
    hide ReleaseSlot;
  }

  /** Canceling needs the owner, or an administrator who names nobody, and an order that waits. */
  lemma CancelDecides(w: World, t: nat)
    requires LocksOk(w) && Settles(w, t) && w.txs[t].op.CancelOrder?
    ensures var op := w.txs[t].op; op.orderId in w.db.orders && var o := w.db.orders[op.orderId];
      NextOf(w, t).Commit? <==>
        && (op.userId == "" || o.userId == op.userId)
        && o.status in {OrderAssigned, OrderWaitingCode} && !o.refunded
  {
    CopiesAreRows(w, t);
    hide LocksOk, RefundKey, RefundWrites, RefundEntry;
  }

  /** A timeout needs an order that waits and whose time is up. */
  lemma ReapDecides(w: World, t: nat)
    requires LocksOk(w) && Settles(w, t) && w.txs[t].op.ReapOrder?
    ensures var op := w.txs[t].op; op.orderId in w.db.orders && var o := w.db.orders[op.orderId];
      NextOf(w, t).Commit? <==> o.expiresAt <= op.now && o.status in {OrderAssigned, OrderWaitingCode} && !o.refunded
  {
    CopiesAreRows(w, t);
    hide LocksOk, RefundKey, RefundWrites, RefundEntry;
  }

  lemma RefundCommits(w: World, t: nat, w': World)
    requires LocksOk(w) && Step(w, Commits(t), w') && (w.txs[t].op.CancelOrder? || w.txs[t].op.ReapOrder?)
    ensures var id := w.txs[t].op.orderId;
      && id in w.db.orders && w.db.orders[id].mailboxId in w.db.mailboxes
      && PaysBack(w, w', id, if w.txs[t].op.CancelOrder? then OrderCanceled else OrderExpiredRefunded,
                  w.db.mailboxes[w.db.orders[id].mailboxId].(state := MailboxAvailable, activeOrderId := ""))
  {
    CommitWrites(w, t, w');
    CopiesAreRows(w, t);
    var op, c := w.txs[t].op, w.txs[t].copies;
    hide LocksOk, Step, Write, PaysBack;
    var status := if op.CancelOrder? then OrderCanceled else OrderExpiredRefunded;
    var o := c.orders[op.orderId];
    var m := c.mailboxes[o.mailboxId].(state := MailboxAvailable, activeOrderId := "");
    assert NextOf(w, t) == Commit(RefundWrites(op.orderId, status, c), [RefundEntry(op.orderId, c)]);
    assert RefundWrites(op.orderId, status, c)
      == RefundWrites(op.orderId, status, c).(mailboxes := map[o.mailboxId := m]);
    hide RefundWrites, RefundEntry, Next;
    RefundPaysBack(w, w', c, op.orderId, status, m);
  }

  /** A code is taken while its order waits and has time left; spaces around it do not count. */
  lemma ReceiveDecides(w: World, t: nat)
    requires LocksOk(w) && Settles(w, t) && w.txs[t].op.ReceiveCode?
    ensures var op := w.txs[t].op; op.orderId in w.db.orders && var o := w.db.orders[op.orderId];
      NextOf(w, t).Commit? <==>
        o.status in {OrderAssigned, OrderWaitingCode} && op.now < o.expiresAt && TrimSpace(op.code) != ""
  {
    CopiesAreRows(w, t);
    hide LocksOk, TrimSpace;
  }

  lemma ReceiveCommits(w: World, t: nat, w': World)
    requires LocksOk(w) && Step(w, Commits(t), w') && w.txs[t].op.ReceiveCode?
    ensures var op := w.txs[t].op;
      && op.orderId in w.db.orders && var o := w.db.orders[op.orderId]; var pair := (o.mailboxId, o.serviceId);
      && o.mailboxId in w.db.mailboxes && pair in w.db.slots
      && w'.db == w.db.(
           orders := w.db.orders[op.orderId := o.(status := OrderCodeReceived, code := TrimSpace(op.code))],
           mailboxes := w.db.mailboxes[o.mailboxId :=
             w.db.mailboxes[o.mailboxId].(state := MailboxAvailable, activeOrderId := "")],
           slots := w.db.slots[pair := w.db.slots[pair].(state := SlotConsumed)])
      && w'.ledger == w.ledger
  {
    CommitWrites(w, t, w');
    CopiesAreRows(w, t);
    var op, db := w.txs[t].op, w.db;
    var o := db.orders[op.orderId];
    hide LocksOk, Step, TrimSpace;
    WriteNothing(db);
    MapPlusOne(db.orders, op.orderId, o.(status := OrderCodeReceived, code := TrimSpace(op.code)));
    MapPlusOne(db.mailboxes, o.mailboxId, db.mailboxes[o.mailboxId].(state := MailboxAvailable, activeOrderId := ""));
    MapPlusOne(db.slots, PairOf(o), db.slots[PairOf(o)].(state := SlotConsumed));
    assert w.ledger + [] == w.ledger;
  }

  /** Only an order with a code is completed, by its owner or an administrator who names nobody. */
  lemma CompleteDecides(w: World, t: nat)
    requires LocksOk(w) && Settles(w, t) && w.txs[t].op.CompleteOrder?
    ensures var op := w.txs[t].op; op.orderId in w.db.orders && var o := w.db.orders[op.orderId];
      NextOf(w, t).Commit? <==> (op.userId == "" || o.userId == op.userId) && o.status == OrderCodeReceived
  {
    CopiesAreRows(w, t);
    hide LocksOk;
  }

  lemma CompleteCommits(w: World, t: nat, w': World)
    requires LocksOk(w) && Step(w, Commits(t), w') && w.txs[t].op.CompleteOrder?
    ensures var id := w.txs[t].op.orderId;
      && id in w.db.orders && w'.ledger == w.ledger
      && w'.db == w.db.(orders := w.db.orders[id := w.db.orders[id].(status := OrderCompleted)])
  {
    CommitWrites(w, t, w');
    CopiesAreRows(w, t);
    var id := w.txs[t].op.orderId;
    hide LocksOk, Step, Write;
    WriteOrder(w.db, id, w.db.orders[id].(status := OrderCompleted));
    assert w.ledger + [] == w.ledger;
  }

  // ---------------------------------------------------------------- verification

  /** A successful verification frees a mailbox that was in error or pending, unless it has an order; a pending one
      changes nothing but the two columns it is about. Neither touches orders, slots or money. */
  lemma VerificationCommits(w: World, t: nat, w': World)
    requires LocksOk(w) && Step(w, Commits(t), w') && w.txs[t].op.VerifyMailbox?
    requires w.txs[t].op.status != VerificationFailed
    ensures var op := w.txs[t].op; var b := op.mailboxId;
      && b in w.db.mailboxes && b in w'.db.mailboxes && var m, row := w.db.mailboxes[b], w'.db.mailboxes[b];
      && w'.db == w.db.(mailboxes := w.db.mailboxes[b := row]) && w'.ledger == w.ledger
      && row.verification == op.status && row.connection == op.connection && row.activeOrderId == m.activeOrderId
      && row.provider == m.provider && row.oauthValidUntil == m.oauthValidUntil
      && (op.status == Verified ==>
            && row.healthScore == 100
            && ((m.state == MailboxError || m.state == MailboxPending) && m.activeOrderId == "" ==>
                  row.state == MailboxAvailable)
            && (!((m.state == MailboxError || m.state == MailboxPending) && m.activeOrderId == "") ==>
                  row.state == m.state))
      && (op.status != Verified ==> row.healthScore == m.healthScore && row.state == m.state)
  {
    CommitWrites(w, t, w');
    CopiesAreRows(w, t);
    var op := w.txs[t].op;
    hide LocksOk, Step, Write;
    WriteMailbox(w.db, op.mailboxId, VerifiedRow(w.db.mailboxes[op.mailboxId], op.connection, op.status));
    assert w.ledger + [] == w.ledger;
  }

  /** Whatever the result is, the row has it, with the connection it was found over; provider and token expiry stay. */
  lemma VerificationStored(w: World, t: nat, w': World)
    requires LocksOk(w) && Step(w, Commits(t), w') && w.txs[t].op.VerifyMailbox?
    ensures var op := w.txs[t].op; var b := op.mailboxId;
      && b in w.db.mailboxes && b in w'.db.mailboxes && var m, row := w.db.mailboxes[b], w'.db.mailboxes[b];
      && row.verification == op.status && row.connection == op.connection
      && row.provider == m.provider && row.oauthValidUntil == m.oauthValidUntil
      && (op.status == VerificationFailed ==>
            && row.activeOrderId == ""
            && (m.state == MailboxBlocked ==> row.state == MailboxBlocked && row.healthScore == m.healthScore)
            && (m.state != MailboxBlocked ==> row.state == MailboxError && row.healthScore == 0))
  {
    CommitWrites(w, t, w');
    CopiesAreRows(w, t);
    hide LocksOk, Step, Write, Part, VerifiedRow;
    VerifyWrites(w.txs[t].op, w.txs[t].picked, w.txs[t].copies, w.db);
    RowWritten(w.db, NextOf(w, t).writes, w.txs[t].op.mailboxId);
    VerifiedRowIs(w.db.mailboxes[w.txs[t].op.mailboxId], w.txs[t].op.connection, w.txs[t].op.status);
  }

  lemma VerifyWrites(op: Op, picked: Option<string>, c: Tables, db: Tables)
    requires Part(c, db) && op.VerifyMailbox? && Next(op, picked, c).Commit?
    ensures var b := op.mailboxId; var writes := Next(op, picked, c).writes;
      b in db.mailboxes && b in writes.mailboxes
      && writes.mailboxes[b] == VerifiedRow(db.mailboxes[b], op.connection, op.status)
  {
    hide RefundWrites, RefundEntry, RefundKey, VerifiedRow;
  }

  lemma RowWritten(db: Tables, writes: Tables, b: string)
    requires b in writes.mailboxes
    ensures b in Write(db, writes).mailboxes && Write(db, writes).mailboxes[b] == writes.mailboxes[b]
  {
  }

  lemma VerifiedRowIs(m: MailboxRow, connection: Connection, status: Verification)
    ensures var row := VerifiedRow(m, connection, status);
      && row.verification == status && row.connection == connection
      && row.provider == m.provider && row.oauthValidUntil == m.oauthValidUntil
      && (status == VerificationFailed ==>
            && row.activeOrderId == ""
            && (m.state == MailboxBlocked ==> row.state == MailboxBlocked && row.healthScore == m.healthScore)
            && (m.state != MailboxBlocked ==> row.state == MailboxError && row.healthScore == 0))
  {
  }

  /** Storing a verification result is never refused. */
  lemma VerifyDecides(w: World, t: nat)
    requires Settles(w, t) && w.txs[t].op.VerifyMailbox?
    ensures NextOf(w, t).Commit?
  {
    hide RefundKey, RefundWrites, RefundEntry, VerifiedRow;
  }

  /** Reconciling ends an order that waits on the mailbox, if the mailbox is not verified. */
  lemma ReconcileDecides(w: World, t: nat)
    requires LocksOk(w) && Settles(w, t) && w.txs[t].op.ReconcileOrder?
    ensures var op := w.txs[t].op;
      op.mailboxId in w.db.mailboxes
      && if w.db.mailboxes[op.mailboxId].verification == Verified then NextOf(w, t).Stop?
         else op.orderId in w.db.orders && var o := w.db.orders[op.orderId];
              NextOf(w, t).Commit? <==> o.status in {OrderAssigned, OrderWaitingCode} && o.mailboxId == op.mailboxId
  {
    CopiesAreRows(w, t);
    hide LocksOk, RefundKey, RefundWrites, RefundEntry;
  }

  /** It gives the price back once; the mailbox ends in error with health 0, except that a blocked one is made
      available by a refund and stays blocked without one. */
  lemma ReconcileCommits(w: World, t: nat, w': World)
    requires LocksOk(w) && Step(w, Commits(t), w') && w.txs[t].op.ReconcileOrder?
    ensures var op := w.txs[t].op; var b := op.mailboxId;
      && op.orderId in w.db.orders && b in w.db.mailboxes && var m := w.db.mailboxes[b];
      && (!w.db.orders[op.orderId].refunded ==>
            PaysBack(w, w', op.orderId, OrderExpiredRefunded,
                     m.(activeOrderId := "", healthScore := 0,
                        state := if m.state == MailboxBlocked then MailboxAvailable else MailboxError)))
      && (w.db.orders[op.orderId].refunded ==>
            && w'.ledger == w.ledger
            && w'.db == w.db.(mailboxes := w.db.mailboxes[b :=
                 m.(activeOrderId := "", healthScore := 0,
                    state := if m.state == MailboxBlocked then MailboxBlocked else MailboxError)]))
  {
    CommitWrites(w, t, w');
    CopiesAreRows(w, t);
    var op, c := w.txs[t].op, w.txs[t].copies;
    var m := c.mailboxes[op.mailboxId];
    hide LocksOk, Step, Write, PaysBack, RefundWrites, RefundEntry;
    if w.db.orders[op.orderId].refunded {
      WriteMailbox(w.db, op.mailboxId, NextOf(w, t).writes.mailboxes[op.mailboxId]);
      assert w.ledger + [] == w.ledger;
    } else {
      var row := m.(activeOrderId := "", healthScore := 0,
                    state := if m.state == MailboxBlocked then MailboxAvailable else MailboxError);
      RefundPaysBack(w, w', c, op.orderId, OrderExpiredRefunded, row);
    }
  }

  // ---------------------------------------------------------------- money

  /** An adjustment that would overdraw is refused; any other moves the balance by what was asked, sign included, and
      its one ledger line says the same. */
  lemma AdjustDecides(w: World, t: nat)
    requires LocksOk(w) && Settles(w, t) && w.txs[t].op.AdjustBalance?
    ensures var op := w.txs[t].op;
      op.userId in w.db.users && (NextOf(w, t).Commit? <==> w.db.users[op.userId].balance + op.amount >= 0)
  {
    CopiesAreRows(w, t);
    hide LocksOk;
  }

  lemma AdjustCommits(w: World, t: nat, w': World)
    requires LocksOk(w) && Step(w, Commits(t), w') && w.txs[t].op.AdjustBalance?
    ensures var op := w.txs[t].op; op.userId in w.db.users && var u := w.db.users[op.userId];
      && w'.db == w.db.(users := w.db.users[op.userId := u.(balance := u.balance + op.amount)])
      && w'.ledger == w.ledger + [Entry(op.userId, "", "", op.amount, u.balance + op.amount)]
  {
    CommitWrites(w, t, w');
    CopiesAreRows(w, t);
    var op := w.txs[t].op;
    var u := w.db.users[op.userId];
    hide LocksOk, Step, Write;
    WriteUser(w.db, op.userId, u.(balance := u.balance + op.amount));
  }

  /** A payment is between 1.00 and 100000.00 and starts pending; only a pending one is canceled, by its payer, or
      expires; no money moves. */
  lemma PaymentDecides(w: World, t: nat)
    requires LocksOk(w) && Settles(w, t)
    ensures var op := w.txs[t].op;
      && (op.CreatePayment? ==> (NextOf(w, t).Commit? <==> 100 <= op.amount <= 10000000))
      && (op.CancelPayment? || op.ExpirePayment? || op.CompletePayment? ==> op.paymentId in w.db.payments)
      && (op.CancelPayment? ==>
            (NextOf(w, t).Commit? <==>
               w.db.payments[op.paymentId].userId == op.userId && w.db.payments[op.paymentId].status == PaymentPending))
      && (op.ExpirePayment? ==>
            (NextOf(w, t).Commit? <==> w.db.payments[op.paymentId].status == PaymentPending))
      && (op.CompletePayment? ==>
            (NextOf(w, t).Commit? <==>
               && w.db.payments[op.paymentId].status in {PaymentPending, PaymentPaid, PaymentExpired}
               && op.paid == w.db.payments[op.paymentId].amount))
  {
    CopiesAreRows(w, t);
    hide LocksOk, NextCreate, NextRefund, NextReceive, NextVerify, NextReconcile;
  }

  lemma PaymentCommits(w: World, t: nat, w': World)
    requires LocksOk(w) && Step(w, Commits(t), w')
    requires w.txs[t].op.CreatePayment? || w.txs[t].op.CancelPayment? || w.txs[t].op.ExpirePayment?
    ensures var op := w.txs[t].op;
      && (op.CreatePayment? <==> op.paymentId !in w.db.payments) && w'.ledger == w.ledger
      && w'.db == w.db.(payments := w.db.payments[op.paymentId :=
           if op.CreatePayment? then PaymentRow(op.userId, op.amount, PaymentPending)
           else w.db.payments[op.paymentId].(status := if op.CancelPayment? then PaymentCanceled else PaymentExpired)])
  {
    CommitWrites(w, t, w');
    CopiesAreRows(w, t);
    var op := w.txs[t].op;
    hide LocksOk, Step, Write;
    WritePayment(w.db, op.paymentId, NextOf(w, t).writes.payments[op.paymentId]);
    assert w.ledger + [] == w.ledger;
  }

  /** An accepted callback pays the payer the payment's amount. */
  lemma TopUpCommits(w: World, t: nat, w': World)
    requires LocksOk(w) && Step(w, Commits(t), w') && w.txs[t].op.CompletePayment?
    ensures var id := w.txs[t].op.paymentId;
      && id in w.db.payments && var p := w.db.payments[id]; p.userId in w.db.users && var u := w.db.users[p.userId];
      && w'.db == w.db.(users := w.db.users[p.userId := u.(balance := u.balance + p.amount)],
                        payments := w.db.payments[id := p.(status := PaymentCompleted)])
      && w'.ledger == w.ledger + [Entry(p.userId, "", id, p.amount, u.balance + p.amount)]
  {
    CommitWrites(w, t, w');
    CopiesAreRows(w, t);
    var id, db := w.txs[t].op.paymentId, w.db;
    var p := db.payments[id];
    hide LocksOk, Step;
    WriteNothing(db);
    MapPlusOne(db.users, p.userId, db.users[p.userId].(balance := db.users[p.userId].balance + p.amount));
    MapPlusOne(db.payments, id, p.(status := PaymentCompleted));
  }

  // ---------------------------------------------------------------- slots and rows

  /** Old mail consumes only an available slot; a registration consumes any slot that is not leased or consumed. */
  lemma MarkDecides(w: World, t: nat)
    requires LocksOk(w) && Settles(w, t) && (w.txs[t].op.MarkConsumed? || w.txs[t].op.MarkRegistered?)
    ensures var op := w.txs[t].op; op.pair in w.db.slots && var state := w.db.slots[op.pair].state;
      && (op.MarkConsumed? ==> (NextOf(w, t).Commit? <==> state == SlotAvailable))
      && (op.MarkRegistered? ==> (NextOf(w, t).Commit? <==> state in {SlotAvailable, SlotCooldown, SlotBlocked}))
  {
    CopiesAreRows(w, t);
    hide LocksOk;
  }

  lemma MarkCommits(w: World, t: nat, w': World)
    requires LocksOk(w) && Step(w, Commits(t), w') && (w.txs[t].op.MarkConsumed? || w.txs[t].op.MarkRegistered?)
    ensures var p := w.txs[t].op.pair;
      && p in w.db.slots && w'.ledger == w.ledger
      && w'.db == w.db.(slots := w.db.slots[p := w.db.slots[p].(state := SlotConsumed)])
  {
    CommitWrites(w, t, w');
    CopiesAreRows(w, t);
    var p := w.txs[t].op.pair;
    hide LocksOk, Step, Write;
    WriteSlot(w.db, p, w.db.slots[p].(state := SlotConsumed));
    assert w.ledger + [] == w.ledger;
  }

  /** A new user has no money; a new slot is available; a new mailbox has what was sent, is available unless another
      state was sent, and then healthy unless a health was sent. */
  lemma InsertCommits(w: World, t: nat, w': World)
    requires LocksOk(w) && Step(w, Commits(t), w')
    ensures var op := w.txs[t].op;
      && (op.Register? ==>
            && op.userId !in w.db.users && w'.ledger == w.ledger
            && w'.db == w.db.(users := w.db.users[op.userId := UserRow(0, true)]))
      && (op.InsertSlot? ==>
            && op.pair !in w.db.slots && w'.ledger == w.ledger
            && w'.db == w.db.(slots := w.db.slots[op.pair := Slot(SlotAvailable, 0)]))
      && (op.InsertMailbox? ==>
            && op.mailboxId !in w.db.mailboxes && op.mailboxId in w'.db.mailboxes && w'.ledger == w.ledger
            && var e, row := op.edit, w'.db.mailboxes[op.mailboxId];
            && w'.db == w.db.(mailboxes := w.db.mailboxes[op.mailboxId := row])
            && row.activeOrderId == "" && row.provider == e.provider && row.verification == e.verification
            && row.connection == e.connection && row.oauthValidUntil == e.oauthValidUntil
            && row.state == (if e.state.Some? then e.state.value else MailboxAvailable)
            && row.healthScore == if e.healthScore == 0 && row.state == MailboxAvailable then 100 else e.healthScore)
  {
    CommitWrites(w, t, w');
    var op := w.txs[t].op;
    hide LocksOk, Step, Write, NextCreate, NextRefund, NextReceive, NextVerify, NextReconcile, NextTopUp;
    if op.Register? { WriteUser(w.db, op.userId, UserRow(0, true)); }
    if op.InsertSlot? { WriteSlot(w.db, op.pair, Slot(SlotAvailable, 0)); }
    if op.InsertMailbox? { WriteMailbox(w.db, op.mailboxId, InsertedRow(op.edit)); }
    assert w.ledger + [] == w.ledger;
  }

  /** A save writes the row it read, with each field that was sent; the state only while that row names no order, and
      an idle mailbox in error that is sent as verified becomes available. */
  lemma SaveCommits(w: World, t: nat, w': World)
    requires LocksOk(w) && Step(w, Commits(t), w') && (w.txs[t].op.SaveMailbox? || w.txs[t].op.ReinsertMailbox?)
    ensures var op := w.txs[t].op; var b, read, e := op.mailboxId, op.read, op.edit;
      && b in w'.db.mailboxes && w'.ledger == w.ledger && var row := w'.db.mailboxes[b];
      && (op.SaveMailbox? <==> b in w.db.mailboxes) && w'.db == w.db.(mailboxes := w.db.mailboxes[b := row])
      && row.activeOrderId == read.activeOrderId && row.provider == e.provider
      && row.healthScore == (if e.healthScore > 0 then e.healthScore else read.healthScore)
      && row.oauthValidUntil == (if e.oauthValidUntil != 0 then e.oauthValidUntil else read.oauthValidUntil)
      && row.connection == (if e.connection != Unspecified then e.connection else read.connection)
      && row.verification == (if e.verification != Unverified then e.verification else read.verification)
      && (read.activeOrderId != "" ==> row.state == read.state)
      && (read.activeOrderId == "" ==>
            var asked := if e.state.Some? then e.state.value else read.state;
            row.state == if asked == MailboxError && e.verification == Verified then MailboxAvailable else asked)
  {
    CommitWrites(w, t, w');
    CopiesAreRows(w, t);
    var op := w.txs[t].op;
    hide LocksOk, Step, Write;
    WriteMailbox(w.db, op.mailboxId, EditedRow(op.read, op.edit));
    assert w.ledger + [] == w.ledger;
  }

  /** A batch of the deletion takes failed mailboxes in error that have no order, and their slots, and nothing else. */
  lemma PurgeTakes(w: World, ids: set<string>, w': World)
    requires Step(w, Purges(ids), w')
    ensures forall b :: b in ids ==>
      && b in w.db.mailboxes && w.db.mailboxes[b].state == MailboxError
      && w.db.mailboxes[b].verification == VerificationFailed && w.db.mailboxes[b].activeOrderId == ""
    ensures forall b :: b in w'.db.mailboxes <==> b in w.db.mailboxes && b !in ids
    ensures forall b :: b in w'.db.mailboxes ==> w'.db.mailboxes[b] == w.db.mailboxes[b]
    ensures forall p :: p in w'.db.slots <==> p in w.db.slots && p.0 !in ids
    ensures forall p :: p in w'.db.slots ==> w'.db.slots[p] == w.db.slots[p]
    ensures w'.db.users == w.db.users && w'.db.orders == w.db.orders && w'.db.payments == w.db.payments
    ensures w'.ledger == w.ledger && w'.txs == w.txs && w'.locks == w.locks
  {
  }
}
