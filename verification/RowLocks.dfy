/** Row locks make the interleaved transactions of Rows behave as if each ran alone at the moment it commits. */
module RowLocks {
  import opened Domain
  import opened Rows

  /** Whatever a transaction has read is still what the table holds, and nobody else holds the row. */
  ghost predicate Current(db: Tables, locks: map<Key, nat>, t: nat, copies: Tables) {
    forall k :: Has(copies, k) ==> k in locks && locks[k] == t && Agree(copies, db, k)
  }

  /** The mailbox a transaction picked is still leasable in its copy. */
  predicate PickOk(tx: Tx) {
    tx.picked.Some? ==>
      && tx.op.CreateOrder? && tx.picked.value in tx.copies.mailboxes
      && Leasable(tx.copies.mailboxes[tx.picked.value], tx.op)
  }

  ghost predicate TxOk(w: World, t: nat)
    requires t in w.txs
  {
    WellFormed(w.txs[t].op) && PickOk(w.txs[t]) && Current(w.db, w.locks, t, w.txs[t].copies)
  }

  ghost predicate LocksOk(w: World) {
    forall t :: t in w.txs ==> TxOk(w, t)
  }

  /** A statement writes only rows the transaction holds, and the row it inserts. */
  lemma WritesAreLocked(op: Op, picked: Option<string>, c: Tables, k: Key)
    requires Next(op, picked, c).Commit? && Has(Next(op, picked, c).writes, k)
    ensures Has(c, k) || Insert(op) == Some(k)
  {
    hide Next, Has;
    if OnManyRows(op) { ManyRowsLocked(op, picked, c, k); } else { SingleRowLocked(op, picked, c, k); }
  }

  predicate OnManyRows(op: Op) {
    || op.CreateOrder? || op.CancelOrder? || op.ReapOrder? || op.ReceiveCode? || op.VerifyMailbox? || op.ReconcileOrder?
    || op.CompletePayment?
  }

  lemma ManyRowsLocked(op: Op, picked: Option<string>, c: Tables, k: Key)
    requires Next(op, picked, c).Commit? && Has(Next(op, picked, c).writes, k) && OnManyRows(op)
    ensures Has(c, k) || Insert(op) == Some(k)
  {
    hide VerifiedRow;
  }

  lemma SingleRowLocked(op: Op, picked: Option<string>, c: Tables, k: Key)
    requires Next(op, picked, c).Commit? && Has(Next(op, picked, c).writes, k) && !OnManyRows(op)
    ensures Has(c, k) || Insert(op) == Some(k)
  {
  }

  lemma WriteElsewhere(db: Tables, writes: Tables, k: Key)
    requires Has(db, k) && !Has(writes, k)
    ensures Agree(Write(db, writes), db, k)
  {
  }

  lemma OthersStayCurrent(w: World, t: nat, other: nat, writes: Tables)
    requires LocksOk(w) && t in w.txs && other in w.txs && t != other
    requires forall k :: Has(writes, k) ==> Has(w.txs[t].copies, k) || !Has(w.db, k)
    ensures Current(Write(w.db, writes), Released(w.locks, t), other, w.txs[other].copies)
  {
    var copies := w.txs[other].copies;
    assert TxOk(w, t) && TxOk(w, other);
    hide Agree, Write, Has, Released, Next;
    forall k | Has(copies, k)
      ensures k in Released(w.locks, t) && Released(w.locks, t)[k] == other && Agree(copies, Write(w.db, writes), k)
    {
      ReleasedKeeps(w.locks, t, k);
      assert Agree(copies, w.db, k);
      AgreeTrans(copies, w.db, w.db, k);
      assert !Has(writes, k);
      WriteElsewhere(w.db, writes, k);
      AgreeTrans(copies, w.db, Write(w.db, writes), k);
    }
  }

  lemma ReleasedKeeps(locks: map<Key, nat>, t: nat, k: Key)
    requires k in locks && locks[k] != t
    ensures k in Released(locks, t) && Released(locks, t)[k] == locks[k]
  {
  }

  lemma AgreeTrans(a: Tables, b: Tables, c: Tables, k: Key)
    requires Agree(a, b, k)
    ensures Has(a, k) && Has(b, k)
    ensures Agree(b, c, k) || Agree(c, b, k) ==> Agree(a, c, k)
  {
  }

  lemma ReadKeepsCurrent(db: Tables, locks: map<Key, nat>, t: nat, copies: Tables, k: Key)
    requires Current(db, locks, t, copies) && Has(db, k) && (k in locks ==> locks[k] == t)
    ensures Current(db, locks[k := t], t, Read(copies, db, k))
  {
    forall j | Has(Read(copies, db, k), j)
      ensures j in locks[k := t] && locks[k := t][j] == t && Agree(Read(copies, db, k), db, j)
    {
      if j != k { assert Has(copies, j); }
    }
  }

  lemma CurrentWithMoreLocks(db: Tables, locks: map<Key, nat>, t: nat, other: nat, copies: Tables, k: Key)
    requires Current(db, locks, other, copies) && t != other && (k in locks ==> locks[k] == t)
    ensures Current(db, locks[k := t], other, copies)
  {
  }

  /** Every step of every interleaving keeps all copies current. */
  lemma StepKeepsLocks(w: World, e: Event, w': World)
    requires LocksOk(w) && Step(w, e, w')
    ensures LocksOk(w')
  {
    hide Next, Has, Agree, Read, Write, Released, Leasable, Current;
    forall other | other in w'.txs ensures TxOk(w', other) {
      if e.Begin? && other == e.t {
        NothingCurrent(w.db, w.locks, other);
      } else {
        assert TxOk(w, other);
        match e
        case Begin(_, _) =>
        case TakeLock(t) => LockStep(w, t, NextOf(w, t).key, other, w');
        case PickMailbox(t, b) => PickStep(w, t, b, other, w');
        case Commits(t) => CommitStep(w, t, other);
        case Ends(t) => ReleaseKeepsCurrent(w.db, w.locks, t, other, w.txs[other].copies);
        case Purges(ids) => PurgeKeepsCurrent(w, ids, other, w.txs[other].copies);
      }
    }
  }

  lemma NothingCurrent(db: Tables, locks: map<Key, nat>, t: nat)
    ensures Current(db, locks, t, NOTHING)
  {
  }

  lemma LockStep(w: World, t: nat, k: Key, other: nat, w': World)
    requires LocksOk(w) && t in w.txs && other in w.txs && Has(w.db, k) && (k in w.locks ==> w.locks[k] == t)
    requires w' == w.(locks := w.locks[k := t], txs := w.txs[t := w.txs[t].(copies := Read(w.txs[t].copies, w.db, k))])
    ensures TxOk(w', other)
  {
    assert TxOk(w, t) && TxOk(w, other);
    if other == t {
      ReadKeepsCurrent(w.db, w.locks, t, w.txs[t].copies, k);
      ReadKeepsPick(w, t, k);
    } else {
      hide Current;
      CurrentWithMoreLocks(w.db, w.locks, t, other, w.txs[other].copies, k);
    }
  }

  lemma ReadKeepsPick(w: World, t: nat, k: Key)
    requires t in w.txs && TxOk(w, t) && Has(w.db, k)
    ensures PickOk(w.txs[t].(copies := Read(w.txs[t].copies, w.db, k)))
  {
    var tx := w.txs[t];
    if tx.picked.Some? {
      assert Has(tx.copies, MailboxKey(tx.picked.value));
    }
  }

  lemma PickStep(w: World, t: nat, b: string, other: nat, w': World)
    requires LocksOk(w) && t in w.txs && other in w.txs && w.txs[t].op.CreateOrder? && MailboxKey(b) !in w.locks
    requires b in w.db.mailboxes && Leasable(w.db.mailboxes[b], w.txs[t].op)
    requires w' == w.(locks := w.locks[MailboxKey(b) := t],
                      txs := w.txs[t := w.txs[t].(picked := Some(b),
                                                  copies := Read(w.txs[t].copies, w.db, MailboxKey(b)))])
    ensures TxOk(w', other)
  {
    assert TxOk(w, t) && TxOk(w, other);
    if other == t {
      ReadKeepsCurrent(w.db, w.locks, t, w.txs[t].copies, MailboxKey(b));
    } else {
      hide Current;
      CurrentWithMoreLocks(w.db, w.locks, t, other, w.txs[other].copies, MailboxKey(b));
    }
  }

  lemma ReleaseKeepsCurrent(db: Tables, locks: map<Key, nat>, t: nat, other: nat, copies: Tables)
    requires Current(db, locks, other, copies) && t != other
    ensures Current(db, Released(locks, t), other, copies)
  {
  }

  /** Rows that others hold are not deleted. */
  lemma PurgeKeepsCurrent(w: World, ids: set<string>, other: nat, copies: Tables)
    requires Current(w.db, w.locks, other, copies) && Purgeable(w, ids)
    ensures Current(Purged(w.db, ids), w.locks, other, copies)
  {
  }

  lemma CommitStep(w: World, t: nat, other: nat)
    requires LocksOk(w) && t in w.txs && other in w.txs && t != other && NextOf(w, t).Commit?
    requires Insert(w.txs[t].op).Some? ==> !Has(w.db, Insert(w.txs[t].op).value)
    ensures Current(Write(w.db, NextOf(w, t).writes), Released(w.locks, t), other, w.txs[other].copies)
  {
    hide Next, Has, Write, Agree, Current, Released, Leasable;
    var tx := w.txs[t];
    forall k | Has(NextOf(w, t).writes, k) ensures Has(tx.copies, k) || !Has(w.db, k) {
      WritesAreLocked(tx.op, tx.picked, tx.copies, k);
    }
    OthersStayCurrent(w, t, other, NextOf(w, t).writes);
  }

  // ---------------------------------------------------------------- refinement

  ghost predicate Within(c: Tables, db: Tables) {
    forall k :: Has(c, k) ==> Agree(c, db, k)
  }

  /** The copies are rows of the tables. */
  ghost predicate Part(c: Tables, db: Tables) {
    && (forall id :: id in c.users ==> id in db.users && db.users[id] == c.users[id])
    && (forall id :: id in c.orders ==> id in db.orders && db.orders[id] == c.orders[id])
    && (forall id :: id in c.mailboxes ==> id in db.mailboxes && db.mailboxes[id] == c.mailboxes[id])
    && (forall id :: id in c.slots ==> id in db.slots && db.slots[id] == c.slots[id])
    && (forall id :: id in c.payments ==> id in db.payments && db.payments[id] == c.payments[id])
  }

  lemma WithinIsPart(c: Tables, db: Tables)
    requires Within(c, db)
    ensures Part(c, db)
  {
    forall id | id in c.users ensures id in db.users && db.users[id] == c.users[id] { assert Has(c, UserKey(id)); }
    forall id | id in c.orders ensures id in db.orders && db.orders[id] == c.orders[id] { assert Has(c, OrderKey(id)); }
    forall id | id in c.mailboxes
      ensures id in db.mailboxes && db.mailboxes[id] == c.mailboxes[id] { assert Has(c, MailboxKey(id)); }
    forall id | id in c.slots ensures id in db.slots && db.slots[id] == c.slots[id] { assert Has(c, SlotKey(id)); }
    forall id | id in c.payments
      ensures id in db.payments && db.payments[id] == c.payments[id] { assert Has(c, PaymentKey(id)); }
  }

  lemma CreateAlone(op: Op, picked: Option<string>, c: Tables, db: Tables)
    requires op.CreateOrder? && Part(c, db) && NextCreate(op, picked, c).Commit?
    ensures NextCreate(op, picked, db) == NextCreate(op, picked, c)
  {
  }

  lemma RefundAlone(orderId: string, status: OrderStatus, c: Tables, db: Tables)
    requires Part(c, db) && orderId in c.orders && RefundKey(c.orders[orderId], c).None?
    ensures orderId in db.orders && RefundKey(db.orders[orderId], db).None?
    ensures RefundWrites(orderId, status, db) == RefundWrites(orderId, status, c)
      && RefundEntry(orderId, db) == RefundEntry(orderId, c)
  {
  }

  lemma ReceiveAlone(orderId: string, code: string, now: int, c: Tables, db: Tables)
    requires Part(c, db) && NextReceive(orderId, code, now, c).Commit?
    ensures NextReceive(orderId, code, now, db) == NextReceive(orderId, code, now, c)
  {
  }

  lemma VerifyAlone(mailboxId: string, connection: Connection, status: Verification, c: Tables, db: Tables)
    requires Part(c, db) && NextVerify(mailboxId, connection, status, c).Commit?
    ensures NextVerify(mailboxId, connection, status, db) == NextVerify(mailboxId, connection, status, c)
  {
    var m := c.mailboxes[mailboxId];
    if status == VerificationFailed && m.activeOrderId != "" && RefundKey(c.orders[m.activeOrderId], c).None? {
      RefundAlone(m.activeOrderId, OrderExpiredRefunded, c, db);
    }
    hide RefundWrites, RefundEntry, RefundKey, VerifiedRow;
  }

  lemma ReconcileAlone(orderId: string, mailboxId: string, c: Tables, db: Tables)
    requires Part(c, db) && NextReconcile(orderId, mailboxId, c).Commit?
    ensures NextReconcile(orderId, mailboxId, db) == NextReconcile(orderId, mailboxId, c)
  {
    if RefundKey(c.orders[orderId], c).None? {
      RefundAlone(orderId, OrderExpiredRefunded, c, db);
    }
    hide RefundWrites, RefundEntry, RefundKey;
  }

  lemma TopUpAlone(paymentId: string, paid: int, c: Tables, db: Tables)
    requires Part(c, db) && NextTopUp(paymentId, paid, c).Commit?
    ensures NextTopUp(paymentId, paid, db) == NextTopUp(paymentId, paid, c)
  {
  }

  /** A commit computed from private copies is the commit the same operation would make if it ran alone on the
      tables as they are at that moment: no update is lost. */
  lemma CommitAsIfAlone(op: Op, picked: Option<string>, c: Tables, db: Tables)
    requires Within(c, db) && Next(op, picked, c).Commit?
    ensures Next(op, picked, db) == Next(op, picked, c)
  {
    WithinIsPart(c, db);
    hide Within, Part, Next;
    if op.CancelOrder? || op.ReapOrder? {
      CancelAlone(op, picked, c, db);
    } else if OnManyRows(op) {
      ManyRowsAlone(op, picked, c, db);
    } else {
      SingleRowAlone(op, picked, c, db);
    }
  }

  lemma CancelAlone(op: Op, picked: Option<string>, c: Tables, db: Tables)
    requires Part(c, db) && Next(op, picked, c).Commit? && (op.CancelOrder? || op.ReapOrder?)
    ensures Next(op, picked, db) == Next(op, picked, c)
  {
    hide RefundWrites, RefundEntry, RefundKey;
    RefundAlone(op.orderId, if op.CancelOrder? then OrderCanceled else OrderExpiredRefunded, c, db);
  }

  lemma ManyRowsAlone(op: Op, picked: Option<string>, c: Tables, db: Tables)
    requires Part(c, db) && Next(op, picked, c).Commit? && OnManyRows(op) && !op.CancelOrder? && !op.ReapOrder?
    ensures Next(op, picked, db) == Next(op, picked, c)
  {
    hide Part, NextCreate, NextReceive, NextVerify, NextReconcile, NextTopUp, NextRefund;
    match op
    case CreateOrder(_, _, _, _, _, _) => CreateAlone(op, picked, c, db);
    case ReceiveCode(orderId, code, now) => ReceiveAlone(orderId, code, now, c, db);
    case VerifyMailbox(mailboxId, connection, status) => VerifyAlone(mailboxId, connection, status, c, db);
    case ReconcileOrder(orderId, mailboxId) => ReconcileAlone(orderId, mailboxId, c, db);
    case CompletePayment(paymentId, paid) => TopUpAlone(paymentId, paid, c, db);
  }

  lemma SingleRowAlone(op: Op, picked: Option<string>, c: Tables, db: Tables)
    requires Part(c, db) && Next(op, picked, c).Commit? && !OnManyRows(op)
    ensures Next(op, picked, db) == Next(op, picked, c)
  {
  }

  /** One operation, run alone on tables and ledger. */
  ghost predicate Alone(op: Op, picked: Option<string>, db: Tables, ledger: seq<Entry>, db': Tables,
                        ledger': seq<Entry>) {
    && WellFormed(op)
    && (Insert(op).Some? ==> !Has(db, Insert(op).value))
    && (picked.Some? ==> op.CreateOrder? && picked.value in db.mailboxes && Leasable(db.mailboxes[picked.value], op))
    && Next(op, picked, db).Commit?
    && db' == Write(db, Next(op, picked, db).writes)
    && ledger' == ledger + Next(op, picked, db).entries
  }

  /** Every step either leaves the committed data alone or is one whole operation or deletion on it: interleavings
      refine runs of operations executed one at a time, in commit order. */
  lemma StepRefines(w: World, e: Event, w': World)
    requires LocksOk(w) && Step(w, e, w')
    ensures if e.Commits?
            then e.t in w.txs && Alone(w.txs[e.t].op, w.txs[e.t].picked, w.db, w.ledger, w'.db, w'.ledger)
            else w'.ledger == w.ledger && w'.db == if e.Purges? then Purged(w.db, e.ids) else w.db
  {
    hide Next, Write, Leasable, Pickable;
    if e.Commits? {
      var tx := w.txs[e.t];
      assert TxOk(w, e.t);
      CommitAsIfAlone(tx.op, tx.picked, tx.copies, w.db);
      if tx.picked.Some? {
        assert Has(tx.copies, MailboxKey(tx.picked.value));
      }
    }
  }
}
