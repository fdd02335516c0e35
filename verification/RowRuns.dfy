/** What every interleaving of the transactions of Rows guarantees, however many run at once and wherever they stop.
    No step waits for the Redis allocation lock, so all of this holds whether or not that lock is still held. */
module RowRuns {
  import opened Domain
  import opened StoreModel
  import opened StoreInvariant
  import opened Rows
  import opened RowLocks
  import opened RowInvariant

  /** Any users, mailboxes and slots, before the first order and the first payment. */
  ghost predicate FreshWorld(w: World) {
    && w.ledger == [] && w.locks == map[] && w.txs == map[] && w.db.orders == map[] && w.db.payments == map[]
    && (forall u :: u in w.db.users ==> w.db.users[u].balance >= 0)
    && (forall b :: b in w.db.mailboxes ==> !MarkedLeased(w.db.mailboxes[b]))
    && (forall p :: p in w.db.slots ==> w.db.slots[p].state != SlotLeased)
  }

  function Opening(w: World): map<string, int> {
    map u | u in w.db.users :: w.db.users[u].balance
  }

  datatype Run = Run(worlds: seq<World>, events: seq<Event>)

  ghost predicate IsRun(r: Run) {
    && |r.worlds| == |r.events| + 1 && FreshWorld(r.worlds[0])
    && forall i :: 0 <= i < |r.events| ==> Step(r.worlds[i], r.events[i], r.worlds[i + 1])
  }

  /** What a reconciling transaction read of its order is still so. */
  ghost predicate OpsOk(w: World) {
    forall t :: t in w.txs && w.txs[t].op.ReconcileOrder? ==> ReadBefore(w.db, w.txs[t].op)
  }

  /** Holds in every reachable world. */
  ghost predicate WorldOk(opening: map<string, int>, w: World) {
    LocksOk(w) && OpsOk(w) && FundsOk(opening, w.db, w.ledger)
  }

  lemma FreshWorldOk(w: World)
    requires FreshWorld(w)
    ensures WorldOk(Opening(w), w) && LeasesOk(w.db)
  {
    forall u | u in w.db.users ensures BalanceOk(Opening(w), w.db, w.ledger, u) { }
  }

  /** The step commits an administrator's write of a mailbox row that changes or invents a lease. */
  predicate Harms(w: World, e: Event) {
    e.Commits? && e.t in w.txs && !Harmless(w.txs[e.t].op, w.db)
  }

  /** Every step keeps locks, money and ledger; it keeps leases and orders in correspondence if and only if it is not
      such a write. */
  lemma StepKeepsExactly(opening: map<string, int>, w: World, e: Event, w': World)
    requires WorldOk(opening, w) && Step(w, e, w')
    ensures WorldOk(opening, w')
    ensures LeasesOk(w.db) ==> (LeasesOk(w'.db) <==> !Harms(w, e))
  {
    StepKeepsOps(w, e, w');
    hide LocksOk, OpsOk, FundsOk, LeasesOk, Harmless, Step, Alone, Purged, Invalid;
    StepKeepsLocks(w, e, w');
    StepRefines(w, e, w');
    if e.Commits? {
      AloneKeepsExactly(opening, w.txs[e.t].op, w.txs[e.t].picked, w.db, w.ledger, w'.db, w'.ledger);
    } else if e.Purges? {
      PurgesInvalid(w, e, w');
      PurgeKeepsDb(opening, w.db, w.ledger, e.ids);
    }
  }

  lemma PurgesInvalid(w: World, e: Event, w': World)
    requires e.Purges? && Step(w, e, w')
    ensures forall b :: b in e.ids ==> b in w.db.mailboxes && Invalid(w.db.mailboxes[b])
  {
  }

  lemma StepKeepsOps(w: World, e: Event, w': World)
    requires LocksOk(w) && OpsOk(w) && Step(w, e, w')
    ensures OpsOk(w')
  {
    StepRefines(w, e, w');
    if e.Commits? {
      var tx := w.txs[e.t];
      hide LocksOk, Alone, Next, Write, Released;
      AloneStep(tx.op, tx.picked, w.db, w.ledger, w'.db, w'.ledger);
      forall t | t in w'.txs && w'.txs[t].op.ReconcileOrder? ensures ReadBefore(w'.db, w'.txs[t].op) {
        assert ReadBefore(w.db, w.txs[t].op);
        var id := w.txs[t].op.orderId;
        assert OrderStep(w.db.orders[id], w'.db.orders[id]);
      }
    } else {
      hide LocksOk, Next, Read, Released, Pickable;
    }
  }

  lemma {:induction false} RunKeepsWorld(r: Run, i: nat)
    requires IsRun(r) && i < |r.worlds|
    ensures WorldOk(Opening(r.worlds[0]), r.worlds[i])
  {
    hide WorldOk, Step, FreshWorld, LeasesOk, Harms;
    if i == 0 {
      FreshWorldOk(r.worlds[0]);
    } else {
      RunKeepsWorld(r, i - 1);
      StepKeepsExactly(Opening(r.worlds[0]), r.worlds[i - 1], r.events[i - 1], r.worlds[i]);
    }
  }

  /** No save of a mailbox row commits over a lease it has not seen, and none marks an idle mailbox as leased. */
  ghost predicate NoHarm(r: Run, n: nat)
    requires IsRun(r) && n < |r.worlds|
  {
    forall i :: 0 <= i < n ==> !Harms(r.worlds[i], r.events[i])
  }

  lemma {:induction false} RunKeepsLeases(r: Run, n: nat)
    requires IsRun(r) && n < |r.worlds| && NoHarm(r, n)
    ensures LeasesOk(r.worlds[n].db)
  {
    if n == 0 {
      FreshWorldOk(r.worlds[0]);
    } else {
      assert NoHarm(r, n - 1);
      RunKeepsLeases(r, n - 1);
      RunKeepsWorld(r, n - 1);
      assert Step(r.worlds[n - 1], r.events[n - 1], r.worlds[n]) && !Harms(r.worlds[n - 1], r.events[n - 1]);
      hide WorldOk, Step, FreshWorld, LeasesOk, Harms, IsRun;
      StepKeepsExactly(Opening(r.worlds[0]), r.worlds[n - 1], r.events[n - 1], r.worlds[n]);
    }
  }

  /** The first time leases and orders part is the commit of such a write, and every such commit is the end of it. */
  lemma LeasesLostExactly(r: Run, n: nat)
    requires IsRun(r) && n < |r.events| && LeasesOk(r.worlds[n].db)
    ensures LeasesOk(r.worlds[n + 1].db) <==> !Harms(r.worlds[n], r.events[n])
  {
    RunKeepsWorld(r, n);
    assert Step(r.worlds[n], r.events[n], r.worlds[n + 1]);
    hide WorldOk, Step, FreshWorld, LeasesOk, Harms, IsRun;
    StepKeepsExactly(Opening(r.worlds[0]), r.worlds[n], r.events[n], r.worlds[n + 1]);
  }

  // ---------------------------------------------------------------- saves of mailbox rows

  /** Every row that names an order is marked as leased, and so was every row an open save has read. */
  ghost predicate ReadsNamed(w: World) {
    NamedRows(w.db) && forall t :: t in w.txs && SavesRow(w.txs[t].op) ==> NamedIsLeased(w.txs[t].op.read)
  }

  lemma StepKeepsNamed(w: World, e: Event, w': World)
    requires LocksOk(w) && ReadsNamed(w) && Step(w, e, w')
    ensures ReadsNamed(w')
  {
    StepRefines(w, e, w');
    if e.Commits? {
      AloneKeepsNamed(w.txs[e.t].op, w.txs[e.t].picked, w.db, w.ledger, w'.db, w'.ledger);
    }
    hide LocksOk, Alone, Next, Write, Read, Released, Pickable, NamedIsLeased, WellFormed;
  }

  /** This holds in every run, whatever the saves do. */
  lemma {:induction false} RunKeepsNamed(r: Run, n: nat)
    requires IsRun(r) && n < |r.worlds|
    ensures ReadsNamed(r.worlds[n])
  {
    if n > 0 {
      RunKeepsNamed(r, n - 1);
      RunKeepsWorld(r, n - 1);
      assert Step(r.worlds[n - 1], r.events[n - 1], r.worlds[n]);
      hide Step, FreshWorld, ReadsNamed, IsRun, LocksOk;
      StepKeepsNamed(r.worlds[n - 1], r.events[n - 1], r.worlds[n]);
    }
  }

  /** The step commits the save `op` of a mailbox row. */
  predicate CommitsSave(w: World, e: Event, op: Op) {
    SavesRow(op) && e.Commits? && e.t in w.txs && w.txs[e.t].op == op
  }

  /** In every run: a save that commits while leases and orders correspond parts them if and only if the stored row
      names another order than the row the save read, or none and the save leaves it marked as leased. */
  lemma SaveLosesExactly(r: Run, n: nat, op: Op)
    requires IsRun(r) && n < |r.events| && CommitsSave(r.worlds[n], r.events[n], op) && LeasesOk(r.worlds[n].db)
    ensures LeasesOk(r.worlds[n + 1].db) <==> !Misses(op.read, op.edit, StoredOrder(r.worlds[n].db, op.mailboxId))
  {
    var w := r.worlds[n];
    RunKeepsNamed(r, n);
    LeasesLostExactly(r, n);
    assert Step(w, r.events[n], r.worlds[n + 1]);
    RunKeepsWorld(r, n);
    SaveFindsRow(w, r.events[n], r.worlds[n + 1], op);
    hide IsRun, WorldOk, Step, LeasesOk, Harmless, Misses, StoredOrder;
    SaveHarmsExactly(op, w.db);
  }

  lemma SaveFindsRow(w: World, e: Event, w': World, op: Op)
    requires LocksOk(w) && Step(w, e, w') && CommitsSave(w, e, op)
    ensures op.mailboxId in w.db.mailboxes <==> op.SaveMailbox?
  {
    assert TxOk(w, e.t);
    if op.SaveMailbox? { assert Has(w.txs[e.t].copies, MailboxKey(op.mailboxId)); }
  }

  /** As long as no save has parted them, the rows that open saves have read are whole. */
  lemma {:induction false} ReadsWhole(r: Run, n: nat, t: nat)
    requires IsRun(r) && n < |r.worlds| && NoHarm(r, n) && t in r.worlds[n].txs && SavesRow(r.worlds[n].txs[t].op)
    ensures Whole(r.worlds[n].txs[t].op.read)
  {
    if n > 0 {
      var w, e, w' := r.worlds[n - 1], r.events[n - 1], r.worlds[n];
      assert Step(w, e, w') && NoHarm(r, n - 1);
      if t in w.txs && w.txs[t].op == w'.txs[t].op {
        hide Step, IsRun, FreshWorld;
        ReadsWhole(r, n - 1, t);
      } else {
        RunKeepsLeases(r, n - 1);
        RowsAreWhole(w.db, w'.txs[t].op.mailboxId);
      }
    }
  }

  /** Up to and including the first such save the condition is simpler: the order has changed, or the save asks for
      the state leased on an idle mailbox. */
  lemma FirstLossExactly(r: Run, n: nat, op: Op)
    requires IsRun(r) && n < |r.events| && CommitsSave(r.worlds[n], r.events[n], op) && NoHarm(r, n)
    ensures LeasesOk(r.worlds[n + 1].db)
       <==> op.read.activeOrderId == StoredOrder(r.worlds[n].db, op.mailboxId)
            && !(op.read.activeOrderId == "" && op.edit.state == Some(MailboxLeased))
  {
    RunKeepsLeases(r, n);
    ReadsWhole(r, n, r.events[n].t);
    SaveLosesExactly(r, n, op);
    hide IsRun, LeasesOk, NoHarm;
    WholeReadMisses(op.read, op.edit, StoredOrder(r.worlds[n].db, op.mailboxId));
  }

  // ---------------------------------------------------------------- leases

  /** Transaction `t` has picked mailbox `b` and not committed. */
  predicate Allocating(w: World, t: nat, b: string) {
    t in w.txs && w.txs[t].picked == Some(b)
  }

  lemma AllocatingHolds(w: World, t: nat, b: string)
    requires LocksOk(w) && Allocating(w, t, b)
    ensures MailboxKey(b) in w.locks && w.locks[MailboxKey(b)] == t
    ensures b in w.db.mailboxes && !MarkedLeased(w.db.mailboxes[b])
  {
    assert TxOk(w, t);
    assert Has(w.txs[t].copies, MailboxKey(b));
  }

  /** As long as no administrator's write has changed or invented a lease, no mailbox is held by two active orders, by
      an active order and an uncommitted allocation, or by two uncommitted allocations. */
  lemma NoDoubleLease(r: Run, i: nat)
    requires IsRun(r) && i < |r.worlds| && NoHarm(r, i)
    ensures var w := r.worlds[i];
      && (forall a, b | a in w.db.orders && b in w.db.orders && a != b && ActiveRow(w.db.orders[a])
          && ActiveRow(w.db.orders[b]) ::
            w.db.orders[a].mailboxId != w.db.orders[b].mailboxId)
      && (forall t, m, a | Allocating(w, t, m) && a in w.db.orders && ActiveRow(w.db.orders[a]) ::
          w.db.orders[a].mailboxId != m)
      && (forall t, t', m | Allocating(w, t, m) && Allocating(w, t', m) :: t == t')
  {
    RunKeepsWorld(r, i);
    RunKeepsLeases(r, i);
    var w := r.worlds[i];
    hide IsRun, NoHarm, LocksOk, OpsOk, FundsOk, Allocating;
    forall t, m | Allocating(w, t, m)
      ensures MailboxKey(m) in w.locks && w.locks[MailboxKey(m)] == t && m in w.db.mailboxes
        && !MarkedLeased(w.db.mailboxes[m])
    {
      AllocatingHolds(w, t, m);
    }
    forall a | a in w.db.orders && ActiveRow(w.db.orders[a])
      ensures LeasesRow(w.db.orders[a], a, w.db.mailboxes, w.db.slots) { }
  }

  // ---------------------------------------------------------------- the ledger

  predicate NoLineBetween(ledger: seq<Entry>, i: int, j: nat, u: string)
    requires -1 <= i < j <= |ledger|
  {
    forall k :: i < k < j ==> ledger[k].userId != u
  }

  lemma {:induction false} SumOverGap(ledger: seq<Entry>, i: int, j: nat, u: string)
    requires -1 <= i < j <= |ledger| && NoLineBetween(ledger, i, j, u)
    ensures Sum(ledger[..j], OfUser(u)) == Sum(ledger[..i + 1], OfUser(u))
    decreases j
  {
    if j > i + 1 {
      assert ledger[..j] == ledger[..j - 1] + [ledger[j - 1]];
      SumSnoc(ledger[..j - 1], ledger[j - 1], OfUser(u));
      if j - 1 > i {
        if j - 1 > 0 { SumOverGap(ledger, i, j - 1, u); }
      }
    }
  }

  /** The balance a user's line `i` states, or, before the first line, the balance the user opened with. */
  function Stated(opening: map<string, int>, ledger: seq<Entry>, i: int, u: string): int
    requires -1 <= i < |ledger|
  {
    if i == -1 then Opened(opening, u) else ledger[i].balanceAfter
  }

  /** Each line states its owner's previous balance plus its amount, the first one starting from the opening balance;
      the last line, or the opening balance if there is none, is the stored balance; nothing is negative. */
  lemma LedgerReplays(r: Run, n: nat, i: int, j: nat, u: string)
    requires IsRun(r) && n < |r.worlds| && -1 <= i < j <= |r.worlds[n].ledger| && u in r.worlds[n].db.users
    requires (i == -1 || r.worlds[n].ledger[i].userId == u) && NoLineBetween(r.worlds[n].ledger, i, j, u)
    ensures var w := r.worlds[n]; var stated := Stated(Opening(r.worlds[0]), w.ledger, i, u);
      && (i >= 0 ==> stated >= 0) && w.db.users[u].balance >= 0
      && (j < |w.ledger| && w.ledger[j].userId == u ==> w.ledger[j].balanceAfter == stated + w.ledger[j].amount)
      && (j == |w.ledger| ==> stated == w.db.users[u].balance)
  {
    RunKeepsWorld(r, n);
    hide IsRun, WorldOk;
    LedgerFacts(Opening(r.worlds[0]), r.worlds[n], u);
    LinesReplay(Opening(r.worlds[0]), r.worlds[n].ledger, i, j, u);
  }

  lemma LinesReplay(opening: map<string, int>, ledger: seq<Entry>, i: int, j: nat, u: string)
    requires LinesOk(opening, ledger) && -1 <= i < j <= |ledger| && NoLineBetween(ledger, i, j, u)
    requires i == -1 || ledger[i].userId == u
    ensures i >= 0 ==> Stated(opening, ledger, i, u) >= 0
    ensures j < |ledger| && ledger[j].userId == u ==>
      ledger[j].balanceAfter == Stated(opening, ledger, i, u) + ledger[j].amount
    ensures j == |ledger| ==> Stated(opening, ledger, i, u) == Opened(opening, u) + Sum(ledger, OfUser(u))
  {
    assert i >= 0 ==> LineOk(opening, ledger, i);
    SumOverGap(ledger, i, j, u);
    StatedIsSum(opening, ledger, i, u);
    hide NoLineBetween, Opened;
    if j < |ledger| {
      assert LineOk(opening, ledger, j);
      assert ledger[..j + 1] == ledger[..j] + [ledger[j]];
      SumSnoc(ledger[..j], ledger[j], OfUser(u));
    } else {
      assert ledger[..j] == ledger;
    }
  }

  lemma LedgerFacts(opening: map<string, int>, w: World, u: string)
    requires WorldOk(opening, w) && u in w.db.users
    ensures LinesOk(opening, w.ledger) && BalanceOk(opening, w.db, w.ledger, u) && w.db.users[u].balance >= 0
  {
  }

  lemma StatedIsSum(opening: map<string, int>, ledger: seq<Entry>, i: int, u: string)
    requires -1 <= i < |ledger| && (i >= 0 ==> LineOk(opening, ledger, i) && ledger[i].userId == u)
    ensures Stated(opening, ledger, i, u) == Opened(opening, u) + Sum(ledger[..i + 1], OfUser(u))
  {
  }

  /** The ledger lines of an order add up to minus its price, or to nothing once it is canceled or expired: it is
      charged once and given back at most once. */
  lemma OrderChargedOnce(r: Run, n: nat, id: string)
    requires IsRun(r) && n < |r.worlds| && id in r.worlds[n].db.orders
    ensures var w := r.worlds[n]; var o := w.db.orders[id];
      Sum(w.ledger, OfOrder(id)) == if RefundStatus(o.status) then 0 else -o.price
  {
    RunKeepsWorld(r, n);
    var w := r.worlds[n];
    hide IsRun, LocksOk, OpsOk;
    assert OrderPaidOk(w.db.orders[id], w.db.users);
  }

  // ---------------------------------------------------------------- how rows change

  predicate CodedRow(o: OrderRow) {
    o.status == OrderCodeReceived || o.status == OrderCompleted
  }

  /** Identity and price never change; a refunded order never changes; a code, once there, stays. */
  predicate OrderStep(a: OrderRow, b: OrderRow) {
    SameOrder(a, b) && (RefundStatus(a.status) ==> b == a) && (CodedRow(a) ==> CodedRow(b) && b.code == a.code)
  }

  predicate Settled(p: PaymentRow) {
    p.status == PaymentCompleted || p.status == PaymentCanceled
  }

  predicate PaymentStep(a: PaymentRow, b: PaymentRow) {
    a.userId == b.userId && a.amount == b.amount && (Settled(a) ==> b == a)
  }

  ghost predicate RowsStep(db: Tables, db': Tables) {
    && (forall id :: id in db.orders ==> id in db'.orders && OrderStep(db.orders[id], db'.orders[id]))
    && (forall id :: id in db.payments ==> id in db'.payments && PaymentStep(db.payments[id], db'.payments[id]))
  }

  /** Rows that a statement overwrites change in the allowed direction. */
  ghost predicate Steps(op: Op, writes: Tables, db: Tables) {
    && (forall id :: id in writes.orders && id in db.orders && Insert(op) != Some(OrderKey(id)) ==>
          OrderStep(db.orders[id], writes.orders[id]))
    && (forall id :: id in writes.payments && id in db.payments && Insert(op) != Some(PaymentKey(id)) ==>
          PaymentStep(db.payments[id], writes.payments[id]))
  }

  lemma WritesStep(op: Op, picked: Option<string>, db: Tables)
    requires Next(op, picked, db).Commit?
    ensures Steps(op, Next(op, picked, db).writes, db)
  {
    hide Next, Steps;
    if OnManyRows(op) { ManyRowsStep(op, picked, db); } else { SingleRowStep(op, picked, db); }
  }

  lemma ManyRowsStep(op: Op, picked: Option<string>, db: Tables)
    requires Next(op, picked, db).Commit? && OnManyRows(op)
    ensures Steps(op, Next(op, picked, db).writes, db)
  {
    hide Next, Steps;
    if op.CreateOrder? || op.ReceiveCode? || op.CompletePayment? {
      FixedRowsStep(op, picked, db);
    } else {
      RefundRowsStep(op, picked, db);
    }
  }

  lemma FixedRowsStep(op: Op, picked: Option<string>, db: Tables)
    requires Next(op, picked, db).Commit? && (op.CreateOrder? || op.ReceiveCode? || op.CompletePayment?)
    ensures Steps(op, Next(op, picked, db).writes, db)
  {
  }

  lemma RefundRowsStep(op: Op, picked: Option<string>, db: Tables)
    requires Next(op, picked, db).Commit?
    requires op.CancelOrder? || op.ReapOrder? || op.VerifyMailbox? || op.ReconcileOrder?
    ensures Steps(op, Next(op, picked, db).writes, db)
  {
    hide ReleaseSlot, VerifiedRow, RefundEntry;
  }

  lemma SingleRowStep(op: Op, picked: Option<string>, db: Tables)
    requires Next(op, picked, db).Commit? && !OnManyRows(op)
    ensures Steps(op, Next(op, picked, db).writes, db)
  {
  }

  lemma WriteStep(db: Tables, writes: Tables)
    requires forall id :: id in writes.orders && id in db.orders ==> OrderStep(db.orders[id], writes.orders[id])
    requires forall id :: id in writes.payments && id in db.payments ==>
      PaymentStep(db.payments[id], writes.payments[id])
    ensures RowsStep(db, Write(db, writes))
  {
    hide OrderStep, PaymentStep;
    forall o: OrderRow ensures OrderStep(o, o) { SameOrderStep(o); }
    forall p: PaymentRow ensures PaymentStep(p, p) { SamePaymentStep(p); }
  }

  lemma SameOrderStep(o: OrderRow)
    ensures OrderStep(o, o)
  {
  }

  lemma SamePaymentStep(p: PaymentRow)
    ensures PaymentStep(p, p)
  {
  }

  lemma AloneStep(op: Op, picked: Option<string>, db: Tables, ledger: seq<Entry>, db': Tables, ledger': seq<Entry>)
    requires Alone(op, picked, db, ledger, db', ledger')
    ensures RowsStep(db, db') && ledger <= ledger'
  {
    WritesStep(op, picked, db);
    hide Next, Leasable, WellFormed, Write, RowsStep, OrderStep, PaymentStep;
    WriteStep(db, Next(op, picked, db).writes);
  }

  lemma PurgeStep(db: Tables, ids: set<string>)
    ensures RowsStep(db, Purged(db, ids))
  {
  }

  lemma RowsStepTrans(a: Tables, b: Tables, c: Tables)
    requires RowsStep(a, b) && RowsStep(b, c)
    ensures RowsStep(a, c)
  {
    forall id | id in a.orders ensures id in c.orders && OrderStep(a.orders[id], c.orders[id]) {
      assert OrderStep(a.orders[id], b.orders[id]) && OrderStep(b.orders[id], c.orders[id]);
    }
    forall id | id in a.payments ensures id in c.payments && PaymentStep(a.payments[id], c.payments[id]) {
      assert PaymentStep(a.payments[id], b.payments[id]) && PaymentStep(b.payments[id], c.payments[id]);
    }
  }

  lemma {:induction false} RunSteps(r: Run, i: nat, j: nat)
    requires IsRun(r) && i <= j < |r.worlds|
    ensures RowsStep(r.worlds[i].db, r.worlds[j].db) && r.worlds[i].ledger <= r.worlds[j].ledger
    decreases j - i
  {
    if i < j {
      RunSteps(r, i, j - 1);
      var w, e, w' := r.worlds[j - 1], r.events[j - 1], r.worlds[j];
      assert Step(w, e, w');
      hide Step, WorldOk, FreshWorld, RowsStep, LocksOk, IsRun;
      RunKeepsWorld(r, j - 1);
      WorldLocks(Opening(r.worlds[0]), w);
      WorldStep(w, e, w');
      RowsStepTrans(r.worlds[i].db, w.db, w'.db);
    }
  }

  lemma WorldStep(w: World, e: Event, w': World)
    requires LocksOk(w) && Step(w, e, w')
    ensures RowsStep(w.db, w'.db) && w.ledger <= w'.ledger
  {
    hide Step, Alone, RowsStep, LocksOk, Purged;
    StepRefines(w, e, w');
    if e.Commits? {
      AloneStep(w.txs[e.t].op, w.txs[e.t].picked, w.db, w.ledger, w'.db, w'.ledger);
    } else if e.Purges? {
      PurgeStep(w.db, e.ids);
    } else {
      PurgeStep(w.db, {});
      PurgesNothing(w.db);
    }
  }

  lemma PurgesNothing(db: Tables)
    ensures Purged(db, {}) == db
  {
    assert db.mailboxes - {} == db.mailboxes;
  }

  /** An order keeps its owner, mailbox, platform and price; once refunded it never changes again, and once it has a
      code it keeps that code and is never refunded. */
  lemma OrderSettlesOnce(r: Run, i: nat, j: nat, id: string)
    requires IsRun(r) && i <= j < |r.worlds| && id in r.worlds[i].db.orders
    ensures id in r.worlds[j].db.orders
    ensures var a := r.worlds[i].db.orders[id]; var b := r.worlds[j].db.orders[id];
      && SameOrder(a, b) && (a.refunded ==> b == a) && (CodedRow(a) ==> CodedRow(b) && b.code == a.code && !b.refunded)
  {
    RunSteps(r, i, j);
    RunKeepsWorld(r, i);
    RunKeepsWorld(r, j);
    hide IsRun, WorldOk, OrderStep;
    PaidInWorld(Opening(r.worlds[0]), r.worlds[i], id);
    PaidInWorld(Opening(r.worlds[0]), r.worlds[j], id);
    SettledSteps(r.worlds[i].db.orders[id], r.worlds[j].db.orders[id]);
  }

  lemma PaidInWorld(opening: map<string, int>, w: World, id: string)
    requires WorldOk(opening, w) && id in w.db.orders
    ensures w.db.orders[id].refunded <==> RefundStatus(w.db.orders[id].status)
  {
    assert OrderPaidOk(w.db.orders[id], w.db.users);
  }

  lemma SettledSteps(a: OrderRow, b: OrderRow)
    requires OrderStep(a, b) && (a.refunded <==> RefundStatus(a.status)) && (b.refunded <==> RefundStatus(b.status))
    ensures SameOrder(a, b) && (a.refunded ==> b == a)
    ensures CodedRow(a) ==> CodedRow(b) && b.code == a.code && !b.refunded
  {
  }

  lemma WorldLocks(opening: map<string, int>, w: World)
    requires WorldOk(opening, w)
    ensures LocksOk(w)
  {
  }

  // ---------------------------------------------------------------- payments

  /** A payment has brought exactly its amount if completed and nothing otherwise. Once completed or canceled it
      stays so, with the same total, whatever callbacks, cancellations and expiries follow. */
  lemma PaymentCreditedOnce(r: Run, i: nat, j: nat, id: string)
    requires IsRun(r) && i <= j < |r.worlds| && id in r.worlds[i].db.payments
    ensures var a := r.worlds[i].db.payments[id]; var w := r.worlds[j];
      && id in w.db.payments
      && Sum(r.worlds[i].ledger, OfPayment(id)) == (if a.status == PaymentCompleted then a.amount else 0)
      && (Settled(a) ==>
            w.db.payments[id] == a && Sum(w.ledger, OfPayment(id)) == Sum(r.worlds[i].ledger, OfPayment(id)))
  {
    RunKeepsWorld(r, i);
    RunKeepsWorld(r, j);
    RunSteps(r, i, j);
    hide IsRun, LocksOk, OpsOk, LinesOk;
    assert PaymentStep(r.worlds[i].db.payments[id], r.worlds[j].db.payments[id]);
  }

  /** The step adds a ledger line of the payment. */
  ghost predicate Credits(w: World, w': World, id: string) {
    exists k :: |w.ledger| <= k < |w'.ledger| && w'.ledger[k].paymentId == id
  }

  /** The step commits a callback on the payment that finds it pending, paid or expired and brings its exact amount. */
  predicate AcceptsCallback(w: World, e: Event, id: string) {
    && e.Commits? && e.t in w.txs && w.txs[e.t].op.CompletePayment? && w.txs[e.t].op.paymentId == id
    && id in w.db.payments && w.db.payments[id].status in {PaymentPending, PaymentPaid, PaymentExpired}
    && w.txs[e.t].op.paid == w.db.payments[id].amount
  }

  /** A payment gains a ledger line exactly at the commit of such a callback: one line, of its amount, to its payer; and
      with it the payment becomes completed. A replay on a completed payment never writes, whatever it brings. */
  lemma CallbackCreditsExactly(w: World, e: Event, w': World, id: string)
    requires LocksOk(w) && Step(w, e, w') && id != ""
    ensures Credits(w, w', id) <==> AcceptsCallback(w, e, id)
    ensures AcceptsCallback(w, e, id) ==>
      && var p := w.db.payments[id];
      && id in w'.db.payments && w'.db.payments[id] == p.(status := PaymentCompleted)
      && p.userId in w.db.users
      && w'.ledger == w.ledger + [Entry(p.userId, "", id, p.amount, w.db.users[p.userId].balance + p.amount)]
  {
    hide LocksOk, Step, Alone, Next, Credits, Purged;
    StepRefines(w, e, w');
    if e.Commits? {
      var tx := w.txs[e.t];
      AloneCommits(tx.op, tx.picked, w, w');
      var entries := Next(tx.op, tx.picked, w.db).entries;
      if tx.op.CompletePayment? && tx.op.paymentId == id {
        CallbackLine(tx.op, tx.picked, w.db);
        assert entries[0].paymentId == id;
      } else {
        OtherLines(tx.op, tx.picked, w.db, id);
      }
      CreditsByEntries(w, w', entries, id);
    } else {
      CreditsByEntries(w, w', [], id);
    }
  }

  lemma AloneCommits(op: Op, picked: Option<string>, w: World, w': World)
    requires Alone(op, picked, w.db, w.ledger, w'.db, w'.ledger)
    ensures Next(op, picked, w.db).Commit?
    ensures w'.db == Write(w.db, Next(op, picked, w.db).writes)
      && w'.ledger == w.ledger + Next(op, picked, w.db).entries
  {
    hide Next, Write;
  }

  lemma CreditsByEntries(w: World, w': World, entries: seq<Entry>, id: string)
    requires w'.ledger == w.ledger + entries
    ensures Credits(w, w', id) <==> exists k :: 0 <= k < |entries| && entries[k].paymentId == id
  {
    if k :| 0 <= k < |entries| && entries[k].paymentId == id {
      assert w'.ledger[|w.ledger| + k] == entries[k];
    }
    if Credits(w, w', id) {
      var k :| |w.ledger| <= k < |w'.ledger| && w'.ledger[k].paymentId == id;
      assert w'.ledger[k] == entries[k - |w.ledger|];
    }
  }

  /** Only a callback writes a line of a payment. */
  lemma OtherLines(op: Op, picked: Option<string>, db: Tables, id: string)
    requires Next(op, picked, db).Commit? && id != "" && !(op.CompletePayment? && op.paymentId == id)
    ensures forall k :: 0 <= k < |Next(op, picked, db).entries| ==> Next(op, picked, db).entries[k].paymentId != id
  {
    hide RefundWrites, VerifiedRow, ReleaseSlot;
  }

  lemma CallbackLine(op: Op, picked: Option<string>, db: Tables)
    requires Next(op, picked, db).Commit? && op.CompletePayment?
    ensures op.paymentId in db.payments && var p := db.payments[op.paymentId];
      && p.status in {PaymentPending, PaymentPaid, PaymentExpired} && op.paid == p.amount && p.userId in db.users
      && Next(op, picked, db).writes.payments == map[op.paymentId := p.(status := PaymentCompleted)]
      && Next(op, picked, db).entries
        == [Entry(p.userId, "", op.paymentId, p.amount, db.users[p.userId].balance + p.amount)]
  {
  }

  // ---------------------------------------------------------------- failed verification

  /** When a failed verification commits, the mailbox has no order and no leased slot, is unusable, and the owner of
      the order it had gets the price back in the same commit, once. */
  lemma FailedVerificationReleases(opening: map<string, int>, w: World, t: nat, w': World)
    requires WorldOk(opening, w) && LeasesOk(w.db) && Step(w, Commits(t), w')
    requires w.txs[t].op.VerifyMailbox? && w.txs[t].op.status == VerificationFailed
    ensures var b := w.txs[t].op.mailboxId;
      && b in w.db.mailboxes && b in w'.db.mailboxes
      && w'.db.mailboxes[b].activeOrderId == "" && w'.db.mailboxes[b].verification == VerificationFailed
      && (if w.db.mailboxes[b].state == MailboxBlocked then w'.db.mailboxes[b].state == MailboxBlocked
          else w'.db.mailboxes[b].state == MailboxError && w'.db.mailboxes[b].healthScore == 0)
      && (forall id | id in w'.db.orders && ActiveRow(w'.db.orders[id]) :: w'.db.orders[id].mailboxId != b)
      && (forall v | (b, v) in w'.db.slots :: w'.db.slots[(b, v)].state != SlotLeased)
      && var a := w.db.mailboxes[b].activeOrderId;
      && (a == "" ==> w'.db.users == w.db.users && w'.ledger == w.ledger)
      && (a != "" ==>
            && a in w.db.orders && a in w'.db.orders && w'.db.orders[a].status == OrderExpiredRefunded
            && var o := w.db.orders[a];
            && o.userId in w.db.users && w'.db.users == w.db.users[o.userId := Paid(w.db.users[o.userId], o.price)]
            && w'.ledger == w.ledger + [RefundEntry(a, w.db)])
  {
    hide *;
    var op := VerificationCommit(opening, w, t, w');
    FailedVerificationWrites(w.db, op.mailboxId, op.connection);
    FailedRow(w.db.mailboxes[op.mailboxId], op.connection);
    UnmarkedIsFree(w'.db, op.mailboxId);
  }

  lemma VerificationCommit(opening: map<string, int>, w: World, t: nat, w': World) returns (op: Op)
    requires WorldOk(opening, w) && LeasesOk(w.db) && Step(w, Commits(t), w') && w.txs[t].op.VerifyMailbox?
    ensures op == w.txs[t].op && MoneyRows(w.db) && LeasesOk(w'.db)
    ensures var a := NextVerify(op.mailboxId, op.connection, op.status, w.db);
      a.Commit? && w'.db == Write(w.db, a.writes) && w'.ledger == w.ledger + a.entries
  {
    hide LocksOk, OpsOk, LeasesOk, LedgerOk, NextVerify, Write;
    op := w.txs[t].op;
    StepRefines(w, Commits(t), w');
    StepKeepsExactly(opening, w, Commits(t), w');
    AloneCommits(op, w.txs[t].picked, w, w');
    assert Next(op, w.txs[t].picked, w.db) == NextVerify(op.mailboxId, op.connection, op.status, w.db);
  }

  lemma FailedRow(m: MailboxRow, connection: Connection)
    ensures var row := VerifiedRow(m, connection, VerificationFailed);
      && row.activeOrderId == "" && row.verification == VerificationFailed
      && (if m.state == MailboxBlocked then row.state == MailboxBlocked
          else row.state == MailboxError && row.healthScore == 0)
  {
  }

  lemma FailedVerificationWrites(db: Tables, b: string, connection: Connection)
    requires LeasesOk(db) && MoneyRows(db) && NextVerify(b, connection, VerificationFailed, db).Commit?
    ensures b in db.mailboxes
    ensures var action := NextVerify(b, connection, VerificationFailed, db); var t := Write(db, action.writes);
      var a := db.mailboxes[b].activeOrderId;
      && b in t.mailboxes && t.mailboxes[b] == VerifiedRow(db.mailboxes[b], connection, VerificationFailed)
      && !MarkedLeased(t.mailboxes[b])
      && (a == "" ==> t.users == db.users && action.entries == [])
      && (a != "" ==>
            && a in db.orders && a in t.orders && t.orders[a].status == OrderExpiredRefunded
            && var o := db.orders[a];
            && o.userId in db.users && t.users == db.users[o.userId := Paid(db.users[o.userId], o.price)]
            && action.entries == [RefundEntry(a, db)])
  {
    var row := VerifiedRow(db.mailboxes[b], connection, VerificationFailed);
    if db.mailboxes[b].activeOrderId != "" {
      var a := db.mailboxes[b].activeOrderId;
      FailedVerificationCommits(db, b, connection);
      WriteOfRefund(a, OrderExpiredRefunded, map[b := row], db);
      hide LeasesOk, MoneyRows, Write, NextVerify, VerifiedRow, RefundWrites;
    } else {
      if MarkedLeased(db.mailboxes[b]) { NamedOrderIsActive(db, b); }
      WriteMailbox(db, b, row);
      hide LeasesOk, MoneyRows, Write;
    }
  }

  lemma UnmarkedIsFree(db: Tables, b: string)
    requires LeasesOk(db) && b in db.mailboxes && !MarkedLeased(db.mailboxes[b])
    ensures forall id | id in db.orders && ActiveRow(db.orders[id]) :: db.orders[id].mailboxId != b
    ensures forall v | (b, v) in db.slots :: db.slots[(b, v)].state != SlotLeased
  {
    forall id | id in db.orders && ActiveRow(db.orders[id]) ensures db.orders[id].mailboxId != b {
      assert LeasesRow(db.orders[id], id, db.mailboxes, db.slots);
    }
  }

  // ---------------------------------------------------------------- consumed slots

  /** The commit creates an order on the pair. */
  predicate CreatesOn(w: World, e: Event, p: Pair) {
    && e.Commits? && e.t in w.txs && w.txs[e.t].op.CreateOrder? && w.txs[e.t].picked == Some(p.0)
    && w.txs[e.t].op.serviceId == p.1
  }

  lemma SlotWrites(op: Op, picked: Option<string>, db: Tables, p: Pair)
    requires Next(op, picked, db).Commit? && p in db.slots && db.slots[p].state == SlotConsumed
      && Insert(op) != Some(SlotKey(p))
    ensures var writes := Next(op, picked, db).writes;
      (p in writes.slots && writes.slots[p].state != SlotConsumed) <==>
        (op.CreateOrder? && picked == Some(p.0) && op.serviceId == p.1)
  {
    hide VerifiedRow, RefundEntry;
  }

  /** Between transactions `consumed` is not absorbing: exactly the commit of an order that was being created on the
      pair when it was consumed undoes it, because that commit writes the slot it had read without a lock. Only the
      deletion of its mailbox removes the slot. */
  lemma ConsumedLostExactly(w: World, e: Event, w': World, p: Pair)
    requires LocksOk(w) && Step(w, e, w') && p in w.db.slots && w.db.slots[p].state == SlotConsumed
    ensures p in w'.db.slots <==> !(e.Purges? && p.0 in e.ids)
    ensures p in w'.db.slots && w'.db.slots[p].state != SlotConsumed <==> CreatesOn(w, e, p)
  {
    StepRefines(w, e, w');
    if e.Commits? {
      var tx := w.txs[e.t];
      hide Next, LocksOk, Step, Leasable, WellFormed;
      SlotWrites(tx.op, tx.picked, w.db, p);
    }
  }

  const PAIR: Pair := ("m", "s")
  const CREATE := CreateOrder("u", "s", map["outlook" := 10], 10, "o", 0)
  const MAILBOX := MailboxRow("outlook", MailboxAvailable, "", Verified, 100, Imap, 0)

  function ExampleDb(slot: SlotState): Tables {
    Tables(map["u" := UserRow(100, true)], map[], map["m" := MAILBOX], map[PAIR := Slot(slot, 0)], map[])
  }

  /** The order has its user and its mailbox. */
  function ExampleAllocating(slot: SlotState): World {
    World(ExampleDb(slot), [], map[UserKey("u") := 1, MailboxKey("m") := 1],
          map[1 := Tx(CREATE, Some("m"),
                      Tables(map["u" := UserRow(100, true)], map[], map["m" := MAILBOX], map[], map[]))])
  }

  lemma ExampleAllocates() returns (w0: World, w1: World, w2: World)
    ensures FreshWorld(w0) && Step(w0, Begin(1, CREATE), w1) && Step(w1, TakeLock(1), w2)
    ensures Step(w2, PickMailbox(1, "m"), ExampleAllocating(SlotAvailable))
  {
    w0 := World(ExampleDb(SlotAvailable), [], map[], map[]);
    w1 := w0.(txs := map[1 := Tx(CREATE, None, NOTHING)]);
    w2 := w1.(locks := map[UserKey("u") := 1], txs := map[1 := Tx(CREATE, None, Read(NOTHING, w0.db, UserKey("u")))]);
    assert Step(w1, TakeLock(1), w2);
    var w3 := ExampleAllocating(SlotAvailable);
    assert w3.locks == w2.locks[MailboxKey("m") := 1];
    assert w3.txs[1].copies == Read(w2.txs[1].copies, w2.db, MailboxKey("m"));
    assert w3.txs == w2.txs[1 := w3.txs[1]];
    assert Pickable(w2, CREATE, "m");
  }

  /** The scan has locked the slot. */
  function ExampleConsuming(): World {
    var w := ExampleAllocating(SlotAvailable);
    w.(locks := w.locks[SlotKey(PAIR) := 2],
       txs := w.txs[2 := Tx(MarkConsumed(PAIR), None,
                            Tables(map[], map[], map[], map[PAIR := Slot(SlotAvailable, 0)], map[]))])
  }

  lemma ExampleMarks() returns (w4: World)
    ensures Step(ExampleAllocating(SlotAvailable), Begin(2, MarkConsumed(PAIR)), w4)
      && Step(w4, TakeLock(2), ExampleConsuming())
  {
    var w3 := ExampleAllocating(SlotAvailable);
    w4 := w3.(txs := w3.txs[2 := Tx(MarkConsumed(PAIR), None, NOTHING)]);
    assert ExampleConsuming().txs == w4.txs[2 := ExampleConsuming().txs[2]];
  }

  lemma ExampleConsumes()
    ensures Step(ExampleConsuming(), Commits(2), ExampleAllocating(SlotConsumed))
  {
    var w5, w6 := ExampleConsuming(), ExampleAllocating(SlotConsumed);
    ExampleNext();
    hide Next, Write;
    ExampleWrites();
    assert w5.ledger + [] == w6.ledger;
    assert Released(w5.locks, 2) == w6.locks;
    assert w5.txs - {2} == w6.txs;
  }

  lemma ExampleNext()
    ensures NextOf(ExampleConsuming(), 2) == Commit(NOTHING.(slots := map[PAIR := Slot(SlotConsumed, 0)]), [])
  {
  }

  lemma ExampleWrites()
    ensures Write(ExampleDb(SlotAvailable), NOTHING.(slots := map[PAIR := Slot(SlotConsumed, 0)]))
      == ExampleDb(SlotConsumed)
  {
    WriteNothing(ExampleDb(SlotAvailable));
    MapPlusOne(ExampleDb(SlotAvailable).slots, PAIR, Slot(SlotConsumed, 0));
  }

  lemma ExampleCommits() returns (w7: World, w8: World)
    ensures Step(ExampleAllocating(SlotConsumed), TakeLock(1), w7) && Step(w7, Commits(1), w8)
    ensures PAIR in w8.db.slots && w8.db.slots[PAIR].state == SlotLeased
    ensures "o" in w8.db.orders && ActiveRow(w8.db.orders["o"])
  {
    var w6 := ExampleAllocating(SlotConsumed);
    w7 := w6.(locks := w6.locks[SlotKey(PAIR) := 1],
              txs := w6.txs[1 := Tx(CREATE, Some("m"), Read(w6.txs[1].copies, w6.db, SlotKey(PAIR)))]);
    assert Step(w6, TakeLock(1), w7);
    w8 := AfterCommit(w7, 1);
  }

  /** Such a run: an order is being created on the pair when a scan of old mail marks it consumed; the order commits
      all the same and the slot is leased again. */
  lemma ConsumedSlotRevived() returns (r: Run)
    ensures IsRun(r) && |r.worlds| == 9
    ensures r.worlds[6] == ExampleAllocating(SlotConsumed)
    ensures PAIR in r.worlds[8].db.slots && r.worlds[8].db.slots[PAIR].state == SlotLeased
    ensures "o" in r.worlds[8].db.orders && ActiveRow(r.worlds[8].db.orders["o"])
  {
    hide Step, FreshWorld, ExampleConsuming, ExampleAllocating;
    var w0, w1, w2 := ExampleAllocates();
    var w4 := ExampleMarks();
    ExampleConsumes();
    var w7, w8 := ExampleCommits();
    r := Run([w0, w1, w2, ExampleAllocating(SlotAvailable), w4, ExampleConsuming(), ExampleAllocating(SlotConsumed), w7,
              w8],
             [Begin(1, CREATE), TakeLock(1), PickMailbox(1, "m"), Begin(2, MarkConsumed(PAIR)), TakeLock(2), Commits(2),
              TakeLock(1), Commits(1)]);
    forall i | 0 <= i < |r.events| ensures Step(r.worlds[i], r.events[i], r.worlds[i + 1]) {
      assert i == 0 || i == 1 || i == 2 || i == 3 || i == 4 || i == 5 || i == 6 || i == 7;
    }
  }

  function AfterCommit(w: World, t: nat): World
    requires t in w.txs && NextOf(w, t).Commit?
  {
    World(Write(w.db, NextOf(w, t).writes), w.ledger + NextOf(w, t).entries, Released(w.locks, t), w.txs - {t})
  }

  // ---------------------------------------------------------------- a lease given twice

  /** Everything an order on mailbox `b` needs is there and nobody holds it. */
  predicate CanCreate(w: World, t: nat, op: Op, b: string) {
    && t !in w.txs && op.CreateOrder? && UserKey(op.userId) !in w.locks && SlotKey((b, op.serviceId)) !in w.locks
    && Pickable(w, op, b) && Affordable(op, w.db) && forall k :: k in w.locks ==> w.locks[k] != t
  }

  predicate Affordable(op: Op, db: Tables)
    requires op.CreateOrder?
  {
    && WellFormed(op) && op.orderId !in db.orders
    && op.userId in db.users && db.users[op.userId].active && db.users[op.userId].balance >= op.maximum
  }

  function Copies(db: Tables, op: Op, b: string): Tables
    requires op.CreateOrder? && op.userId in db.users && b in db.mailboxes
  {
    Read(Read(NOTHING, db, UserKey(op.userId)), db, MailboxKey(b))
  }

  lemma BeginsOrder(w: World, t: nat, op: Op, b: string) returns (w1: World, w2: World, w3: World)
    requires CanCreate(w, t, op, b)
    ensures Step(w, Begin(t, op), w1) && Step(w1, TakeLock(t), w2) && Step(w2, PickMailbox(t, b), w3)
    ensures w3 == w.(locks := w.locks[UserKey(op.userId) := t][MailboxKey(b) := t],
                     txs := w.txs[t := Tx(op, Some(b), Copies(w.db, op, b))])
  {
    w1 := w.(txs := w.txs[t := Tx(op, None, NOTHING)]);
    w2 := w1.(locks := w1.locks[UserKey(op.userId) := t],
              txs := w1.txs[t := Tx(op, None, Read(NOTHING, w.db, UserKey(op.userId)))]);
    assert Step(w1, TakeLock(t), w2);
    w3 := w2.(locks := w2.locks[MailboxKey(b) := t], txs := w2.txs[t := Tx(op, Some(b), Copies(w.db, op, b))]);
    assert Pickable(w2, op, b);
    assert w3.txs == w.txs[t := Tx(op, Some(b), Copies(w.db, op, b))];
  }

  lemma TakesSlot(w: World, t: nat, op: Op, b: string, w3: World) returns (w4: World)
    requires CanCreate(w, t, op, b)
    requires w3 == w.(locks := w.locks[UserKey(op.userId) := t][MailboxKey(b) := t],
                      txs := w.txs[t := Tx(op, Some(b), Copies(w.db, op, b))])
    ensures Step(w3, TakeLock(t), w4)
    ensures w4 == w3.(locks := w3.locks[SlotKey((b, op.serviceId)) := t],
                      txs := w3.txs[t := Tx(op, Some(b), Read(Copies(w.db, op, b), w.db, SlotKey((b, op.serviceId))))])
  {
    var k := SlotKey((b, op.serviceId));
    var c := Read(Copies(w.db, op, b), w.db, k);
    w4 := w3.(locks := w3.locks[k := t], txs := w3.txs[t := Tx(op, Some(b), c)]);
    assert NextOf(w3, t) == Lock(k);
  }

  lemma EndsOrder(w: World, t: nat, op: Op, b: string, w3: World) returns (w4: World, w5: World)
    requires CanCreate(w, t, op, b)
    requires w3 == w.(locks := w.locks[UserKey(op.userId) := t][MailboxKey(b) := t],
                      txs := w.txs[t := Tx(op, Some(b), Copies(w.db, op, b))])
    ensures Step(w3, TakeLock(t), w4) && Step(w4, Commits(t), w5)
    ensures MayStart(op, b, w.db) && w5.db == Started(op, b, w.db) && w5.ledger == w.ledger + [ChargeEntry(op, b, w.db)]
    ensures w5.locks == w.locks && w5.txs == w.txs && !Harms(w4, Commits(t))
  {
    hide Step, Next, Started, ChargeEntry, Write, Copies, Read, Leasable, WellFormed, MayStart;
    w4 := TakesSlot(w, t, op, b, w3);
    CommitsOrder(w.db, op, b, w4.txs[t].copies);
    hide *;
    w5 := AfterCommit(w4, t);
    CommitSteps(w4, t);
    BackToStart(w, t, UserKey(op.userId), MailboxKey(b), SlotKey((b, op.serviceId)), w4.txs[t]);
  }

  lemma CommitSteps(w: World, t: nat)
    requires t in w.txs && NextOf(w, t).Commit? && (Insert(w.txs[t].op).Some? ==> !Has(w.db, Insert(w.txs[t].op).value))
    ensures Step(w, Commits(t), AfterCommit(w, t))
  {
  }

  lemma BackToStart(w: World, t: nat, k: Key, l: Key, m: Key, tx: Tx)
    requires t !in w.txs && k !in w.locks && l !in w.locks && m !in w.locks && forall j :: j in w.locks ==>
      w.locks[j] != t
    ensures Released(w.locks[k := t][l := t][m := t], t) == w.locks && w.txs[t := tx] - {t} == w.txs
  {
  }

  lemma CommitsOrder(db: Tables, op: Op, b: string, c: Tables)
    requires op.CreateOrder? && Affordable(op, db) && b in db.mailboxes && Leasable(db.mailboxes[b], op)
      && (b, op.serviceId) in db.slots
    requires c == Read(Copies(db, op, b), db, SlotKey((b, op.serviceId)))
    ensures Next(op, Some(b), c).Commit? && MayStart(op, b, db)
    ensures Write(db, Next(op, Some(b), c).writes) == Started(op, b, db)
      && Next(op, Some(b), c).entries == [ChargeEntry(op, b, db)]
  {
    assert Part(c, db);
    assert NextCreate(op, Some(b), c).Commit?;
    hide NextCreate, Read, Write, Leasable, Part;
    CreateAlone(op, Some(b), c, db);
    CreateMayStart(op, Some(b), db);
    WriteOfCreate(op, Some(b), db);
  }

  const SECOND: Pair := ("m", "t")
  const CREATE_SECOND := CreateOrder("u", "t", map["outlook" := 10], 10, "p", 0)
  const UNTOUCHED := MailboxEdit("", "outlook", 0, 0, Unspecified, Unverified, None)
  const SAVE := SaveMailbox("m", MAILBOX, UNTOUCHED)

  function TwoSlots(): World {
    World(Tables(map["u" := UserRow(100, true)], map[], map["m" := MAILBOX],
                 map[PAIR := Slot(SlotAvailable, 0), SECOND := Slot(SlotAvailable, 0)], map[]), [], map[], map[])
  }

  /** The save has read the idle row. */
  function Saving(): World {
    TwoSlots().(txs := map[3 := Tx(SAVE, None, NOTHING)])
  }

  lemma SaveReads() returns (w0: World, w1: World)
    ensures w0 == TwoSlots() && w1 == Saving() && w1.db == w0.db && w1.locks == map[]
      && w1.txs == map[3 := Tx(SAVE, None, NOTHING)]
    ensures FreshWorld(w0) && Step(w0, Begin(3, SAVE), w1) && CanCreate(w1, 1, CREATE, "m")
  {
    w0, w1 := TwoSlots(), Saving();
  }

  /** The save commits over the lease given since. */
  lemma SaveOvertaken(w: World) returns (w1: World, w2: World)
    requires MayStart(CREATE, "m", TwoSlots().db) && w.db == Started(CREATE, "m", TwoSlots().db)
    requires w.locks == map[] && w.txs == map[3 := Tx(SAVE, None, NOTHING)]
    ensures Step(w, TakeLock(3), w1) && Step(w1, Commits(3), w2) && Harms(w1, Commits(3))
    ensures w2 == World(w.db.(mailboxes := map["m" := MAILBOX]), w.ledger, map[], map[])
  {
    StartedRow(w.db);
    assert EditedRow(MAILBOX, UNTOUCHED) == MAILBOX;
    hide Step, Started, MayStart, Harms, TwoSlots, EditedRow;
    w1, w2 := SaveGoesThrough(w, 3);
    SaveHarms(w1);
    assert w.txs - {3} == map[];
  }

  lemma StartedRow(db: Tables)
    requires MayStart(CREATE, "m", TwoSlots().db) && db == Started(CREATE, "m", TwoSlots().db)
    ensures db.mailboxes == map["m" := MAILBOX.(state := MailboxLeased, activeOrderId := "o")]
    ensures db.mailboxes["m" := MAILBOX] == map["m" := MAILBOX]
  {
  }

  lemma SaveHarms(w: World)
    requires 3 in w.txs && w.txs[3].op == SAVE && "m" in w.db.mailboxes && w.db.mailboxes["m"].activeOrderId == "o"
    ensures Harms(w, Commits(3))
  {
  }

  /** A save that nobody holds up. */
  lemma SaveGoesThrough(w: World, t: nat) returns (w1: World, w2: World)
    requires t in w.txs && w.txs[t].op.SaveMailbox? && w.txs[t].picked == None && w.txs[t].copies == NOTHING
    requires w.locks == map[] && w.txs[t].op.mailboxId in w.db.mailboxes
    ensures Step(w, TakeLock(t), w1) && Step(w1, Commits(t), w2)
    ensures w1.db == w.db && t in w1.txs && w1.txs[t].op == w.txs[t].op
    ensures var op := w.txs[t].op;
      w2 == World(w.db.(mailboxes := w.db.mailboxes[op.mailboxId := EditedRow(op.read, op.edit)]), w.ledger, map[],
                  w.txs - {t})
  {
    var op := w.txs[t].op;
    var k := MailboxKey(op.mailboxId);
    hide EditedRow;
    assert NextOf(w, t) == Lock(k);
    w1 := w.(locks := map[k := t], txs := w.txs[t := Tx(op, None, Read(NOTHING, w.db, k))]);
    SaveWrites(w1, t);
    WriteMailbox(w.db, op.mailboxId, EditedRow(op.read, op.edit));
    hide Next, Write, Read;
    CommitSteps(w1, t);
    w2 := AfterCommit(w1, t);
    assert w1.ledger + [] == w1.ledger;
    assert Released(w1.locks, t) == map[] && w1.txs - {t} == w.txs - {t};
  }

  lemma SaveWrites(w: World, t: nat)
    requires t in w.txs && w.txs[t].op.SaveMailbox? && w.txs[t].op.mailboxId in w.txs[t].copies.mailboxes
    ensures var op := w.txs[t].op;
      NextOf(w, t) == Commit(NOTHING.(mailboxes := map[op.mailboxId := EditedRow(op.read, op.edit)]), [])
  {
  }

  predicate LeaseUndone(w: World) {
    && MayStart(CREATE, "m", TwoSlots().db) && w.locks == map[] && w.txs == map[]
    && w.db == Started(CREATE, "m", TwoSlots().db).(mailboxes := map["m" := MAILBOX])
  }

  lemma SecondCanCreate(w: World)
    requires LeaseUndone(w)
    ensures CanCreate(w, 2, CREATE_SECOND, "m")
  {
  }

  lemma BothActive(w: World)
    requires LeaseUndone(w) && MayStart(CREATE_SECOND, "m", w.db)
    ensures LeasedTwice(Started(CREATE_SECOND, "m", w.db))
  {
  }

  predicate LeasedTwice(db: Tables) {
    && "o" in db.orders && "p" in db.orders && ActiveRow(db.orders["o"]) && ActiveRow(db.orders["p"])
    && db.orders["o"].mailboxId == db.orders["p"].mailboxId == "m"
  }

  const OVERTAKING: seq<Event> :=
    [Begin(3, SAVE), Begin(1, CREATE), TakeLock(1), PickMailbox(1, "m"), TakeLock(1), Commits(1),
     TakeLock(3), Commits(3), Begin(2, CREATE_SECOND), TakeLock(2), PickMailbox(2, "m"), TakeLock(2), Commits(2)]

  lemma UndoingSteps() returns (w: seq<World>)
    ensures |w| == 9 && FreshWorld(w[0]) && LeaseUndone(w[8]) && !Harms(w[5], Commits(1)) && Harms(w[7], Commits(3))
    ensures Step(w[0], Begin(3, SAVE), w[1]) && Step(w[1], Begin(1, CREATE), w[2]) && Step(w[2], TakeLock(1), w[3])
    ensures Step(w[3], PickMailbox(1, "m"), w[4]) && Step(w[4], TakeLock(1), w[5]) && Step(w[5], Commits(1), w[6])
    ensures Step(w[6], TakeLock(3), w[7]) && Step(w[7], Commits(3), w[8])
  {
    hide Step, FreshWorld, CanCreate, TwoSlots, Saving, Started, MayStart, ChargeEntry, Copies, Harms;
    var w0, w1 := SaveReads();
    var w2, w3, w4 := BeginsOrder(w1, 1, CREATE, "m");
    var w5, w6 := EndsOrder(w1, 1, CREATE, "m", w4);
    var w7, w8 := SaveOvertaken(w6);
    w := [w0, w1, w2, w3, w4, w5, w6, w7, w8];
  }

  lemma SecondLeaseSteps(v: World) returns (w: seq<World>)
    requires LeaseUndone(v)
    ensures |w| == 5 && LeasedTwice(w[4].db)
    ensures Step(v, Begin(2, CREATE_SECOND), w[0]) && Step(w[0], TakeLock(2), w[1])
      && Step(w[1], PickMailbox(2, "m"), w[2])
    ensures Step(w[2], TakeLock(2), w[3]) && Step(w[3], Commits(2), w[4])
  {
    hide Step, CanCreate, Started, MayStart, ChargeEntry, Copies, LeasedTwice, Harms, LeaseUndone;
    SecondCanCreate(v);
    var w9, w10, w11 := BeginsOrder(v, 2, CREATE_SECOND, "m");
    var w12, w13 := EndsOrder(v, 2, CREATE_SECOND, "m", w11);
    BothActive(v);
    w := [w9, w10, w11, w12, w13];
  }

  /** The condition of NoDoubleLease cannot be dropped: a save reads an idle mailbox, an order leases it, the save
      writes the row back as it was, and a second order leases the same mailbox. */
  lemma LeaseGivenTwice() returns (r: Run)
    ensures IsRun(r) && |r.worlds| == 14
    ensures NoHarm(r, 7) && Harms(r.worlds[7], r.events[7])
    ensures LeasedTwice(r.worlds[13].db)
  {
    hide Step, FreshWorld, LeasedTwice, LeaseUndone, Harmless;
    var worlds := UndoingSteps();
    var later := SecondLeaseSteps(worlds[8]);
    r := Run(worlds + later, OVERTAKING);
    forall i | 0 <= i < |r.events|
      ensures Step(r.worlds[i], r.events[i], r.worlds[i + 1]) && (i < 7 ==> !Harms(r.worlds[i], r.events[i]))
    {
      assert i == 0 || i == 1 || i == 2 || i == 3 || i == 4 || i == 5 || i == 6 || i == 7 || i == 8 || i == 9 || i == 10
        || i == 11 || i == 12;
    }
  }

  // ---------------------------------------------------------------- a mailbox marked by hand

  const BY_HAND := MAILBOX.(state := MailboxLeased)
  const MARK := SaveMailbox("m", MAILBOX, UNTOUCHED.(state := Some(MailboxLeased)))
  const UNMARK := SaveMailbox("m", BY_HAND, UNTOUCHED.(state := Some(MailboxAvailable)))
  const ASK_NOTHING := SaveMailbox("m", BY_HAND, UNTOUCHED)

  const MARKING: seq<Event> :=
    [Begin(1, MARK), TakeLock(1), Commits(1), Begin(2, ASK_NOTHING), Begin(3, UNMARK), TakeLock(3), Commits(3),
     TakeLock(2), Commits(2)]

  function Marked(row: MailboxRow, txs: map<nat, Tx>): World {
    World(Tables(map[], map[], map["m" := row], map[], map[]), [], map[], txs)
  }

  lemma MarkedBegins(row: MailboxRow, txs: map<nat, Tx>, t: nat, op: Op)
    requires t !in txs && op.SaveMailbox? && op.mailboxId == "m" && op.read == row
    ensures Step(Marked(row, txs), Begin(t, op), Marked(row, txs[t := Tx(op, None, NOTHING)]))
  {
  }

  lemma MarkedSaves(row: MailboxRow, txs: map<nat, Tx>, t: nat, op: Op, rest: map<nat, Tx>) returns (w: World)
    requires t in txs && txs[t] == Tx(op, None, NOTHING) && op.SaveMailbox? && op.mailboxId == "m" && rest == txs - {t}
    ensures Step(Marked(row, txs), TakeLock(t), w) && Step(w, Commits(t), Marked(EditedRow(op.read, op.edit), rest))
    ensures w.db == Marked(row, txs).db && t in w.txs && w.txs[t].op == op
  {
    hide Step, EditedRow;
    var w';
    w, w' := SaveGoesThrough(Marked(row, txs), t);
    assert w' == Marked(EditedRow(op.read, op.edit), rest);
  }

  const NO_TXS: map<nat, Tx> := map[]
  const ONE: map<nat, Tx> := map[1 := Tx(MARK, None, NOTHING)]
  const TWO: map<nat, Tx> := map[2 := Tx(ASK_NOTHING, None, NOTHING)]
  const BOTH: map<nat, Tx> := map[2 := Tx(ASK_NOTHING, None, NOTHING), 3 := Tx(UNMARK, None, NOTHING)]

  /** The first save marks the mailbox. */
  lemma Marks() returns (w: World)
    ensures Step(Marked(MAILBOX, NO_TXS), Begin(1, MARK), Marked(MAILBOX, ONE))
    ensures Step(Marked(MAILBOX, ONE), TakeLock(1), w) && Step(w, Commits(1), Marked(BY_HAND, NO_TXS))
  {
    assert EditedRow(MARK.read, MARK.edit) == BY_HAND && ONE - {1} == NO_TXS
      && ONE == NO_TXS[1 := Tx(MARK, None, NOTHING)];
    hide Step, EditedRow, Marked;
    MarkedBegins(MAILBOX, NO_TXS, 1, MARK);
    w := MarkedSaves(MAILBOX, ONE, 1, MARK, NO_TXS);
  }

  /** Two more saves read it, and one of them takes the mark away. */
  lemma Unmarks() returns (w: World)
    ensures Step(Marked(BY_HAND, NO_TXS), Begin(2, ASK_NOTHING), Marked(BY_HAND, TWO))
    ensures Step(Marked(BY_HAND, TWO), Begin(3, UNMARK), Marked(BY_HAND, BOTH))
    ensures Step(Marked(BY_HAND, BOTH), TakeLock(3), w) && Step(w, Commits(3), Marked(MAILBOX, TWO))
  {
    assert EditedRow(UNMARK.read, UNMARK.edit) == MAILBOX && BOTH - {3} == TWO;
    assert TWO == NO_TXS[2 := Tx(ASK_NOTHING, None, NOTHING)] && BOTH == TWO[3 := Tx(UNMARK, None, NOTHING)];
    hide Step, EditedRow, Marked;
    MarkedBegins(BY_HAND, NO_TXS, 2, ASK_NOTHING);
    MarkedBegins(BY_HAND, TWO, 3, UNMARK);
    w := MarkedSaves(BY_HAND, BOTH, 3, UNMARK, TWO);
  }

  /** The other brings it back. */
  lemma BringsBack() returns (w: World)
    ensures Step(Marked(MAILBOX, TWO), TakeLock(2), w) && Step(w, Commits(2), Marked(BY_HAND, NO_TXS))
    ensures w.db == Marked(MAILBOX, NO_TXS).db && CommitsSave(w, Commits(2), ASK_NOTHING)
  {
    assert EditedRow(ASK_NOTHING.read, ASK_NOTHING.edit) == BY_HAND && TWO - {2} == NO_TXS;
    hide Step, EditedRow;
    w := MarkedSaves(MAILBOX, TWO, 2, ASK_NOTHING, NO_TXS);
  }

  lemma LeasesOfMarked()
    ensures FreshWorld(Marked(MAILBOX, NO_TXS)) && ASK_NOTHING.edit.state == None
    ensures LeasesOk(Marked(MAILBOX, NO_TXS).db) && !LeasesOk(Marked(BY_HAND, NO_TXS).db)
    ensures ASK_NOTHING.read.activeOrderId == StoredOrder(Marked(MAILBOX, NO_TXS).db, "m")
  {
    assert MarkedLeased(Marked(BY_HAND, NO_TXS).db.mailboxes["m"]);
  }

  /** The simple condition of FirstLossExactly fails after a loss: a save that names the stored order and asks for
      nothing parts leases and orders again, because the row it read was marked by hand. */
  lemma AskingForNothingLoses() returns (r: Run)
    ensures IsRun(r) && |r.worlds| == 10 && CommitsSave(r.worlds[8], r.events[8], ASK_NOTHING)
    ensures ASK_NOTHING.read.activeOrderId == StoredOrder(r.worlds[8].db, "m") && ASK_NOTHING.edit.state == None
    ensures LeasesOk(r.worlds[8].db) && !LeasesOk(r.worlds[9].db)
  {
    LeasesOfMarked();
    var w2 := Marks();
    var w6 := Unmarks();
    var w8 := BringsBack();
    hide Step, FreshWorld, Marked, LeasesOk, StoredOrder, CommitsSave, NO_TXS, ONE, TWO, BOTH, MARK, UNMARK,
      ASK_NOTHING;
    r := Run([Marked(MAILBOX, NO_TXS), Marked(MAILBOX, ONE), w2, Marked(BY_HAND, NO_TXS), Marked(BY_HAND, TWO),
              Marked(BY_HAND, BOTH), w6, Marked(MAILBOX, TWO), w8, Marked(BY_HAND, NO_TXS)], MARKING);
    forall i | 0 <= i < |r.events| ensures Step(r.worlds[i], r.events[i], r.worlds[i + 1]) {
      assert i == 0 || i == 1 || i == 2 || i == 3 || i == 4 || i == 5 || i == 6 || i == 7 || i == 8;
    }
  }

  // ---------------------------------------------------------------- lookups

  /** The row the caller names; for a reconciled order, its mailbox. */
  function Named(op: Op): Option<Key> {
    match op
    case CancelOrder(id, _) => Some(OrderKey(id))
    case ReapOrder(id, _) => Some(OrderKey(id))
    case ReceiveCode(id, _, _) => Some(OrderKey(id))
    case VerifyMailbox(b, _, _) => Some(MailboxKey(b))
    case ReconcileOrder(_, b) => Some(MailboxKey(b))
    case _ => None
  }

  lemma RefundLookups(db: Tables, c: Tables, id: string)
    requires LeasesOk(db) && MoneyRows(db) && id in db.orders && ActiveRow(db.orders[id])
    ensures RefundKey(db.orders[id], c).Some? ==> Has(db, RefundKey(db.orders[id], c).value)
    ensures Has(db, MailboxKey(db.orders[id].mailboxId)) && Has(db, SlotKey(PairOf(db.orders[id])))
  {
    assert LeasesRow(db.orders[id], id, db.mailboxes, db.slots) && OrderPaidOk(db.orders[id], db.users);
  }

  /** A transaction that ends or receives an order finds every row it looks for after the one its caller named, so the
      error paths for missing rows are never taken. */
  lemma LookupsSucceed(opening: map<string, int>, w: World, t: nat)
    requires WorldOk(opening, w) && LeasesOk(w.db) && t in w.txs && NextOf(w, t).Lock?
    requires Named(w.txs[t].op).Some? && Named(w.txs[t].op) != Some(NextOf(w, t).key)
    ensures Has(w.db, NextOf(w, t).key)
  {
    var tx := w.txs[t];
    TxFacts(opening, w, t);
    hide WorldOk, LeasesOk, MoneyRows, Has, Part, Next, ReadBefore;
    match tx.op
    case VerifyMailbox(b, _, _) => VerifyLookups(tx.op, tx.picked, tx.copies, w.db);
    case ReconcileOrder(id, b) => ReconcileLookups(tx.op, tx.picked, tx.copies, w.db);
    case _ => OrderLookups(tx.op, tx.picked, tx.copies, w.db);
  }

  lemma TxFacts(opening: map<string, int>, w: World, t: nat)
    requires WorldOk(opening, w) && t in w.txs
    ensures MoneyRows(w.db) && Part(w.txs[t].copies, w.db)
    ensures w.txs[t].op.ReconcileOrder? ==> ReadBefore(w.db, w.txs[t].op)
  {
    assert TxOk(w, t);
    WithinIsPart(w.txs[t].copies, w.db);
  }

  lemma OrderLookups(op: Op, picked: Option<string>, c: Tables, db: Tables)
    requires LeasesOk(db) && MoneyRows(db) && Part(c, db) && Next(op, picked, c).Lock?
    requires (op.CancelOrder? || op.ReapOrder? || op.ReceiveCode?) && OrderKey(op.orderId) != Next(op, picked, c).key
    ensures Has(db, Next(op, picked, c).key)
  {
    hide LeasesOk, MoneyRows, Has, RefundKey, RefundWrites;
    RefundLookups(db, c, op.orderId);
  }

  lemma VerifyLookups(op: Op, picked: Option<string>, c: Tables, db: Tables)
    requires LeasesOk(db) && MoneyRows(db) && Part(c, db) && Next(op, picked, c).Lock?
    requires op.VerifyMailbox? && MailboxKey(op.mailboxId) != Next(op, picked, c).key
    ensures Has(db, Next(op, picked, c).key)
  {
    hide LeasesOk, MoneyRows, Has, RefundKey, RefundWrites;
    NamedOrderIsActive(db, op.mailboxId);
    OrderThere(db, db.mailboxes[op.mailboxId].activeOrderId);
    RefundLookups(db, c, db.mailboxes[op.mailboxId].activeOrderId);
  }

  lemma ReconcileLookups(op: Op, picked: Option<string>, c: Tables, db: Tables)
    requires LeasesOk(db) && MoneyRows(db) && Part(c, db) && Next(op, picked, c).Lock?
    requires op.ReconcileOrder? && MailboxKey(op.mailboxId) != Next(op, picked, c).key && ReadBefore(db, op)
    ensures Has(db, Next(op, picked, c).key)
  {
    hide LeasesOk, MoneyRows, Has, RefundKey, RefundWrites;
    OrderThere(db, op.orderId);
    if ActiveRow(db.orders[op.orderId]) { RefundLookups(db, c, op.orderId); }
  }

  lemma OrderThere(db: Tables, id: string)
    requires id in db.orders
    ensures Has(db, OrderKey(id))
  {
  }
}
