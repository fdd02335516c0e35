/** Every operation of the store as one step, and what holds over every run of steps, whatever the operations,
    their arguments and the clock. */
module StoreRuns {
  import opened Text
  import opened Domain
  import opened Totals
  import opened StoreModel
  import opened StoreInvariant
  import opened StoreSweeps

  // ---------------------------------------------------------------- how a state may evolve

  predicate StatusReach(a: OrderStatus, b: OrderStatus) {
    || a == b
    || (a == OrderCodeReceived && b == OrderCompleted)
    || ((a == OrderAssigned || a == OrderWaitingCode)
        && (b == OrderCodeReceived || b == OrderCompleted || RefundStatus(b)))
  }

  predicate OrderEvolves(a: Order, b: Order) {
    && SameIdentity(a, b) && StatusReach(a.status, b.status)
    && (a.refunded ==> b.refunded)
    && (!Active(a) ==> b.code == a.code)
  }

  ghost predicate OrdersEvolve(before: Orders, after: Orders) {
    forall id :: id in before ==> id in after && OrderEvolves(before[id], after[id])
  }

  predicate SlotEvolves(a: Slot, b: Slot) {
    (a.state == SlotConsumed ==> b.state == SlotConsumed) && a.timeoutCount <= b.timeoutCount
  }

  ghost predicate MailboxEvolves(a: Mailbox, b: Mailbox) {
    a.services.Keys == b.services.Keys && forall v :: v in a.services ==> SlotEvolves(a.services[v], b.services[v])
  }

  /** Mailboxes are never added; on those that remain, consumed slots stay consumed. */
  ghost predicate MailboxesEvolve(before: Mailboxes, after: Mailboxes) {
    forall b :: b in after ==> b in before && MailboxEvolves(before[b], after[b])
  }

  predicate OnOpenSlot(o: Order, mailboxes: Mailboxes) {
    && o.mailboxId in mailboxes && o.serviceId in mailboxes[o.mailboxId].services
    && mailboxes[o.mailboxId].services[o.serviceId].state != SlotConsumed
  }

  /** Orders appear only on pairs that were not consumed. */
  ghost predicate NewOrdersOpen(before: Orders, mailboxes: Mailboxes, after: Orders) {
    forall id :: id in after && id !in before ==> OnOpenSlot(after[id], mailboxes)
  }

  /** What the user has been charged and not given back. */
  function Charges(orders: Orders, userId: string): map<string, int> {
    map id | id in orders && orders[id].userId == userId && !orders[id].refunded :: orders[id].price
  }

  ghost function ChargeTotal(orders: Orders, userId: string): int {
    Total(Charges(orders, userId))
  }

  ghost predicate MoneyKept(before: Orders, users: map<string, User>, after: Orders, users': map<string, User>) {
    && users.Keys == users'.Keys
    && forall u :: u in users ==>
         users[u].balance + ChargeTotal(before, u) == users'[u].balance + ChargeTotal(after, u)
  }

  ghost predicate Evolves(s: State, t: State) {
    && OrdersEvolve(s.orders, t.orders)
    && MailboxesEvolve(s.mailboxes, t.mailboxes)
    && NewOrdersOpen(s.orders, s.mailboxes, t.orders)
    && MoneyKept(s.orders, s.users, t.orders, t.users)
  }

  lemma EvolvesTrans(a: State, b: State, c: State)
    requires Evolves(a, b) && Evolves(b, c)
    ensures Evolves(a, c)
  {
    forall id | id in c.orders && id !in a.orders ensures OnOpenSlot(c.orders[id], a.mailboxes) {
      if id in b.orders {
        assert OnOpenSlot(b.orders[id], a.mailboxes);
        assert OrderEvolves(b.orders[id], c.orders[id]);
      } else {
        assert OnOpenSlot(c.orders[id], b.mailboxes);
        assert MailboxEvolves(a.mailboxes[c.orders[id].mailboxId], b.mailboxes[c.orders[id].mailboxId]);
      }
    }
    forall id | id in a.orders ensures id in c.orders && OrderEvolves(a.orders[id], c.orders[id]) {
      assert OrderEvolves(a.orders[id], b.orders[id]) && OrderEvolves(b.orders[id], c.orders[id]);
    }
    forall b' | b' in c.mailboxes ensures b' in a.mailboxes && MailboxEvolves(a.mailboxes[b'], c.mailboxes[b']) {
      assert MailboxEvolves(a.mailboxes[b'], b.mailboxes[b']) && MailboxEvolves(b.mailboxes[b'], c.mailboxes[b']);
    }
  }

  // ---------------------------------------------------------------- the pieces evolve

  lemma ChargeTotalSame(before: Orders, after: Orders, id: string, u: string)
    requires id in before && id in after && SameIdentity(before[id], after[id])
      && before[id].refunded == after[id].refunded
    requires after == before[id := after[id]]
    ensures ChargeTotal(after, u) == ChargeTotal(before, u)
  {
    assert Charges(after, u) == Charges(before, u);
  }

  lemma ChargeTotalRefund(before: Orders, id: string, o: Order, u: string)
    requires id in before && SameIdentity(before[id], o) && !before[id].refunded && o.refunded
    ensures ChargeTotal(before[id := o], u) == ChargeTotal(before, u) - if o.userId == u then o.price else 0
  {
    var was := Charges(before, u);
    if o.userId == u {
      TotalRemove(was, id);
      assert Charges(before[id := o], u) == was - {id};
    } else {
      assert Charges(before[id := o], u) == was;
    }
  }

  lemma ChargeTotalNew(before: Orders, o: Order, u: string)
    requires o.id !in before && !o.refunded
    ensures ChargeTotal(before[o.id := o], u) == ChargeTotal(before, u) + if o.userId == u then o.price else 0
  {
    var was := Charges(before, u);
    if o.userId == u {
      TotalAdd(was, o.id, o.price);
      assert Charges(before[o.id := o], u) == was[o.id := o.price];
    } else {
      assert Charges(before[o.id := o], u) == was;
    }
  }

  lemma EndKeepsWealth(orders: Orders, users: map<string, User>, id: string, o: Order)
    requires id in orders && SameIdentity(orders[id], o) && !orders[id].refunded && o.userId in users
    ensures var user := users[o.userId];
      MoneyKept(orders, users, orders[id := o],
                if o.refunded then users[o.userId := user.(balance := user.balance + o.price)] else users)
  {
    hide ChargeTotal;
    forall u ensures o.refunded ==>
        ChargeTotal(orders[id := o], u) == ChargeTotal(orders, u) - (if o.userId == u then o.price else 0)
      ensures !o.refunded ==> ChargeTotal(orders[id := o], u) == ChargeTotal(orders, u)
    {
      if o.refunded { ChargeTotalRefund(orders, id, o, u); } else { ChargeTotalSame(orders, orders[id := o], id, u); }
    }
  }

  lemma EndEvolves(s: State, id: string, o: Order, m: Mailbox)
    requires id in s.orders && o.mailboxId in s.mailboxes && !s.orders[id].refunded && o.userId in s.users
    requires EndsLease(s.orders[id], o, s.mailboxes[o.mailboxId], m)
    requires s.mailboxes[o.mailboxId].services[o.serviceId].state == SlotLeased
    ensures Evolves(s, EndOrder(s, id, o, m))
  {
    hide ChargeTotal, MoneyKept;
    EndKeepsWealth(s.orders, s.users, id, o);
    assert MailboxEvolves(s.mailboxes[o.mailboxId], m);
  }

  lemma ActiveEndEvolves(s: State, id: string, o: Order, m: Mailbox)
    requires Inv(s) && id in s.orders && o.mailboxId in s.mailboxes
    requires EndsLease(s.orders[id], o, s.mailboxes[o.mailboxId], m)
    ensures o.userId in s.users && Evolves(s, EndOrder(s, id, o, m)) && Inv(EndOrder(s, id, o, m))
  {
    hide Inv, Evolves;
    ActiveOrder(s, id);
    EndKeepsInv(s, id, o, m);
    EndEvolves(s, id, o, m);
  }

  lemma StartEvolves(s: State, o: Order, m: Mailbox, user: User)
    requires StartsLease(s.orders, s.mailboxes, o, m) && o.userId in s.users
    requires user.balance == s.users[o.userId].balance - o.price
    ensures Evolves(s, s.(orders := s.orders[o.id := o], mailboxes := s.mailboxes[o.mailboxId := m],
                          users := s.users[o.userId := user], seqNo := s.seqNo + 1))
  {
    var after := s.orders[o.id := o];
    forall u ensures ChargeTotal(after, u) == ChargeTotal(s.orders, u) + if o.userId == u then o.price else 0 {
      ChargeTotalNew(s.orders, o, u);
    }
    hide ChargeTotal;
    assert MailboxEvolves(s.mailboxes[o.mailboxId], m);
  }

  lemma {:induction false} SweepEvolves(s: State, k: Kind, ids: set<string>)
    requires Inv(s) && ids <= Qualifying(s, k)
    ensures Evolves(s, Sweep(s, k, ids))
    decreases |ids|
  {
    hide Inv, Evolves, SweepOne, Sweep;
    SweepNothing(s, k);
    if ids == {} {
      NothingEvolves(s);
    } else {
      var id :| id in ids;
      var rest := ids - {id};
      assert rest + {id} == ids;
      SweepEvolves(s, k, rest);
      SweepStep(s, k, rest, id);
      SweepKeepsInv(s, k, rest);
      SweepOneEvolves(Sweep(s, k, rest), k, id);
      EvolvesTrans(s, Sweep(s, k, rest), Sweep(s, k, ids));
    }
  }

  lemma NothingEvolves(s: State)
    ensures Evolves(s, s)
  {
  }

  lemma SweepOneEvolves(s: State, k: Kind, id: string)
    requires Inv(s) && id in s.orders && Qualifies(s, k, id)
    ensures Evolves(s, SweepOne(s, k, id))
  {
    hide Inv, Evolves;
    ActiveOrder(s, id);
    SweepOneEnds(s, k, id);
    var o := SweptOrder(s.orders[id], k);
    EndEvolves(s, id, o, SweptMailbox(s.mailboxes[o.mailboxId], o.serviceId, k));
  }

  // ---------------------------------------------------------------- the operations

  lemma CancelEnds(s: State, id: string, userId: string)
    requires Cancel(s, id, userId).1.Done? && Leases(s.orders[id], id, s.mailboxes)
      && OrderMoneyOk(s.orders[id], s.users)
    ensures var o := s.orders[id].(status := OrderCanceled, refunded := true);
      var m := ReleaseMailbox(s.mailboxes[o.mailboxId], o.serviceId, false);
      && EndsLease(s.orders[id], o, s.mailboxes[o.mailboxId], m)
      && Cancel(s, id, userId) == (EndOrder(s, id, o, m), Done(o))
  {
  }

  lemma ReceiveEnds(s: State, id: string, code: string, now: int)
    requires ReceiveCode(s, id, code, now).1.Done? && Leases(s.orders[id], id, s.mailboxes)
    requires OrderMoneyOk(s.orders[id], s.users)
    ensures var o := s.orders[id].(status := OrderCodeReceived, code := TrimSpace(code), codeReceivedAt := now);
      var m := ConsumeSlot(s.mailboxes[o.mailboxId], o.serviceId, now);
      && EndsLease(s.orders[id], o, s.mailboxes[o.mailboxId], m)
      && ReceiveCode(s, id, code, now) == (EndOrder(s, id, o, m), Done(o))
  {
  }

  lemma CancelStep(s: State, id: string, userId: string)
    requires Inv(s)
    ensures Inv(Cancel(s, id, userId).0) && Evolves(s, Cancel(s, id, userId).0)
  {
    NothingEvolves(s);
    hide Inv, Evolves;
    if Cancel(s, id, userId).1.Done? {
      ActiveOrder(s, id);
      CancelEnds(s, id, userId);
      var o := s.orders[id].(status := OrderCanceled, refunded := true);
      ActiveEndEvolves(s, id, o, ReleaseMailbox(s.mailboxes[o.mailboxId], o.serviceId, false));
    }
  }

  lemma ReceiveStep(s: State, id: string, code: string, now: int)
    requires Inv(s)
    ensures Inv(ReceiveCode(s, id, code, now).0) && Evolves(s, ReceiveCode(s, id, code, now).0)
  {
    NothingEvolves(s);
    hide Inv, Evolves;
    if ReceiveCode(s, id, code, now).1.Done? {
      ActiveOrder(s, id);
      ReceiveEnds(s, id, code, now);
      var o := s.orders[id].(status := OrderCodeReceived, code := TrimSpace(code), codeReceivedAt := now);
      ActiveEndEvolves(s, id, o, ConsumeSlot(s.mailboxes[o.mailboxId], o.serviceId, now));
    }
  }

  /** Archiving an order that has its code. */
  lemma CompleteStep(s: State, id: string, userId: string, now: int)
    requires Inv(s)
    ensures Inv(Complete(s, id, userId, now).0) && Evolves(s, Complete(s, id, userId, now).0)
  {
    NothingEvolves(s);
    hide Inv, Evolves;
    if Complete(s, id, userId, now).1.Done? {
      ReviseStep(s, id, s.orders[id].(status := OrderCompleted, completedAt := now));
    }
  }

  lemma ReviseStep(s: State, id: string, o: Order)
    requires Inv(s) && id in s.orders && Revises(s.orders[id], o)
    ensures Inv(s.(orders := s.orders[id := o])) && Evolves(s, s.(orders := s.orders[id := o]))
  {
    hide LeaseCorrespondence, PairsOk, RequestsUnique, MoneyOk, Numbered, Evolves;
    ReviseKeepsLeases(s.orders, s.mailboxes, id, o);
    ReviseKeepsPairs(s.orders, s.mailboxes, id, o);
    EndKeepsRequests(s.orders, id, o);
    EndKeepsNumbers(s.orders, s.seqNo, id, o);
    ReviseKeepsMoney(s.orders, s.users, id, o);
    ReviseEvolves(s, id, o);
  }

  lemma ReviseKeepsMoney(orders: Orders, users: map<string, User>, id: string, o: Order)
    requires MoneyOk(orders, users) && id in orders && Revises(orders[id], o)
    ensures MoneyOk(orders[id := o], users)
  {
    assert OrderMoneyOk(orders[id], users);
  }

  predicate Revises(a: Order, b: Order) {
    && SameIdentity(a, b) && !Active(a) && !Active(b) && a.refunded == b.refunded && a.code == b.code
    && StatusReach(a.status, b.status) && HasCode(a) == HasCode(b)
    && (RefundStatus(a.status) || RefundStatus(b.status) ==> a.status == b.status)
  }

  lemma ReviseKeepsLeases(orders: Orders, mailboxes: Mailboxes, id: string, o: Order)
    requires LeaseCorrespondence(orders, mailboxes) && id in orders && Revises(orders[id], o)
    ensures LeaseCorrespondence(orders[id := o], mailboxes)
  {
    forall b | b in mailboxes ensures LeaseMarksOk(orders[id := o], b, mailboxes[b]) {
      assert LeaseMarksOk(orders, b, mailboxes[b]);
    }
  }

  lemma ReviseKeepsPairs(orders: Orders, mailboxes: Mailboxes, id: string, o: Order)
    requires PairsOk(orders, mailboxes) && id in orders && Revises(orders[id], o)
    ensures PairsOk(orders[id := o], mailboxes)
  {
    var after := orders[id := o];
    forall m, v
      ensures TimedOut(after, m, v) == TimedOut(orders, m, v) && Coded(after, m, v) == Coded(orders, m, v)
    {
      assert TimedOut(after, m, v) == TimedOut(orders, m, v);
      assert Coded(after, m, v) == Coded(orders, m, v);
    }
    forall m, v ensures PairBound(after, m, v) { assert PairBound(orders, m, v); }
    forall m | m in mailboxes ensures SlotsOk(after, m, mailboxes[m]) { assert SlotsOk(orders, m, mailboxes[m]); }
  }

  lemma ReviseEvolves(s: State, id: string, o: Order)
    requires id in s.orders && Revises(s.orders[id], o)
    ensures Evolves(s, s.(orders := s.orders[id := o]))
  {
    forall u ensures ChargeTotal(s.orders[id := o], u) == ChargeTotal(s.orders, u) {
      ChargeTotalSame(s.orders, s.orders[id := o], id, u);
    }
    hide ChargeTotal;
  }

  /** Changing one mailbox without touching its lease, and its slots only by consuming idle ones. */
  predicate Tends(a: Mailbox, b: Mailbox) {
    && a.id == b.id && a.activeOrderId == b.activeOrderId
    && (b.state == MailboxLeased ==> a.state == MailboxLeased)
    && (a.activeOrderId != "" ==> a.state == b.state)
    && a.services.Keys == b.services.Keys
    && forall v :: v in a.services ==>
         || b.services[v] == a.services[v]
         || (a.services[v].state != SlotLeased && b.services[v] == a.services[v].(state := SlotConsumed))
  }

  lemma TendStep(s: State, id: string, m: Mailbox)
    requires Inv(s) && id in s.mailboxes && Tends(s.mailboxes[id], m)
    ensures Inv(s.(mailboxes := s.mailboxes[id := m])) && Evolves(s, s.(mailboxes := s.mailboxes[id := m]))
  {
    hide LeaseCorrespondence, PairsOk, RequestsUnique, MoneyOk, Numbered, Evolves;
    TendKeepsLeases(s.orders, s.mailboxes, id, m, s.seqNo);
    TendKeepsPairs(s.orders, s.mailboxes, id, m);
    TendEvolves(s, id, m);
  }

  lemma TendEvolves(s: State, id: string, m: Mailbox)
    requires id in s.mailboxes && Tends(s.mailboxes[id], m)
    ensures Evolves(s, s.(mailboxes := s.mailboxes[id := m]))
  {
    hide ChargeTotal;
    assert MailboxEvolves(s.mailboxes[id], m);
  }

  lemma TendKeepsLeases(orders: Orders, mailboxes: Mailboxes, id: string, m: Mailbox, seqNo: nat)
    requires LeaseCorrespondence(orders, mailboxes) && id in mailboxes && Tends(mailboxes[id], m)
    requires Numbered(orders, seqNo)
    ensures LeaseCorrespondence(orders, mailboxes[id := m])
  {
    EmptyNotIssued(orders, seqNo);
    assert LeaseMarksOk(orders, id, mailboxes[id]);
    forall o | o in orders && Active(orders[o]) ensures Leases(orders[o], o, mailboxes[id := m]) {
      assert Leases(orders[o], o, mailboxes);
    }
  }

  lemma TendKeepsPairs(orders: Orders, mailboxes: Mailboxes, id: string, m: Mailbox)
    requires PairsOk(orders, mailboxes) && id in mailboxes && Tends(mailboxes[id], m)
    ensures PairsOk(orders, mailboxes[id := m])
  {
    assert SlotsOk(orders, id, mailboxes[id]);
    assert SlotsOk(orders, id, m);
  }

  lemma ConsumeIdleTends(s: State, mailboxId: string, serviceId: string)
    requires mailboxId in s.mailboxes && serviceId in s.mailboxes[mailboxId].services
    requires s.mailboxes[mailboxId].services[serviceId].state != SlotLeased
    ensures Tends(s.mailboxes[mailboxId], ConsumeIdleSlot(s, mailboxId, serviceId).mailboxes[mailboxId])
  {
  }

  lemma DeleteStep(s: State, ids: set<string>)
    requires Inv(s) && ids <= DeletableIds(s)
    ensures Inv(s.(mailboxes := s.mailboxes - ids)) && Evolves(s, s.(mailboxes := s.mailboxes - ids))
  {
    hide LeaseCorrespondence, PairsOk, RequestsUnique, MoneyOk, Numbered, Evolves;
    EmptyNotIssued(s.orders, s.seqNo);
    DeleteKeepsLeases(s.orders, s.mailboxes, ids);
    DeleteKeepsPairs(s.orders, s.mailboxes, ids);
    DeleteEvolves(s, ids);
  }

  lemma DeleteKeepsPairs(orders: Orders, mailboxes: Mailboxes, ids: set<string>)
    requires PairsOk(orders, mailboxes)
    ensures PairsOk(orders, mailboxes - ids)
  {
  }

  lemma DeleteEvolves(s: State, ids: set<string>)
    ensures Evolves(s, s.(mailboxes := s.mailboxes - ids))
  {
    hide ChargeTotal;
  }

  lemma DeleteKeepsLeases(orders: Orders, mailboxes: Mailboxes, ids: set<string>)
    requires LeaseCorrespondence(orders, mailboxes) && "" !in orders
    requires forall b :: b in ids ==> b in mailboxes && Deletable(mailboxes[b])
    ensures LeaseCorrespondence(orders, mailboxes - ids)
  {
    forall o | o in orders && Active(orders[o]) ensures Leases(orders[o], o, mailboxes - ids) {
      assert Leases(orders[o], o, mailboxes);
    }
    forall b | b in mailboxes - ids ensures LeaseMarksOk(orders, b, mailboxes[b]) {
      assert LeaseMarksOk(orders, b, mailboxes[b]);
    }
  }

  lemma CreateStepKeeps(s: State, userId: string, serviceId: string, requestId: string, raw: seq<string>,
                        now: int, r: CreateResult, t: State)
    requires Inv(s) && CreateStep(s, userId, serviceId, requestId, raw, now, r, t)
    ensures Inv(t) && Evolves(s, t)
  {
    if r.Created? {
      var id :| LeasedAs(s, userId, serviceId, requestId, raw, now, id, r.order, t);
      assert Keyed(s);
      assert CanLease(s, userId, serviceId, requestId, raw, id, now);
      hide Evolves;
      LeaseStep(s, userId, serviceId, requestId, raw, id, now);
    } else {
      NothingEvolves(s);
    }
  }

  lemma LeaseStep(s: State, userId: string, serviceId: string, requestId: string, raw: seq<string>,
                  mailboxId: string, now: int)
    requires Inv(s) && CanLease(s, userId, serviceId, requestId, raw, mailboxId, now)
    ensures s.mailboxes[mailboxId].provider in s.services[serviceId].providerPrices
    ensures s.services[serviceId].id == serviceId
    ensures var t := Lease(s, userId, serviceId, requestId, Distinct(Normalized(raw)), mailboxId, now);
      Inv(t) && Evolves(s, t)
  {
    LeaseKeepsInv(s, userId, serviceId, requestId, raw, mailboxId, now);
    var o, m, user := LeaseShape(s, userId, serviceId, requestId, raw, mailboxId, now);
    hide Inv, Evolves, CanLease;
    StartEvolves(s, o, m, user);
  }

  // ---------------------------------------------------------------- administration

  /** Asking for the state "leased" on a mailbox that has no order. */
  predicate LeasesByHand(m: Mailbox, e: MailboxEdit) {
    m.activeOrderId == "" && e.state == Some(MailboxLeased)
  }

  /** Saving a mailbox keeps the invariant exactly when nobody writes the state "leased" by hand. */
  lemma SaveMailboxExactly(s: State, id: string, e: MailboxEdit)
    requires Inv(s) && id in s.mailboxes
    ensures !LeasesByHand(s.mailboxes[id], e) <==> Inv(SaveMailbox(s, id, e))
    ensures !LeasesByHand(s.mailboxes[id], e) ==> Evolves(s, SaveMailbox(s, id, e))
  {
    var m := s.mailboxes[id];
    EmptyNotIssued(s.orders, s.seqNo);
    assert LeaseMarksOk(s.orders, id, m);
    hide Evolves;
    if LeasesByHand(m, e) {
      var t := SaveMailbox(s, id, e);
      assert t.mailboxes[id].state == MailboxLeased && !LeaseMarksOk(t.orders, id, t.mailboxes[id]);
    } else {
      TendStep(s, id, EditMailbox(m, e));
    }
  }

  // ---------------------------------------------------------------- steps and runs

  datatype Event =
    | CreateOrder(userId: string, serviceId: string, requestId: string, raw: seq<string>, result: CreateResult)
    | ReceiveCodeValue(orderId: string, code: string)
    | CompleteOrder(orderId: string, userId: string)
    | CancelOrder(orderId: string, userId: string)
    | ReapExpired
    | ReconcileInvalidMailboxOrders
    | DeleteInvalidMailboxes(expected: int)
    | MarkMailboxServiceConsumed(mailboxId: string, serviceId: string)
    | MarkMailboxServiceRegistered(mailboxId: string, serviceId: string)
    | SaveMailboxRow(mailboxId: string, edit: MailboxEdit)
    | SaveServiceRow(service: Service)

  ghost predicate Step(s: State, e: Event, now: int, t: State) {
    match e
    case CreateOrder(userId, serviceId, requestId, raw, result) =>
      CreateStep(s, userId, serviceId, requestId, raw, now, result, t)
    case ReceiveCodeValue(orderId, code) => t == ReceiveCode(s, orderId, code, now).0
    case CompleteOrder(orderId, userId) => t == Complete(s, orderId, userId, now).0
    case CancelOrder(orderId, userId) => t == Cancel(s, orderId, userId).0
    case ReapExpired => t == Sweep(s, Timeouts(now), Qualifying(s, Timeouts(now)))
    case ReconcileInvalidMailboxOrders => t == Sweep(s, BadMailboxes, Qualifying(s, BadMailboxes))
    case DeleteInvalidMailboxes(expected) => t == DeleteInvalid(s, expected).0
    case MarkMailboxServiceConsumed(mailboxId, serviceId) => t == MarkConsumed(s, mailboxId, serviceId).0
    case MarkMailboxServiceRegistered(mailboxId, serviceId) => t == MarkRegistered(s, mailboxId, serviceId).0
    case SaveMailboxRow(mailboxId, edit) =>
      mailboxId in s.mailboxes && !LeasesByHand(s.mailboxes[mailboxId], edit) && t == SaveMailbox(s, mailboxId, edit)
    case SaveServiceRow(service) => t == SaveService(s, service)
  }

  lemma SaveServiceStep(s: State, service: Service)
    requires Inv(s)
    ensures Inv(SaveService(s, service)) && Evolves(s, SaveService(s, service))
  {
    hide LeaseCorrespondence, PairsOk, RequestsUnique, MoneyOk, Numbered;
    assert Keyed(SaveService(s, service));
    SameRowsEvolve(s, SaveService(s, service));
  }

  lemma SameRowsEvolve(s: State, t: State)
    requires s.orders == t.orders && s.mailboxes == t.mailboxes && s.users == t.users
    ensures Evolves(s, t)
  {
    NothingEvolves(s);
  }

  lemma MarkSteps(s: State, mailboxId: string, serviceId: string)
    requires Inv(s)
    ensures var t := MarkConsumed(s, mailboxId, serviceId).0; Inv(t) && Evolves(s, t)
    ensures var t := MarkRegistered(s, mailboxId, serviceId).0; Inv(t) && Evolves(s, t)
  {
    NothingEvolves(s);
    hide Inv, Evolves, Tends;
    if mailboxId in s.mailboxes && serviceId in s.mailboxes[mailboxId].services
       && s.mailboxes[mailboxId].services[serviceId].state != SlotLeased {
      ConsumeIdleTends(s, mailboxId, serviceId);
      TendStep(s, mailboxId, ConsumeIdleSlot(s, mailboxId, serviceId).mailboxes[mailboxId]);
    }
  }

  /** Every step, with any arguments and at any time, keeps the invariant and evolves the state. */
  lemma StepKeeps(s: State, e: Event, now: int, t: State)
    requires Inv(s) && Step(s, e, now, t)
    ensures Inv(t) && Evolves(s, t)
  {
    NothingEvolves(s);
    hide Inv, Evolves, CreateStep, Sweep, Qualifying, ReceiveCode, Complete, Cancel, MarkConsumed, MarkRegistered;
    match e
    case CreateOrder(userId, serviceId, requestId, raw, result) =>
      CreateStepKeeps(s, userId, serviceId, requestId, raw, now, result, t);
    case ReceiveCodeValue(orderId, code) => ReceiveStep(s, orderId, code, now);
    case CompleteOrder(orderId, userId) => CompleteStep(s, orderId, userId, now);
    case CancelOrder(orderId, userId) => CancelStep(s, orderId, userId);
    case ReapExpired =>
      SweepKeepsInv(s, Timeouts(now), Qualifying(s, Timeouts(now)));
      SweepEvolves(s, Timeouts(now), Qualifying(s, Timeouts(now)));
    case ReconcileInvalidMailboxOrders =>
      SweepKeepsInv(s, BadMailboxes, Qualifying(s, BadMailboxes));
      SweepEvolves(s, BadMailboxes, Qualifying(s, BadMailboxes));
    case DeleteInvalidMailboxes(expected) => DeleteStep(s, DeletableIds(s));
    case MarkMailboxServiceConsumed(mailboxId, serviceId) => MarkSteps(s, mailboxId, serviceId);
    case MarkMailboxServiceRegistered(mailboxId, serviceId) => MarkSteps(s, mailboxId, serviceId);
    case SaveMailboxRow(mailboxId, edit) => SaveMailboxExactly(s, mailboxId, edit);
    case SaveServiceRow(service) => SaveServiceStep(s, service);
  }

  datatype Run = Run(states: seq<State>, events: seq<Event>, clock: seq<int>)

  /** A run from any state that satisfies the invariant. Clock readings need not even increase. */
  ghost predicate IsRun(r: Run) {
    && |r.states| == |r.events| + 1 == |r.clock| + 1
    && Inv(r.states[0])
    && forall i :: 0 <= i < |r.events| ==> Step(r.states[i], r.events[i], r.clock[i], r.states[i + 1])
  }

  lemma {:induction false} RunKeepsInv(r: Run, i: nat)
    requires IsRun(r) && i < |r.states|
    ensures Inv(r.states[i])
  {
    hide Inv, Step;
    if i > 0 {
      RunKeepsInv(r, i - 1);
      StepKeeps(r.states[i - 1], r.events[i - 1], r.clock[i - 1], r.states[i]);
    }
  }

  lemma {:induction false} RunEvolves(r: Run, i: nat, j: nat)
    requires IsRun(r) && i <= j < |r.states|
    ensures Evolves(r.states[i], r.states[j])
    decreases j - i
  {
    hide Inv, Step, Evolves;
    if i == j {
      NothingEvolves(r.states[i]);
    } else {
      RunEvolves(r, i, j - 1);
      RunKeepsInv(r, j - 1);
      StepKeeps(r.states[j - 1], r.events[j - 1], r.clock[j - 1], r.states[j]);
      EvolvesTrans(r.states[i], r.states[j - 1], r.states[j]);
    }
  }

  // ---------------------------------------------------------------- what every run guarantees

  predicate CarriesOrder(s: State, id: string)
    requires id in s.orders
  {
    Leases(s.orders[id], id, s.mailboxes)
  }

  /** In every reachable state an order is active exactly when its mailbox carries it, leased, with its slot leased;
      every lease mark belongs to such an order; and no two active orders share a mailbox. */
  lemma LeaseBijection(r: Run, i: nat)
    requires IsRun(r) && i < |r.states|
    ensures var s := r.states[i];
      && (forall id | id in s.orders :: Active(s.orders[id]) <==> CarriesOrder(s, id))
      && (forall a, b | a in s.orders && b in s.orders && a != b && Active(s.orders[a]) && Active(s.orders[b]) ::
            s.orders[a].mailboxId != s.orders[b].mailboxId)
      && (forall b | b in s.mailboxes
          && (s.mailboxes[b].state == MailboxLeased || s.mailboxes[b].activeOrderId != "") ::
            Held(s.orders, b, s.mailboxes[b]))
      && (forall b, v | b in s.mailboxes && v in s.mailboxes[b].services
          && s.mailboxes[b].services[v].state == SlotLeased ::
            Held(s.orders, b, s.mailboxes[b]) && s.orders[s.mailboxes[b].activeOrderId].serviceId == v)
  {
    RunKeepsInv(r, i);
    var s := r.states[i];
    hide IsRun, PairsOk, RequestsUnique, MoneyOk;
    forall b | b in s.mailboxes ensures LeaseMarksOk(s.orders, b, s.mailboxes[b]) { }
    EmptyNotIssued(s.orders, s.seqNo);
    forall id | id in s.orders && CarriesOrder(s, id) ensures Active(s.orders[id]) {
      assert LeaseMarksOk(s.orders, s.orders[id].mailboxId, s.mailboxes[s.orders[id].mailboxId]);
    }
    forall a, b | a in s.orders && b in s.orders && a != b && Active(s.orders[a]) && Active(s.orders[b])
      ensures s.orders[a].mailboxId != s.orders[b].mailboxId
    {
      assert Leases(s.orders[a], a, s.mailboxes) && Leases(s.orders[b], b, s.mailboxes);
    }
  }

  /** Money is conserved: between any two points of a run a user's balance plus what is charged and not given back
      is the same, and the balance is never negative. */
  lemma MoneyConserved(r: Run, i: nat, j: nat, u: string)
    requires IsRun(r) && i <= j < |r.states| && u in r.states[i].users
    ensures u in r.states[j].users && r.states[j].users[u].balance >= 0
    ensures r.states[j].users[u].balance + ChargeTotal(r.states[j].orders, u)
         == r.states[i].users[u].balance + ChargeTotal(r.states[i].orders, u)
  {
    hide IsRun;
    RunKeepsInv(r, j);
    RunEvolves(r, i, j);
  }

  lemma SettledOrder(a: Order, users: map<string, User>, b: Order, users': map<string, User>)
    requires OrderEvolves(a, b) && OrderMoneyOk(a, users) && OrderMoneyOk(b, users')
    ensures SameIdentity(a, b) && (b.refunded <==> RefundStatus(b.status))
    ensures a.refunded ==> b.refunded && b.status == a.status && !HasCode(b)
    ensures HasCode(a) ==> HasCode(b) && b.code == a.code && !b.refunded
  {
  }

  /** An order keeps its owner, mailbox, platform, request and snapshot price for ever. Refunded exactly when canceled
      or expired, it stays so and never gets a code; once it has a code it keeps that code and is never refunded. */
  lemma OrderForGood(r: Run, i: nat, j: nat, id: string)
    requires IsRun(r) && i <= j < |r.states| && id in r.states[i].orders
    ensures id in r.states[j].orders
    ensures var a := r.states[i].orders[id]; var b := r.states[j].orders[id];
      && SameIdentity(a, b)
      && (b.refunded <==> RefundStatus(b.status))
      && (a.refunded ==> b.refunded && b.status == a.status && !HasCode(b))
      && (HasCode(a) ==> HasCode(b) && b.code == a.code && !b.refunded)
  {
    hide IsRun;
    RunKeepsInv(r, i);
    RunKeepsInv(r, j);
    RunEvolves(r, i, j);
    hide Keyed, Numbered, LeaseCorrespondence, PairsOk, RequestsUnique, MailboxesEvolve, NewOrdersOpen, MoneyKept,
      OrderEvolves, OrderMoneyOk, Active;
    assert OrderEvolves(r.states[i].orders[id], r.states[j].orders[id]);
    assert OrderMoneyOk(r.states[i].orders[id], r.states[i].users);
    assert OrderMoneyOk(r.states[j].orders[id], r.states[j].users);
    SettledOrder(r.states[i].orders[id], r.states[i].users, r.states[j].orders[id], r.states[j].users);
  }

  /** Per mailbox and platform: the timeout counter counts exactly the orders that timed out, and timeouts and
      delivered codes together never exceed five, also after the mailbox is gone. */
  lemma PairLimit(r: Run, i: nat, mailboxId: string, serviceId: string)
    requires IsRun(r) && i < |r.states|
    ensures var s := r.states[i];
      && |TimedOut(s.orders, mailboxId, serviceId)| + |Coded(s.orders, mailboxId, serviceId)| <= 5
      && (mailboxId in s.mailboxes && serviceId in s.mailboxes[mailboxId].services ==>
            s.mailboxes[mailboxId].services[serviceId].timeoutCount == |TimedOut(s.orders, mailboxId, serviceId)|)
  {
    hide IsRun;
    RunKeepsInv(r, i);
    var s := r.states[i];
    assert PairBound(s.orders, mailboxId, serviceId);
    if mailboxId in s.mailboxes && serviceId in s.mailboxes[mailboxId].services {
      assert SlotsOk(s.orders, mailboxId, s.mailboxes[mailboxId]);
    }
  }

  /** `consumed` is absorbing: once a pair is consumed it stays consumed while the mailbox exists, and no order
      is ever created on it again. */
  lemma ConsumedForGood(r: Run, i: nat, j: nat, mailboxId: string, serviceId: string)
    requires IsRun(r) && i <= j < |r.states| && mailboxId in r.states[i].mailboxes
    requires serviceId in r.states[i].mailboxes[mailboxId].services
    requires r.states[i].mailboxes[mailboxId].services[serviceId].state == SlotConsumed
    ensures mailboxId in r.states[j].mailboxes ==>
      && serviceId in r.states[j].mailboxes[mailboxId].services
      && r.states[j].mailboxes[mailboxId].services[serviceId].state == SlotConsumed
    ensures forall id | id in r.states[j].orders && OfPair(r.states[j].orders[id], mailboxId, serviceId) ::
      id in r.states[i].orders
  {
    hide IsRun;
    RunEvolves(r, i, j);
    if mailboxId in r.states[j].mailboxes {
      assert MailboxEvolves(r.states[i].mailboxes[mailboxId], r.states[j].mailboxes[mailboxId]);
      assert SlotEvolves(r.states[i].mailboxes[mailboxId].services[serviceId],
                         r.states[j].mailboxes[mailboxId].services[serviceId]);
    }
    forall id | id in r.states[j].orders && id !in r.states[i].orders
      ensures !OfPair(r.states[j].orders[id], mailboxId, serviceId)
    {
      assert OnOpenSlot(r.states[j].orders[id], r.states[i].mailboxes);
    }
  }

  /** Per user and non-empty request id there is at most one order in every reachable state. */
  lemma RequestsAtMostOnce(r: Run, i: nat, a: string, b: string)
    requires IsRun(r) && i < |r.states|
    requires a in r.states[i].orders && b in r.states[i].orders
    requires r.states[i].orders[a].requestId != "" && r.states[i].orders[a].requestId == r.states[i].orders[b].requestId
    requires r.states[i].orders[a].userId == r.states[i].orders[b].userId
    ensures a == b
  {
    RunKeepsInv(r, i);
    hide IsRun;
    assert SameRequest(r.states[i].orders[b], r.states[i].orders[a].userId, r.states[i].orders[a].requestId);
  }

  /** Asking again with the request id of an order that exists returns that order and changes nothing. */
  lemma RequestRepeated(r: Run, i: nat, a: string)
    requires IsRun(r) && i < |r.events| && r.events[i].CreateOrder? && r.events[i].requestId != ""
    requires a in r.states[i].orders && SameRequest(r.states[i].orders[a], r.events[i].userId, r.events[i].requestId)
    ensures r.states[i + 1] == r.states[i]
    ensures RefusalBeforeLookup(r.states[i], r.events[i].userId, r.events[i].serviceId, r.events[i].raw).None?
        ==> r.events[i].result == Duplicate(r.states[i].orders[a])
  {
    RunKeepsInv(r, i);
    var s := r.states[i];
    var e := r.events[i];
    assert Step(s, e, r.clock[i], r.states[i + 1]);
    hide IsRun, Step, Keyed, LeaseCorrespondence, PairsOk, MoneyOk, Numbered;
    RepeatedCreate(s, e.userId, e.serviceId, e.requestId, e.raw, r.clock[i], e.result, r.states[i + 1], a);
  }

  lemma RepeatedCreate(s: State, userId: string, serviceId: string, requestId: string, raw: seq<string>, now: int,
                       result: CreateResult, t: State, a: string)
    requires RequestsUnique(s.orders) && CreateStep(s, userId, serviceId, requestId, raw, now, result, t)
    requires requestId != "" && a in s.orders && SameRequest(s.orders[a], userId, requestId)
    ensures t == s
    ensures RefusalBeforeLookup(s, userId, serviceId, raw).None? ==> result == Duplicate(s.orders[a])
  {
    assert AlreadyRequested(s, userId, requestId);
    if RefusalBeforeLookup(s, userId, serviceId, raw).None? {
      var id :| id in s.orders && result.existing == s.orders[id] && SameRequest(s.orders[id], userId, requestId);
    }
  }

  /** A new order takes an identifier that no order has ever had, so it overwrites none. */
  lemma NewOrderOverwritesNone(r: Run, i: nat, j: nat)
    requires IsRun(r) && j <= i < |r.events| && r.events[i].CreateOrder? && r.events[i].result.Created?
    ensures r.events[i].result.order.id !in r.states[j].orders
    ensures r.states[i + 1].orders == r.states[i].orders[r.events[i].result.order.id := r.events[i].result.order]
  {
    var s, e, t := r.states[i], r.events[i], r.states[i + 1];
    assert CreateStep(s, e.userId, e.serviceId, e.requestId, e.raw, r.clock[i], e.result, t) by {
      assert Step(s, e, r.clock[i], t);
    }
    hide IsRun, Step, CreateStep;
    RunKeepsInv(r, i);
    RunEvolves(r, j, i);
    CreatedOrderAdded(s, e.userId, e.serviceId, e.requestId, e.raw, r.clock[i], e.result, t);
    CreatedOrderFresh(s, e.result.order.id);
  }

  lemma CreatedOrderFresh(s: State, id: string)
    requires Inv(s) && id == OrderIds.OrderId(s.seqNo + 1)
    ensures id !in s.orders
  {
    NextIdIsFresh(s.orders, s.seqNo);
  }

  lemma CreatedOrderAdded(s: State, userId: string, serviceId: string, requestId: string, raw: seq<string>, now: int,
                          result: CreateResult, t: State)
    requires CreateStep(s, userId, serviceId, requestId, raw, now, result, t) && result.Created?
    ensures result.order.id == OrderIds.OrderId(s.seqNo + 1)
    ensures t.orders == s.orders[result.order.id := result.order]
  {
    var id :| LeasedAs(s, userId, serviceId, requestId, raw, now, id, result.order, t);
    hide Distinct, ValidProviders, Funded, Candidates;
  }

  // ---------------------------------------------------------------- where runs start

  predicate FreshMailbox(m: Mailbox) {
    && m.activeOrderId == "" && m.state != MailboxLeased
    && forall v :: v in m.services ==> m.services[v].state != SlotLeased && m.services[v].timeoutCount == 0
  }

  /** A store without orders, leases or debts, as `New` seeds it. */
  predicate FreshStore(s: State) {
    && s.orders == map[]
    && (forall u :: u in s.users ==> s.users[u].balance >= 0)
    && (forall id :: id in s.services ==> s.services[id].id == id)
    && (forall id :: id in s.mailboxes ==> s.mailboxes[id].id == id && FreshMailbox(s.mailboxes[id]))
  }

  lemma FreshStoreInv(s: State)
    requires FreshStore(s)
    ensures Inv(s)
  {
    forall m, v ensures TimedOut(s.orders, m, v) == {} && Coded(s.orders, m, v) == {} { }
  }
}