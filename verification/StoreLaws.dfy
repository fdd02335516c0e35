/** What the operations of the in-memory store decide and do, field by field, apart from the functions that model
    them. */
module StoreLaws {
  import opened Text
  import opened Domain
  import opened Totals
  import opened StoreModel
  import opened StoreInvariant
  import opened StoreSweeps
  import opened StoreRuns
  import opened StoreStock

  /** `raw` as the validation compares it. */
  function Cleaned(raw: string): string {
    ToLower(TrimSpace(raw))
  }

  /** The providers of the request are known, allowed for the platform and priced. */
  predicate Orderable(service: Service, raw: seq<string>) {
    && |raw| > 0
    && forall i :: 0 <= i < |raw| ==>
         && Cleaned(raw[i]) in {"outlook", "outlook_de", "hotmail", "gmail", "icloud", "mailcom"}
         && Cleaned(raw[i]) in service.allowedProviders
         && Cleaned(raw[i]) in service.providerPrices && service.providerPrices[Cleaned(raw[i])] >= 0
  }

  /** The balance covers every requested provider. */
  predicate Payable(service: Service, raw: seq<string>, balance: int)
    requires Orderable(service, raw)
  {
    forall i :: 0 <= i < |raw| ==> service.providerPrices[Cleaned(raw[i])] <= balance
  }

  /** The mailbox is verified, idle, healthy and reachable, and its slot on the platform is available. */
  predicate InStock(m: Mailbox, serviceId: string, now: int) {
    && m.verification == Verified && m.state == MailboxAvailable && m.activeOrderId == "" && m.healthScore >= 60
    && (m.connection == Imap || m.oauthValidUntil > now)
    && serviceId in m.services && m.services[serviceId].state == SlotAvailable
  }

  predicate Takeable(m: Mailbox, serviceId: string, raw: seq<string>, now: int) {
    InStock(m, serviceId, now) && exists i :: 0 <= i < |raw| && m.provider == Cleaned(raw[i])
  }

  predicate Repeated(s: State, userId: string, requestId: string) {
    requestId != ""
    && exists id :: id in s.orders && s.orders[id].userId == userId && s.orders[id].requestId == requestId
  }

  // ---------------------------------------------------------------- creating an order

  /** `d[k]` stands for `s[i]`, and everything before that is already in the list. */
  predicate FirstAt(s: seq<string>, d: seq<string>, k: nat, i: nat) {
    i < |s| && k < |d| && s[i] == d[k] && forall j :: 0 <= j < i ==> s[j] in d[..k]
  }

  ghost predicate Placed(s: seq<string>, d: seq<string>, k: nat) {
    exists i :: FirstAt(s, d, k, i)
  }

  ghost predicate AllPlaced(s: seq<string>, d: seq<string>) {
    forall k: nat :: k < |d| ==> Placed(s, d, k)
  }

  /** The list without repetitions keeps each entry at its first occurrence. */
  lemma {:induction false} FirstOccurrences(s: seq<string>)
    ensures var d := Distinct(s);
      (forall x :: x in d <==> x in s) && (forall i, j :: 0 <= i < j < |d| ==> d[i] != d[j]) && AllPlaced(s, d)
  {
    DistinctElements(s);
    if s != [] {
      var init, last := s[..|s| - 1], s[|s| - 1];
      FirstOccurrences(init);
      assert Distinct(s) == if last in Distinct(init) then Distinct(init) else Distinct(init) + [last];
      assert s == init + [last];
      hide Distinct, AllPlaced;
      PlacedSnoc(init, last, Distinct(init));
    }
  }

  lemma PlacedSnoc(init: seq<string>, last: string, d: seq<string>)
    requires AllPlaced(init, d) && forall x :: x in init ==> x in d
    ensures AllPlaced(init + [last], d) && AllPlaced(init + [last], d + [last])
  {
    hide Placed;
    forall k: nat | k < |d| ensures Placed(init + [last], d, k) && Placed(init + [last], d + [last], k) {
      PlacedStays(init, last, d, d, k);
      PlacedStays(init, last, d, d + [last], k);
    }
    PlacedLast(init, last, d);
  }

  lemma PlacedStays(init: seq<string>, last: string, before: seq<string>, d: seq<string>, k: nat)
    requires k < |before| && Placed(init, before, k) && before <= d
    ensures Placed(init + [last], d, k)
  {
    var i :| FirstAt(init, before, k, i);
    assert d[..k] == before[..k];
    assert FirstAt(init + [last], d, k, i);
  }

  lemma PlacedLast(init: seq<string>, last: string, before: seq<string>)
    requires forall x :: x in init ==> x in before
    ensures Placed(init + [last], before + [last], |before|)
  {
    assert (before + [last])[..|before|] == before;
    assert forall j :: 0 <= j < |init| ==> (init + [last])[j] == init[j] && init[j] in init;
    assert FirstAt(init + [last], before + [last], |before|, |init|);
  }

  lemma RequestedAre(raw: seq<string>)
    ensures forall p :: p in Distinct(Normalized(raw)) <==> exists i :: 0 <= i < |raw| && p == Cleaned(raw[i])
  {
    FirstOccurrences(Normalized(raw));
    forall i | 0 <= i < |raw| ensures Cleaned(raw[i]) in Normalized(raw) {
      assert Normalized(raw)[i] == Cleaned(raw[i]);
    }
    forall p | p in Normalized(raw) ensures exists i :: 0 <= i < |raw| && p == Cleaned(raw[i]) {
      var i :| 0 <= i < |raw| && Normalized(raw)[i] == p;
      assert p == Cleaned(raw[i]);
    }
  }

  lemma CandidatesAre(s: State, serviceId: string, raw: seq<string>, now: int)
    ensures forall id ::
      id in Candidates(s, serviceId, Distinct(Normalized(raw)), now)
      <==> id in s.mailboxes && Takeable(s.mailboxes[id], serviceId, raw, now)
  {
    RequestedAre(raw);
    hide Distinct, Normalized;
  }

  lemma ValidIsOrderable(service: Service, raw: seq<string>)
    ensures ValidProviders(service, raw) <==> Orderable(service, raw)
  {
    hide ToLower, TrimSpace;
    ProvidersAre();
    forall i | 0 <= i < |raw|
      ensures ProviderOk(service, Normalize(raw[i])) <==>
        && Cleaned(raw[i]) in {"outlook", "outlook_de", "hotmail", "gmail", "icloud", "mailcom"}
        && Cleaned(raw[i]) in service.allowedProviders
        && Cleaned(raw[i]) in service.providerPrices && service.providerPrices[Cleaned(raw[i])] >= 0
    {
      CleanedOnce(raw[i]);
    }
  }

  lemma ProvidersAre()
    ensures forall p :: p in SUPPORTED_PROVIDERS <==>
      p in {"outlook", "outlook_de", "hotmail", "gmail", "icloud", "mailcom"}
  {
  }

  lemma NotSpaceWhenLowered(c: char)
    ensures IsSpace(LowerChar(c)) <==> IsSpace(c)
    ensures LowerChar(LowerChar(c)) == LowerChar(c)
  {
  }

  /** Cleaning is idempotent. */
  lemma CleanedOnce(s: string)
    ensures Cleaned(Cleaned(s)) == Cleaned(s)
  {
    var trimmed := TrimSpace(s);
    var r := ToLower(trimmed);
    forall c ensures IsSpace(LowerChar(c)) <==> IsSpace(c) { NotSpaceWhenLowered(c); }
    if r != "" {
      assert TrimLeft(r) == r && TrimRight(r) == r;
    }
    forall i | 0 <= i < |r| ensures ToLower(r)[i] == r[i] { NotSpaceWhenLowered(trimmed[i]); }
    assert ToLower(r) == r;
  }

  /** The checks before a mailbox is looked for are passed. */
  predicate Admissible(s: State, userId: string, serviceId: string, raw: seq<string>) {
    && userId in s.users && serviceId in s.services && s.services[serviceId].enabled
    && Orderable(s.services[serviceId], raw)
  }

  /** Every answer of CreateOrder, with the exact circumstances in which it is given. A refusal and a repeated request
      change nothing. */
  lemma CreateAnswersExactly(s: State, userId: string, serviceId: string, requestId: string, raw: seq<string>,
                             now: int, r: CreateResult, t: State)
    requires Inv(s) && CreateStep(s, userId, serviceId, requestId, raw, now, r, t)
    ensures r == Refused(UserNotFound) <==> userId !in s.users
    ensures r == Refused(ServiceNotFound) <==> userId in s.users && serviceId !in s.services
    ensures r == Refused(ServiceDisabled) <==>
      userId in s.users && serviceId in s.services && !s.services[serviceId].enabled
    ensures r == Refused(InvalidMailboxProviders) <==>
      && userId in s.users && serviceId in s.services && s.services[serviceId].enabled
      && !Orderable(s.services[serviceId], raw)
    ensures Admissible(s, userId, serviceId, raw) ==>
      && (r.Duplicate? <==> Repeated(s, userId, requestId))
      && (r == Refused(InsufficientBalance) <==>
            !Repeated(s, userId, requestId) && !Payable(s.services[serviceId], raw, s.users[userId].balance))
      && (r == Refused(NoMailboxAvailable) <==>
            && !Repeated(s, userId, requestId) && Payable(s.services[serviceId], raw, s.users[userId].balance)
            && forall id :: id in s.mailboxes ==> !Takeable(s.mailboxes[id], serviceId, raw, now))
      && (r.Created? <==>
            && !Repeated(s, userId, requestId) && Payable(s.services[serviceId], raw, s.users[userId].balance)
            && exists id :: id in s.mailboxes && Takeable(s.mailboxes[id], serviceId, raw, now))
    ensures !r.Created? ==> t == s
    ensures r.Duplicate? ==> exists id ::
      id in s.orders && s.orders[id] == r.existing && r.existing.userId == userId && r.existing.requestId == requestId
  {
    if userId in s.users && serviceId in s.services {
      ValidIsOrderable(s.services[serviceId], raw);
      KeyedService(s, serviceId);
      CandidatesAre(s, serviceId, raw, now);
      FundedIsPayable(s, userId, serviceId, raw);
    }
    RepeatedIs(s, userId, requestId);
    hide Inv, Candidates, Funded, ValidProviders, Orderable, Payable, Takeable, LeasedAs, AlreadyRequested, Repeated;
  }

  lemma KeyedService(s: State, serviceId: string)
    requires Inv(s) && serviceId in s.services
    ensures s.services[serviceId].id == serviceId
  {
  }

  lemma FundedIsPayable(s: State, userId: string, serviceId: string, raw: seq<string>)
    requires userId in s.users && serviceId in s.services
    ensures ValidProviders(s.services[serviceId], raw) && Orderable(s.services[serviceId], raw) ==>
      (Funded(s, userId, serviceId, raw) <==> Payable(s.services[serviceId], raw, s.users[userId].balance))
  {
  }

  lemma RepeatedIs(s: State, userId: string, requestId: string)
    ensures AlreadyRequested(s, userId, requestId) <==> Repeated(s, userId, requestId)
  {
    if Repeated(s, userId, requestId) {
      var id :| id in s.orders && s.orders[id].userId == userId && s.orders[id].requestId == requestId;
      assert SameRequest(s.orders[id], userId, requestId);
    }
  }

  /** A created order is on a mailbox that could be taken, and as healthy as any. */
  lemma CreatedTakes(s: State, userId: string, serviceId: string, requestId: string, raw: seq<string>,
                     now: int, r: CreateResult, t: State)
    requires Inv(s) && CreateStep(s, userId, serviceId, requestId, raw, now, r, t) && r.Created?
    ensures var b := r.order.mailboxId;
      && b in s.mailboxes && Takeable(s.mailboxes[b], serviceId, raw, now)
      && forall id :: id in s.mailboxes && Takeable(s.mailboxes[id], serviceId, raw, now) ==>
           s.mailboxes[id].healthScore <= s.mailboxes[b].healthScore
  {
    var b := CreatedOn(s, userId, serviceId, requestId, raw, now, r, t);
    KeyedService(s, serviceId);
    CandidatesAre(s, serviceId, raw, now);
    KeyedMailbox(s, b);
    hide Inv, Candidates, Distinct, Normalized, ValidProviders, CreateStep, Takeable, Funded, Lease;
  }

  /** It is new, costs the price of that mailbox's provider, which the user pays, and leases the mailbox and its slot;
      nothing else changes. */
  lemma CreatedIs(s: State, userId: string, serviceId: string, requestId: string, raw: seq<string>,
                  now: int, r: CreateResult, t: State)
    requires Inv(s) && CreateStep(s, userId, serviceId, requestId, raw, now, r, t) && r.Created?
    ensures r.order.id !in s.orders && Starts(s, t, userId, serviceId, requestId, now, r.order)
    ensures forall p :: p in r.order.requestedProviders <==> exists i :: 0 <= i < |raw| && p == Cleaned(raw[i])
  {
    KeyedService(s, serviceId);
    RequestedAre(raw);
    NextIdIsFresh(s.orders, s.seqNo);
    CreatedTakes(s, userId, serviceId, requestId, raw, now, r, t);
    var b := CreatedOn(s, userId, serviceId, requestId, raw, now, r, t);
    KeyedMailbox(s, b);
    hide Inv, Candidates, Distinct, Normalized, ValidProviders, CreateStep, Healthiest, Funded, Lease, Starts;
    LeaseStarts(s, userId, serviceId, requestId, Distinct(Normalized(raw)), b, now);
  }

  /** Order `o`, just created. */
  ghost predicate Starts(s: State, t: State, userId: string, serviceId: string, requestId: string, now: int, o: Order) {
    && userId in s.users && serviceId in s.services && o.mailboxId in s.mailboxes
    && serviceId in s.mailboxes[o.mailboxId].services
    && s.mailboxes[o.mailboxId].provider in s.services[serviceId].providerPrices
    && var u, m := s.users[userId], s.mailboxes[o.mailboxId];
    && o.price == s.services[serviceId].providerPrices[m.provider]
    && o.userId == userId && o.serviceId == serviceId && o.mailboxProvider == m.provider && o.requestId == requestId
    && o.status == OrderWaitingCode && o.code == "" && !o.refunded && o.failureReason == ""
    && o.createdAt == o.assignedAt == o.submittedAt == now && o.codeReceivedAt == o.completedAt == 0
    && o.expiresAt == now + 1800
    && var leased := Slot(SlotLeased, m.services[serviceId].timeoutCount);
    && t == State(s.users[userId := u.(balance := u.balance - o.price)], s.services,
                  s.mailboxes[o.mailboxId := m.(state := MailboxLeased, activeOrderId := o.id,
                                                services := m.services[serviceId := leased])],
                  s.orders[o.id := o], s.seqNo + 1)
  }

  lemma KeyedMailbox(s: State, b: string)
    requires Inv(s) && b in s.mailboxes
    ensures s.mailboxes[b].id == b
  {
  }

  lemma LeaseStarts(s: State, userId: string, serviceId: string, requestId: string, providers: seq<string>, b: string,
                    now: int)
    requires userId in s.users && serviceId in s.services && b in s.mailboxes && var m := s.mailboxes[b];
      && s.services[serviceId].id == serviceId && m.id == b && serviceId in m.services
      && m.provider in s.services[serviceId].providerPrices
    ensures var o := NewOrder(s, userId, s.services[serviceId], requestId, providers, s.mailboxes[b], now);
      Starts(s, Lease(s, userId, serviceId, requestId, providers, b, now), userId, serviceId, requestId, now, o)
  {
  }

  lemma CreatedOn(s: State, userId: string, serviceId: string, requestId: string, raw: seq<string>,
                  now: int, r: CreateResult, t: State)
    returns (b: string)
    requires CreateStep(s, userId, serviceId, requestId, raw, now, r, t) && r.Created?
    ensures userId in s.users && serviceId in s.services && ValidProviders(s.services[serviceId], raw)
    ensures LeasedAs(s, userId, serviceId, requestId, raw, now, b, r.order, t)
  {
    b :| LeasedAs(s, userId, serviceId, requestId, raw, now, b, r.order, t);
  }

  // ---------------------------------------------------------------- stock

  /** The mailboxes that count for one provider of a platform, and for a platform. */
  lemma StockIs(s: State, serviceId: string, provider: string, now: int)
    ensures forall id ::
      id in StockIds(s, serviceId, provider, now)
      <==> && serviceId in s.services && s.services[serviceId].enabled
            && provider in s.services[serviceId].allowedProviders
            && id in s.mailboxes && s.mailboxes[id].provider == provider && InStock(s.mailboxes[id], serviceId, now)
    ensures Stock(s, serviceId, provider, now) == |StockIds(s, serviceId, provider, now)|
    ensures forall id ::
      id in AllStockIds(s, serviceId, now)
      <==> && serviceId in s.services && s.services[serviceId].enabled
            && id in s.mailboxes && s.mailboxes[id].provider in s.services[serviceId].allowedProviders
            && InStock(s.mailboxes[id], serviceId, now)
  {
  }

  // ---------------------------------------------------------------- the end of a lease

  /** The slot after the order on it ended: a cancellation frees a leased one, a timeout counts, and the fifth timeout
      consumes it. */
  predicate Freed(slot: Slot, freed: Slot, timedOut: bool) {
    if slot.state != SlotLeased then freed == slot
    else if !timedOut then freed == Slot(SlotAvailable, slot.timeoutCount)
    else freed == Slot(if slot.timeoutCount + 1 >= 5 then SlotConsumed else SlotAvailable, slot.timeoutCount + 1)
  }

  /** The mailbox has no order any more, its slot on the platform is freed, and nothing but state and health may differ
      otherwise. */
  predicate LetGo(m: Mailbox, freed: Mailbox, serviceId: string, timedOut: bool) {
    && serviceId in m.services && serviceId in freed.services
    && Freed(m.services[serviceId], freed.services[serviceId], timedOut)
    && freed == m.(activeOrderId := "", state := freed.state, healthScore := freed.healthScore,
                   services := m.services[serviceId := freed.services[serviceId]])
  }

  lemma ReleasedIs(m: Mailbox, serviceId: string, timedOut: bool)
    requires serviceId in m.services && m.services[serviceId].state == SlotLeased
    ensures var freed := ReleaseMailbox(m, serviceId, timedOut);
      LetGo(m, freed, serviceId, timedOut) && freed.state == MailboxAvailable && freed.healthScore == m.healthScore
  {
  }

  /** A caller sees an order if it names the owner or nobody. Only orders it sees and that wait are canceled; then the
      price is back, the mailbox available and the slot free. */
  lemma CancelIs(s: State, id: string, userId: string)
    requires Inv(s)
    ensures var (t, r) := Cancel(s, id, userId);
      var seen := id in s.orders && (userId == "" || s.orders[id].userId == userId);
      && (r == Failed(OrderNotFound) <==> !seen)
      && (r == Failed(InvalidOrderState) <==> seen && s.orders[id].status !in {OrderAssigned, OrderWaitingCode})
      && (r.Done? <==> seen && s.orders[id].status in {OrderAssigned, OrderWaitingCode}) && (!r.Done? ==> t == s)
      && (r.Done? ==> r.order == s.orders[id].(status := OrderCanceled, refunded := true) && Canceled(s, t, id))
  {
    if id in s.orders && Active(s.orders[id]) { CancelReleases(s, id, userId); }
    hide Inv, Canceled, RefundAndRelease;
  }

  /** Order `id` was canceled. */
  ghost predicate Canceled(s: State, t: State, id: string) {
    && id in s.orders && var o := s.orders[id];
    && o.mailboxId in s.mailboxes && o.mailboxId in t.mailboxes && o.userId in s.users
    && var m, freed, u := s.mailboxes[o.mailboxId], t.mailboxes[o.mailboxId], s.users[o.userId];
    && LetGo(m, freed, o.serviceId, false) && freed.state == MailboxAvailable && freed.healthScore == m.healthScore
    && t == s.(orders := s.orders[id := o.(status := OrderCanceled, refunded := true)],
               mailboxes := s.mailboxes[o.mailboxId := freed],
               users := s.users[o.userId := u.(balance := u.balance + o.price)])
  }

  lemma CancelReleases(s: State, id: string, userId: string)
    requires Inv(s) && id in s.orders && Active(s.orders[id])
    ensures Cancel(s, id, userId).1.Done? ==> Canceled(s, Cancel(s, id, userId).0, id)
  {
    ActiveOrder(s, id);
    hide Inv, Canceled;
    if Cancel(s, id, userId).1.Done? {
      CancelEnds(s, id, userId);
      hide Cancel;
      EndCancels(s, id);
    }
  }

  lemma EndCancels(s: State, id: string)
    requires id in s.orders && Leases(s.orders[id], id, s.mailboxes) && s.orders[id].userId in s.users
    ensures var o := s.orders[id].(status := OrderCanceled, refunded := true);
      Canceled(s, EndOrder(s, id, o, ReleaseMailbox(s.mailboxes[o.mailboxId], o.serviceId, false)), id)
  {
    ReleasedIs(s.mailboxes[s.orders[id].mailboxId], s.orders[id].serviceId, false);
    hide ReleaseMailbox, LetGo;
  }

  /** A code is taken while the order waits and has time left, unless it is blank; the pair is consumed. */
  lemma ReceiveIs(s: State, id: string, code: string, now: int)
    requires Inv(s)
    ensures var (t, r) := ReceiveCode(s, id, code, now);
      var open := id in s.orders && s.orders[id].status in {OrderAssigned, OrderWaitingCode}
                  && (s.orders[id].expiresAt == 0 || now < s.orders[id].expiresAt);
      && (r == Failed(OrderNotFound) <==> id !in s.orders)
      && (r == Failed(InvalidOrderState) <==> id in s.orders && !open)
      && (r == Failed(VerificationCodeRequired) <==> open && TrimSpace(code) == "")
      && (r.Done? <==> open && TrimSpace(code) != "") && (!r.Done? ==> t == s)
      && (r.Done? ==>
            var o := s.orders[id];
            && r.order == o.(status := OrderCodeReceived, code := TrimSpace(code), codeReceivedAt := now)
            && o.mailboxId in s.mailboxes && var m := s.mailboxes[o.mailboxId];
            && o.serviceId in m.services && var consumed := Slot(SlotConsumed, m.services[o.serviceId].timeoutCount);
            && t == s.(orders := s.orders[id := r.order],
                       mailboxes := s.mailboxes[o.mailboxId :=
                         m.(state := MailboxAvailable, activeOrderId := "", todayCodes := m.todayCodes + 1,
                            lastReceivedAt := now, services := m.services[o.serviceId := consumed])]))
  {
    if id in s.orders && Active(s.orders[id]) { ActiveOrder(s, id); }
    hide Inv, TrimSpace;
  }

  /** Only an order with a code that the caller sees is completed. */
  lemma CompleteIs(s: State, id: string, userId: string, now: int)
    ensures var (t, r) := Complete(s, id, userId, now);
      var seen := id in s.orders && (userId == "" || s.orders[id].userId == userId);
      && (r == Failed(OrderNotFound) <==> !seen)
      && (r == Failed(InvalidOrderState) <==> seen && s.orders[id].status != OrderCodeReceived)
      && (r.Done? <==> seen && s.orders[id].status == OrderCodeReceived) && (!r.Done? ==> t == s)
      && (r.Done? ==>
            && r.order == s.orders[id].(status := OrderCompleted, completedAt := now)
            && t == s.(orders := s.orders[id := r.order]))
  {
  }

  // ---------------------------------------------------------------- the sweeps

  /** The order waits although its time is up. */
  predicate TimeIsUp(o: Order, now: int) {
    (o.status == OrderAssigned || o.status == OrderWaitingCode) && now > o.expiresAt
  }

  /** The order waits on a mailbox that is not verified. */
  predicate WaitsInVain(o: Order, mailboxes: map<string, Mailbox>) {
    && (o.status == OrderAssigned || o.status == OrderWaitingCode)
    && o.mailboxId in mailboxes && mailboxes[o.mailboxId].verification != Verified
  }

  function TimedOutIds(s: State, now: int): set<string> {
    set id | id in s.orders && TimeIsUp(s.orders[id], now)
  }

  function VainIds(s: State): set<string> {
    set id | id in s.orders && WaitsInVain(s.orders[id], s.mailboxes)
  }

  /** Only the orders `ids` ended: expired and refunded, otherwise as they were, but for the reason given. */
  ghost predicate OrdersEnd(s: State, t: State, ids: set<string>) {
    && t.orders.Keys == s.orders.Keys && ids <= s.orders.Keys
    && forall id :: id in s.orders ==>
         var o, after := s.orders[id], t.orders[id];
         if id in ids
         then after == o.(status := OrderExpiredRefunded, refunded := true, failureReason := after.failureReason)
         else after == o
  }

  /** Only the mailboxes of those orders were let go. */
  ghost predicate MailboxesEnd(s: State, t: State, ids: set<string>) {
    && t.mailboxes.Keys == s.mailboxes.Keys && ids <= s.orders.Keys
    && (forall b :: b in s.mailboxes && s.mailboxes[b].activeOrderId !in ids ==> t.mailboxes[b] == s.mailboxes[b])
    && forall id :: id in ids ==>
         && s.orders[id].mailboxId in s.mailboxes
         && var b := s.orders[id].mailboxId;
            LetGo(s.mailboxes[b], t.mailboxes[b], s.orders[id].serviceId, true)
  }

  /** Every user got back the prices of their orders among these. */
  ghost predicate UsersPaid(s: State, t: State, ids: set<string>) {
    && t.users.Keys == s.users.Keys
    && forall u :: u in s.users ==> t.users[u] == s.users[u].(balance := s.users[u].balance + GivenBack(s, ids, u))
  }

  /** Exactly the orders `ids` were expired and given back; their mailboxes and owners changed accordingly and nothing
      else did. */
  ghost predicate SweptAway(s: State, t: State, ids: set<string>) {
    && OrdersEnd(s, t, ids) && MailboxesEnd(s, t, ids) && UsersPaid(s, t, ids)
    && t.services == s.services && t.seqNo == s.seqNo
  }

  /** The prices of the orders `ids` of one user. */
  ghost function GivenBack(s: State, ids: set<string>, u: string): int {
    Total(map id | id in ids && id in s.orders && s.orders[id].userId == u :: s.orders[id].price)
  }

  lemma SweepIs(s: State, k: Kind)
    requires Inv(s)
    ensures SweptAway(s, Sweep(s, k, Qualifying(s, k)), Qualifying(s, k))
  {
    SweepOrdersEnd(s, k);
    SweepMailboxesEnd(s, k);
    SweepPays(s, k, Qualifying(s, k));
    hide Inv, Qualifying, OrdersEnd, MailboxesEnd, UsersPaid;
  }

  lemma SweepOrdersEnd(s: State, k: Kind)
    ensures OrdersEnd(s, Sweep(s, k, Qualifying(s, k)), Qualifying(s, k))
    ensures forall id :: id in Qualifying(s, k) ==>
      && id in s.orders && id in Sweep(s, k, Qualifying(s, k)).orders
      && Sweep(s, k, Qualifying(s, k)).orders[id].failureReason
         == if k.Timeouts? then s.orders[id].failureReason
            else "mailbox failed connection verification, order refunded"
  {
    hide Qualifies, SweepMailboxes, SweepUsers;
  }

  lemma SweepMailboxesEnd(s: State, k: Kind)
    requires Inv(s)
    ensures MailboxesEnd(s, Sweep(s, k, Qualifying(s, k)), Qualifying(s, k))
  {
    SweepTouchesOnly(s, k);
    var q := Qualifying(s, k);
    var t := Sweep(s, k, q);
    hide LetGo, SweptMailbox, SweepMailboxes, SweepOrders, SweepUsers;
    forall id | id in q
      ensures id in s.orders && s.orders[id].mailboxId in s.mailboxes
      ensures var b := s.orders[id].mailboxId;
        LetGo(s.mailboxes[b], t.mailboxes[b], s.orders[id].serviceId, true)
    {
      SweptMailboxIs(s, k, id);
    }
    hide Inv, Sweep, Qualifying;
  }

  /** How the mailbox of a swept order ends. */
  lemma SweptMailboxIs(s: State, k: Kind, id: string)
    requires Inv(s) && id in Qualifying(s, k)
    ensures id in s.orders && s.orders[id].mailboxId in s.mailboxes
    ensures var b := s.orders[id].mailboxId; var after := Sweep(s, k, Qualifying(s, k)).mailboxes[b];
      && LetGo(s.mailboxes[b], after, s.orders[id].serviceId, true)
      && after.state == (if k.BadMailboxes? then MailboxError else MailboxAvailable)
      && after.healthScore == if k.BadMailboxes? then 0 else s.mailboxes[b].healthScore
  {
    SweepTouchesOnly(s, k);
    ActiveOrder(s, id);
    hide Inv, Sweep, LetGo, SweptMailbox;
    SweptLetsGo(s.mailboxes[s.orders[id].mailboxId], s.orders[id].serviceId, k);
  }

  lemma SweepPays(s: State, k: Kind, ids: set<string>)
    ensures UsersPaid(s, Sweep(s, k, ids), ids)
  {
    forall u | u in s.users
      ensures Sweep(s, k, ids).users[u] == s.users[u].(balance := s.users[u].balance + GivenBack(s, ids, u))
    {
      assert Refunds(s.orders, ids, u)
          == map id | id in ids && id in s.orders && s.orders[id].userId == u :: s.orders[id].price;
    }
  }

  lemma SweptLetsGo(m: Mailbox, serviceId: string, k: Kind)
    requires serviceId in m.services && m.services[serviceId].state == SlotLeased
    ensures var after := SweptMailbox(m, serviceId, k);
      && LetGo(m, after, serviceId, true)
      && after.state == (if k.BadMailboxes? then MailboxError else MailboxAvailable)
      && after.healthScore == if k.BadMailboxes? then 0 else m.healthScore
  {
  }

  /** The two sweeps sweep exactly these. */
  lemma QualifyingAre(s: State, now: int)
    ensures Qualifying(s, Timeouts(now)) == TimedOutIds(s, now) && Qualifying(s, BadMailboxes) == VainIds(s)
  {
  }

  /** The orders `ids` are expired and refunded, with their old reason or with the one for mailboxes that are not
      verified; every other order is as it was. */
  ghost predicate OrdersLeft(s: State, t: State, ids: set<string>, broken: bool) {
    forall id :: id in s.orders ==>
      && id in t.orders && var o := s.orders[id];
      && (id !in ids ==> t.orders[id] == o)
      && (id in ids && !broken ==> t.orders[id] == o.(status := OrderExpiredRefunded, refunded := true))
      && (id in ids && broken ==>
            t.orders[id] == o.(status := OrderExpiredRefunded, refunded := true,
                               failureReason := "mailbox failed connection verification, order refunded"))
  }

  /** The state after the timeouts at `now` were swept: an order became expired and refunded if and only if it waited
      although its time was up, and its mailbox is available again with its health. */
  ghost predicate TimeoutsSwept(s: State, t: State, now: int, count: nat) {
    && SweptAway(s, t, TimedOutIds(s, now)) && count == |TimedOutIds(s, now)|
    && OrdersLeft(s, t, TimedOutIds(s, now), false) && MailboxesLeft(s, t, TimedOutIds(s, now), false)
  }

  /** The mailboxes of these orders are available with their health, or in error with none. */
  ghost predicate MailboxesLeft(s: State, t: State, ids: set<string>, broken: bool) {
    forall id :: id in ids && id in s.orders ==>
      var b := s.orders[id].mailboxId;
      && b in s.mailboxes && b in t.mailboxes
      && t.mailboxes[b].state == (if broken then MailboxError else MailboxAvailable)
      && t.mailboxes[b].healthScore == if broken then 0 else s.mailboxes[b].healthScore
  }

  /** The state after the orders that wait in vain were swept: an order became expired and refunded if and only if it
      waited on a mailbox that is not verified, and its mailbox is in error with health 0. */
  ghost predicate VainSwept(s: State, t: State, count: nat) {
    && SweptAway(s, t, VainIds(s)) && count == |VainIds(s)|
    && OrdersLeft(s, t, VainIds(s), true) && MailboxesLeft(s, t, VainIds(s), true)
  }

  lemma SweepLeavesMailboxes(s: State, k: Kind)
    requires Inv(s)
    ensures MailboxesLeft(s, Sweep(s, k, Qualifying(s, k)), Qualifying(s, k), k.BadMailboxes?)
  {
    hide Inv, Sweep;
    forall id | id in Qualifying(s, k)
      ensures id in s.orders && s.orders[id].mailboxId in s.mailboxes
      ensures var b := s.orders[id].mailboxId; var after := Sweep(s, k, Qualifying(s, k)).mailboxes[b];
        && after.state == (if k.BadMailboxes? then MailboxError else MailboxAvailable)
        && after.healthScore == if k.BadMailboxes? then 0 else s.mailboxes[b].healthScore
    {
      SweptMailboxIs(s, k, id);
    }
    hide Qualifying;
  }

  lemma SweptOrdersAre(s: State, k: Kind)
    ensures OrdersLeft(s, Sweep(s, k, Qualifying(s, k)), Qualifying(s, k), k.BadMailboxes?)
  {
    SweepOrdersEnd(s, k);
    hide Sweep, Qualifying;
  }

  lemma TimeoutSweepIs(s: State, now: int)
    requires Inv(s)
    ensures var q := Qualifying(s, Timeouts(now)); TimeoutsSwept(s, Sweep(s, Timeouts(now), q), now, |q|)
  {
    QualifyingAre(s, now);
    SweepIs(s, Timeouts(now));
    SweptOrdersAre(s, Timeouts(now));
    SweepLeavesMailboxes(s, Timeouts(now));
    hide Inv, Sweep, Qualifying, SweptAway, MailboxesLeft, OrdersLeft, TimedOutIds, VainIds;
  }

  lemma VainSweepIs(s: State)
    requires Inv(s)
    ensures var q := Qualifying(s, BadMailboxes); VainSwept(s, Sweep(s, BadMailboxes, q), |q|)
  {
    QualifyingAre(s, 0);
    SweepIs(s, BadMailboxes);
    SweptOrdersAre(s, BadMailboxes);
    SweepLeavesMailboxes(s, BadMailboxes);
    hide Inv, Sweep, Qualifying, SweptAway, MailboxesLeft, OrdersLeft, TimedOutIds, VainIds;
  }

  // ---------------------------------------------------------------- maintenance

  /** Old mail consumes an available slot; a registration consumes any that is not leased, and says why if it cannot. */
  lemma MarksAre(s: State, mailboxId: string, serviceId: string)
    ensures var (t, why) := MarkConsumed(s, mailboxId, serviceId);
      && (why == Some(MailboxNotFound) <==> mailboxId !in s.mailboxes) && (why.None? <==> mailboxId in s.mailboxes)
      && Consumes(s, t, mailboxId, serviceId, {SlotAvailable})
    ensures var (t, why) := MarkRegistered(s, mailboxId, serviceId);
      var there := mailboxId in s.mailboxes && serviceId in s.services && serviceId in s.mailboxes[mailboxId].services;
      && (why == Some(MailboxNotFound) <==> mailboxId !in s.mailboxes)
      && (why == Some(ServiceNotFound) <==> mailboxId in s.mailboxes && serviceId !in s.services)
      && (why == Some(MailboxServiceNotFound) <==>
            && mailboxId in s.mailboxes && serviceId in s.services && serviceId !in s.mailboxes[mailboxId].services)
      && (why == Some(MailboxServiceLeased) <==>
            there && s.mailboxes[mailboxId].services[serviceId].state == SlotLeased)
      && (why.None? <==> there && s.mailboxes[mailboxId].services[serviceId].state != SlotLeased)
      && (why.Some? ==> t == s)
      && (why.None? ==> Consumes(s, t, mailboxId, serviceId, {SlotAvailable, SlotCooldown, SlotBlocked}))
  {
  }

  /** The slot is consumed if it was in one of the states `from`; nothing else changes. */
  predicate Consumes(s: State, t: State, mailboxId: string, serviceId: string, from: set<SlotState>) {
    if mailboxId in s.mailboxes && serviceId in s.mailboxes[mailboxId].services
       && s.mailboxes[mailboxId].services[serviceId].state in from
    then
      var m := s.mailboxes[mailboxId];
      var consumed := Slot(SlotConsumed, m.services[serviceId].timeoutCount);
      t == s.(mailboxes := s.mailboxes[mailboxId := m.(services := m.services[serviceId := consumed])])
    else t == s
  }

  /** Invalid mailboxes are those in error whose verification failed and that have no order. They go if their number is
      the one expected, or if none was expected, which a negative number says. */
  lemma DeleteIs(s: State, expected: int)
    ensures var (t, deleted, why) := DeleteInvalid(s, expected);
      var invalid := set id | id in s.mailboxes && s.mailboxes[id].state == MailboxError
                              && s.mailboxes[id].verification == VerificationFailed
                              && s.mailboxes[id].activeOrderId == "";
      && (why == Some(InvalidMailboxCountChanged) <==> expected >= 0 && expected != |invalid|)
      && (why == Some(NoInvalidMailboxes) <==> invalid == {} && expected <= 0)
      && (why.None? <==> invalid != {} && (expected < 0 || expected == |invalid|))
      && (why.Some? ==> t == s && deleted == 0)
      && (why.None? ==> t == s.(mailboxes := s.mailboxes - invalid) && deleted == |invalid|)
  {
    assert DeletableIds(s) == set id | id in s.mailboxes && s.mailboxes[id].state == MailboxError
      && s.mailboxes[id].verification == VerificationFailed && s.mailboxes[id].activeOrderId == "";
  }

  /** An administrator's edit: each field that was sent; the state only of an idle mailbox, which becomes available if
      it would be in error and is sent as verified. */
  lemma EditIs(s: State, id: string, e: MailboxEdit)
    requires id in s.mailboxes
    ensures var t := SaveMailbox(s, id, e); id in t.mailboxes && var m, row := s.mailboxes[id], t.mailboxes[id];
      && t == s.(mailboxes := s.mailboxes[id := row])
      && row == m.(address := e.address, provider := e.provider, state := row.state, healthScore := row.healthScore,
                   oauthValidUntil := row.oauthValidUntil, connection := row.connection,
                   verification := row.verification)
      && row.healthScore == (if e.healthScore > 0 then e.healthScore else m.healthScore)
      && row.oauthValidUntil == (if e.oauthValidUntil != 0 then e.oauthValidUntil else m.oauthValidUntil)
      && row.connection == (if e.connection != Unspecified then e.connection else m.connection)
      && row.verification == (if e.verification != Unverified then e.verification else m.verification)
      && (m.activeOrderId != "" ==> row.state == m.state)
      && (m.activeOrderId == "" ==>
            var asked := if e.state.Some? then e.state.value else m.state;
            row.state == if asked == MailboxError && e.verification == Verified then MailboxAvailable else asked)
  {
  }
}
