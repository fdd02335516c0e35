/** The in-memory store as a value: what each operation under the store's mutex does to it.
    The class in MemoryStore updates its records in place and is proved to follow these functions. */
module StoreModel {
  import opened Text
  import opened Domain
  import opened OrderIds

  datatype State = State(
    users: map<string, User>, services: map<string, Service>,
    mailboxes: map<string, Mailbox>, orders: map<string, Order>, seqNo: nat)

  datatype Refusal =
    | UserNotFound | ServiceNotFound | ServiceDisabled | InvalidMailboxProviders | InsufficientBalance
    | NoMailboxAvailable | OrderNotFound | InvalidOrderState | VerificationCodeRequired
    | MailboxNotFound | MailboxServiceNotFound | MailboxServiceLeased
    | InvalidMailboxCountChanged | NoInvalidMailboxes

  datatype CreateResult = Created(order: Order) | Duplicate(existing: Order) | Refused(why: Refusal)

  datatype OrderResult = Done(order: Order) | Failed(why: Refusal)

  // ---------------------------------------------------------------- eligibility

  predicate ConnectionValid(m: Mailbox, now: int) {
    m.connection == Imap || m.oauthValidUntil > now
  }

  predicate Free(m: Mailbox, now: int) {
    && m.verification == Verified && m.state == MailboxAvailable && m.activeOrderId == ""
    && m.healthScore >= MINIMUM_HEALTH && ConnectionValid(m, now)
  }

  predicate SlotOpen(m: Mailbox, serviceId: string) {
    serviceId in m.services && m.services[serviceId].state == SlotAvailable
  }

  predicate Eligible(m: Mailbox, serviceId: string, providers: seq<string>, now: int) {
    Free(m, now) && m.provider in providers && SlotOpen(m, serviceId)
  }

  /** The mailboxes CreateOrder may pick. */
  function Candidates(s: State, serviceId: string, providers: seq<string>, now: int): set<string> {
    set id | id in s.mailboxes && Eligible(s.mailboxes[id], serviceId, providers, now)
  }

  predicate Healthiest(s: State, among: set<string>, id: string)
    requires among <= s.mailboxes.Keys
  {
    id in among && forall other :: other in among ==> s.mailboxes[other].healthScore <= s.mailboxes[id].healthScore
  }

  // ---------------------------------------------------------------- requested providers

  function Normalized(raw: seq<string>): seq<string> {
    seq(|raw|, i requires 0 <= i < |raw| => Normalize(raw[i]))
  }

  /** First occurrences, in order. */
  function Distinct(s: seq<string>): seq<string> {
    if s == [] then []
    else
      var init := Distinct(s[..|s| - 1]);
      if s[|s| - 1] in init then init else init + [s[|s| - 1]]
  }

  predicate ProviderOk(service: Service, provider: string) {
    && provider != "" && IsSupportedProvider(provider) && provider in service.allowedProviders
    && provider in service.providerPrices && service.providerPrices[provider] >= 0
  }

  predicate ValidProviders(service: Service, raw: seq<string>) {
    raw != [] && forall i :: 0 <= i < |raw| ==> ProviderOk(service, Normalize(raw[i]))
  }

  /** `p` is the highest price among the providers, or 0 when all are free. */
  predicate IsMaximumPrice(service: Service, providers: seq<string>, p: int)
    requires forall q :: q in providers ==> q in service.providerPrices
  {
    && p >= 0
    && (forall q :: q in providers ==> service.providerPrices[q] <= p)
    && (p == 0 || exists q :: q in providers && service.providerPrices[q] == p)
  }

  // ---------------------------------------------------------------- CreateOrder

  predicate SameRequest(o: Order, userId: string, requestId: string) {
    o.userId == userId && o.requestId == requestId
  }

  predicate AlreadyRequested(s: State, userId: string, requestId: string) {
    requestId != "" && exists id :: id in s.orders && SameRequest(s.orders[id], userId, requestId)
  }

  /** The checks made before a mailbox is looked for. */
  function RefusalBeforeLookup(s: State, userId: string, serviceId: string, raw: seq<string>): Option<Refusal> {
    if userId !in s.users then Some(UserNotFound)
    else if serviceId !in s.services then Some(ServiceNotFound)
    else if !s.services[serviceId].enabled then Some(ServiceDisabled)
    else if !ValidProviders(s.services[serviceId], raw) then Some(InvalidMailboxProviders)
    else None
  }

  /** The user can pay the dearest of the requested providers. */
  predicate Funded(s: State, userId: string, serviceId: string, raw: seq<string>)
    requires userId in s.users && serviceId in s.services
    requires ValidProviders(s.services[serviceId], raw)
  {
    var service := s.services[serviceId];
    forall i :: 0 <= i < |raw| ==> service.providerPrices[Normalize(raw[i])] <= s.users[userId].balance
  }

  function NewOrder(s: State, userId: string, service: Service, requestId: string, providers: seq<string>,
                    m: Mailbox, now: int): Order
    requires m.provider in service.providerPrices
  {
    Order(OrderId(s.seqNo + 1), userId, service.id, m.id, m.provider, providers, OrderWaitingCode, "",
          service.providerPrices[m.provider], now, now, now, 0, 0,
          now + EffectiveOrderTtlSeconds(service.ttlSeconds), false, requestId, "")
  }

  /** Leasing mailbox `mailboxId` to a new order of `userId`. */
  function Lease(s: State, userId: string, serviceId: string, requestId: string, providers: seq<string>,
                 mailboxId: string, now: int): State
    requires userId in s.users && serviceId in s.services && mailboxId in s.mailboxes
    requires s.mailboxes[mailboxId].provider in s.services[serviceId].providerPrices
    requires s.services[serviceId].id in s.mailboxes[mailboxId].services
  {
    var service := s.services[serviceId];
    var m := s.mailboxes[mailboxId];
    var o := NewOrder(s, userId, service, requestId, providers, m, now);
    var user := s.users[userId];
    var slot := m.services[service.id].(state := SlotLeased);
    s.(users := s.users[userId := user.(balance := user.balance - o.price)],
       mailboxes := s.mailboxes[mailboxId :=
         m.(state := MailboxLeased, activeOrderId := o.id, services := m.services[service.id := slot])],
       orders := s.orders[o.id := o],
       seqNo := s.seqNo + 1)
  }

  /** Every outcome of CreateOrder. The choice among equally healthy mailboxes is the map iteration's. */
  ghost predicate CreateStep(s: State, userId: string, serviceId: string, requestId: string, raw: seq<string>,
                             now: int, r: CreateResult, s': State)
  {
    match RefusalBeforeLookup(s, userId, serviceId, raw)
    case Some(why) => r == Refused(why) && s' == s
    case None =>
      if AlreadyRequested(s, userId, requestId) then
        && s' == s && r.Duplicate?
        && exists id :: id in s.orders && r.existing == s.orders[id] && SameRequest(s.orders[id], userId, requestId)
      else if !Funded(s, userId, serviceId, raw) then
        r == Refused(InsufficientBalance) && s' == s
      else
        var providers := Distinct(Normalized(raw));
        var candidates := Candidates(s, s.services[serviceId].id, providers, now);
        if candidates == {} then
          r == Refused(NoMailboxAvailable) && s' == s
        else
          && r.Created? && exists id :: LeasedAs(s, userId, serviceId, requestId, raw, now, id, r.order, s')
  }

  /** The order was created on mailbox `id`, a healthiest candidate. */
  ghost predicate LeasedAs(s: State, userId: string, serviceId: string, requestId: string, raw: seq<string>,
                           now: int, id: string, o: Order, s': State)
    requires userId in s.users && serviceId in s.services && ValidProviders(s.services[serviceId], raw)
  {
    var providers := Distinct(Normalized(raw));
    && Healthiest(s, Candidates(s, s.services[serviceId].id, providers, now), id)
    && s.mailboxes[id].provider in s.services[serviceId].providerPrices
    && o == NewOrder(s, userId, s.services[serviceId], requestId, providers, s.mailboxes[id], now)
    && s' == Lease(s, userId, serviceId, requestId, providers, id, now)
  }

  // ---------------------------------------------------------------- the end of a lease

  /** `refundAndReleaseLocked`. */
  function RefundAndRelease(s: State, id: string, timedOut: bool): State
    requires id in s.orders
  {
    var o := s.orders[id];
    var users :=
      if o.userId in s.users && o.refunded then
        var user := s.users[o.userId];
        s.users[o.userId := user.(balance := user.balance + o.price)]
      else s.users;
    var mailboxes :=
      if o.mailboxId in s.mailboxes then
        s.mailboxes[o.mailboxId := ReleaseMailbox(s.mailboxes[o.mailboxId], o.serviceId, timedOut)]
      else s.mailboxes;
    s.(users := users, mailboxes := mailboxes)
  }

  function ReleaseMailbox(m: Mailbox, serviceId: string, timedOut: bool): Mailbox {
    m.(activeOrderId := "", state := MailboxAvailable,
       services :=
         if serviceId in m.services && m.services[serviceId].state == SlotLeased then
           m.services[serviceId := ReleaseSlot(m.services[serviceId], timedOut)]
         else m.services)
  }

  function ReleaseSlot(slot: Slot, timedOut: bool): Slot {
    if timedOut then
      var next := NextTimeoutState(slot.timeoutCount);
      Slot(next.1, next.0)
    else slot.(state := SlotAvailable)
  }

  function MarkRefunded(s: State, id: string, status: OrderStatus, reason: string): State
    requires id in s.orders
  {
    s.(orders := s.orders[id := s.orders[id].(status := status, refunded := true, failureReason := reason)])
  }

  predicate Overdue(o: Order, now: int) {
    Active(o) && now > o.expiresAt
  }

  /** One turn of the loop in ReapExpired. */
  function Expire(s: State, id: string): State
    requires id in s.orders
  {
    RefundAndRelease(MarkRefunded(s, id, OrderExpiredRefunded, s.orders[id].failureReason), id, true)
  }

  const UNVERIFIED_REASON := "mailbox failed connection verification, order refunded"

  predicate OnUnverifiedMailbox(s: State, id: string)
    requires id in s.orders
  {
    var o := s.orders[id];
    Active(o) && o.mailboxId in s.mailboxes && s.mailboxes[o.mailboxId].verification != Verified
  }

  /** One turn of the loop in ReconcileInvalidMailboxOrders. */
  function Invalidate(s: State, id: string): State
    requires id in s.orders && s.orders[id].mailboxId in s.mailboxes
  {
    var t := RefundAndRelease(MarkRefunded(s, id, OrderExpiredRefunded, UNVERIFIED_REASON), id, true);
    var mailboxId := s.orders[id].mailboxId;
    t.(mailboxes := t.mailboxes[mailboxId := t.mailboxes[mailboxId].(state := MailboxError, healthScore := 0)])
  }

  function ReceiveCode(s: State, id: string, code: string, now: int): (State, OrderResult) {
    if id !in s.orders then (s, Failed(OrderNotFound))
    else
      var o := s.orders[id];
      if !Active(o) || (o.expiresAt != 0 && now >= o.expiresAt) then (s, Failed(InvalidOrderState))
      else if TrimSpace(code) == "" then (s, Failed(VerificationCodeRequired))
      else
        var received := o.(status := OrderCodeReceived, code := TrimSpace(code), codeReceivedAt := now);
        var mailboxes :=
          if o.mailboxId in s.mailboxes then
            s.mailboxes[o.mailboxId := ConsumeSlot(s.mailboxes[o.mailboxId], o.serviceId, now)]
          else s.mailboxes;
        (s.(orders := s.orders[id := received], mailboxes := mailboxes), Done(received))
  }

  function ConsumeSlot(m: Mailbox, serviceId: string, now: int): Mailbox {
    var slot := if serviceId in m.services then m.services[serviceId] else Slot(SlotAvailable, 0);
    m.(todayCodes := m.todayCodes + 1, lastReceivedAt := now, activeOrderId := "", state := MailboxAvailable,
       services := m.services[serviceId := slot.(state := SlotConsumed)])
  }

  predicate Visible(s: State, id: string, userId: string) {
    id in s.orders && (userId == "" || s.orders[id].userId == userId)
  }

  function Complete(s: State, id: string, userId: string, now: int): (State, OrderResult) {
    if !Visible(s, id, userId) then (s, Failed(OrderNotFound))
    else if s.orders[id].status != OrderCodeReceived then (s, Failed(InvalidOrderState))
    else
      var o := s.orders[id].(status := OrderCompleted, completedAt := now);
      (s.(orders := s.orders[id := o]), Done(o))
  }

  function Cancel(s: State, id: string, userId: string): (State, OrderResult) {
    if !Visible(s, id, userId) then (s, Failed(OrderNotFound))
    else if !Active(s.orders[id]) then (s, Failed(InvalidOrderState))
    else
      var marked := MarkRefunded(s, id, OrderCanceled, s.orders[id].failureReason);
      (RefundAndRelease(marked, id, false), Done(marked.orders[id]))
  }

  // ---------------------------------------------------------------- maintenance

  predicate Deletable(m: Mailbox) {
    m.state == MailboxError && m.verification == VerificationFailed && m.activeOrderId == ""
  }

  function DeletableIds(s: State): set<string> {
    set id | id in s.mailboxes && Deletable(s.mailboxes[id])
  }

  function MarkConsumed(s: State, mailboxId: string, serviceId: string): (State, Option<Refusal>) {
    if mailboxId !in s.mailboxes then (s, Some(MailboxNotFound))
    else if !SlotOpen(s.mailboxes[mailboxId], serviceId) then (s, None)
    else (ConsumeIdleSlot(s, mailboxId, serviceId), None)
  }

  function ConsumeIdleSlot(s: State, mailboxId: string, serviceId: string): State
    requires mailboxId in s.mailboxes && serviceId in s.mailboxes[mailboxId].services
  {
    var m := s.mailboxes[mailboxId];
    var slot := m.services[serviceId].(state := SlotConsumed);
    s.(mailboxes := s.mailboxes[mailboxId := m.(services := m.services[serviceId := slot])])
  }

  function MarkRegistered(s: State, mailboxId: string, serviceId: string): (State, Option<Refusal>) {
    if mailboxId !in s.mailboxes then (s, Some(MailboxNotFound))
    else if serviceId !in s.services then (s, Some(ServiceNotFound))
    else if serviceId !in s.mailboxes[mailboxId].services then (s, Some(MailboxServiceNotFound))
    else if s.mailboxes[mailboxId].services[serviceId].state == SlotLeased then (s, Some(MailboxServiceLeased))
    else if s.mailboxes[mailboxId].services[serviceId].state == SlotConsumed then (s, None)
    else (ConsumeIdleSlot(s, mailboxId, serviceId), None)
  }

  // ---------------------------------------------------------------- administration

  /** The fields an administrator may send for an existing mailbox; zero values mean "leave as it is". */
  datatype MailboxEdit = MailboxEdit(
    address: string, provider: string, healthScore: int, oauthValidUntil: int,
    connection: Connection, verification: Verification, state: Option<MailboxState>)

  /** The state `SaveMailbox` writes on an existing row: that of a leased mailbox is not the administrator's to
      change. */
  function EditedState(state: MailboxState, activeOrderId: string, e: MailboxEdit): MailboxState {
    var asked := if e.state.Some? && activeOrderId == "" then e.state.value else state;
    if activeOrderId == "" && asked == MailboxError && e.verification == Verified then MailboxAvailable else asked
  }

  function EditMailbox(m: Mailbox, e: MailboxEdit): Mailbox {
    m.(address := e.address, provider := e.provider, state := EditedState(m.state, m.activeOrderId, e),
       healthScore := if e.healthScore > 0 then e.healthScore else m.healthScore,
       oauthValidUntil := if e.oauthValidUntil != 0 then e.oauthValidUntil else m.oauthValidUntil,
       connection := if e.connection != Unspecified then e.connection else m.connection,
       verification := if e.verification != Unverified then e.verification else m.verification)
  }

  function SaveMailbox(s: State, id: string, e: MailboxEdit): State
    requires id in s.mailboxes
  {
    s.(mailboxes := s.mailboxes[id := EditMailbox(s.mailboxes[id], e)])
  }

  function SaveService(s: State, service: Service): State {
    s.(services := s.services[service.id := service])
  }

  function DeleteInvalid(s: State, expected: int): (State, int, Option<Refusal>) {
    var ids := DeletableIds(s);
    if expected >= 0 && expected != |ids| then (s, 0, Some(InvalidMailboxCountChanged))
    else if |ids| == 0 then (s, 0, Some(NoInvalidMailboxes))
    else (s.(mailboxes := s.mailboxes - ids), |ids|, None)
  }
}
