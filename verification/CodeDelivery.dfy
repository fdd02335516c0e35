/** How mail becomes a delivered code: the message-by-order loop of one poll, against the order store as other
    callers change it in the meantime. */
module CodeDelivery {
  import opened Text
  import opened Domain
  import opened StoreModel
  import opened StoreInvariant
  import opened StoreSweeps
  import opened StoreRuns

  /** Compiling an expression and running it on a text: its first group, else the whole match. */
  type Regex = (string, string) -> Option<string>

  datatype Message = Message(id: string, sender: string, subject: string, preview: string, body: string,
                             receivedAt: int)

  // ---------------------------------------------------------------- matching rules

  predicate FromDomain(sender: string, name: string) {
    name != "" && (HasSuffix(sender, "@" + name) || HasSuffix(sender, "." + name))
  }

  predicate SenderAllowed(service: Service, message: Message) {
    exists i :: 0 <= i < |service.senderDomains|
      && FromDomain(ToLower(TrimSpace(message.sender)), ToLower(TrimSpace(service.senderDomains[i])))
  }

  predicate KeywordIn(subject: string, keyword: string) {
    keyword != "" && Contains(subject, keyword)
  }

  predicate SubjectAllowed(service: Service, message: Message) {
    exists i :: 0 <= i < |service.subjectKeywords|
      && KeywordIn(ToLower(message.subject), ToLower(TrimSpace(service.subjectKeywords[i])))
  }

  /** The platform's identity rule. */
  predicate Matches(service: Service, message: Message) {
    SenderAllowed(service, message) && SubjectAllowed(service, message)
  }

  method MessageMatchesService(service: Service, message: Message) returns (matches: bool)
    ensures matches <==> Matches(service, message)
  {
    hide FromDomain, KeywordIn, ToLower, TrimSpace;
    var sender := ToLower(TrimSpace(message.sender));
    var senderAllowed := false;
    for i := 0 to |service.senderDomains|
      invariant senderAllowed <==> exists j ::
        0 <= j < i && FromDomain(sender, ToLower(TrimSpace(service.senderDomains[j])))
    {
      if FromDomain(sender, ToLower(TrimSpace(service.senderDomains[i]))) {
        senderAllowed := true;
      }
    }
    if !senderAllowed {
      return false;
    }
    var subject := ToLower(message.subject);
    for i := 0 to |service.subjectKeywords|
      invariant forall j :: 0 <= j < i ==> !KeywordIn(subject, ToLower(TrimSpace(service.subjectKeywords[j])))
    {
      if KeywordIn(subject, ToLower(TrimSpace(service.subjectKeywords[i]))) {
        return true;
      }
    }
    return false;
  }

  /** The text the platform's expression is run on. */
  function Searched(message: Message): string {
    message.subject + "\n" + message.preview
    + if message.body != "" && message.body != message.preview then "\n" + message.body else ""
  }

  /** `matchCode`. */
  function MatchCode(regex: Regex, service: Service, message: Message): Option<string> {
    if Matches(service, message) then regex(service.regex, Searched(message)) else None
  }

  /** A message matches when its sender is at or below an allowed domain and its subject has a keyword; blank domains
      and keywords do not count, nor does letter case. */
  lemma MatchesExactly(service: Service, message: Message)
    ensures Matches(service, message) <==>
      && (exists i :: 0 <= i < |service.senderDomains| && InDomain(message.sender, service.senderDomains[i]))
      && (exists i :: 0 <= i < |service.subjectKeywords| && HasKeyword(message.subject, service.subjectKeywords[i]))
  {
    hide ToLower, TrimSpace, InDomain, HasKeyword;
    forall i | 0 <= i < |service.senderDomains|
      ensures FromDomain(ToLower(TrimSpace(message.sender)), ToLower(TrimSpace(service.senderDomains[i])))
         <==> InDomain(message.sender, service.senderDomains[i])
    {
      DomainIs(message.sender, service.senderDomains[i]);
    }
    forall i | 0 <= i < |service.subjectKeywords|
      ensures KeywordIn(ToLower(message.subject), ToLower(TrimSpace(service.subjectKeywords[i])))
         <==> HasKeyword(message.subject, service.subjectKeywords[i])
    {
      KeywordIs(message.subject, service.subjectKeywords[i]);
    }
  }

  /** The sender ends in the domain, after an at sign or a dot. */
  predicate InDomain(sender: string, domain: string) {
    var from, name := ToLower(TrimSpace(sender)), ToLower(TrimSpace(domain));
    && name != "" && |from| > |name| && from[|from| - |name|..] == name
    && (from[|from| - |name| - 1] == '@' || from[|from| - |name| - 1] == '.')
  }

  /** The keyword stands somewhere in the subject. */
  predicate HasKeyword(subject: string, keyword: string) {
    var text, word := ToLower(subject), ToLower(TrimSpace(keyword));
    word != "" && exists i, j :: 0 <= i <= j <= |text| && text[i..j] == word
  }

  lemma DomainIs(sender: string, domain: string)
    ensures FromDomain(ToLower(TrimSpace(sender)), ToLower(TrimSpace(domain))) <==> InDomain(sender, domain)
  {
    var from, name := ToLower(TrimSpace(sender)), ToLower(TrimSpace(domain));
    hide ToLower, TrimSpace;
    SuffixAfter(from, '@', name);
    SuffixAfter(from, '.', name);
  }

  lemma SuffixAfter(s: string, c: char, name: string)
    ensures HasSuffix(s, [c] + name) <==>
      |s| > |name| && s[|s| - |name|..] == name && s[|s| - |name| - 1] == c
  {
    if |s| > |name| {
      assert s[|s| - |name| - 1..] == [s[|s| - |name| - 1]] + s[|s| - |name|..];
    }
  }

  lemma KeywordIs(subject: string, keyword: string)
    ensures KeywordIn(ToLower(subject), ToLower(TrimSpace(keyword))) <==> HasKeyword(subject, keyword)
  {
    var text, word := ToLower(subject), ToLower(TrimSpace(keyword));
    hide ToLower, TrimSpace;
    if Contains(text, word) {
      var i :| 0 <= i <= |text| && word <= text[i..];
      assert text[i..i + |word|] == word;
    }
    if i, j :| 0 <= i <= j <= |text| && text[i..j] == word {
      assert text[i..][..j - i] == word;
      assert word <= text[i..];
    }
  }

  /** The expression runs on subject, preview and body, all of them, and only if the message matches. */
  lemma AllIsSearched(regex: Regex, service: Service, m: Message)
    ensures MatchCode(regex, service, m) == if Matches(service, m) then regex(service.regex, Searched(m)) else None
    ensures |Searched(m)| > |m.subject| + |m.preview|
    ensures Searched(m)[..|m.subject|] == m.subject && Searched(m)[|m.subject|] == '\n'
    ensures Searched(m)[|m.subject| + 1..|m.subject| + 1 + |m.preview|] == m.preview
    ensures if m.body == "" || m.body == m.preview then |Searched(m)| == |m.subject| + 1 + |m.preview|
            else |Searched(m)| == |m.subject| + |m.preview| + |m.body| + 2
                 && Searched(m)[|m.subject| + 1 + |m.preview|] == '\n'
                 && Searched(m)[|m.subject| + |m.preview| + 2..] == m.body
  {
  }

  // ---------------------------------------------------------------- windows

  /** The poll looks at a message for an order unless it is older than a minute before the order was assigned or,
      without that time, submitted. */
  lemma ListenedExactly(o: Order, m: Message)
    ensures o.assignedAt != 0 ==> (Listened(o, m) <==> m.receivedAt >= o.assignedAt - 60)
    ensures o.assignedAt == 0 && o.submittedAt != 0 ==> (Listened(o, m) <==> m.receivedAt >= o.submittedAt - 60)
    ensures o.assignedAt == 0 && o.submittedAt == 0 ==> Listened(o, m)
  {
  }

  /** The poll does not look at mail older than a minute before the order. */
  predicate Listened(o: Order, m: Message) {
    var start := if o.assignedAt != 0 then o.assignedAt else o.submittedAt;
    start == 0 || m.receivedAt >= start - 60
  }

  function InWindow(orders: seq<Order>, m: Message): seq<Order> {
    if orders == [] then []
    else InWindow(orders[..|orders| - 1], m) + if Listened(orders[|orders| - 1], m) then [orders[|orders| - 1]] else []
  }

  /** What the owner of the order may see. */
  predicate Visible(service: Service, o: Order, m: Message) {
    var start := if o.assignedAt != 0 then o.assignedAt else o.createdAt;
    && m.receivedAt != 0
    && (start == 0 || m.receivedAt >= start - 60)
    && (o.expiresAt == 0 || m.receivedAt <= o.expiresAt)
    && Matches(service, m)
  }

  function Filtered(service: Service, o: Order, messages: seq<Message>): seq<Message> {
    if messages == [] then []
    else Filtered(service, o, messages[..|messages| - 1])
         + if Visible(service, o, messages[|messages| - 1]) then [messages[|messages| - 1]] else []
  }

  method FilterMessagesForOrder(service: Service, o: Order, messages: seq<Message>) returns (filtered: seq<Message>)
    ensures filtered == Filtered(service, o, messages)
    ensures forall m :: m in filtered <==> m in messages && Visible(service, o, m)
    ensures forall m :: m in filtered <==>
      && m in messages && Matches(service, m) && m.receivedAt != 0
      && (o.expiresAt == 0 || m.receivedAt <= o.expiresAt)
      && (o.assignedAt != 0 ==> m.receivedAt >= o.assignedAt - 60)
      && (o.assignedAt == 0 && o.createdAt != 0 ==> m.receivedAt >= o.createdAt - 60)
  {
    var windowStart := if o.assignedAt != 0 then o.assignedAt else o.createdAt;
    var isOpen := windowStart == 0;
    windowStart := windowStart - 60;
    filtered := [];
    for i := 0 to |messages|
      invariant filtered == Filtered(service, o, messages[..i])
      invariant forall m :: m in filtered <==> m in messages[..i] && Visible(service, o, m)
    {
      hide Matches;
      var message := messages[i];
      assert messages[..i + 1] == messages[..i] + [message] && messages[..i + 1][..i] == messages[..i];
      if message.receivedAt == 0 {
        continue;
      }
      if !isOpen && message.receivedAt < windowStart {
        continue;
      }
      if o.expiresAt != 0 && message.receivedAt > o.expiresAt {
        continue;
      }
      var matches := MessageMatchesService(service, message);
      if matches {
        filtered := filtered + [message];
      }
    }
    assert messages[..|messages|] == messages;
  }

  // ---------------------------------------------------------------- receipts

  /** A code accepted by a poll: the order as stored then, the platform, the message and the time. */
  datatype Receipt = Receipt(order: Order, service: Service, message: Message, at: int)

  /** Times of real orders are long after the zero time. */
  predicate Dated(o: Order) {
    o.assignedAt > 60
  }

  /** What the dates decide of an accepted message: it carries one, not after the order expired; and, only for orders
      without an assignment time, not long before the order was created. */
  predicate InOwnersWindow(o: Order, m: Message) {
    && m.receivedAt != 0 && (o.expiresAt == 0 || m.receivedAt <= o.expiresAt)
    && (o.assignedAt == 0 && o.createdAt != 0 ==> m.receivedAt >= o.createdAt - 60)
  }

  /** The order's owner may see an accepted message exactly if its dates allow it; they do for orders with an assignment
      time and messages not dated after the acceptance. */
  predicate Delivered(r: Receipt) {
    && (Visible(r.service, r.order, r.message) <==> InOwnersWindow(r.order, r.message))
    && (Dated(r.order) && r.message.receivedAt <= r.at ==> InOwnersWindow(r.order, r.message))
  }

  predicate Kept(orders: Orders, r: Receipt) {
    && r.order.id in orders && HasCode(orders[r.order.id]) && !orders[r.order.id].refunded
    && orders[r.order.id].code == r.order.code && SameIdentity(r.order, orders[r.order.id])
  }

  ghost predicate ReceiptsOk(orders: Orders, receipts: seq<Receipt>) {
    && (forall i :: 0 <= i < |receipts| ==> Kept(orders, receipts[i]) && Delivered(receipts[i]))
    && (forall i, j :: 0 <= i < j < |receipts| ==> receipts[i].order.id != receipts[j].order.id)
  }

  lemma ReceiptsSurvive(s: State, t: State, receipts: seq<Receipt>)
    requires Inv(s) && Inv(t) && Evolves(s, t) && ReceiptsOk(s.orders, receipts)
    ensures ReceiptsOk(t.orders, receipts)
  {
    MoneyOfInv(s);
    MoneyOfInv(t);
    hide Inv, MailboxesEvolve, NewOrdersOpen, MoneyKept, MoneyOk, Delivered;
    forall i | 0 <= i < |receipts| ensures Kept(t.orders, receipts[i]) {
      var id := receipts[i].order.id;
      assert Kept(s.orders, receipts[i]);
      SettledOrder(s.orders[id], s.users, t.orders[id], t.users);
    }
  }

  lemma MoneyOfInv(s: State)
    requires Inv(s)
    ensures forall id :: id in s.orders ==> OrderMoneyOk(s.orders[id], s.users) && s.orders[id].id == id
  {
  }

  /** A message listened to and accepted before the order expired passes the owner's filter exactly if its dates do. */
  lemma AcceptedIsVisible(regex: Regex, service: Service, listened: Order, o: Order, m: Message, at: int)
    requires Listened(listened, m) && SameIdentity(listened, o) && MatchCode(regex, service, m).Some?
    requires o.expiresAt == 0 || at < o.expiresAt
    ensures Delivered(Receipt(o, service, m, at))
  {
    hide Matches;
  }

  // ---------------------------------------------------------------- other callers

  /** An operation of the store run by somebody else while a poll is under way; platforms are not edited then. */
  datatype Call =
    | Creates(userId: string, serviceId: string, requestId: string, raw: seq<string>, mailboxId: string)
    | Receives(orderId: string, code: string)
    | Completes(orderId: string, userId: string)
    | Cancels(orderId: string, userId: string)
    | Sweeps(kind: Kind, walk: seq<string>)
    | Deletes(expected: int)
    | MarksConsumed(mailboxId: string, serviceId: string)
    | MarksRegistered(mailboxId: string, serviceId: string)
    | Saves(mailboxId: string, edit: MailboxEdit)

  function OtherCall(s: State, call: Call, now: int): State {
    match call
    case Creates(userId, serviceId, requestId, raw, mailboxId) =>
      if Keyed(s) && CanLease(s, userId, serviceId, requestId, raw, mailboxId, now) then
        LeaseDefined(s, userId, serviceId, requestId, raw, mailboxId, now);
        Lease(s, userId, serviceId, requestId, Distinct(Normalized(raw)), mailboxId, now)
      else s
    case Receives(orderId, code) => ReceiveCode(s, orderId, code, now).0
    case Completes(orderId, userId) => Complete(s, orderId, userId, now).0
    case Cancels(orderId, userId) => Cancel(s, orderId, userId).0
    case Sweeps(kind, walk) => SweepAlong(s, kind, walk).0
    case Deletes(expected) => DeleteInvalid(s, expected).0
    case MarksConsumed(mailboxId, serviceId) => MarkConsumed(s, mailboxId, serviceId).0
    case MarksRegistered(mailboxId, serviceId) => MarkRegistered(s, mailboxId, serviceId).0
    case Saves(mailboxId, edit) =>
      if mailboxId in s.mailboxes && !LeasesByHand(s.mailboxes[mailboxId], edit) then SaveMailbox(s, mailboxId, edit)
        else s
  }

  lemma {:induction false} SweepAlongKeeps(s: State, k: Kind, walk: seq<string>)
    requires Inv(s)
    ensures var t := SweepAlong(s, k, walk).0; Inv(t) && Evolves(s, t) && t.services == s.services
    decreases |walk|
  {
    hide Inv, Evolves, Qualifies;
    NothingEvolves(s);
    if walk != [] {
      if walk[0] in s.orders && Qualifies(s, k, walk[0]) {
        var one := SweepOne(s, k, walk[0]);
        SweepOneKeepsInv(s, k, walk[0]);
        SweepOneEvolves(s, k, walk[0]);
        SweepAlongKeeps(one, k, walk[1..]);
        EvolvesTrans(s, one, SweepAlong(one, k, walk[1..]).0);
      } else {
        SweepAlongKeeps(s, k, walk[1..]);
      }
    }
  }

  lemma OtherCallKeeps(s: State, call: Call, now: int)
    requires Inv(s)
    ensures var t := OtherCall(s, call, now); Inv(t) && Evolves(s, t) && t.services == s.services
  {
    NothingEvolves(s);
    hide Inv, Evolves, CanLease, SweepAlong;
    match call
    case Creates(userId, serviceId, requestId, raw, mailboxId) =>
      if Keyed(s) && CanLease(s, userId, serviceId, requestId, raw, mailboxId, now) {
        LeaseStep(s, userId, serviceId, requestId, raw, mailboxId, now);
      }
    case Receives(orderId, code) => ReceiveStep(s, orderId, code, now);
    case Completes(orderId, userId) => CompleteStep(s, orderId, userId, now);
    case Cancels(orderId, userId) => CancelStep(s, orderId, userId);
    case Sweeps(kind, walk) => SweepAlongKeeps(s, kind, walk);
    case Deletes(expected) => DeleteStep(s, DeletableIds(s));
    case MarksConsumed(mailboxId, serviceId) => MarkSteps(s, mailboxId, serviceId);
    case MarksRegistered(mailboxId, serviceId) => MarkSteps(s, mailboxId, serviceId);
    case Saves(mailboxId, edit) => if mailboxId in s.mailboxes { SaveMailboxExactly(s, mailboxId, edit); }
  }

  // ---------------------------------------------------------------- the poll

  class Poller {
    const regex: Regex
    var state: State
    var clock: int
    var seen: set<(string, string)>
    ghost var receipts: seq<Receipt>

    ghost predicate Valid()
      reads this
    {
      Inv(state) && ReceiptsOk(state.orders, receipts)
    }

    constructor (regex: Regex, state: State, clock: int)
      requires Inv(state)
      ensures Valid() && receipts == [] && this.state == state
    {
      this.regex, this.state, this.clock, seen, receipts := regex, state, clock, {}, [];
    }

    /** Time passes and other callers use the store, any number of times. */
    method OthersRun()
      requires Valid()
      modifies this`state, this`clock
      ensures Valid() && Evolves(old(state), state) && state.services == old(state.services) && clock >= old(clock)
    {
      hide Inv, Evolves, OtherCall;
      NothingEvolves(state);
      var calls: int := *;
      for i := 0 to if calls < 0 then 0 else calls
        invariant Valid() && Evolves(old(state), state) && state.services == old(state.services) && clock >= old(clock)
      {
        var later: int :| later >= clock;
        var call: Call := *;
        var next := OtherCall(state, call, later);
        OtherCallKeeps(state, call, later);
        ReceiptsSurvive(state, next, receipts);
        EvolvesTrans(old(state), state, next);
        state, clock := next, later;
      }
    }

    /** `listened` is the order as the poll first read it; the call may also fail in the database. */
    method ReceiveCodeValue(listened: Order, service: Service, message: Message, code: string) returns (accepted: bool)
      requires Valid() && listened.id in state.orders && SameIdentity(listened, state.orders[listened.id])
      requires Listened(listened, message) && MatchCode(regex, service, message) == Some(code)
      modifies this`state, this`clock, this`receipts
      ensures Valid() && Evolves(old(state), state) && state.services == old(state.services)
      ensures !accepted ==> receipts == old(receipts)
      ensures accepted ==>
        && |receipts| == |old(receipts)| + 1 && receipts[..|old(receipts)|] == old(receipts)
        && var r := receipts[|old(receipts)|];
        && r.order.id == listened.id && r.message == message && r.service == service && r.order.code == TrimSpace(code)
    {
      hide Inv, Evolves, MatchCode, Listened, Delivered;
      ghost var start := state;
      OthersRun();
      OrderRemains(start, state, listened);
      var failed := *;
      if failed {
        return false;
      }
      var (next, r) := ReceiveCode(state, listened.id, code, clock);
      ReceiveStep(state, listened.id, code, clock);
      ReceiptsSurvive(state, next, receipts);
      EvolvesTrans(start, state, next);
      accepted := r.Done?;
      if accepted {
        ReceiptAdded(regex, state, receipts, listened, service, message, code, clock);
        receipts := receipts + [Receipt(r.order, service, message, clock)];
      }
      state := next;
    }

    /** One order's turn: look up its platform, match, and hand the code over. */
    method TryOrder(order: Order, message: Message) returns (matched: bool, received: bool)
      requires Valid() && order.id in state.orders && SameIdentity(order, state.orders[order.id])
        && Listened(order, message)
      modifies this`state, this`clock, this`receipts
      ensures Valid() && Evolves(old(state), state) && state.services == old(state.services)
      ensures matched == RuleMatches(regex, state.services, order, message) && (received ==> matched)
      ensures if received then ReceiptFor(old(receipts), receipts, order.id, message) else receipts == old(receipts)
    {
      hide Inv, Evolves, MatchCode, Listened, Valid;
      NothingEvolves(state);
      if order.serviceId !in state.services {
        return false, false;
      }
      var service := state.services[order.serviceId];
      var code := MatchCode(regex, service, message);
      if code.None? {
        return false, false;
      }
      received := ReceiveCodeValue(order, service, message, code.value);
      matched := true;
    }

    /** One message against the orders in whose window it falls. */
    method PollMessage(orders: seq<Order>, message: Message) returns (accepted: Option<string>, mark: bool)
      requires Valid() && Known(state.orders, orders)
      modifies this`state, this`clock, this`receipts
      ensures Valid() && Evolves(old(state), state) && state.services == old(state.services)
      ensures accepted.None? ==> receipts == old(receipts)
      ensures accepted.Some? ==> ReceiptFor(old(receipts), receipts, accepted.value, message)
      ensures mark <==> MayMark(regex, state.services, orders, message, accepted)
    {
      hide *;
      accepted := None;
      ghost var start := state;
      NothingEvolves(state);
      var messageOrders := InWindowOrders(orders, message);
      NoneMatches(regex, state.services, message);
      MarkRule(regex, state.services, orders, message);
      if |messageOrders| == 0 {
        return None, false;
      }
      var matched := false;
      for i := 0 to |messageOrders|
        invariant Valid() && Evolves(start, state) && state.services == start.services && receipts == old(receipts)
        invariant matched == AnyMatches(regex, state.services, messageOrders[..i], message)
      {
        var order := messageOrders[i];
        KnownOrder(start, state, orders, messageOrders, i, message);
        ghost var before := state;
        var ruleMatched, received := TryOrder(order, message);
        EvolvesTrans(start, before, state);
        OneMoreMatches(regex, state.services, messageOrders, i, message);
        if ruleMatched {
          matched := true;
        }
        if received {
          return Some(order.id), true;
        }
      }
      assert messageOrders[..|messageOrders|] == messageOrders;
      mark := !matched;
    }

    /** All messages of one poll; `marks` are the messages for which the poll asks to be recorded as seen. */
    method Poll(mailboxId: string, orders: seq<Order>, messages: seq<Message>)
      returns (accepts: seq<Option<string>>, marks: seq<bool>)
      requires Valid() && forall o :: o in orders ==> o.id in state.orders && state.orders[o.id] == o
      modifies this
      ensures Valid() && Evolves(old(state), state) && |accepts| == |marks| == |messages|
      ensures old(receipts) <= receipts && Told(receipts[|old(receipts)|..]) == Outcomes(messages, accepts)
      ensures forall i :: 0 <= i < |messages| && accepts[i].Some? ==>
        ReceiptedWith(receipts, accepts[i].value, messages[i])
      ensures forall i :: 0 <= i < |messages| ==>
        (marks[i] <==> MayMark(regex, state.services, orders, messages[i], accepts[i]))
      ensures forall i, j :: 0 <= i < j < |messages| && accepts[i].Some? && accepts[j].Some? ==>
        accepts[i] != accepts[j]
      ensures forall e :: e in seen && e !in old(seen) ==> exists i ::
        0 <= i < |messages| && marks[i] && e == (mailboxId, messages[i].id)
    {
      accepts, marks := [], [];
      ghost var start := state;
      NothingEvolves(state);
      hide Inv, Evolves, InWindow, ReceiptsOk, RuleMatches, MayMark, Told, Outcomes, ReceiptedWith, ReceiptFor,
        Receipted;
      NothingTold(receipts, messages);
      for i := 0 to |messages|
        invariant Valid() && Evolves(start, state) && state.services == start.services && |accepts| == |marks| == i
        invariant old(receipts) <= receipts && Told(receipts[|old(receipts)|..]) == Outcomes(messages[..i], accepts)
        invariant forall k :: 0 <= k < i ==>
          (marks[k] <==> MayMark(regex, state.services, orders, messages[k], accepts[k]))
        invariant forall k :: 0 <= k < i && accepts[k].Some? ==> Receipted(receipts, accepts[k].value)
        invariant forall k, j :: 0 <= k < j < i && accepts[k].Some? && accepts[j].Some? ==> accepts[k] != accepts[j]
        invariant forall e :: e in seen && e !in old(seen) ==> exists k ::
          0 <= k < i && marks[k] && e == (mailboxId, messages[k].id)
      {
        OrdersRemain(start, state, orders);
        ghost var before, earlier := state, receipts;
        var accepted, mark := PollMessage(orders, messages[i]);
        EvolvesTrans(start, before, state);
        if accepted.Some? { NewReceipt(state.orders, earlier, receipts, accepted.value); }
        OutcomesGrow(old(receipts), earlier, receipts, messages, i, accepts, accepted);
        accepts, marks := accepts + [accepted], marks + [mark];
        var failed := *;
        if mark && !failed {
          assert marks[i];
          seen := seen + {(mailboxId, messages[i].id)};
        }
      }
      assert messages[..|messages|] == messages;
      AcceptedAreTold(old(receipts), receipts, messages, accepts);
    }
  }

  method InWindowOrders(orders: seq<Order>, message: Message) returns (messageOrders: seq<Order>)
    ensures messageOrders == InWindow(orders, message)
    ensures forall o :: o in messageOrders <==> o in orders && Listened(o, message)
  {
    messageOrders := [];
    for i := 0 to |orders|
      invariant messageOrders == InWindow(orders[..i], message)
      invariant forall o :: o in messageOrders <==> o in orders[..i] && Listened(o, message)
    {
      hide Listened;
      assert orders[..i + 1] == orders[..i] + [orders[i]] && orders[..i + 1][..i] == orders[..i];
      if Listened(orders[i], message) {
        messageOrders := messageOrders + [orders[i]];
      }
    }
    assert orders[..|orders|] == orders;
  }

  /** The platform of the order exists and its rule finds a code in the message. */
  predicate RuleMatches(regex: Regex, services: map<string, Service>, o: Order, m: Message) {
    o.serviceId in services && MatchCode(regex, services[o.serviceId], m).Some?
  }

  /** The poll read these orders from the store. */
  ghost predicate Known(stored: Orders, orders: seq<Order>) {
    forall o :: o in orders ==> o.id in stored && SameIdentity(o, stored[o.id])
  }

  predicate AnyMatches(regex: Regex, services: map<string, Service>, orders: seq<Order>, m: Message) {
    exists i :: 0 <= i < |orders| && RuleMatches(regex, services, orders[i], m)
  }

  lemma NoneMatches(regex: Regex, services: map<string, Service>, m: Message)
    ensures forall none: seq<Order> :: none == [] ==> !AnyMatches(regex, services, none, m)
  {
  }

  lemma OneMoreMatches(regex: Regex, services: map<string, Service>, orders: seq<Order>, i: nat, m: Message)
    requires i < |orders|
    ensures AnyMatches(regex, services, orders[..i + 1], m) <==>
      AnyMatches(regex, services, orders[..i], m) || RuleMatches(regex, services, orders[i], m)
  {
    hide RuleMatches;
    if AnyMatches(regex, services, orders[..i], m) {
      var j :| 0 <= j < i && RuleMatches(regex, services, orders[..i][j], m);
      assert orders[..i + 1][j] == orders[j];
    }
    if RuleMatches(regex, services, orders[i], m) {
      assert orders[..i + 1][i] == orders[i];
    }
  }

  lemma MarkRule(regex: Regex, services: map<string, Service>, orders: seq<Order>, m: Message)
    ensures forall accepted ::
      MayMark(regex, services, orders, m, accepted) ==
      (|InWindow(orders, m)| > 0 && (accepted.Some? || !AnyMatches(regex, services, InWindow(orders, m), m)))
  {
    InWindowIs(orders, m);
    hide Listened, MatchCode;
    if InWindow(orders, m) != [] { assert InWindow(orders, m)[0] in InWindow(orders, m); }
  }

  lemma KnownOrder(s: State, t: State, orders: seq<Order>, messageOrders: seq<Order>, i: nat, m: Message)
    requires Known(s.orders, orders) && Evolves(s, t) && i < |messageOrders|
    requires forall o :: o in messageOrders <==> o in orders && Listened(o, m)
    ensures var o := messageOrders[i]; Listened(o, m) && o.id in t.orders && SameIdentity(o, t.orders[o.id])
  {
    hide Evolves, Listened;
    assert messageOrders[i] in messageOrders;
    OrderRemains(s, t, messageOrders[i]);
  }

  /** One receipt more, for this order and message. */
  ghost predicate ReceiptFor(before: seq<Receipt>, after: seq<Receipt>, id: string, message: Message) {
    && |after| == |before| + 1 && after[..|before|] == before
    && after[|before|].order.id == id && after[|before|].message == message
  }

  lemma {:induction false} InWindowIs(orders: seq<Order>, m: Message)
    ensures forall o :: o in InWindow(orders, m) <==> o in orders && Listened(o, m)
  {
    if orders != [] {
      var n := |orders| - 1;
      InWindowIs(orders[..n], m);
      assert orders == orders[..n] + [orders[n]];
      hide Listened;
    }
  }

  /** A message in some order's window may be recorded as seen if its code was accepted, or if no order in whose
      window it falls has a rule that matches it. */
  ghost predicate MayMark(regex: Regex, services: map<string, Service>, orders: seq<Order>, m: Message,
                          accepted: Option<string>)
  {
    && (exists o :: o in orders && Listened(o, m))
    && (accepted.Some? || forall o :: o in orders && Listened(o, m) && o.serviceId in services ==>
          MatchCode(regex, services[o.serviceId], m).None?)
  }

  ghost predicate Receipted(receipts: seq<Receipt>, id: string) {
    exists i :: 0 <= i < |receipts| && receipts[i].order.id == id
  }

  /** The order and the message of each receipt. */
  ghost function Told(receipts: seq<Receipt>): seq<(string, Message)> {
    seq(|receipts|, i requires 0 <= i < |receipts| => (receipts[i].order.id, receipts[i].message))
  }

  /** The order and the message of each acceptance. */
  ghost function Outcomes(messages: seq<Message>, accepts: seq<Option<string>>): seq<(string, Message)>
    requires |messages| == |accepts|
  {
    if messages == [] then []
    else
      var n := |messages| - 1;
      Outcomes(messages[..n], accepts[..n]) + if accepts[n].Some? then [(accepts[n].value, messages[n])] else []
  }

  lemma NothingTold(receipts: seq<Receipt>, messages: seq<Message>)
    ensures Told(receipts[|receipts|..]) == Outcomes(messages[..0], [])
  {
  }

  ghost predicate ReceiptedWith(receipts: seq<Receipt>, id: string, message: Message) {
    exists i :: 0 <= i < |receipts| && receipts[i].order.id == id && receipts[i].message == message
  }

  lemma OutcomesGrow(start: seq<Receipt>, earlier: seq<Receipt>, receipts: seq<Receipt>, messages: seq<Message>, i: nat,
                     accepts: seq<Option<string>>, accepted: Option<string>)
    requires i < |messages| && |accepts| == i && start <= earlier
    requires if accepted.Some? then ReceiptFor(earlier, receipts, accepted.value, messages[i]) else receipts == earlier
    ensures Outcomes(messages[..i + 1], accepts + [accepted])
         == Outcomes(messages[..i], accepts) + if accepted.Some? then [(accepted.value, messages[i])] else []
    ensures Told(receipts[|start|..])
         == Told(earlier[|start|..]) + if accepted.Some? then [(accepted.value, messages[i])] else []
  {
    assert messages[..i + 1][..i] == messages[..i] && (accepts + [accepted])[..i] == accepts;
    if accepted.Some? {
      assert receipts == earlier + [receipts[|earlier|]];
    }
  }

  lemma {:induction false} OutcomeThere(messages: seq<Message>, accepts: seq<Option<string>>, i: nat)
    requires |messages| == |accepts| && i < |messages| && accepts[i].Some?
    ensures (accepts[i].value, messages[i]) in Outcomes(messages, accepts)
  {
    var n := |messages| - 1;
    if i < n {
      OutcomeThere(messages[..n], accepts[..n], i);
    }
  }

  lemma AcceptedAreTold(start: seq<Receipt>, receipts: seq<Receipt>, messages: seq<Message>,
                        accepts: seq<Option<string>>)
    requires start <= receipts && |messages| == |accepts| && Told(receipts[|start|..]) == Outcomes(messages, accepts)
    ensures forall i :: 0 <= i < |messages| && accepts[i].Some? ==>
      ReceiptedWith(receipts, accepts[i].value, messages[i])
  {
    forall i | 0 <= i < |messages| && accepts[i].Some? ensures ReceiptedWith(receipts, accepts[i].value, messages[i]) {
      OutcomeThere(messages, accepts, i);
      var told := receipts[|start|..];
      var k :| 0 <= k < |told| && Told(told)[k] == (accepts[i].value, messages[i]);
      assert receipts[|start| + k] == told[k];
    }
  }

  lemma OrderRemains(s: State, t: State, o: Order)
    requires Evolves(s, t) && o.id in s.orders && SameIdentity(o, s.orders[o.id])
    ensures o.id in t.orders && SameIdentity(o, t.orders[o.id])
  {
    hide MailboxesEvolve, NewOrdersOpen, MoneyKept;
    assert OrderEvolves(s.orders[o.id], t.orders[o.id]);
  }

  lemma OrdersRemain(s: State, t: State, orders: seq<Order>)
    requires Evolves(s, t) && forall o :: o in orders ==> o.id in s.orders && s.orders[o.id] == o
    ensures Known(t.orders, orders)
  {
    hide Evolves;
    forall o | o in orders ensures o.id in t.orders && SameIdentity(o, t.orders[o.id]) {
      OrderRemains(s, t, o);
    }
  }

  lemma NewReceipt(orders: Orders, earlier: seq<Receipt>, receipts: seq<Receipt>, id: string)
    requires ReceiptsOk(orders, receipts) && exists m :: ReceiptFor(earlier, receipts, id, m)
    ensures Receipted(receipts, id) && !Receipted(earlier, id) && earlier <= receipts
    ensures forall other :: Receipted(earlier, other) ==> Receipted(receipts, other)
  {
    hide Kept, Delivered;
    forall other | Receipted(earlier, other) ensures Receipted(receipts, other) {
      var i :| 0 <= i < |earlier| && earlier[i].order.id == other;
      assert receipts[i] == earlier[i];
    }
    forall i | 0 <= i < |earlier| ensures earlier[i].order.id != id {
      assert receipts[i] == earlier[i];
    }
  }

  /** Acceptance is only possible while the order is active, so never for an order that already has a receipt. */
  lemma ReceiptAdded(regex: Regex, s: State, receipts: seq<Receipt>, listened: Order, service: Service,
                     message: Message, code: string, now: int)
    requires Inv(s) && ReceiptsOk(s.orders, receipts) && listened.id in s.orders
      && SameIdentity(listened, s.orders[listened.id])
    requires Listened(listened, message) && MatchCode(regex, service, message) == Some(code)
    requires ReceiveCode(s, listened.id, code, now).1.Done?
      && ReceiptsOk(ReceiveCode(s, listened.id, code, now).0.orders, receipts)
    ensures var (t, r) := ReceiveCode(s, listened.id, code, now);
      && ReceiptsOk(t.orders, receipts + [Receipt(r.order, service, message, now)])
      && r.order.id == listened.id && r.order.code == TrimSpace(code)
  {
    hide Inv, Listened, MatchCode, Delivered, ReceiveCode, OrderMoneyOk, ReceiptsOk, SameIdentity;
    var (t, r) := ReceiveCode(s, listened.id, code, now);
    var id := listened.id;
    MoneyOfInv(s);
    ReceiveDone(s, id, code, now);
    SameIdentityTrans(listened, s.orders[id], r.order);
    AcceptedIsVisible(regex, service, listened, r.order, message, now);
    NoReceiptYet(s.orders, receipts, id);
    AddReceipt(t.orders, receipts, Receipt(r.order, service, message, now));
  }

  lemma SameIdentityTrans(a: Order, b: Order, c: Order)
    requires SameIdentity(a, b) && SameIdentity(b, c)
    ensures SameIdentity(a, c) && (a.expiresAt == c.expiresAt) && SameIdentity(c, c)
  {
  }

  lemma NoReceiptYet(orders: Orders, receipts: seq<Receipt>, id: string)
    requires ReceiptsOk(orders, receipts) && id in orders && Active(orders[id])
    ensures forall i :: 0 <= i < |receipts| ==> receipts[i].order.id != id
  {
    forall i | 0 <= i < |receipts| ensures receipts[i].order.id != id {
      assert Kept(orders, receipts[i]);
    }
  }

  lemma AddReceipt(orders: Orders, receipts: seq<Receipt>, r: Receipt)
    requires ReceiptsOk(orders, receipts) && (forall i :: 0 <= i < |receipts| ==> receipts[i].order.id != r.order.id)
    requires Delivered(r) && r.order.id in orders && orders[r.order.id] == r.order && HasCode(r.order)
      && !r.order.refunded
    ensures ReceiptsOk(orders, receipts + [r])
  {
    assert Kept(orders, r);
    hide Kept, Delivered;
  }

  lemma ReceiveDone(s: State, id: string, code: string, now: int)
    requires ReceiveCode(s, id, code, now).1.Done? && s.orders[id].id == id && OrderMoneyOk(s.orders[id], s.users)
    ensures var (t, r) := ReceiveCode(s, id, code, now); var o := r.order;
      && Active(s.orders[id]) && t.orders == s.orders[id := o] && SameIdentity(s.orders[id], o) && o.id == id
      && HasCode(o) && !o.refunded && o.code == TrimSpace(code) && (o.expiresAt == 0 || now < o.expiresAt)
  {
  }

  /** What the receipts of any number of polls say: no order has two, none of their orders is refunded, each order still
      has the accepted code, and each message passes the filter its owner reads mail through exactly if its dates do. */
  lemma ReceiptsTell(poller: Poller, i: nat, j: nat)
    requires poller.Valid() && i < |poller.receipts| && j < |poller.receipts|
    ensures var r := poller.receipts[i]; var o := r.order;
      && (i != j ==> o.id != poller.receipts[j].order.id)
      && o.id in poller.state.orders && HasCode(poller.state.orders[o.id]) && !poller.state.orders[o.id].refunded
      && poller.state.orders[o.id].code == o.code
      && (forall messages: seq<Message> | r.message in messages ::
            r.message in Filtered(r.service, o, messages) <==> InOwnersWindow(o, r.message))
      && (Dated(o) && r.message.receivedAt <= r.at ==> InOwnersWindow(o, r.message))
  {
    hide Inv;
    var r := poller.receipts[i];
    assert Kept(poller.state.orders, r) && Delivered(r);
    if i < j { assert poller.receipts[i].order.id != poller.receipts[j].order.id; }
    hide Visible;
    forall messages: seq<Message> | r.message in messages
      ensures r.message in Filtered(r.service, r.order, messages) <==> InOwnersWindow(r.order, r.message)
    {
      FilteredHas(r.service, r.order, messages, r.message);
    }
  }

  lemma {:induction false} FilteredHas(service: Service, o: Order, messages: seq<Message>, m: Message)
    ensures m in Filtered(service, o, messages) <==> m in messages && Visible(service, o, m)
  {
    if messages != [] {
      var init := messages[..|messages| - 1];
      assert messages == init + [messages[|messages| - 1]];
      FilteredHas(service, o, init, m);
    }
  }
}
