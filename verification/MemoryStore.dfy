/** The in-memory store: maps of pointers to records, updated in place by methods that hold the mutex.
    Every method is proved against the functions of StoreModel through `View`. */
module MemoryStore {
  import opened Text
  import opened Domain
  import opened OrderIds
  import opened StoreModel
  import opened StoreInvariant
  import opened StoreSweeps
  import opened StoreRuns
  import opened StoreStock
  import opened StoreLaws
  import opened StoreSeed

  /** A pointer to a record. */
  class Ref<T> {
    var value: T

    constructor (value: T)
      ensures this.value == value
    {
      this.value := value;
    }
  }

  ghost function Values<T>(refs: map<string, Ref<T>>): (m: map<string, T>)
    reads refs.Values
    ensures m.Keys == refs.Keys
  {
    map k | k in refs :: refs[k].value
  }

  ghost predicate Separate<T>(refs: map<string, Ref<T>>) {
    forall a, b :: a in refs && b in refs && refs[a] == refs[b] ==> a == b
  }

  lemma AddedOne<T>(refs: map<string, Ref<T>>, id: string, ref: Ref<T>)
    ensures Values(refs[id := ref]) == Values(refs)[id := ref.value]
  {
  }

  lemma SeparateOne<T>(refs: map<string, Ref<T>>, id: string, ref: Ref<T>)
    requires Separate(refs) && ref !in refs.Values
    ensures Separate(refs[id := ref])
  {
    var after := refs[id := ref];
    forall a, b | a in after && b in after && after[a] == after[b] ensures a == b {
      if a != id && b != id { assert refs[a] == refs[b]; }
    }
  }

  class Store {
    var users: map<string, Ref<User>>
    var services: map<string, Service>
    var mailboxes: map<string, Ref<Mailbox>>
    var orders: map<string, Ref<Order>>
    var seqNo: nat

    /** No two keys share a record. */
    ghost predicate Wired()
      reads this
    {
      Separate(users) && Separate(mailboxes) && Separate(orders)
    }

    ghost function View(): (s: State)
      reads this, users.Values, mailboxes.Values, orders.Values
      ensures s.users.Keys == users.Keys && s.mailboxes.Keys == mailboxes.Keys && s.orders.Keys == orders.Keys
      ensures s.services == services && s.seqNo == seqNo
    {
      State(Values(users), services, Values(mailboxes), Values(orders), seqNo)
    }

    /** Holds whenever the mutex is free. */
    ghost predicate Valid()
      reads this, users.Values, mailboxes.Values, orders.Values
    {
      Wired() && Inv(View())
    }

    lemma UserAt(id: string)
      ensures id in users ==> users[id].value == View().users[id]
    {
    }

    lemma MailboxAt(id: string)
      ensures id in mailboxes ==> mailboxes[id].value == View().mailboxes[id]
    {
    }

    lemma OrderAt(id: string)
      ensures id in orders ==> orders[id].value == View().orders[id]
    {
    }

    // -------------------------------------------------------------- a new store

    constructor New(catalogue: seq<Service>, now: int)
      ensures Valid() && View() == SeedState(catalogue, now)
      ensures fresh(users.Values) && fresh(mailboxes.Values) && fresh(orders.Values)
    {
      users, services, mailboxes, orders, seqNo := map[], map[], map[], map[], SEED_SEQUENCE;
      new;
      AddSeedUsers();
      hide View, SeedMailbox, SeedMailboxes, SeedUsers, Catalogue, Inv;
      AddServices(catalogue);
      AddSeedMailboxes(now);
      SeedStarts(catalogue, now);
    }

    method AddSeedUsers()
      requires Wired() && users == map[]
      modifies this`users
      ensures Wired() && fresh(users.Values) && View() == old(View()).(users := SeedUsers())
    {
      hide View;
      ghost var start := View();
      NoUserYet();
      AddUser(User("user-001", 4860));
      AddUser(User("admin-001", 0));
    }

    lemma NoUserYet()
      requires users == map[]
      ensures View().users == map[]
    {
    }

    method AddSeedMailboxes(now: int)
      requires Wired() && mailboxes == map[]
      modifies this`mailboxes
      ensures Wired() && fresh(mailboxes.Values)
      ensures View() == old(View()).(mailboxes := SeedMailboxes(SEED_MAILBOXES, services.Keys, now))
    {
      ghost var start := View();
      NoSeedYet(services.Keys, now);
      hide View, SeedMailbox, SeedMailboxes;
      for i := 1 to SEED_MAILBOXES + 1
        invariant Wired() && fresh(mailboxes.Values)
        invariant View() == start.(mailboxes := SeedMailboxes(i - 1, services.Keys, now))
      {
        OneSeedMore(i, services.Keys, now);
        AddMailbox(SeedMailbox(i, services.Keys, now));
      }
    }

    method AddUser(user: User)
      requires Wired()
      modifies this`users
      ensures Wired() && fresh(users.Values - old(users.Values))
      ensures View() == old(View()).(users := old(View()).users[user.id := user])
    {
      var ref := new Ref(user);
      AddedOne(users, user.id, ref);
      SeparateOne(users, user.id, ref);
      hide Separate;
      users := users[user.id := ref];
    }

    method AddServices(catalogue: seq<Service>)
      requires services == map[]
      modifies this`services
      ensures services == Catalogue(catalogue)
    {
      for i := 0 to |catalogue|
        invariant services == Catalogue(catalogue[..i])
      {
        assert catalogue[..i + 1][..i] == catalogue[..i];
        services := services[catalogue[i].id := catalogue[i]];
      }
      assert catalogue[..|catalogue|] == catalogue;
    }

    method AddMailbox(mailbox: Mailbox)
      requires Wired()
      modifies this`mailboxes
      ensures Wired() && fresh(mailboxes.Values - old(mailboxes.Values))
      ensures View() == old(View()).(mailboxes := old(View()).mailboxes[mailbox.id := mailbox])
    {
      var ref := new Ref(mailbox);
      AddedOne(mailboxes, mailbox.id, ref);
      SeparateOne(mailboxes, mailbox.id, ref);
      hide Separate;
      mailboxes := mailboxes[mailbox.id := ref];
    }

    // -------------------------------------------------------------- writing through one pointer

    method WriteOrder(id: string, value: Order)
      requires Wired() && id in orders
      modifies orders[id]
      ensures orders[id].value == value
      ensures View() == old(View()).(orders := old(View()).orders[id := value])
    {
      orders[id].value := value;
    }

    method WriteMailbox(id: string, value: Mailbox)
      requires Wired() && id in mailboxes
      modifies mailboxes[id]
      ensures mailboxes[id].value == value
      ensures View() == old(View()).(mailboxes := old(View()).mailboxes[id := value])
    {
      mailboxes[id].value := value;
    }

    method WriteUser(id: string, value: User)
      requires Wired() && id in users
      modifies users[id]
      ensures users[id].value == value
      ensures View() == old(View()).(users := old(View()).users[id := value])
    {
      users[id].value := value;
    }

    // -------------------------------------------------------------- one order

    method ReceiveCodeValue(id: string, code: string, now: int) returns (r: OrderResult)
      requires Valid()
      modifies mailboxes.Values, orders.Values
      ensures Valid()
      ensures (View(), r) == ReceiveCode(old(View()), id, code, now)
    {
      OrderAt(id);
      hide View, Inv, Evolves;
      ReceiveStep(View(), id, code, now);
      if id !in orders {
        return Failed(OrderNotFound);
      }
      var order := orders[id].value;
      if order.status != OrderAssigned && order.status != OrderWaitingCode {
        return Failed(InvalidOrderState);
      }
      if order.expiresAt != 0 && now >= order.expiresAt {
        return Failed(InvalidOrderState);
      }
      var trimmed := TrimSpace(code);
      if trimmed == "" {
        return Failed(VerificationCodeRequired);
      }
      order := order.(status := OrderCodeReceived, code := trimmed, codeReceivedAt := now);
      WriteOrder(id, order);
      if order.mailboxId in mailboxes {
        ConsumeLocked(order.mailboxId, order.serviceId, now);
      }
      return Done(order);
    }

    method ConsumeLocked(mailboxId: string, serviceId: string, now: int)
      requires Wired() && mailboxId in mailboxes
      modifies mailboxes[mailboxId]
      ensures var was := old(View()).mailboxes;
        View() == old(View()).(mailboxes := was[mailboxId := ConsumeSlot(was[mailboxId], serviceId, now)])
    {
      MailboxAt(mailboxId);
      hide View;
      var mailbox := mailboxes[mailboxId].value;
      mailbox := mailbox.(todayCodes := mailbox.todayCodes + 1, lastReceivedAt := now);
      mailbox := mailbox.(activeOrderId := "", state := MailboxAvailable);
      var slot := if serviceId in mailbox.services then mailbox.services[serviceId] else Slot(SlotAvailable, 0);
      slot := slot.(state := SlotConsumed);
      mailbox := mailbox.(services := mailbox.services[serviceId := slot]);
      WriteMailbox(mailboxId, mailbox);
    }

    method CompleteOrder(id: string, userId: string, now: int) returns (r: OrderResult)
      requires Valid()
      modifies orders.Values
      ensures Valid()
      ensures (View(), r) == Complete(old(View()), id, userId, now)
    {
      OrderAt(id);
      hide View, Inv, Evolves;
      CompleteStep(View(), id, userId, now);
      if id !in orders || (userId != "" && orders[id].value.userId != userId) {
        return Failed(OrderNotFound);
      }
      var order := orders[id].value;
      if order.status != OrderCodeReceived {
        return Failed(InvalidOrderState);
      }
      order := order.(status := OrderCompleted, completedAt := now);
      WriteOrder(id, order);
      return Done(order);
    }

    method CancelOrder(id: string, userId: string) returns (r: OrderResult)
      requires Valid()
      modifies users.Values, mailboxes.Values, orders.Values
      ensures Valid()
      ensures (View(), r) == Cancel(old(View()), id, userId)
    {
      OrderAt(id);
      hide View, Inv, Evolves, RefundAndRelease;
      CancelStep(View(), id, userId);
      if id !in orders || (userId != "" && orders[id].value.userId != userId) {
        return Failed(OrderNotFound);
      }
      var order := orders[id].value;
      if order.status != OrderAssigned && order.status != OrderWaitingCode {
        return Failed(InvalidOrderState);
      }
      order := order.(status := OrderCanceled, refunded := true);
      WriteOrder(id, order);
      RefundAndReleaseLocked(id, false);
      return Done(order);
    }

    method RefundAndReleaseLocked(id: string, timedOut: bool)
      requires Wired() && id in orders
      modifies users.Values, mailboxes.Values
      ensures View() == RefundAndRelease(old(View()), id, timedOut)
    {
      OrderAt(id);
      hide View;
      var order := orders[id].value;
      if order.userId in users && order.refunded {
        UserAt(order.userId);
        var user := users[order.userId].value;
        WriteUser(order.userId, user.(balance := user.balance + order.price));
      }
      if order.mailboxId in mailboxes {
        MailboxAt(order.mailboxId);
        var mailbox := mailboxes[order.mailboxId].value;
        mailbox := mailbox.(activeOrderId := "", state := MailboxAvailable);
        if order.serviceId in mailbox.services {
          var slot := mailbox.services[order.serviceId];
          if slot.state == SlotLeased {
            slot := slot.(state := SlotAvailable);
            if timedOut {
              var next := NextTimeoutState(slot.timeoutCount);
              slot := slot.(timeoutCount := next.0, state := next.1);
            }
            mailbox := mailbox.(services := mailbox.services[order.serviceId := slot]);
          }
        }
        WriteMailbox(order.mailboxId, mailbox);
      }
    }

    // -------------------------------------------------------------- the sweeps

    method ExpireIfOverdue(id: string, now: int) returns (expired: bool)
      requires Wired() && id in orders
      modifies users.Values, mailboxes.Values, orders.Values
      ensures expired == Qualifies(old(View()), Timeouts(now), id)
      ensures View() == if expired then SweepOne(old(View()), Timeouts(now), id) else old(View())
    {
      OrderAt(id);
      hide View, RefundAndRelease;
      var order := orders[id].value;
      expired := (order.status == OrderAssigned || order.status == OrderWaitingCode) && now > order.expiresAt;
      if expired {
        WriteOrder(id, order.(status := OrderExpiredRefunded, refunded := true));
        RefundAndReleaseLocked(id, true);
      }
    }

    method ReapExpired(now: int) returns (count: nat)
      requires Valid()
      modifies users.Values, mailboxes.Values, orders.Values
      ensures Valid()
      ensures var qualifying := Qualifying(old(View()), Timeouts(now));
        View() == Sweep(old(View()), Timeouts(now), qualifying) && count == |qualifying|
      ensures TimeoutsSwept(old(View()), View(), now, count)
    {
      hide View, Inv, Sweep, SweepOne, Qualifies, SweptSoFar, TimeoutsSwept;
      count := 0;
      ghost var start, k := View(), Timeouts(now);
      TimeoutSweepIs(start, now);
      SweepNothing(start, k);
      var pending := orders.Keys;
      NothingSwept(start, k);
      while pending != {}
        invariant pending <= orders.Keys == start.orders.Keys
        invariant View() == Sweep(start, k, SweptSoFar(start, k, pending)) && count == |SweptSoFar(start, k, pending)|
        decreases pending
      {
        var id :| id in pending;
        SweepTurn(start, k, pending, pending - {id}, id);
        pending := pending - {id};
        var expired := ExpireIfOverdue(id, now);
        if expired {
          count := count + 1;
        }
      }
      AllSwept(start, k);
      SweepKeepsInv(start, k, Qualifying(start, k));
    }

    method InvalidateIfUnverified(id: string) returns (invalid: bool)
      requires Wired() && id in orders
      modifies users.Values, mailboxes.Values, orders.Values
      ensures invalid == Qualifies(old(View()), BadMailboxes, id)
      ensures View() == if invalid then SweepOne(old(View()), BadMailboxes, id) else old(View())
    {
      OrderAt(id);
      hide View, RefundAndRelease;
      var order := orders[id].value;
      if order.status != OrderAssigned && order.status != OrderWaitingCode {
        return false;
      }
      MailboxAt(order.mailboxId);
      if order.mailboxId !in mailboxes || mailboxes[order.mailboxId].value.verification == Verified {
        return false;
      }
      WriteOrder(id, order.(status := OrderExpiredRefunded, refunded := true, failureReason := UNVERIFIED_REASON));
      RefundAndReleaseLocked(id, true);
      MailboxAt(order.mailboxId);
      var mailbox := mailboxes[order.mailboxId].value;
      WriteMailbox(order.mailboxId, mailbox.(state := MailboxError, healthScore := 0));
      return true;
    }

    method ReconcileInvalidMailboxOrders() returns (count: nat)
      requires Valid()
      modifies users.Values, mailboxes.Values, orders.Values
      ensures Valid()
      ensures var qualifying := Qualifying(old(View()), BadMailboxes);
        View() == Sweep(old(View()), BadMailboxes, qualifying) && count == |qualifying|
      ensures VainSwept(old(View()), View(), count)
    {
      hide View, Inv, Sweep, SweepOne, Qualifies, SweptSoFar, VainSwept;
      count := 0;
      ghost var start, k := View(), BadMailboxes;
      VainSweepIs(start);
      SweepNothing(start, k);
      var pending := orders.Keys;
      NothingSwept(start, k);
      while pending != {}
        invariant pending <= orders.Keys == start.orders.Keys
        invariant View() == Sweep(start, k, SweptSoFar(start, k, pending)) && count == |SweptSoFar(start, k, pending)|
        decreases pending
      {
        var id :| id in pending;
        SweepTurn(start, k, pending, pending - {id}, id);
        pending := pending - {id};
        var invalid := InvalidateIfUnverified(id);
        if invalid {
          count := count + 1;
        }
      }
      AllSwept(start, k);
      SweepKeepsInv(start, k, Qualifying(start, k));
    }

    // -------------------------------------------------------------- creating an order

    static method ValidateOrderProviders(service: Service, requested: seq<string>)
      returns (providers: seq<string>, maximumPrice: int, ok: bool)
      ensures ok <==> ValidProviders(service, requested)
      ensures ok ==> providers == Distinct(Normalized(requested))
      ensures ok ==>
        (forall p :: p in providers ==> p in service.providerPrices) && IsMaximumPrice(service, providers, maximumPrice)
    {
      providers, maximumPrice := [], 0;
      var seen: set<string> := {};
      hide ProviderOk, Distinct, Normalized, Normalize, IsMaximumPrice;
      NothingRequested(service);
      for i := 0 to |requested|
        invariant providers == Distinct(Normalized(requested[..i])) && seen == (set p | p in providers)
        invariant forall j :: 0 <= j < i ==> ProviderOk(service, Normalize(requested[j]))
        invariant forall p :: p in providers ==> ProviderOk(service, p) && p in service.providerPrices
        invariant IsMaximumPrice(service, providers, maximumPrice)
        invariant i > 0 ==> providers != []
      {
        var provider := Normalize(requested[i]);
        RequestedSnoc(requested, i);
        if provider in seen {
          continue;
        }
        if !ProviderOk(service, provider) {
          return [], 0, false;
        }
        MaximumSnoc(service, providers, maximumPrice, provider);
        var price := service.providerPrices[provider];
        seen := seen + {provider};
        providers := providers + [provider];
        if price > maximumPrice {
          maximumPrice := price;
        }
      }
      assert requested[..|requested|] == requested;
      if |providers| == 0 {
        return [], 0, false;
      }
      ok := true;
    }

    method FindRequest(userId: string, requestId: string) returns (found: Option<Order>)
      ensures found.None? && requestId != "" ==> !AlreadyRequested(View(), userId, requestId)
      ensures found.Some? ==> Recorded(View(), found.value) && SameRequest(found.value, userId, requestId)
    {
      hide View;
      var pending := orders.Keys;
      while pending != {}
        invariant pending <= orders.Keys
        invariant forall id :: id in orders && id !in pending ==> !SameRequest(View().orders[id], userId, requestId)
        decreases pending
      {
        var id :| id in pending;
        pending := pending - {id};
        OrderAt(id);
        var existing := orders[id].value;
        if existing.userId == userId && existing.requestId == requestId {
          assert View().orders[id] == existing;
          return Some(existing);
        }
      }
      return None;
    }

    method SelectMailbox(serviceId: string, providers: seq<string>, now: int) returns (selected: Option<string>)
      ensures selected.None? ==> Candidates(View(), serviceId, providers, now) == {}
      ensures selected.Some? ==> Healthiest(View(), Candidates(View(), serviceId, providers, now), selected.value)
    {
      hide *;
      selected := None;
      var health := 0;
      ghost var s := View();
      var pending := mailboxes.Keys;
      NothingConsidered(s, serviceId, providers, now);
      while pending != {}
        invariant pending <= mailboxes.Keys && BestOf(s, serviceId, providers, now, pending, selected, health)
        decreases pending
      {
        var id :| id in pending;
        ConsiderMailbox(s, serviceId, providers, now, pending, id, selected, health);
        pending := pending - {id};
        MailboxAt(id);
        var mailbox := mailboxes[id].value;
        if Eligible(mailbox, serviceId, providers, now) {
          if selected.None? || mailbox.healthScore > health {
            selected, health := Some(id), mailbox.healthScore;
          }
        }
      }
      AllConsidered(s, serviceId, providers, now, selected, health);
    }

    method AddOrder(order: Order)
      requires Wired()
      modifies this`orders, this`seqNo
      ensures Wired() && View()
        == old(View()).(orders := old(View()).orders[order.id := order], seqNo := old(View()).seqNo + 1)
      ensures users == old(users) && mailboxes == old(mailboxes)
    {
      var ref := new Ref(order);
      AddedOne(orders, order.id, ref);
      SeparateOne(orders, order.id, ref);
      hide Separate;
      orders := orders[order.id := ref];
      seqNo := seqNo + 1;
    }

    method CreateOrder(userId: string, serviceId: string, requestId: string, mailboxProviders: seq<string>, now: int)
      returns (r: CreateResult)
      requires Valid()
      modifies this`orders, this`seqNo, users.Values, mailboxes.Values
      ensures Valid()
      ensures CreateStep(old(View()), userId, serviceId, requestId, mailboxProviders, now, r, View())
    {
      UserAt(userId);
      hide View, CreateStep, ValidProviders, Funded, Distinct, Normalized, IsMaximumPrice, Lease, NewOrder, Candidates,
        Healthiest, ProviderOk, Eligible, AlreadyRequested, Recorded, Inv, Evolves;
      ghost var was := View();
      RefusedEarly(was, userId, serviceId, requestId, mailboxProviders, now);
      if userId !in users {
        return Refused(UserNotFound);
      }
      if serviceId !in services {
        return Refused(ServiceNotFound);
      }
      var service := services[serviceId];
      if !service.enabled {
        return Refused(ServiceDisabled);
      }
      var providers, maximumPrice, ok := ValidateOrderProviders(service, mailboxProviders);
      if !ok {
        return Refused(InvalidMailboxProviders);
      }
      var existing := None;
      if requestId != "" {
        existing := FindRequest(userId, requestId);
      }
      if existing.Some? {
        RepeatsRequest(was, userId, serviceId, requestId, mailboxProviders, now, existing.value);
        return Duplicate(existing.value);
      }
      FreshRequest(was, userId, serviceId, requestId, mailboxProviders, now);
      MaximumFunds(View(), userId, serviceId, mailboxProviders, maximumPrice);
      if users[userId].value.balance < maximumPrice {
        return Refused(InsufficientBalance);
      }
      r := Allocate(userId, serviceId, requestId, mailboxProviders, providers, now);
    }

    /** The second half of CreateOrder: the request is valid, new and covered by the balance. */
    method Allocate(userId: string, serviceId: string, requestId: string, ghost mailboxProviders: seq<string>,
                    providers: seq<string>, now: int)
      returns (r: CreateResult)
      requires Valid() && userId in users && serviceId in services
      requires providers == Distinct(Normalized(mailboxProviders))
      requires forall p :: p in providers ==> p in services[serviceId].providerPrices
      requires RefusalBeforeLookup(View(), userId, serviceId, mailboxProviders).None?
      requires !AlreadyRequested(View(), userId, requestId) && Funded(View(), userId, serviceId, mailboxProviders)
      modifies this`orders, this`seqNo, users.Values, mailboxes.Values
      ensures Valid()
      ensures CreateStep(old(View()), userId, serviceId, requestId, mailboxProviders, now, r, View())
    {
      hide View, CreateStep, ValidProviders, Funded, Distinct, Normalized, IsMaximumPrice, Lease, NewOrder, Candidates,
        Healthiest, ProviderOk, Eligible, AlreadyRequested, Recorded, Inv, Evolves;
      ghost var was := View();
      var service := services[serviceId];
      FreshRequest(was, userId, serviceId, requestId, mailboxProviders, now);
      var selected := SelectMailbox(service.id, providers, now);
      if selected.None? {
        return Refused(NoMailboxAvailable);
      }
      MailboxAt(selected.value);
      SelectedIsEligible(View(), service.id, providers, now, selected.value);
      assert mailboxes[selected.value].value.provider in service.providerPrices;
      LeasesSelected(was, userId, serviceId, requestId, mailboxProviders, now, selected.value);
      var order := LeaseLocked(userId, serviceId, requestId, providers, selected.value, now);
      r := Created(order);
      CreateStepKeeps(was, userId, serviceId, requestId, mailboxProviders, now, r, View());
    }

    method LeaseLocked(userId: string, serviceId: string, requestId: string, providers: seq<string>, mailboxId: string,
                       now: int)
      returns (order: Order)
      requires Wired() && userId in users && serviceId in services && mailboxId in mailboxes
      requires mailboxes[mailboxId].value.provider in services[serviceId].providerPrices
      requires services[serviceId].id in mailboxes[mailboxId].value.services
      modifies this`orders, this`seqNo, users[userId], mailboxes[mailboxId]
      ensures Wired()
      ensures order == NewOrder(old(View()), userId, services[serviceId], requestId, providers,
                                old(View()).mailboxes[mailboxId], now)
      ensures View() == Lease(old(View()), userId, serviceId, requestId, providers, mailboxId, now)
    {
      hide *;
      UserAt(userId);
      MailboxAt(mailboxId);
      ghost var was := View();
      LeaseParts(was, userId, serviceId, requestId, providers, mailboxId, now);
      var service := services[serviceId];
      var selected := mailboxes[mailboxId].value;
      var price := service.providerPrices[selected.provider];
      order := Order(OrderId(seqNo + 1), userId, service.id, selected.id, selected.provider, providers,
                     OrderWaitingCode, "", price, now, now, now, 0, 0,
                     now + EffectiveOrderTtlSeconds(service.ttlSeconds), false, requestId, "");
      var user := users[userId].value;
      WriteUser(userId, user.(balance := user.balance - price));
      ghost var paid := View();
      assert paid == was.(users := was.users[userId := user.(balance := user.balance - price)]);
      var slot := selected.services[service.id];
      selected := selected.(state := MailboxLeased, activeOrderId := order.id);
      selected := selected.(services := selected.services[service.id := slot.(state := SlotLeased)]);
      WriteMailbox(mailboxId, selected);
      ghost var leased := View();
      assert leased == paid.(mailboxes := was.mailboxes[mailboxId := selected]);
      AddOrder(order);
    }

    // -------------------------------------------------------------- maintenance

    method DropIfDeletable(id: string) returns (hit: bool)
      requires Wired() && id in mailboxes
      modifies this`mailboxes
      ensures hit <==> id in DeletableIds(old(View()))
      ensures Wired() && mailboxes == if hit then old(mailboxes) - {id} else old(mailboxes)
      ensures View() == if hit then Without(old(View()), {id}) else old(View())
    {
      var mailbox := mailboxes[id].value;
      hit := mailbox.state == MailboxError && mailbox.verification == VerificationFailed && mailbox.activeOrderId == "";
      if hit {
        mailboxes := mailboxes - {id};
      }
    }

    /** The first pass. */
    method CountDeletable() returns (deletable: nat)
      ensures deletable == |DeletableIds(View())|
    {
      hide *;
      ghost var s, ids := View(), DeletableIds(View());
      deletable := 0;
      var pending := mailboxes.Keys;
      NothingDeletable(s);
      while pending != {}
        invariant pending <= mailboxes.Keys && deletable == |Past(ids, pending)|
        decreases pending
      {
        var id :| id in pending;
        MailboxAt(id);
        CountTurn(s, pending, id);
        pending := pending - {id};
        if Deletable(mailboxes[id].value) {
          deletable := deletable + 1;
        }
      }
      AllPast(ids);
    }

    /** The second pass. */
    method DropDeletable() returns (deleted: nat)
      requires Wired()
      modifies this`mailboxes
      ensures Wired() && View() == Without(old(View()), DeletableIds(old(View())))
        && deleted == |DeletableIds(old(View()))|
    {
      ghost var was, ids := View(), DeletableIds(View());
      deleted := 0;
      var pending := mailboxes.Keys;
      NothingDeletable(was);
      WithoutNone(was);
      hide View, DeletableIds, Wired, Past, Without;
      while pending != {}
        invariant Wired() && pending <= mailboxes.Keys && deleted == |Past(ids, pending)|
        invariant View() == Without(was, Past(ids, pending))
        decreases pending
      {
        var id :| id in pending;
        DeleteTurn(was, ids, pending, id);
        pending := pending - {id};
        var hit := DropIfDeletable(id);
        if hit {
          deleted := deleted + 1;
        }
      }
      AllPast(ids);
    }

    /** A negative `expected` skips the comparison with the previewed count. */
    method DeleteInvalidMailboxes(expected: int) returns (deleted: int, why: Option<Refusal>)
      requires Valid()
      modifies this`mailboxes
      ensures Valid()
      ensures (View(), deleted, why) == DeleteInvalid(old(View()), expected)
    {
      hide View, Inv, Evolves, DeletableIds;
      DeleteStep(View(), DeletableIds(View()));
      var deletable := CountDeletable();
      if expected >= 0 && expected != deletable {
        return 0, Some(InvalidMailboxCountChanged);
      }
      if deletable == 0 {
        return 0, Some(NoInvalidMailboxes);
      }
      deleted := DropDeletable();
      return deleted, None;
    }

    method MarkMailboxServiceConsumed(mailboxId: string, serviceId: string) returns (why: Option<Refusal>)
      requires Valid()
      modifies mailboxes.Values
      ensures Valid()
      ensures (View(), why) == MarkConsumed(old(View()), mailboxId, serviceId)
    {
      MailboxAt(mailboxId);
      hide View, Inv, Evolves;
      MarkSteps(View(), mailboxId, serviceId);
      if mailboxId !in mailboxes {
        return Some(MailboxNotFound);
      }
      var mailbox := mailboxes[mailboxId].value;
      if serviceId !in mailbox.services || mailbox.services[serviceId].state != SlotAvailable {
        return None;
      }
      var slot := mailbox.services[serviceId].(state := SlotConsumed);
      WriteMailbox(mailboxId, mailbox.(services := mailbox.services[serviceId := slot]));
      return None;
    }

    method MarkMailboxServiceRegistered(mailboxId: string, serviceId: string) returns (why: Option<Refusal>)
      requires Valid()
      modifies mailboxes.Values
      ensures Valid()
      ensures (View(), why) == MarkRegistered(old(View()), mailboxId, serviceId)
    {
      MailboxAt(mailboxId);
      hide View, Inv, Evolves;
      MarkSteps(View(), mailboxId, serviceId);
      if mailboxId !in mailboxes {
        return Some(MailboxNotFound);
      }
      if serviceId !in services {
        return Some(ServiceNotFound);
      }
      var mailbox := mailboxes[mailboxId].value;
      if serviceId !in mailbox.services {
        return Some(MailboxServiceNotFound);
      }
      var slot := mailbox.services[serviceId];
      if slot.state == SlotLeased {
        return Some(MailboxServiceLeased);
      }
      if slot.state == SlotConsumed {
        return None;
      }
      slot := slot.(state := SlotConsumed);
      WriteMailbox(mailboxId, mailbox.(services := mailbox.services[serviceId := slot]));
      return None;
    }

    // -------------------------------------------------------------- stock

    /** The count table of one platform: a provider without stock has no entry. */
    method CountByProvider(serviceId: string, now: int) returns (counts: map<string, nat>)
      ensures forall p :: Count(counts, p) == Stock(View(), serviceId, p, now)
    {
      hide *;
      counts := map[];
      NoStock(View(), serviceId, now);
      if serviceId !in services || !services[serviceId].enabled {
        return;
      }
      var service := services[serviceId];
      ghost var s := View();
      var pending := mailboxes.Keys;
      NothingVisited(s, serviceId, now);
      while pending != {}
        invariant pending <= mailboxes.Keys
        invariant CountsVisited(counts, s, serviceId, now, pending)
        decreases pending
      {
        var id :| id in pending;
        VisitMailbox(counts, s, serviceId, now, pending, id);
        pending := pending - {id};
        MailboxAt(id);
        counts := Tallied(counts, mailboxes[id].value, service, serviceId, now);
      }
      AllVisited(counts, s, serviceId, now);
    }

    method ServiceAvailabilityByProvider(serviceIds: seq<string>, now: int)
      returns (result: map<string, map<string, nat>>)
      ensures result.Keys == (set v | v in serviceIds)
      ensures forall v, p :: v in result ==> Count(result[v], p) == Stock(View(), v, p, now)
    {
      result := map[];
      for i := 0 to |serviceIds|
        invariant result.Keys == (set v | v in serviceIds[..i])
        invariant forall v, p :: v in result ==> Count(result[v], p) == Stock(View(), v, p, now)
      {
        var counts := CountByProvider(serviceIds[i], now);
        result := result[serviceIds[i] := counts];
      }
    }

    /** A platform listed twice is counted twice. */
    method ServiceAvailability(serviceIds: seq<string>, now: int) returns (result: map<string, nat>)
      ensures forall v :: Count(result, v) == ListedStock(View(), serviceIds, v, now)
    {
      hide *;
      var byProvider := ServiceAvailabilityByProvider(serviceIds, now);
      result := map[];
      ghost var s := View();
      NothingListed(s, now);
      for i := 0 to |serviceIds|
        invariant Tells(result, s, serviceIds[..i], now)
      {
        var serviceId := serviceIds[i];
        var sum := SumCounts(byProvider[serviceId], s, serviceId, now);
        assert serviceIds[..i + 1] == serviceIds[..i] + [serviceId];
        ListedOneMore(result, s, serviceIds[..i], serviceId, now, sum);
        if sum > 0 {
          result := result[serviceId := Count(result, serviceId) + sum];
        }
      }
      assert serviceIds[..|serviceIds|] == serviceIds;
      AllListed(result, s, serviceIds, now);
    }
  }

  /** Those of `ids` the loop has already visited. */
  ghost function Past(ids: set<string>, pending: set<string>): set<string> {
    ids - pending
  }

  lemma NothingDeletable(s: State)
    ensures Past(DeletableIds(s), s.mailboxes.Keys) == {}
  {
  }

  lemma OneMoreDone(ids: set<string>, pending: set<string>, id: string)
    requires id in pending
    ensures Past(ids, pending - {id}) == if id in ids then Past(ids, pending) + {id} else Past(ids, pending)
    ensures |Past(ids, pending - {id})| == |Past(ids, pending)| + if id in ids then 1 else 0
    ensures id !in Past(ids, pending)
  {
    if id in ids {
      assert Past(ids, pending - {id}) == Past(ids, pending) + {id};
    } else {
      assert Past(ids, pending - {id}) == Past(ids, pending);
    }
  }

  lemma AllPast(ids: set<string>)
    ensures Past(ids, {}) == ids
  {
  }

  function Without(s: State, gone: set<string>): State {
    s.(mailboxes := s.mailboxes - gone)
  }

  lemma WithoutNone(s: State)
    ensures Without(s, {}) == s
  {
    assert s.mailboxes - {} == s.mailboxes;
  }

  lemma CountTurn(s: State, pending: set<string>, id: string)
    requires id in pending && id in s.mailboxes
    ensures var ids := DeletableIds(s);
      |Past(ids, pending - {id})| == |Past(ids, pending)| + if Deletable(s.mailboxes[id]) then 1 else 0
  {
    OneMoreDone(DeletableIds(s), pending, id);
  }

  /** One turn of the deleting pass: deleting other mailboxes does not change whether this one is deletable. */
  lemma DeleteTurn(s: State, ids: set<string>, pending: set<string>, id: string)
    requires ids == DeletableIds(s) && id in pending && id in s.mailboxes
    ensures var t := Without(s, Past(ids, pending)); var next := Without(s, Past(ids, pending - {id}));
      && (id in DeletableIds(t) <==> id in ids)
      && (if id in ids then next == Without(t, {id}) else next == t)
    ensures |Past(ids, pending - {id})| == |Past(ids, pending)| + if id in ids then 1 else 0
  {
    OneMoreDone(ids, pending, id);
    var gone := Past(ids, pending);
    assert s.mailboxes - (gone + {id}) == s.mailboxes - gone - {id};
  }

  /** The running choice of CreateOrder's loop and its health score, with `pending` still to be visited. */
  ghost predicate BestOf(s: State, serviceId: string, providers: seq<string>, now: int, pending: set<string>,
                         selected: Option<string>, health: int)
  {
    var visited := Candidates(s, serviceId, providers, now) - pending;
    match selected
    case None => visited == {}
    case Some(id) => Healthiest(s, visited, id) && s.mailboxes[id].healthScore == health
  }

  lemma NothingConsidered(s: State, serviceId: string, providers: seq<string>, now: int)
    ensures BestOf(s, serviceId, providers, now, s.mailboxes.Keys, None, 0)
  {
  }

  lemma AllConsidered(s: State, serviceId: string, providers: seq<string>, now: int, selected: Option<string>,
                      health: int)
    requires BestOf(s, serviceId, providers, now, {}, selected, health)
    ensures var candidates := Candidates(s, serviceId, providers, now);
      if selected.None? then candidates == {} else Healthiest(s, candidates, selected.value)
  {
    var candidates := Candidates(s, serviceId, providers, now);
    assert candidates - {} == candidates;
  }

  /** One turn: a healthier candidate replaces the choice, anything else leaves it. */
  lemma ConsiderMailbox(s: State, serviceId: string, providers: seq<string>, now: int, pending: set<string>, id: string,
                        selected: Option<string>, health: int)
    requires id in pending && id in s.mailboxes && BestOf(s, serviceId, providers, now, pending, selected, health)
    ensures var m := s.mailboxes[id];
      if Eligible(m, serviceId, providers, now) && (selected.None? || m.healthScore > health)
      then BestOf(s, serviceId, providers, now, pending - {id}, Some(id), m.healthScore)
      else BestOf(s, serviceId, providers, now, pending - {id}, selected, health)
  {
    var candidates := Candidates(s, serviceId, providers, now);
    assert id in candidates <==> Eligible(s.mailboxes[id], serviceId, providers, now);
    hide Eligible, Candidates;
    if id in candidates {
      assert candidates - (pending - {id}) == (candidates - pending) + {id};
    } else {
      assert candidates - (pending - {id}) == candidates - pending;
    }
  }

  /** Reading a Go map: an absent key reads as zero. */
  function Count(counts: map<string, nat>, key: string): nat {
    if key in counts then counts[key] else 0
  }

  /** The stock of one provider among the mailboxes already visited. */
  ghost function Visited(s: State, serviceId: string, provider: string, now: int, pending: set<string>): set<string> {
    StockIds(s, serviceId, provider, now) - pending
  }

  lemma NoStock(s: State, serviceId: string, now: int)
    ensures serviceId !in s.services || !s.services[serviceId].enabled ==> forall p ::
      Count(map[], p) == Stock(s, serviceId, p, now)
  {
  }

  ghost predicate CountsVisited(counts: map<string, nat>, s: State, serviceId: string, now: int, pending: set<string>) {
    forall p :: Count(counts, p) == |Visited(s, serviceId, p, now, pending)|
  }

  lemma NothingVisited(s: State, serviceId: string, now: int)
    ensures CountsVisited(map[], s, serviceId, now, s.mailboxes.Keys)
  {
    forall p ensures Visited(s, serviceId, p, now, s.mailboxes.Keys) == {} { }
  }

  lemma AllVisited(counts: map<string, nat>, s: State, serviceId: string, now: int)
    requires CountsVisited(counts, s, serviceId, now, {})
    ensures forall p :: Count(counts, p) == Stock(s, serviceId, p, now)
  {
    forall p ensures Count(counts, p) == Stock(s, serviceId, p, now) {
      assert Count(counts, p) == |Visited(s, serviceId, p, now, {})|;
      assert Visited(s, serviceId, p, now, {}) == StockIds(s, serviceId, p, now);
    }
  }

  predicate IsCounted(m: Mailbox, service: Service, serviceId: string, now: int) {
    if m.verification != Verified || m.state != MailboxAvailable || m.activeOrderId != ""
       || m.healthScore < MINIMUM_HEALTH || !ConnectionValid(m, now)
    then false
    else if m.provider !in service.allowedProviders then false
    else serviceId in m.services && m.services[serviceId].state == SlotAvailable
  }

  /** The body of the counting loop. */
  function Tallied(counts: map<string, nat>, m: Mailbox, service: Service, serviceId: string, now: int): map<string,
    nat> {
    if IsCounted(m, service, serviceId, now) then counts[m.provider := Count(counts, m.provider) + 1] else counts
  }

  /** One turn of the counting loop. */
  lemma VisitMailbox(counts: map<string, nat>, s: State, serviceId: string, now: int, pending: set<string>, id: string)
    requires CountsVisited(counts, s, serviceId, now, pending) && id in pending && id in s.mailboxes
    requires serviceId in s.services && s.services[serviceId].enabled
    ensures CountsVisited(Tallied(counts, s.mailboxes[id], s.services[serviceId], serviceId, now), s, serviceId, now,
                          pending - {id})
  {
    var m := s.mailboxes[id];
    var counted := IsCounted(m, s.services[serviceId], serviceId, now);
    var after := Tallied(counts, m, s.services[serviceId], serviceId, now);
    assert after == if counted then counts[m.provider := Count(counts, m.provider) + 1] else counts;
    hide IsCounted, Visited, Tallied;
    forall p ensures Count(after, p) == |Visited(s, serviceId, p, now, pending - {id})| {
      assert Count(counts, p) == |Visited(s, serviceId, p, now, pending)|;
      VisitedGrows(s, serviceId, p, now, pending, id);
    }
  }

  lemma VisitedGrows(s: State, serviceId: string, p: string, now: int, pending: set<string>, id: string)
    requires id in pending && id in s.mailboxes && serviceId in s.services && s.services[serviceId].enabled
    ensures |Visited(s, serviceId, p, now, pending - {id})| == |Visited(s, serviceId, p, now, pending)|
        + if IsCounted(s.mailboxes[id], s.services[serviceId], serviceId, now) && p == s.mailboxes[id].provider then 1
          else 0
  {
    CountedIffStock(s, serviceId, p, now, id);
    hide IsCounted, StockIds;
    var seen := Visited(s, serviceId, p, now, pending);
    if id in StockIds(s, serviceId, p, now) {
      assert Visited(s, serviceId, p, now, pending - {id}) == seen + {id};
    } else {
      assert Visited(s, serviceId, p, now, pending - {id}) == seen;
    }
  }

  lemma CountedIffStock(s: State, serviceId: string, p: string, now: int, id: string)
    requires id in s.mailboxes && serviceId in s.services && s.services[serviceId].enabled
    ensures id in StockIds(s, serviceId, p, now)
       <==> IsCounted(s.mailboxes[id], s.services[serviceId], serviceId, now) && p == s.mailboxes[id].provider
  {
  }

  /** The stock of a platform, once for every time it is listed. */
  function ListedStock(s: State, serviceIds: seq<string>, serviceId: string, now: int): nat {
    multiset(serviceIds)[serviceId] * |AllStockIds(s, serviceId, now)|
  }

  ghost predicate Tells(result: map<string, nat>, s: State, serviceIds: seq<string>, now: int) {
    forall v :: Count(result, v) == ListedStock(s, serviceIds, v, now)
  }

  lemma NothingListed(s: State, now: int)
    ensures forall listed: seq<string> :: listed == [] ==> Tells(map[], s, listed, now)
  {
  }

  lemma AllListed(result: map<string, nat>, s: State, serviceIds: seq<string>, now: int)
    requires Tells(result, s, serviceIds, now)
    ensures forall v :: Count(result, v) == ListedStock(s, serviceIds, v, now)
  {
  }

  lemma ListedOneMore(result: map<string, nat>, s: State, serviceIds: seq<string>, last: string, now: int, sum: nat)
    requires Tells(result, s, serviceIds, now) && sum == |AllStockIds(s, last, now)|
    ensures Tells(if sum > 0 then result[last := Count(result, last) + sum] else result, s, serviceIds + [last], now)
  {
    hide AllStockIds;
    var after := if sum > 0 then result[last := Count(result, last) + sum] else result;
    forall v ensures Count(after, v) == ListedStock(s, serviceIds + [last], v, now) {
      assert Count(result, v) == ListedStock(s, serviceIds, v, now);
    }
  }

  /** Stock of the providers not in `pending`. */
  ghost function Summed(s: State, serviceId: string, now: int, pending: set<string>): set<string> {
    set id | id in AllStockIds(s, serviceId, now) && s.mailboxes[id].provider !in pending
  }

  method SumCounts(counts: map<string, nat>, ghost s: State, serviceId: string, now: int) returns (sum: nat)
    requires forall p :: Count(counts, p) == Stock(s, serviceId, p, now)
    ensures sum == |AllStockIds(s, serviceId, now)|
  {
    sum := 0;
    var pending := counts.Keys;
    NothingSummed(counts, s, serviceId, now);
    while pending != {}
      invariant pending <= counts.Keys
      invariant sum == |Summed(s, serviceId, now, pending)|
      decreases pending
    {
      var provider :| provider in pending;
      SumProvider(s, serviceId, now, pending, provider);
      pending := pending - {provider};
      assert Count(counts, provider) == Stock(s, serviceId, provider, now);
      sum := sum + counts[provider];
    }
    assert Summed(s, serviceId, now, {}) == AllStockIds(s, serviceId, now);
  }

  lemma NothingSummed(counts: map<string, nat>, s: State, serviceId: string, now: int)
    requires forall p :: Count(counts, p) == Stock(s, serviceId, p, now)
    ensures Summed(s, serviceId, now, counts.Keys) == {}
  {
    forall id | id in AllStockIds(s, serviceId, now) ensures s.mailboxes[id].provider in counts {
      var p := s.mailboxes[id].provider;
      assert id in StockIds(s, serviceId, p, now);
      assert Count(counts, p) == Stock(s, serviceId, p, now);
    }
  }

  lemma SumProvider(s: State, serviceId: string, now: int, pending: set<string>, provider: string)
    requires provider in pending
    ensures |Summed(s, serviceId, now, pending - {provider})|
         == |Summed(s, serviceId, now, pending)| + Stock(s, serviceId, provider, now)
  {
    assert Summed(s, serviceId, now, pending - {provider})
        == Summed(s, serviceId, now, pending) + StockIds(s, serviceId, provider, now);
  }


  ghost predicate Recorded(s: State, o: Order) {
    exists id :: id in s.orders && s.orders[id] == o
  }

  lemma RefusedEarly(s: State, userId: string, serviceId: string, requestId: string, raw: seq<string>, now: int)
    ensures var refusal := RefusalBeforeLookup(s, userId, serviceId, raw);
      refusal.Some? ==> CreateStep(s, userId, serviceId, requestId, raw, now, Refused(refusal.value), s)
  {
  }

  lemma RepeatsRequest(s: State, userId: string, serviceId: string, requestId: string, raw: seq<string>, now: int,
                       existing: Order)
    requires RefusalBeforeLookup(s, userId, serviceId, raw).None? && requestId != ""
    requires Recorded(s, existing) && SameRequest(existing, userId, requestId)
    ensures CreateStep(s, userId, serviceId, requestId, raw, now, Duplicate(existing), s)
  {
  }

  lemma FreshRequest(s: State, userId: string, serviceId: string, requestId: string, raw: seq<string>, now: int)
    requires RefusalBeforeLookup(s, userId, serviceId, raw).None?
    requires requestId != "" ==> !AlreadyRequested(s, userId, requestId)
    ensures !AlreadyRequested(s, userId, requestId)
    ensures !Funded(s, userId, serviceId, raw)
      ==> CreateStep(s, userId, serviceId, requestId, raw, now, Refused(InsufficientBalance), s)
    ensures Funded(s, userId, serviceId, raw)
        && Candidates(s, s.services[serviceId].id, Distinct(Normalized(raw)), now) == {}
      ==> CreateStep(s, userId, serviceId, requestId, raw, now, Refused(NoMailboxAvailable), s)
  {
  }

  lemma LeasesSelected(s: State, userId: string, serviceId: string, requestId: string, raw: seq<string>, now: int,
                       id: string)
    requires RefusalBeforeLookup(s, userId, serviceId, raw).None? && !AlreadyRequested(s, userId, requestId)
    requires Funded(s, userId, serviceId, raw)
    requires Healthiest(s, Candidates(s, s.services[serviceId].id, Distinct(Normalized(raw)), now), id)
    requires s.mailboxes[id].provider in s.services[serviceId].providerPrices
    ensures s.services[serviceId].id in s.mailboxes[id].services
    ensures var providers := Distinct(Normalized(raw));
      CreateStep(s, userId, serviceId, requestId, raw, now,
                 Created(NewOrder(s, userId, s.services[serviceId], requestId, providers, s.mailboxes[id], now)),
                 Lease(s, userId, serviceId, requestId, providers, id, now))
  {
    var providers := Distinct(Normalized(raw));
    var o := NewOrder(s, userId, s.services[serviceId], requestId, providers, s.mailboxes[id], now);
    assert LeasedAs(s, userId, serviceId, requestId, raw, now, id, o,
                    Lease(s, userId, serviceId, requestId, providers, id, now));
  }

  lemma LeaseParts(s: State, userId: string, serviceId: string, requestId: string, providers: seq<string>,
                   mailboxId: string, now: int)
    requires userId in s.users && serviceId in s.services && mailboxId in s.mailboxes
    requires s.mailboxes[mailboxId].provider in s.services[serviceId].providerPrices
    requires s.services[serviceId].id in s.mailboxes[mailboxId].services
    ensures var service, m := s.services[serviceId], s.mailboxes[mailboxId];
      var o := NewOrder(s, userId, service, requestId, providers, m, now);
      && o == Order(OrderId(s.seqNo + 1), userId, service.id, m.id, m.provider, providers, OrderWaitingCode, "",
                    service.providerPrices[m.provider], now, now, now, 0, 0,
                    now + EffectiveOrderTtlSeconds(service.ttlSeconds), false, requestId, "")
      && Lease(s, userId, serviceId, requestId, providers, mailboxId, now) == State(
           s.users[userId := s.users[userId].(balance := s.users[userId].balance - o.price)], s.services,
           s.mailboxes[mailboxId := m.(state := MailboxLeased, activeOrderId := o.id,
                                       services := m.services[service.id :=
                                                              m.services[service.id].(state := SlotLeased)])],
           s.orders[o.id := o], s.seqNo + 1)
  {
  }

  lemma SelectedIsEligible(s: State, serviceId: string, providers: seq<string>, now: int, id: string)
    requires Healthiest(s, Candidates(s, serviceId, providers, now), id)
    ensures id in s.mailboxes && s.mailboxes[id].provider in providers && serviceId in s.mailboxes[id].services
  {
  }

  lemma RequestedIsKept(raw: seq<string>, i: nat)
    requires i < |raw|
    ensures Normalize(raw[i]) in Distinct(Normalized(raw))
  {
    DistinctElements(Normalized(raw));
    assert Normalized(raw)[i] == Normalize(raw[i]);
  }

  /** Having the maximum price is having every requested provider's price. */
  lemma MaximumFunds(s: State, userId: string, serviceId: string, raw: seq<string>, maximum: int)
    requires userId in s.users && serviceId in s.services && ValidProviders(s.services[serviceId], raw)
    requires forall p :: p in Distinct(Normalized(raw)) ==> p in s.services[serviceId].providerPrices
    requires IsMaximumPrice(s.services[serviceId], Distinct(Normalized(raw)), maximum)
    ensures s.users[userId].balance >= maximum <==> Funded(s, userId, serviceId, raw)
  {
    hide Distinct, Normalized, Normalize;
    var service := s.services[serviceId];
    forall i | 0 <= i < |raw|
      ensures ProviderOk(service, Normalize(raw[i])) && service.providerPrices[Normalize(raw[i])] <= maximum
    {
      RequestedIsKept(raw, i);
    }
    assert ProviderOk(service, Normalize(raw[0]));
    if maximum > 0 {
      var p :| p in Distinct(Normalized(raw)) && service.providerPrices[p] == maximum;
      RequestedProviderPriced(service, raw, p);
    }
  }

  lemma NothingRequested(service: Service)
    ensures Distinct(Normalized([])) == [] && IsMaximumPrice(service, [], 0)
  {
  }

  lemma RequestedSnoc(requested: seq<string>, i: nat)
    requires i < |requested|
    ensures var init, p := Distinct(Normalized(requested[..i])), Normalize(requested[i]);
      Distinct(Normalized(requested[..i + 1])) == if p in init then init else init + [p]
  {
    var longer := Normalized(requested[..i + 1]);
    assert longer[..|longer| - 1] == Normalized(requested[..i]);
  }

  lemma MaximumSnoc(service: Service, providers: seq<string>, maximum: int, p: string)
    requires (forall q :: q in providers ==> q in service.providerPrices) && IsMaximumPrice(service, providers, maximum)
    requires ProviderOk(service, p)
    ensures p in service.providerPrices
    ensures var price := service.providerPrices[p];
      IsMaximumPrice(service, providers + [p], if price > maximum then price else maximum)
  {
    assert p in providers + [p];
    if maximum > 0 {
      var q :| q in providers && service.providerPrices[q] == maximum;
      assert q in providers + [p];
    }
  }
}