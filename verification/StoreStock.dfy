/** The stock shown to users against what CreateOrder can actually allocate. */
module StoreStock {
  import opened Domain
  import opened StoreModel
  import opened StoreInvariant
  import opened StoreRuns

  /** The mailboxes counted by ServiceAvailabilityByProvider for one provider. */
  function StockIds(s: State, serviceId: string, provider: string, now: int): set<string> {
    if serviceId in s.services && s.services[serviceId].enabled && provider in s.services[serviceId].allowedProviders
    then Candidates(s, serviceId, [provider], now)
    else {}
  }

  function Stock(s: State, serviceId: string, provider: string, now: int): nat {
    |StockIds(s, serviceId, provider, now)|
  }

  /** The mailboxes counted by ServiceAvailability, over all providers. */
  function AllStockIds(s: State, serviceId: string, now: int): set<string> {
    if serviceId in s.services && s.services[serviceId].enabled
    then Candidates(s, serviceId, s.services[serviceId].allowedProviders, now)
    else {}
  }

  /** Stock summed over a list of providers, as a caller reads it off the per-provider table. */
  function StockSum(s: State, serviceId: string, providers: seq<string>, now: int): nat {
    if providers == [] then 0
    else StockSum(s, serviceId, providers[..|providers| - 1], now) + Stock(s, serviceId, providers[|providers| - 1],
                                                                           now)
  }

  lemma {:induction false} StockSumPositive(s: State, serviceId: string, providers: seq<string>, now: int)
    ensures StockSum(s, serviceId, providers, now) > 0
       <==> exists i :: 0 <= i < |providers| && StockIds(s, serviceId, providers[i], now) != {}
  {
    if providers != [] {
      var init := providers[..|providers| - 1];
      StockSumPositive(s, serviceId, init, now);
      assert forall i :: 0 <= i < |init| ==> init[i] == providers[i];
      if StockSum(s, serviceId, init, now) > 0 {
        var i :| 0 <= i < |init| && StockIds(s, serviceId, init[i], now) != {};
        assert StockIds(s, serviceId, providers[i], now) != {};
      }
    }
  }

  lemma StockIffCandidates(s: State, serviceId: string, raw: seq<string>, now: int)
    requires serviceId in s.services && s.services[serviceId].enabled && ValidProviders(s.services[serviceId], raw)
    ensures StockSum(s, serviceId, Distinct(Normalized(raw)), now) > 0
       <==> Candidates(s, serviceId, Distinct(Normalized(raw)), now) != {}
  {
    var providers := Distinct(Normalized(raw));
    StockSumPositive(s, serviceId, providers, now);
    hide Distinct, ValidProviders, StockSum;
    var candidates := Candidates(s, serviceId, providers, now);
    forall p | p in providers ensures StockIds(s, serviceId, p, now) == Candidates(s, serviceId, [p], now) {
      RequestedProviderPriced(s.services[serviceId], raw, p);
    }
    if candidates != {} {
      var id :| id in candidates;
      var i :| 0 <= i < |providers| && providers[i] == s.mailboxes[id].provider;
      assert id in Candidates(s, serviceId, [providers[i]], now);
    }
    forall p, id | p in providers && id in Candidates(s, serviceId, [p], now) ensures id in candidates {
      assert s.mailboxes[id].provider == p;
    }
  }

  /** For an existing user, an enabled service, valid providers, enough money and a request id not used before,
      CreateOrder succeeds exactly when the stock of the requested providers is not all zero. */
  lemma CreateSucceedsIffStock(s: State, userId: string, serviceId: string, requestId: string, raw: seq<string>,
                               now: int, r: CreateResult, t: State)
    requires Inv(s) && RefusalBeforeLookup(s, userId, serviceId, raw).None?
    requires Funded(s, userId, serviceId, raw) && !AlreadyRequested(s, userId, requestId)
    requires CreateStep(s, userId, serviceId, requestId, raw, now, r, t)
    ensures r.Created? <==> StockSum(s, serviceId, Distinct(Normalized(raw)), now) > 0
    ensures !r.Created? ==> r == Refused(NoMailboxAvailable) && t == s
  {
    hide LeaseCorrespondence, PairsOk, RequestsUnique, MoneyOk, Numbered, LeasedAs, Candidates, StockSum;
    assert s.services[serviceId].id == serviceId;
    StockIffCandidates(s, serviceId, raw, now);
  }

  /** The mailbox a created order got: a healthiest one among all that were in stock for the requested providers. */
  lemma CreatedOnHealthiest(s: State, userId: string, serviceId: string, requestId: string, raw: seq<string>,
                            now: int, r: CreateResult, t: State)
    requires Inv(s) && CreateStep(s, userId, serviceId, requestId, raw, now, r, t) && r.Created?
    ensures var m := r.order.mailboxId; var providers := Distinct(Normalized(raw));
      && m in s.mailboxes && Eligible(s.mailboxes[m], serviceId, providers, now)
      && r.order.serviceId == serviceId && r.order.userId == userId
      && (forall id | id in s.mailboxes && Eligible(s.mailboxes[id], serviceId, providers, now) ::
            s.mailboxes[id].healthScore <= s.mailboxes[m].healthScore)
      && t == Lease(s, userId, serviceId, requestId, providers, m, now)
  {
    var id :| LeasedAs(s, userId, serviceId, requestId, raw, now, id, r.order, t);
    assert s.services[serviceId].id == serviceId && s.mailboxes[id].id == id;
    hide LeaseCorrespondence, PairsOk, RequestsUnique, MoneyOk, Numbered, Distinct, ValidProviders, Funded;
  }

  /** Creating an order takes exactly its mailbox out of every platform's stock; for the ordered platform the
      count goes down by exactly one. */
  lemma CreateLowersStock(s: State, userId: string, serviceId: string, requestId: string, raw: seq<string>,
                          now: int, r: CreateResult, t: State)
    requires Inv(s) && CreateStep(s, userId, serviceId, requestId, raw, now, r, t) && r.Created?
    ensures forall v :: AllStockIds(t, v, now) == AllStockIds(s, v, now) - {r.order.mailboxId}
    ensures |AllStockIds(t, serviceId, now)| == |AllStockIds(s, serviceId, now)| - 1
  {
    hide Inv, CreateStep, Lease, AllStockIds, Eligible, Distinct, ValidProviders, Normalized;
    CreatedOnHealthiest(s, userId, serviceId, requestId, raw, now, r, t);
    var m := r.order.mailboxId;
    CreatedOnStock(s, userId, serviceId, requestId, raw, now, r, t);
    forall v ensures AllStockIds(t, v, now) == AllStockIds(s, v, now) - {m} {
      LeaseTakesCandidate(s, t, m, v, now);
    }
  }

  lemma CreatedOnStock(s: State, userId: string, serviceId: string, requestId: string, raw: seq<string>,
                       now: int, r: CreateResult, t: State)
    requires Inv(s) && CreateStep(s, userId, serviceId, requestId, raw, now, r, t) && r.Created?
    ensures var m := r.order.mailboxId;
      && m in AllStockIds(s, serviceId, now) && m in t.mailboxes && t.mailboxes[m].state == MailboxLeased
      && t.services == s.services && t.mailboxes == s.mailboxes[m := t.mailboxes[m]]
  {
    CreatedOnHealthiest(s, userId, serviceId, requestId, raw, now, r, t);
    hide Inv, CreateStep;
    RequestedProviderPriced(s.services[serviceId], raw, s.mailboxes[r.order.mailboxId].provider);
    hide Distinct, ValidProviders, Normalized;
  }

  lemma LeaseTakesCandidate(s: State, t: State, m: string, v: string, now: int)
    requires m in t.mailboxes && t.services == s.services && t.mailboxes[m].state == MailboxLeased
    requires t.mailboxes == s.mailboxes[m := t.mailboxes[m]]
    ensures AllStockIds(t, v, now) == AllStockIds(s, v, now) - {m}
  {
  }

  /** Canceling an order just created restores every balance, mailbox and slot, hence the stock of every platform at
      every time; what remains is the canceled order and the used-up sequence number. */
  lemma CreateThenCancelRestores(s: State, userId: string, serviceId: string, requestId: string, raw: seq<string>,
                                 now: int, r: CreateResult, t: State)
    requires Inv(s) && CreateStep(s, userId, serviceId, requestId, raw, now, r, t) && r.Created?
    ensures var o := r.order.(status := OrderCanceled, refunded := true);
      Cancel(t, o.id, userId) == (s.(orders := s.orders[o.id := o], seqNo := s.seqNo + 1), Done(o))
  {
    CreatedOnHealthiest(s, userId, serviceId, requestId, raw, now, r, t);
    var providers := Distinct(Normalized(raw));
    var m := r.order.mailboxId;
    assert CanLease(s, userId, serviceId, requestId, raw, m, now);
    var o, leased, user := LeaseShape(s, userId, serviceId, requestId, raw, m, now);
    CreatedOrderAdded(s, userId, serviceId, requestId, raw, now, r, t);
    hide Inv, CreateStep, Distinct, CanLease, Lease;
    assert o == r.order;
    CancelUndoesStart(s, t, o, leased, userId);
  }

  lemma CancelUndoesStart(s: State, t: State, o: Order, m: Mailbox, userId: string)
    requires StartsLease(s.orders, s.mailboxes, o, m) && s.mailboxes[o.mailboxId].state == MailboxAvailable
    requires o.userId in s.users && o.userId == userId
    requires t == s.(orders := s.orders[o.id := o], mailboxes := s.mailboxes[o.mailboxId := m],
                     users := s.users[userId := s.users[userId].(balance := s.users[userId].balance - o.price)],
                     seqNo := s.seqNo + 1)
    ensures var canceled := o.(status := OrderCanceled, refunded := true);
      Cancel(t, o.id, userId) == (s.(orders := s.orders[o.id := canceled], seqNo := s.seqNo + 1), Done(canceled))
  {
    var free := s.mailboxes[o.mailboxId];
    assert ReleaseMailbox(m, o.serviceId, false) == free;
    var back := Cancel(t, o.id, userId).0;
    assert back.mailboxes == s.mailboxes;
    assert back.users == s.users;
    assert back.orders == s.orders[o.id := o.(status := OrderCanceled, refunded := true)];
  }
}
