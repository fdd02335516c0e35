/** Deleting invalid mailboxes from PostgreSQL in batches, while other transactions run between the batches. */
module BulkDelete {
  import opened Domain
  import opened Rows
  import opened RowInvariant
  import opened RowRuns

  const BATCH: nat := 500

  /** The rows a batch may touch: mailboxes, their slots, and the identifiers of mail events seen per mailbox. */
  datatype Data = Data(mailboxes: MailboxRows, slots: SlotRows, events: set<(string, string)>)

  datatype Failure = CountChanged | NothingInvalid | DatabaseError

  function InvalidIds(d: Data): set<string> {
    set id | id in d.mailboxes && Invalid(d.mailboxes[id])
  }

  function Without(d: Data, ids: set<string>): Data {
    Data(d.mailboxes - ids, WithoutMailboxes(d.slots, ids), set e | e in d.events && e.0 !in ids)
  }

  /** One committed batch. */
  datatype Batch = Batch(before: Data, after: Data, ids: set<string>)

  ghost predicate Proper(b: Batch) {
    b.ids <= InvalidIds(b.before) && 0 < |b.ids| <= 500 && b.after == Without(b.before, b.ids)
  }

  ghost function Deleted(batches: seq<Batch>): nat {
    if batches == [] then 0 else Deleted(batches[..|batches| - 1]) + |batches[|batches| - 1].ids|
  }

  class Database {
    var data: Data

    /** What other transactions do in the meantime. */
    method OthersRun()
      modifies this
    {
      data := *;
    }

    method CountInvalid() returns (count: nat)
      ensures count == |InvalidIds(data)|
    {
      count := |InvalidIds(data)|;
    }

    /** One transaction: lock up to `limit` invalid rows that nobody holds, then delete slots, events and mailboxes.
        A failure rolls everything back. */
    method DeleteBatch(limit: nat) returns (batch: nat, failed: bool, ghost ids: set<string>)
      modifies this
      ensures ids <= InvalidIds(old(data)) && |ids| == batch <= limit
      ensures data == Without(old(data), ids) && (failed ==> ids == {})
    {
      var locked: set<string> := *;
      var candidates := InvalidIds(data) - locked;
      var chosen: set<string> := {};
      WithoutNone(data);
      while |chosen| < limit && candidates - chosen != {}
        invariant chosen <= candidates && |chosen| <= limit
        decreases candidates - chosen
      {
        var id :| id in candidates - chosen;
        chosen := chosen + {id};
      }
      failed := *;
      if failed {
        return 0, true, {};
      }
      data := data.(slots := WithoutMailboxes(data.slots, chosen));
      data := data.(events := set e | e in data.events && e.0 !in chosen);
      data := data.(mailboxes := data.mailboxes - chosen);
      return |chosen|, false, chosen;
    }

    method DeleteInvalidMailboxes(expected: int) returns (deleted: int, why: Option<Failure>, ghost batches: seq<Batch>)
      modifies this
      ensures why.None? ==> deleted == expected > 0
      ensures why.Some? ==> deleted == 0 || 0 < deleted < expected
      ensures expected < 0 ==> why == Some(CountChanged)
      ensures why == Some(NothingInvalid) ==> expected == 0 && InvalidIds(old(data)) == {}
      ensures expected != |InvalidIds(old(data))| ==> why == Some(CountChanged) && batches == [] && data == old(data)
      ensures deleted == Deleted(batches) && forall b :: b in batches ==> Proper(b)
    {
      batches := [];
      deleted := 0;
      if expected < 0 {
        return 0, Some(CountChanged), [];
      }
      var preview := CountInvalid();
      if preview != expected {
        return 0, Some(CountChanged), [];
      }
      if expected == 0 {
        return 0, Some(NothingInvalid), [];
      }
      while deleted < expected
        invariant 0 <= deleted <= expected
        invariant deleted == Deleted(batches) && forall b :: b in batches ==> Proper(b)
        decreases expected - deleted
      {
        var limit := if expected - deleted < BATCH then expected - deleted else BATCH;
        OthersRun();
        ghost var before := data;
        var batch, failed, ids := DeleteBatch(limit);
        if failed {
          return deleted, Some(DatabaseError), batches;
        }
        if batch == 0 {
          return deleted, Some(CountChanged), batches;
        }
        batches := batches + [Batch(before, data, ids)];
        deleted := deleted + batch;
      }
      why := None;
    }
  }

  lemma WithoutNone(d: Data)
    ensures Without(d, {}) == d
  {
    assert d.mailboxes - {} == d.mailboxes;
  }

  /** Given that orders and leases correspond, a batch removes no mailbox of an active order, keeps the correspondence,
      and takes slots and events of deleted mailboxes only. */
  lemma BatchSparesOrders(b: Batch, orders: OrderRows)
    requires Proper(b) && LeaseRows(orders, b.before.mailboxes, b.before.slots)
    ensures forall id :: id in orders && ActiveRow(orders[id]) ==>
      orders[id].mailboxId !in b.ids && LeasesRow(orders[id], id, b.after.mailboxes, b.after.slots)
    ensures LeaseRows(orders, b.after.mailboxes, b.after.slots)
    ensures forall p :: p in b.before.slots && p.0 in b.after.mailboxes ==>
      p in b.after.slots && b.after.slots[p] == b.before.slots[p]
    ensures forall e :: e in b.before.events && e.0 !in b.ids ==> e in b.after.events
  {
    PurgeKeepsRows(orders, b.before.mailboxes, b.before.slots, b.ids);
  }

  /** A batch is a step of the interleavings of Rows. Before and after it leases and orders correspond, if no save of a
      mailbox row has parted them; and no active order loses its mailbox. */
  lemma BatchInRun(r: Run, n: nat, b: Batch)
    requires IsRun(r) && n < |r.worlds| && NoHarm(r, n) && Proper(b) && Purgeable(r.worlds[n], b.ids)
    requires b.before.mailboxes == r.worlds[n].db.mailboxes && b.before.slots == r.worlds[n].db.slots
    ensures var w := r.worlds[n]; var w' := w.(db := w.db.(mailboxes := b.after.mailboxes, slots := b.after.slots));
      && Step(w, Purges(b.ids), w') && LeasesOk(w'.db)
      && forall id | id in w.db.orders && ActiveRow(w.db.orders[id]) ::
           w.db.orders[id].mailboxId !in b.ids && LeasesRow(w.db.orders[id], id, w'.db.mailboxes, w'.db.slots)
  {
    RunKeepsLeases(r, n);
    hide IsRun, NoHarm;
    BatchSparesOrders(b, r.worlds[n].db.orders);
  }
}
