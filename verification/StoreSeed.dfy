/** What a new in-memory store holds. */
module StoreSeed {
  import opened Domain
  import opened OrderIds
  import opened StoreModel
  import opened StoreInvariant
  import opened StoreRuns

  const SEED_MAILBOXES: nat := 24
  const SEED_SEQUENCE := 1000
  const OAUTH_SECONDS := 30 * 24 * 3600

  function Catalogue(services: seq<Service>): map<string, Service> {
    if services == [] then map[]
    else
      var last := services[|services| - 1];
      Catalogue(services[..|services| - 1])[last.id := last]
  }

  function SeedMailbox(n: nat, serviceIds: set<string>, now: int): Mailbox
    requires n > 0
  {
    var provider := if (n - 1) % 2 == 0 then "outlook" else "hotmail";
    var mailDomain := if provider == "hotmail" then "hotmail.com" else "outlook.com";
    Mailbox(SeedMailboxId(n), "hero_" + Padded(n, 2) + "@" + mailDomain, provider, MailboxAvailable, 84 + n % 16,
            now + OAUTH_SECONDS, "", 0, 0, MicrosoftOAuth, Verified, map v | v in serviceIds :: Slot(SlotAvailable, 0))
  }

  function SeedMailboxes(count: nat, serviceIds: set<string>, now: int): map<string, Mailbox> {
    if count == 0 then map[]
    else SeedMailboxes(count - 1, serviceIds, now)[SeedMailboxId(count) := SeedMailbox(count, serviceIds, now)]
  }

  lemma NoSeedYet(serviceIds: set<string>, now: int)
    ensures SeedMailboxes(0, serviceIds, now) == map[]
  {
  }

  lemma OneSeedMore(i: nat, serviceIds: set<string>, now: int)
    requires i > 0
    ensures var mailbox := SeedMailbox(i, serviceIds, now);
      SeedMailboxes(i, serviceIds, now) == SeedMailboxes(i - 1, serviceIds, now)[mailbox.id := mailbox]
  {
  }

  function SeedUsers(): map<string, User> {
    map["user-001" := User("user-001", 4860), "admin-001" := User("admin-001", 0)]
  }

  function SeedState(services: seq<Service>, now: int): State {
    var catalogue := Catalogue(services);
    State(SeedUsers(), catalogue, SeedMailboxes(SEED_MAILBOXES, catalogue.Keys, now), map[], SEED_SEQUENCE)
  }

  lemma {:induction false} CatalogueKeyed(services: seq<Service>)
    ensures forall id :: id in Catalogue(services) ==> Catalogue(services)[id].id == id
  {
    if services != [] { CatalogueKeyed(services[..|services| - 1]); }
  }

  ghost predicate SeededId(id: string, count: nat) {
    exists n: nat :: 0 < n <= count && id == SeedMailboxId(n)
  }

  /** Idle, and allocatable on every platform of the catalogue. */
  ghost predicate Ready(m: Mailbox, id: string, serviceIds: set<string>, now: int) {
    m.id == id && FreshMailbox(m) && Free(m, now) && forall v :: v in serviceIds ==> SlotOpen(m, v)
  }

  lemma SeedMailboxReady(n: nat, serviceIds: set<string>, now: int)
    requires n > 0
    ensures Ready(SeedMailbox(n, serviceIds, now), SeedMailboxId(n), serviceIds, now)
  {
  }

  lemma SeededIdGrows(id: string, count: nat)
    requires count > 0
    ensures SeededId(id, count) <==> SeededId(id, count - 1) || id == SeedMailboxId(count)
    ensures !SeededId(SeedMailboxId(count), count - 1)
  {
    hide SeedMailboxId;
    if SeededId(SeedMailboxId(count), count - 1) {
      var n: nat :| 0 < n <= count - 1 && SeedMailboxId(count) == SeedMailboxId(n);
      SeedMailboxIdInjective(n, count);
    }
    if SeededId(id, count) {
      var n: nat :| 0 < n <= count && id == SeedMailboxId(n);
      assert n == count || SeededId(id, count - 1);
    }
  }

  /** No two seeded mailboxes share an identifier, so all of them are there and ready. */
  lemma {:induction false} SeedMailboxesReady(count: nat, serviceIds: set<string>, now: int)
    ensures var ms := SeedMailboxes(count, serviceIds, now);
      && |ms| == count
      && (forall id :: id in ms <==> SeededId(id, count))
      && (forall id :: id in ms ==> Ready(ms[id], id, serviceIds, now))
  {
    hide Ready, SeedMailbox, SeedMailboxId;
    if count > 0 {
      var before := SeedMailboxes(count - 1, serviceIds, now);
      SeedMailboxesReady(count - 1, serviceIds, now);
      SeedMailboxReady(count, serviceIds, now);
      forall id ensures SeededId(id, count) <==> SeededId(id, count - 1) || id == SeedMailboxId(count) {
        SeededIdGrows(id, count);
      }
      SeededIdGrows("", count);
      hide SeededId;
      assert SeedMailboxes(count, serviceIds, now).Keys == before.Keys + {SeedMailboxId(count)};
    }
  }

  /** Runs may start from a new store. */
  lemma SeedStarts(services: seq<Service>, now: int)
    ensures var s := SeedState(services, now);
      && FreshStore(s) && Inv(s) && IsRun(Run([s], [], [])) && |s.mailboxes| == 24 && s.seqNo == 1000
      && s.users == map["user-001" := User("user-001", 4860), "admin-001" := User("admin-001", 0)]
  {
    CatalogueKeyed(services);
    SeedMailboxesReady(SEED_MAILBOXES, Catalogue(services).Keys, now);
    hide SeedMailboxes, SeedMailbox, FreshMailbox, Inv;
    FreshStoreInv(SeedState(services, now));
  }
}
