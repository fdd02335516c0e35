/** The Redis lock around CreateOrder: SET NX with a 15 second expiry, a polling acquire, and a script that deletes
    the key only if it still holds the caller's value. Times are in milliseconds. */
module AllocationLock {

  const LOCK_TTL := 15000
  const PATIENCE := 5000
  const POLL := 200

  datatype Held = Held(value: string, until: int)

  /** Expired keys read as absent. */
  function Live(entries: map<string, Held>, now: int): map<string, Held> {
    map k | k in entries && now < entries[k].until :: entries[k]
  }

  predicate Holds(entries: map<string, Held>, key: string, value: string, now: int) {
    key in Live(entries, now) && entries[key].value == value
  }

  function SetNx(entries: map<string, Held>, key: string, value: string, now: int): map<string, Held> {
    if key in Live(entries, now) then entries else entries[key := Held(value, now + LOCK_TTL)]
  }

  function CompareAndDelete(entries: map<string, Held>, key: string, value: string, now: int): map<string, Held> {
    if Holds(entries, key, value, now) then entries - {key} else entries
  }

  /** The answer of Redis: the key was set, it was there, or the command failed. */
  datatype Answer = Yes | No | Lost

  // ---------------------------------------------------------------- the clients

  class Redis {
    var entries: map<string, Held>
    var now: int

    /** Without an answer the command may have been carried out or not. */
    method SetNX(key: string, value: string) returns (answer: Answer)
      modifies this`entries
      ensures answer == Yes || answer == No ==> entries == SetNx(old(entries), key, value, now)
      ensures answer == Lost ==> entries == old(entries) || entries == SetNx(old(entries), key, value, now)
      ensures answer == Yes ==> key !in Live(old(entries), now)
      ensures answer == No ==> key in Live(old(entries), now)
    {
      var lost, runs := *, *;
      answer := if lost then Lost else if key in Live(entries, now) then No else Yes;
      if (!lost || runs) && key !in Live(entries, now) {
        entries := entries[key := Held(value, now + LOCK_TTL)];
      }
    }

    method ReleaseLock(key: string, value: string)
      modifies this`entries
      ensures entries == CompareAndDelete(old(entries), key, value, now)
    {
      if key in Live(entries, now) && entries[key].value == value {
        entries := entries - {key};
      }
    }

    /** A pause of at least `pause`, in which other clients change anything but never write the value `mine`. */
    method Sleep(pause: nat, mine: string)
      requires pause > 0
      modifies this
      ensures now >= old(now) + pause
      ensures forall k :: !Holds(entries, k, mine, now)
    {
      var later: int :| later >= now + pause;
      var others: map<string, Held> := *;
      entries := map k | k in others && others[k].value != mine :: others[k];
      now := later;
    }

    /** Polls until the key is set, five seconds have passed, or a command fails. `before` are the entries at the last
        command. */
    method AcquireAllocationLock(key: string, value: string) returns (answer: Answer, ghost before: map<string, Held>)
      modifies this
      ensures answer == Yes ==>
        key !in Live(before, now) && Holds(entries, key, value, now) && entries[key].until == now + 15000
      ensures answer == No ==> now > old(now) + 5000 && key in Live(entries, now) && entries == before
      ensures answer == Lost ==>
        entries == before || (key !in Live(before, now) && entries == SetNx(before, key, value, now))
    {
      var deadline := now + PATIENCE;
      while true
        invariant deadline == old(now) + PATIENCE
        decreases deadline + POLL - now
      {
        before := entries;
        answer := SetNX(key, value);
        if answer == Lost || answer == Yes {
          return;
        }
        if now > deadline {
          return;
        }
        Sleep(POLL, value);
      }
    }
  }

  // ---------------------------------------------------------------- any number of clients

  datatype Event = Sets(key: string, value: string) | Releases(key: string, value: string) | Passes(ms: nat)

  datatype State = State(entries: map<string, Held>, now: int)

  function Apply(s: State, e: Event): State {
    match e
    case Sets(key, value) => s.(entries := SetNx(s.entries, key, value, s.now))
    case Releases(key, value) => s.(entries := CompareAndDelete(s.entries, key, value, s.now))
    case Passes(ms) => s.(now := s.now + ms)
  }

  function After(s: State, events: seq<Event>): State {
    if events == [] then s else Apply(After(s, events[..|events| - 1]), events[|events| - 1])
  }

  lemma {:induction false} TimeOnlyPasses(s: State, events: seq<Event>)
    ensures s.now <= After(s, events).now
  {
    if events != [] { TimeOnlyPasses(s, events[..|events| - 1]); }
  }

  lemma StepKeepsHolder(t: State, e: Event, key: string, value: string)
    requires Holds(t.entries, key, value, t.now) && e != Releases(key, value) && Apply(t, e).now < t.entries[key].until
    ensures var t' := Apply(t, e); Holds(t'.entries, key, value, t'.now) && t'.entries[key] == t.entries[key]
  {
  }

  lemma HeldIsNotSet(t: State, key: string, value: string, other: string)
    requires Holds(t.entries, key, value, t.now)
    ensures Apply(t, Sets(key, other)) == t
  {
  }

  /** Nobody but its holder removes a lock before it expires: whatever the other clients do with other values, the
      key stays set to `value`, and so no other client can set it. */
  lemma {:induction false} OnlyTheHolderReleases(s: State, events: seq<Event>, key: string, value: string)
    requires Holds(s.entries, key, value, s.now) && Releases(key, value) !in events
    requires key in s.entries && After(s, events).now < s.entries[key].until
    ensures var t := After(s, events);
    Holds(t.entries, key, value, t.now) && key in t.entries && t.entries[key] == s.entries[key]
    ensures forall other :: Apply(After(s, events), Sets(key, other)) == After(s, events)
  {
    hide Holds, SetNx, CompareAndDelete;
    if events != [] {
      var init, last := events[..|events| - 1], events[|events| - 1];
      assert events == init + [last];
      assert last in events;
      OnlyTheHolderReleases(s, init, key, value);
      hide After;
      HolderInTables(After(s, init), key, value);
      StepKeepsHolder(After(s, init), last, key, value);
      HolderInTables(Apply(After(s, init), last), key, value);
    }
    forall other ensures Apply(After(s, events), Sets(key, other)) == After(s, events) {
      HeldIsNotSet(After(s, events), key, value, other);
    }
  }

  /** Releasing a lock one holds frees it at once for anybody else; releasing one that somebody else holds does
      nothing. */
  lemma HolderReleases(s: State, key: string, value: string, other: string)
    requires key in Live(s.entries, s.now)
    ensures var t := Apply(s, Releases(key, value));
      && (s.entries[key].value == value ==>
            key !in t.entries && Holds(Apply(t, Sets(key, other)).entries, key, other, s.now))
      && (s.entries[key].value != value ==> t == s)
  {
  }

  lemma HolderInTables(t: State, key: string, value: string)
    requires Holds(t.entries, key, value, t.now)
    ensures key in t.entries
  {
  }

  /** The lock does not by itself exclude: after 15 seconds a second client gets it while the first is still at work,
      and the release of the first then leaves the lock of the second alone. */
  lemma ExpiryAdmitsASecondHolder(s: State, key: string, first: string, second: string, ms: nat)
    requires first != second && key !in Live(s.entries, s.now)
    ensures var one := After(s, [Sets(key, first)]);
    var two := After(s, [Sets(key, first), Passes(ms), Sets(key, second)]);
      && Holds(one.entries, key, first, one.now)
      && (Holds(two.entries, key, second, two.now) <==> ms >= 15000)
      && (ms >= 15000 ==> Apply(two, Releases(key, first)) == two)
  {
    var a, b, c := Sets(key, first), Passes(ms), Sets(key, second);
    assert [a, b, c][..2] == [a, b] && [a, b][..1] == [a] && [a][..0] == [];
    assert After(s, [a]) == Apply(After(s, []), a);
    assert After(s, [a, b]) == Apply(After(s, [a]), b);
    assert After(s, [a, b, c]) == Apply(After(s, [a, b]), c);
  }
}
