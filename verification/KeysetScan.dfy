/** Loops that page through a table by identifier: `WHERE id > last ORDER BY id LIMIT n`. The table does not change
    while they run. */
module KeysetScan {
  import opened Domain
  import opened JobQueue

  const HISTORY_PAGE: nat := 500
  const POLL_PAGE: nat := 100

  /** `selected`: the row meets the rest of the WHERE clause; `readable`: its credential decrypts. */
  datatype Row = Row(id: string, selected: bool, readable: bool)

  /** Byte order of identifiers. */
  predicate Less(a: string, b: string) {
    if b == "" then false
    else if a == "" then true
    else if a[0] != b[0] then a[0] < b[0]
    else Less(a[1..], b[1..])
  }

  lemma {:induction false} LessAsymmetric(a: string, b: string)
    requires Less(a, b)
    ensures !Less(b, a)
    decreases |a|
  {
    if a != "" && a[0] == b[0] { LessAsymmetric(a[1..], b[1..]); }
  }

  lemma {:induction false} LessIrreflexive(a: string)
    ensures !Less(a, a)
  {
    if a != "" { LessIrreflexive(a[1..]); }
  }

  /** A primary key in order. */
  ghost predicate Ordered(rows: seq<Row>) {
    forall i, j :: 0 <= i < j < |rows| ==> Less(rows[i].id, rows[j].id)
  }

  function Ids(rows: seq<Row>): seq<string> {
    seq(|rows|, i requires 0 <= i < |rows| => rows[i].id)
  }

  function Selected(rows: seq<Row>): seq<Row> {
    if rows == [] then []
    else
      var last := rows[|rows| - 1];
      Selected(rows[..|rows| - 1]) + if last.selected then [last] else []
  }

  predicate Beyond(row: Row, last: Option<string>) {
    last.None? || Less(last.value, row.id)
  }

  /** The selected rows beyond `last`. */
  function Remaining(rows: seq<Row>, last: Option<string>): seq<Row> {
    if rows == [] then []
    else
      var row := rows[|rows| - 1];
      Remaining(rows[..|rows| - 1], last) + if row.selected && Beyond(row, last) then [row] else []
  }

  function Page(rows: seq<Row>, last: Option<string>, limit: nat): seq<Row> {
    var found := Remaining(rows, last);
    if |found| <= limit then found else found[..limit]
  }

  lemma {:induction false} RemainingFromStart(rows: seq<Row>)
    ensures Remaining(rows, None) == Selected(rows)
  {
    if rows != [] { RemainingFromStart(rows[..|rows| - 1]); }
  }

  lemma {:induction false} SelectedOrdered(rows: seq<Row>)
    requires Ordered(rows)
    ensures Ordered(Selected(rows))
    ensures forall row :: row in Selected(rows) ==> row in rows
  {
    if rows != [] {
      var init, last := rows[..|rows| - 1], rows[|rows| - 1];
      SelectedOrdered(init);
      assert rows == init + [last];
      forall row | row in init ensures Less(row.id, last.id) {
        var i :| 0 <= i < |init| && init[i] == row;
        assert rows[i] == row;
      }
    }
  }

  /** The query that starts beyond the k-th selected row returns the selected rows after it. */
  lemma {:induction false} RemainingIsSuffix(rows: seq<Row>, k: nat)
    requires Ordered(rows) && 0 < k <= |Selected(rows)|
    ensures Remaining(rows, Some(Selected(rows)[k - 1].id)) == Selected(rows)[k..]
  {
    var found := Selected(rows);
    var last := rows[|rows| - 1];
    var init := rows[..|rows| - 1];
    var pivot := found[k - 1].id;
    SelectedOrdered(rows);
    if k <= |Selected(init)| {
      RemainingIsSuffix(init, k);
      if last.selected {
        assert found[|found| - 1] == last;
        assert Less(pivot, last.id);
        assert found[k..] == Selected(init)[k..] + [last];
      }
    } else {
      assert found[k..] == [] && pivot == last.id;
      LessIrreflexive(pivot);
      NoneBeyond(init, pivot, rows);
    }
  }

  lemma {:induction false} NoneBeyond(init: seq<Row>, pivot: string, rows: seq<Row>)
    requires Ordered(rows) && |rows| > |init| && init == rows[..|init|] && pivot == rows[|rows| - 1].id
    ensures Remaining(init, Some(pivot)) == []
  {
    if init != [] {
      var shorter := init[..|init| - 1];
      assert shorter == rows[..|shorter|];
      NoneBeyond(shorter, pivot, rows);
      assert Less(rows[|init| - 1].id, pivot);
      LessAsymmetric(init[|init| - 1].id, pivot);
    }
  }

  lemma NextPage(rows: seq<Row>, k: nat, last: Option<string>, limit: nat)
    requires Ordered(rows) && k <= |Selected(rows)|
    requires if k == 0 then last == None else last == Some(Selected(rows)[k - 1].id)
    ensures var found := Selected(rows); var n := if |found| - k <= limit then |found| - k else limit;
      Page(rows, last, limit) == found[k..k + n]
  {
    if k == 0 { RemainingFromStart(rows); } else { RemainingIsSuffix(rows, k); }
  }

  // ---------------------------------------------------------------- queueing history scans

  lemma {:induction false} PushAllJoin(q: Queue, a: seq<string>, b: seq<string>)
    ensures PushAll(q, a + b) == PushAll(PushAll(q, a), b)
  {
    if b == [] {
      assert a + b == a;
    } else {
      assert (a + b)[..|a + b| - 1] == a + b[..|b| - 1];
      PushAllJoin(q, a, b[..|b| - 1]);
    }
  }

  lemma IdsJoin(found: seq<Row>, k: nat, n: nat)
    requires k + n <= |found|
    ensures Ids(found[..k + n]) == Ids(found[..k]) + Ids(found[k..k + n])
  {
    assert found[..k + n] == found[..k] + found[k..k + n];
  }

  /** A page was pushed and, if `added` is there, its answer arrived; without an answer the script may have run or
      not. */
  method SubmitPage(queue: RedisQueue, page: seq<string>) returns (added: Option<nat>, ghost pushed: bool)
    modifies queue
    ensures queue.View() == if pushed then PushAll(old(queue.View()), page) else old(queue.View())
    ensures added.Some? ==> pushed && |queue.list| == |old(queue.list)| + added.value
  {
    var lost, runs := *, *;
    pushed := !lost || runs;
    added := None;
    if !lost || runs {
      var n := queue.EnqueueBatch(page);
      added := if lost then None else Some(n);
    }
  }

  /** The rows of one scan: `eligible` were counted, the first `submitted` are in the queue, and `queued` is what the
      first `counted` of them added. These differ only by the page at which the scan failed. */
  ghost predicate ScanOk(found: seq<Row>, start: Queue, end: Queue, eligible: nat, queued: nat, submitted: nat,
                         counted: nat) {
    && counted <= submitted <= eligible <= |found| && eligible <= counted + 500
    && (submitted == counted || submitted == eligible)
    && end == PushAll(start, Ids(found[..submitted]))
    && queued == |PushAll(start, Ids(found[..counted])).list| - |start.list|
  }

  /** `queued` is the number of identifiers that were not in the set. */
  lemma QueuedAreNew(found: seq<Row>, start: Queue, end: Queue, eligible: nat, queued: nat, submitted: nat,
                     counted: nat)
    requires ScanOk(found, start, end, eligible, queued, submitted, counted)
    ensures queued == |Elements(Ids(found[..counted])) - start.members|
  {
    var added := PushAllAdds(start, Ids(found[..counted]));
  }

  /** One turn of the loop: the next page, if there is one, is submitted. */
  method ScanPage(table: seq<Row>, queue: RedisQueue, ghost start: Queue, eligible: nat, queued: nat,
                  last: Option<string>)
    returns (count: nat, added: Option<nat>, next: Option<string>, ghost pushed: bool)
    requires Ordered(table) && eligible <= |Selected(table)| && Follows(Selected(table), eligible, last)
    requires ScanOk(Selected(table), start, queue.View(), eligible, queued, eligible, eligible)
    modifies queue
    ensures eligible + count <= |Selected(table)| && Follows(Selected(table), eligible + count, next)
    ensures count == 0 <==> eligible == |Selected(table)|
    ensures count == 0 ==> queue.View() == old(queue.View())
    ensures added.Some? ==> pushed
    ensures count > 0 ==>
      ScanOk(Selected(table), start, queue.View(), eligible + count,
             if added.Some? then queued + added.value else queued,
             if pushed then eligible + count else eligible, if added.Some? then eligible + count else eligible)
  {
    assert HISTORY_PAGE > 0;
    hide *;
    var page := Page(table, last, HISTORY_PAGE);
    PageFollows(table, eligible, last, HISTORY_PAGE);
    if |page| == 0 {
      return 0, None, last, false;
    }
    PageSubmitted(Selected(table), start, queue.View(), eligible, queued, page);
    count, next := |page|, Some(page[|page| - 1].id);
    added, pushed := SubmitPage(queue, Ids(page));
  }

  /** `complete` is false when a query or the script fails, or the request is canceled between two pages. */
  method QueueMailboxHistoryScans(table: seq<Row>, queue: RedisQueue)
    returns (eligible: nat, queued: nat, complete: bool, ghost submitted: nat, ghost counted: nat)
    requires Ordered(table)
    modifies queue
    ensures ScanOk(Selected(table), old(queue.View()), queue.View(), eligible, queued, submitted, counted)
    ensures complete ==> eligible == submitted == counted == |Selected(table)|
  {
    eligible, queued, submitted, counted := 0, 0, 0, 0;
    ghost var start, found := queue.View(), Selected(table);
    var last: Option<string> := None;
    hide *;
    NothingSubmitted(found, start);
    while true
      invariant eligible <= |found| && Follows(found, eligible, last)
      invariant submitted == counted == eligible
        && ScanOk(found, start, queue.View(), eligible, queued, submitted, counted)
      decreases |found| - eligible
    {
      var stopped := *; // canceled after the last page, or the query fails
      if stopped {
        return eligible, queued, false, submitted, counted;
      }
      var count, added, next;
      ghost var pushed;
      count, added, next, pushed := ScanPage(table, queue, start, eligible, queued, last);
      if count == 0 {
        break;
      }
      last, eligible := next, eligible + count;
      if pushed {
        submitted := eligible;
      }
      if added.None? {
        return eligible, queued, false, submitted, counted;
      }
      queued, counted := queued + added.value, eligible;
    }
    complete := true;
  }

  predicate Follows(found: seq<Row>, k: nat, last: Option<string>)
    requires k <= |found|
  {
    if k == 0 then last == None else last == Some(found[k - 1].id)
  }

  predicate PageAt(found: seq<Row>, k: nat, page: seq<Row>) {
    k + |page| <= |found| && page == found[k..k + |page|]
  }

  lemma PageFollows(rows: seq<Row>, k: nat, last: Option<string>, limit: nat)
    requires Ordered(rows) && k <= |Selected(rows)| && Follows(Selected(rows), k, last) && limit > 0
    ensures var found, page := Selected(rows), Page(rows, last, limit);
      && |page| <= limit && k + |page| <= |found| && PageAt(found, k, page)
        && (|page| < limit ==> k + |page| == |found|)
      && (|page| > 0 ==> Follows(found, k + |page|, Some(page[|page| - 1].id)))
  {
    NextPage(rows, k, last, limit);
  }

  lemma NothingSubmitted(found: seq<Row>, start: Queue)
    ensures ScanOk(found, start, start, 0, 0, 0, 0) && HISTORY_PAGE > 0 && Follows(found, 0, None)
  {
    assert Ids(found[..0]) == [];
  }

  /** One more page, at its three stages. */
  lemma PageSubmitted(found: seq<Row>, start: Queue, q: Queue, k: nat, queued: nat, page: seq<Row>)
    requires PageAt(found, k, page) && |page| <= HISTORY_PAGE && ScanOk(found, start, q, k, queued, k, k)
    ensures var r, n := PushAll(q, Ids(page)), k + |page|;
      && ScanOk(found, start, q, n, queued, k, k) && ScanOk(found, start, r, n, queued, n, k)
      && |r.list| >= |q.list| && ScanOk(found, start, r, n, queued + (|r.list| - |q.list|), n, n)
  {
    IdsJoin(found, k, |page|);
    PushAllJoin(start, Ids(found[..k]), Ids(page));
    PushAllGrows(q, Ids(page));
    hide PushAll, Ids;
  }

  lemma PushAllGrows(q: Queue, ids: seq<string>)
    ensures |PushAll(q, ids).list| >= |q.list|
  {
    var added := PushAllAdds(q, ids);
  }

  /** No identifier is submitted twice: the submitted rows are exactly the selected ones, each once. */
  lemma EachSubmittedOnce(table: seq<Row>)
    requires Ordered(table)
    ensures Distinct(Ids(Selected(table)))
    ensures forall row :: row in table && row.selected <==> row in Selected(table)
  {
    SelectedOrdered(table);
    SelectedIsAll(table);
    var found := Selected(table);
    forall i, j | 0 <= i < j < |found| ensures found[i].id != found[j].id {
      assert Less(found[i].id, found[j].id);
      LessIrreflexive(found[i].id);
    }
  }

  lemma {:induction false} SelectedIsAll(rows: seq<Row>)
    ensures forall row :: row in Selected(rows) <==> row in rows && row.selected
  {
    if rows != [] {
      SelectedIsAll(rows[..|rows| - 1]);
      assert rows == rows[..|rows| - 1] + [rows[|rows| - 1]];
    }
  }

  // ---------------------------------------------------------------- polling

  function Readable(rows: seq<Row>): seq<Row> {
    if rows == [] then []
    else (if rows[0].readable then [rows[0]] else []) + Readable(rows[1..])
  }

  /** The part of the active mailboxes that lies behind the first page from which a row was dropped. */
  function Unreached(rows: seq<Row>): seq<Row> {
    if |rows| < POLL_PAGE then []
    else if |Readable(rows[..POLL_PAGE])| < POLL_PAGE then rows[POLL_PAGE..]
    else Unreached(rows[POLL_PAGE..])
  }

  lemma {:induction false} ReadableJoin(a: seq<Row>, b: seq<Row>)
    ensures Readable(a + b) == Readable(a) + Readable(b)
  {
    if a == [] {
      assert a + b == b && Readable(a) == [];
    } else {
      ReadableJoin(a[1..], b);
      assert (a + b)[0] == a[0] && (a + b)[1..] == a[1..] + b;
      var first := if a[0].readable then [a[0]] else [];
      assert Readable(a) == first + Readable(a[1..]) && Readable(a + b) == first + Readable(a[1..] + b);
      hide Readable;
      assert first + (Readable(a[1..]) + Readable(b)) == (first + Readable(a[1..])) + Readable(b);
    }
  }

  lemma {:induction false} ReadableShrinks(rows: seq<Row>)
    ensures |Readable(rows)| <= |rows|
    ensures |Readable(rows)| == |rows| ==> Readable(rows) == rows
  {
    if rows != [] {
      ReadableShrinks(rows[1..]);
    }
  }

  lemma ReadableUpTo(found: seq<Row>, k: nat, n: nat)
    requires k + n <= |found|
    ensures Readable(found[..k + n]) == Readable(found[..k]) + Readable(found[k..k + n])
  {
    assert found[..k + n] == found[..k] + found[k..k + n];
    ReadableJoin(found[..k], found[k..k + n]);
  }

  /** The part of the active mailboxes that a poll gets to. */
  function Reached(rows: seq<Row>): seq<Row> {
    UnreachedIsSuffix(rows);
    rows[..|rows| - |Unreached(rows)|]
  }

  lemma {:induction false} UnreachedIsSuffix(rows: seq<Row>)
    ensures |Unreached(rows)| <= |rows| && rows[..|rows| - |Unreached(rows)|] + Unreached(rows) == rows
    decreases |rows|
  {
    if |rows| >= POLL_PAGE {
      UnreachedIsSuffix(rows[POLL_PAGE..]);
    }
  }

  lemma PollTurn(found: seq<Row>, k: nat, page: seq<Row>)
    requires PageAt(found, k, page) && |page| <= POLL_PAGE && (|page| < POLL_PAGE ==> k + |page| == |found|)
    requires Unreached(found[k..]) == Unreached(found)
    ensures Readable(found[..k + |page|]) == Readable(found[..k]) + Readable(page)
    ensures Readable(found[..k + |page|]) <= Readable(Reached(found))
    ensures |Readable(page)| < POLL_PAGE ==> Readable(found[..k + |page|]) == Readable(Reached(found))
    ensures |Readable(page)| >= POLL_PAGE ==>
      Readable(page) == page && |page| == POLL_PAGE && Unreached(found[k + |page|..]) == Unreached(found)
  {
    var rest, next := found[k..], k + |page|;
    assert rest[|page|..] == found[next..] && page == rest[..|page|];
    hide Readable, Unreached, Reached;
    ReadableUpTo(found, k, |page|);
    ReadableShrinks(page);
    UnreachedTurn(rest, page);
    UnreachedIsSuffix(found[next..]);
    ReachedFrom(found, next);
  }

  lemma UnreachedTurn(rest: seq<Row>, page: seq<Row>)
    requires |page| <= |rest| && page == rest[..|page|] && |page| <= POLL_PAGE && (|page| < POLL_PAGE ==> page == rest)
    ensures |Readable(page)| < POLL_PAGE ==> |Unreached(rest)| == |rest| - |page|
    ensures |Readable(page)| >= POLL_PAGE ==> |page| == POLL_PAGE && Unreached(rest[|page|..]) == Unreached(rest)
  {
    ReadableShrinks(page);
    hide Readable;
  }

  lemma ReachedFrom(found: seq<Row>, next: nat)
    requires next <= |found| && |Unreached(found)| <= |found| - next
    ensures Readable(found[..next]) <= Readable(Reached(found))
    ensures |Unreached(found)| == |found| - next ==> found[..next] == Reached(found)
  {
    hide Readable, Unreached;
    var reached := Reached(found);
    assert found[..next] == reached[..next];
    assert reached == reached[..next] + reached[next..];
    ReadableJoin(reached[..next], reached[next..]);
  }

  /** Rows that do not decrypt are dropped from the page, and a page that comes out short ends the loop. `complete` is
      false when a query fails or the worker is told to stop. */
  method Poll(table: seq<Row>) returns (polled: seq<Row>, complete: bool)
    requires Ordered(table)
    ensures polled <= Readable(Reached(Selected(table)))
    ensures complete ==> polled == Readable(Reached(Selected(table)))
  {
    hide *;
    polled := [];
    ghost var found := Selected(table);
    ghost var k := 0;
    var last: Option<string> := None;
    NothingReadable(found);
    while true
      invariant k <= |found| && Follows(found, k, last)
      invariant polled == Readable(found[..k]) <= Readable(Reached(found)) && Unreached(found[k..]) == Unreached(found)
      decreases |found| - k
    {
      var failed := *;
      if failed {
        return polled, false;
      }
      var page := Page(table, last, POLL_PAGE);
      PageFollows(table, k, last, POLL_PAGE);
      PollTurn(found, k, page);
      var mailboxes := Readable(page);
      var stopped: int := *;
      if 0 <= stopped < |mailboxes| {
        return polled + mailboxes[..stopped], false;
      }
      polled := polled + mailboxes;
      k := k + |page|;
      if |mailboxes| < POLL_PAGE {
        return polled, true;
      }
      last := Some(mailboxes[|mailboxes| - 1].id);
    }
  }

  lemma NothingReadable(found: seq<Row>)
    ensures Readable(found[..0]) == [] <= Readable(Reached(found)) && Unreached(found[0..]) == Unreached(found)
    ensures POLL_PAGE > 0 && Follows(found, 0, None)
  {
    assert found[0..] == found;
  }

  /** A poll that is not interrupted reaches every active mailbox it can read exactly if none of them lies behind the
      first page from which a row was dropped. */
  lemma PollCoversExactly(table: seq<Row>)
    ensures Readable(Reached(Selected(table))) == Readable(Selected(table))
       <==> forall row :: row in Unreached(Selected(table)) ==> !row.readable
    ensures (forall row :: row in table && row.selected ==> row.readable) ==>
      Readable(Reached(Selected(table))) == Selected(table)
  {
    var found := Selected(table);
    UnreachedIsSuffix(found);
    ReadableJoin(Reached(found), Unreached(found));
    NoneReadable(Unreached(found));
    if forall row :: row in table && row.selected ==> row.readable {
      SelectedIsAll(table);
      AllReadable(found);
    }
  }

  lemma {:induction false} NoneReadable(rows: seq<Row>)
    ensures Readable(rows) == [] <==> forall row :: row in rows ==> !row.readable
  {
    if rows != [] {
      NoneReadable(rows[1..]);
      assert rows == [rows[0]] + rows[1..];
    }
  }

  lemma {:induction false} AllReadable(rows: seq<Row>)
    requires forall row :: row in rows ==> row.readable
    ensures Readable(rows) == rows && Unreached(rows) == []
    decreases |rows|
  {
    if rows != [] {
      AllReadable(rows[1..]);
      if |rows| >= POLL_PAGE {
        AllReadablePage(rows[..POLL_PAGE]);
        AllReadable(rows[POLL_PAGE..]);
      }
    }
  }

  lemma {:induction false} AllReadablePage(rows: seq<Row>)
    requires forall row :: row in rows ==> row.readable
    ensures Readable(rows) == rows
  {
    if rows != [] { AllReadablePage(rows[1..]); }
  }

  lemma {:induction false} ReadableAreRows(rows: seq<Row>)
    ensures forall row :: row in Readable(rows) ==> row in rows && row.readable
  {
    if rows != [] { ReadableAreRows(rows[1..]); }
  }

  /** One undecryptable row among the first hundred active mailboxes keeps all the later ones from being polled, now
      and as long as it stays. */
  lemma OneBadRowHidesTheRest(table: seq<Row>, bad: nat, polled: seq<Row>)
    requires Ordered(table) && bad < 100 <= |Selected(table)| && !Selected(table)[bad].readable
    requires polled <= Readable(Reached(Selected(table)))
    ensures forall k :: 100 <= k < |Selected(table)| ==> Selected(table)[k] !in polled
  {
    var found := Selected(table);
    var page := found[..POLL_PAGE];
    ReadableShrinks(page);
    ReadableAreRows(page);
    assert page[bad] == found[bad];
    assert Reached(found) == page;
    SelectedOrdered(table);
    forall k | POLL_PAGE <= k < |found| ensures found[k] !in page {
      forall j | 0 <= j < POLL_PAGE ensures page[j] != found[k] {
        LessIrreflexive(found[k].id);
        assert Less(found[j].id, found[k].id);
      }
    }
    assert forall row :: row in polled ==> row in Readable(page);
  }
}
