/** The outbox publisher as it runs: reconcile now and then, then publish what is due, oldest first. */
module OutboxPublisher {
  import opened Wrappers

  const BATCH: nat := 20
  const QUIET_MS: nat := 60_000

  /** An outbox message; `publishedAt` is kept when it waits again. */
  datatype OutboxRow = OutboxRow(known: bool, notBefore: int, pending: bool, publishedAt: Option<int>, attempts: nat)

  /** What can happen to one message: XADD fails, or the mark after it, or neither. */
  datatype Fate = Works | AddFails | MarkFails

  predicate Due(row: OutboxRow, now: int) { row.pending && row.notBefore <= now }

  /** The positions of the first due messages, at most a batch. */
  function DueRows(rows: seq<OutboxRow>, now: int): (due: seq<nat>)
    ensures |due| <= BATCH
    ensures forall k :: 0 <= k < |due| ==> due[k] < |rows| && Due(rows[due[k]], now)
    ensures Ascending(due)
    ensures |due| < BATCH ==> forall i :: 0 <= i < |rows| && Due(rows[i], now) ==> i in due
  {
    if rows == [] then []
    else
      var n := |rows| - 1;
      var before := DueRows(rows[..n], now);
      if |before| < BATCH && Due(rows[n], now) then before + [n] else before
  }

  /** A message of an unknown topic fails before it is added. */
  predicate Sent(row: OutboxRow, fate: Fate) { row.known && !fate.AddFails? }

  predicate Marked(row: OutboxRow, fate: Fate) { row.known && fate.Works? }

  function RowAfter(row: OutboxRow, fate: Fate, now: int): OutboxRow {
    if Marked(row, fate) then row.(pending := false, publishedAt := Some(now))
    else row.(attempts := row.attempts + 1)
  }

  predicate Ascending(due: seq<nat>) { forall j, k :: 0 <= j < k < |due| ==> due[j] < due[k] }

  /** The table, what was added to the stream in order, and how many messages were marked. */
  datatype Ticked = Ticked(rows: seq<OutboxRow>, sent: seq<nat>, published: nat)

  function PublishOne(t: Ticked, m: nat, fate: Fate, now: int): Ticked {
    if m >= |t.rows| then t
    else
      Ticked(t.rows[m := RowAfter(t.rows[m], fate, now)],
             if Sent(t.rows[m], fate) then t.sent + [m] else t.sent,
             if Marked(t.rows[m], fate) then t.published + 1 else t.published)
  }

  function PublishAll(rows: seq<OutboxRow>, fates: map<nat, Fate>, due: seq<nat>, now: int): (t: Ticked)
    ensures |t.rows| == |rows|
  {
    if due == [] then Ticked(rows, [], 0)
    else
      var m := due[|due| - 1];
      PublishOne(PublishAll(rows, fates, due[..|due| - 1], now), m, FateOf(fates, m), now)
  }

  lemma OneMore(rows: seq<OutboxRow>, fates: map<nat, Fate>, due: seq<nat>, now: int, k: nat)
    requires k < |due|
    ensures PublishAll(rows, fates, due[..k + 1], now)
         == PublishOne(PublishAll(rows, fates, due[..k], now), due[k], FateOf(fates, due[k]), now)
  {
    assert due[..k + 1][..k] == due[..k];
  }

  lemma SendsOn(sent: seq<nat>, t: Ticked, m: nat, fate: Fate, now: int)
    requires m < |t.rows|
    ensures var e := PublishOne(t, m, fate, now);
      && sent + e.sent == (sent + t.sent) + (if Sent(t.rows[m], fate) then [m] else [])
      && e.rows == t.rows[m := RowAfter(t.rows[m], fate, now)]
      && e.published == (if Marked(t.rows[m], fate) then t.published + 1 else t.published)
  {
  }

  /** What happens to message `m`; most of the time everything works. */
  function FateOf(fates: map<nat, Fate>, m: nat): Fate { if m in fates then fates[m] else Works }

  lemma InFront(due: seq<nat>, i: nat)
    requires due != [] && Ascending(due)
    ensures var n := |due| - 1;
      (i in due <==> i in due[..n] || i == due[n]) && due[n] !in due[..n] && Ascending(due[..n])
  {
    var n := |due| - 1;
    assert due == due[..n] + [due[n]];
    forall k | 0 <= k < n ensures due[..n][k] != due[n] {
      assert due[k] < due[n];
    }
  }

  /** Every due message has its turn once; the others are left alone. */
  lemma {:induction false} PublishAllAt(rows: seq<OutboxRow>, fates: map<nat, Fate>, due: seq<nat>, now: int, i: nat)
    requires Ascending(due) && i < |rows|
    ensures PublishAll(rows, fates, due, now).rows[i]
         == if i in due then RowAfter(rows[i], FateOf(fates, i), now) else rows[i]
  {
    if due != [] {
      PublishAllAt(rows, fates, due[..|due| - 1], now, i);
      InFront(due, i);
    }
  }

  lemma {:induction false} SentAt(rows: seq<OutboxRow>, fates: map<nat, Fate>, due: seq<nat>, now: int, i: nat)
    requires Ascending(due) && i < |rows|
    ensures i in PublishAll(rows, fates, due, now).sent <==> i in due && Sent(rows[i], FateOf(fates, i))
  {
    if due != [] {
      PublishAllAt(rows, fates, due[..|due| - 1], now, i);
      SentAt(rows, fates, due[..|due| - 1], now, i);
      InFront(due, i);
    }
  }

  predicate Overdue(row: OutboxRow, now: int) {
    !row.pending && row.publishedAt.Some? && row.publishedAt.value < now - QUIET_MS
  }

  /** Due, of a known topic, and nothing goes wrong. */
  predicate GoesOut(row: OutboxRow, fate: Fate, now: int) {
    row.pending && row.notBefore <= now && row.known && fate.Works?
  }

  /** A message that was published more than a minute ago and does not wait. */
  lemma OverdueAfterAMinute(row: OutboxRow, now: int)
    ensures Overdue(row, now) <==> !row.pending && row.publishedAt.Some? && now - row.publishedAt.value > 60_000
  {
  }

  /** What becomes of a message that is tried: it is marked, or its failure is counted, and nothing else. */
  lemma RowIsMarkedOrCounted(row: OutboxRow, fate: Fate, now: int)
    ensures var e := RowAfter(row, fate, now);
      && e.known == row.known && e.notBefore == row.notBefore
      && (row.known && fate.Works? ==> !e.pending && e.publishedAt == Some(now) && e.attempts == row.attempts)
      && (!row.known || !fate.Works? ==>
            e.pending == row.pending && e.publishedAt == row.publishedAt && e.attempts == row.attempts + 1)
    ensures Sent(row, fate) <==> row.known && (fate.Works? || fate.MarkFails?)
  {
  }

  /** `waiting` holds the newest message of every quiet dispatched run; the overdue ones wait again. */
  function Reconciled(rows: seq<OutboxRow>, waiting: seq<nat>, now: int): seq<OutboxRow> {
    seq(|rows|, i requires 0 <= i < |rows| =>
      if i in waiting && Overdue(rows[i], now) then rows[i].(pending := true) else rows[i])
  }

  class Publisher {
    var rows: seq<OutboxRow>
    var stream: seq<nat>
    var running: bool
    var reconciledAt: int

    constructor (rows: seq<OutboxRow>)
      ensures this.rows == rows && stream == [] && !running
    {
      this.rows, stream, running, reconciledAt := rows, [], false, 0;
    }

    /** What is marked as published has been added to the stream. */
    ghost predicate PublishedIsSent()
      reads this
    {
      forall i :: 0 <= i < |rows| && !rows[i].pending ==> i in stream
    }

    method Reconcile(waiting: seq<nat>, now: int)
      requires forall k :: 0 <= k < |waiting| ==> waiting[k] < |rows|
      modifies `rows
      ensures rows == Reconciled(old(rows), waiting, now)
    {
      for k := 0 to |waiting|
        invariant rows == Reconciled(old(rows), waiting[..k], now)
      {
        var m := waiting[k];
        assert waiting[..k + 1] == waiting[..k] + [m];
        if Overdue(rows[m], now) {
          rows := rows[m := rows[m].(pending := true)];
        }
      }
      assert waiting[..|waiting|] == waiting;
    }

    method Send(m: nat, fate: Fate, now: int) returns (ok: bool)
      requires m < |rows|
      modifies `rows, `stream
      ensures rows == old(rows)[m := RowAfter(old(rows)[m], fate, now)] && ok == Marked(old(rows)[m], fate)
      ensures stream == old(stream) + (if Sent(old(rows)[m], fate) then [m] else [])
    {
      if rows[m].known && !fate.AddFails? {
        stream := stream + [m];
        if fate.Works? {
          rows := rows[m := rows[m].(pending := false, publishedAt := Some(now))];
          return true;
        }
      }
      rows := rows[m := rows[m].(attempts := rows[m].attempts + 1)];
      return false;
    }

    method PublishDue(fates: map<nat, Fate>, now: int) returns (published: nat)
      modifies `rows, `stream
      ensures rows == PublishAll(old(rows), fates, DueRows(old(rows), now), now).rows
      ensures stream == old(stream) + PublishAll(old(rows), fates, DueRows(old(rows), now), now).sent
      ensures published == PublishAll(old(rows), fates, DueRows(old(rows), now), now).published
    {
      var pending := DueRows(rows, now);
      published := 0;
      ghost var before, sent, done := rows, stream, Ticked(rows, [], 0);
      for k := 0 to |pending|
        invariant done == PublishAll(before, fates, pending[..k], now)
        invariant rows == done.rows && stream == sent + done.sent && published == done.published
      {
        var m, fate := pending[k], FateOf(fates, pending[k]);
        OneMore(before, fates, pending, now, k);
        SendsOn(sent, done, m, fate, now);
        done := PublishOne(done, m, fate, now);
        var ok := Send(m, fate, now);
        if ok {
          published := published + 1;
        }
      }
      assert pending[..|pending|] == pending;
    }

    /**
     One poll: now and then it reconciles, and then it publishes what is due.  Nothing is ever marked as
     published that was not added, and a message that is due by then goes out if nothing fails, unless
     it is held up behind a full batch.
     */
    method Tick(waiting: seq<nat>, fates: map<nat, Fate>, now: int) returns (published: nat)
      requires PublishedIsSent()
      requires forall k :: 0 <= k < |waiting| ==> waiting[k] < |rows|
      modifies this
      ensures PublishedIsSent() && |rows| == |old(rows)| && old(stream) <= stream && running == old(running)
      ensures old(running) ==> rows == old(rows) && stream == old(stream) && published == 0
      ensures !old(running) ==>
        var ready := if now - old(reconciledAt) > 60_000 then Reconciled(old(rows), waiting, now) else old(rows);
        var due := DueRows(ready, now);
        && rows == PublishAll(ready, fates, due, now).rows
        && stream == old(stream) + PublishAll(ready, fates, due, now).sent
        && (forall i :: 0 <= i < |rows| && GoesOut(ready[i], FateOf(fates, i), now) ==>
              (!rows[i].pending && i in stream) || |due| == 20)
    {
      if running { return 0; }
      running := true;
      if now - reconciledAt > QUIET_MS {
        reconciledAt := now;
        Reconcile(waiting, now);
      }
      ghost var ready, sent := rows, stream;
      assert forall i :: 0 <= i < |ready| && !ready[i].pending ==> i in sent;
      published := PublishDue(fates, now);
      PublishedStaysSent(ready, sent, fates, now);
      DueGoesOut(ready, fates, now);
      running := false;
    }
  }

  /** Publishing marks nothing that it has not added. */
  lemma PublishedStaysSent(rows: seq<OutboxRow>, sent: seq<nat>, fates: map<nat, Fate>, now: int)
    requires forall i :: 0 <= i < |rows| && !rows[i].pending ==> i in sent
    ensures var e := PublishAll(rows, fates, DueRows(rows, now), now);
      forall i :: 0 <= i < |rows| && !e.rows[i].pending ==> i in sent + e.sent
  {
    var due := DueRows(rows, now);
    var e := PublishAll(rows, fates, due, now);
    forall i | 0 <= i < |rows| && !e.rows[i].pending ensures i in sent + e.sent {
      PublishAllAt(rows, fates, due, now, i);
      SentAt(rows, fates, due, now, i);
    }
  }

  /** What is due, of a known topic and undisturbed goes out, unless the batch is full. */
  lemma DueGoesOut(rows: seq<OutboxRow>, fates: map<nat, Fate>, now: int)
    ensures var due := DueRows(rows, now);
      var e := PublishAll(rows, fates, due, now);
      forall i :: 0 <= i < |rows| && Due(rows[i], now) && rows[i].known && FateOf(fates, i).Works? ==>
        (!e.rows[i].pending && i in e.sent) || |due| == BATCH
  {
    var due := DueRows(rows, now);
    var e := PublishAll(rows, fates, due, now);
    forall i | 0 <= i < |rows| && Due(rows[i], now) && rows[i].known && FateOf(fates, i).Works? && |due| < BATCH
      ensures !e.rows[i].pending && i in e.sent
    {
      PublishAllAt(rows, fates, due, now, i);
      SentAt(rows, fates, due, now, i);
    }
  }

  /** The oldest waiting messages go first: a due message is only passed over behind a full batch of older ones. */
  lemma {:induction false} OldestFirst(rows: seq<OutboxRow>, now: int, i: nat)
    requires i < |rows| && rows[i].pending && rows[i].notBefore <= now && i !in DueRows(rows, now)
    ensures |DueRows(rows, now)| == 20 && forall k :: 0 <= k < 20 ==> DueRows(rows, now)[k] < i
  {
    var n := |rows| - 1;
    if i < n {
      assert rows[..n][i] == rows[i];
      OldestFirst(rows[..n], now, i);
    }
  }
}
