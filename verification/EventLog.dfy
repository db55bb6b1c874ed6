/**
 The per-run event log: the counter `lastSequence` and the TraceEvent rows it numbers.

 Two writers append to it: transactions of the control plane (synthetic events) and the ingestor
 of worker events, which may see the same event any number of times.
 */
module EventLog {
  import opened Wrappers
  import opened Rows
  import opened StateMachine

  function Append(log: Log, key: EventKey, body: EventBody): Log {
    Log(log.last + 1, log.rows + [EventRow(log.last + 1, key, body)])
  }

  /** What the control plane writes inside its own transaction. */
  function Emit(log: Log, body: EventBody): Log {
    Append(log, Synthetic(log.last + 1), body)
  }

  ghost predicate HasKey(log: Log, key: EventKey) {
    exists i :: 0 <= i < |log.rows| && log.rows[i].key == key
  }

  function FindKey(rows: seq<EventRow>, key: EventKey): bool {
    rows != [] && (rows[|rows| - 1].key == key || FindKey(rows[..|rows| - 1], key))
  }

  /** One delivery of a worker event: stored under the next number, or dropped as a duplicate. */
  function Ingest(log: Log, key: string, payload: string): Log {
    if FindKey(log.rows, Worker(key)) then log else Append(log, Worker(key), Runtime(payload))
  }

  /**
   The log holds exactly the numbers 1..lastSequence in order, and no key twice.  A synthetic key
   carries the number it was written under, so it can never meet a later one.
   */
  ghost predicate Gapless(log: Log) {
    && |log.rows| == log.last
    && (forall i :: 0 <= i < |log.rows| ==> log.rows[i].runSequence == i + 1)
    && (forall i :: 0 <= i < |log.rows| && log.rows[i].key.Synthetic? ==> log.rows[i].key.n == i + 1)
    && (forall i, j :: 0 <= i < j < |log.rows| ==> log.rows[i].key != log.rows[j].key)
  }

  lemma {:induction false} FindKeyFinds(rows: seq<EventRow>, key: EventKey)
    ensures FindKey(rows, key) <==> exists i :: 0 <= i < |rows| && rows[i].key == key
  {
    if rows != [] {
      var n := |rows| - 1;
      FindKeyFinds(rows[..n], key);
      if rows[n].key != key && FindKey(rows[..n], key) {
        var i :| 0 <= i < n && rows[..n][i].key == key;
        assert rows[i].key == key;
      }
      if i :| 0 <= i < n && rows[i].key == key {
        assert rows[..n][i].key == key;
      }
    }
  }

  lemma AppendKeepsGapless(log: Log, key: EventKey, body: EventBody)
    requires Gapless(log)
    requires !HasKey(log, key)
    requires key.Synthetic? ==> key.n == log.last + 1
    ensures Gapless(Append(log, key, body))
  {
    var rows := Append(log, key, body).rows;
    forall i, j | 0 <= i < j < |rows| ensures rows[i].key != rows[j].key {
      assert i < |log.rows| && rows[i] == log.rows[i];
    }
  }

  lemma EmitKeepsGapless(log: Log, body: EventBody)
    requires Gapless(log)
    ensures Gapless(Emit(log, body))
  {
    AppendKeepsGapless(log, Synthetic(log.last + 1), body);
  }

  /** A redelivery changes nothing; a first delivery stores the event as it is, under the next number. */
  lemma IngestIsIdempotent(log: Log, key: string, payload: string, again: string)
    requires Gapless(log)
    ensures Gapless(Ingest(log, key, payload))
    ensures HasKey(Ingest(log, key, payload), Worker(key))
    ensures Ingest(Ingest(log, key, payload), key, again) == Ingest(log, key, payload)
    ensures log.rows <= Ingest(log, key, payload).rows
    ensures HasKey(log, Worker(key)) ==> Ingest(log, key, payload) == log
    ensures !HasKey(log, Worker(key)) ==>
      Ingest(log, key, payload).rows == log.rows + [EventRow(log.last + 1, Worker(key), Runtime(payload))]
  {
    FindKeyFinds(log.rows, Worker(key));
    if !HasKey(log, Worker(key)) {
      AppendKeepsGapless(log, Worker(key), Runtime(payload));
    }
    var after := Ingest(log, key, payload);
    FindKeyFinds(after.rows, Worker(key));
    if !HasKey(log, Worker(key)) {
      assert after.rows[|log.rows|].key == Worker(key);
    }
  }

  /** The edges a status event may report: those of the table, and `resume`'s direct one. */
  predicate ReportedEdge(from: RunStatus, to: RunStatus) {
    CanRun(from, to) || (from.Interrupted? && to.Dispatched?)
  }

  /**
   Replays the status events of a log from the status at creation.  `None` if some event starts
   elsewhere than where the previous one ended, or reports an edge outside the table.
   */
  function StatusTrail(start: RunStatus, rows: seq<EventRow>): Option<RunStatus> {
    if rows == [] then Some(start)
    else
      var before := StatusTrail(start, rows[..|rows| - 1]);
      match rows[|rows| - 1].body
      case StatusChange(from, to) =>
        if before == Some(from) && ReportedEdge(from, to) then Some(to) else None
      case _ => before
  }

  lemma TrailOfAppend(start: RunStatus, log: Log, key: EventKey, body: EventBody)
    ensures StatusTrail(start, Append(log, key, body).rows)
         == (match body
             case StatusChange(from, to) =>
               if StatusTrail(start, log.rows) == Some(from) && ReportedEdge(from, to) then Some(to) else None
             case _ => StatusTrail(start, log.rows))
  {
    var rows := Append(log, key, body).rows;
    assert rows[..|rows| - 1] == log.rows;
  }
}
