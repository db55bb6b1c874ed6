/**
 What a browser sees of a run's event log: the cursor of the event stream, reconnects that ask for
 what is missing, the merge into the cached list, and the list that the page loads beside it.
 */
module EventView {
  import opened Wrappers
  import opened Rows
  import opened EventLog

  const PAGE: nat := 500

  /** A number as the server parses it from a header or a query parameter. */
  datatype Numeral = SafeInteger(n: int) | NotSafe

  /** The cursor of a new stream: the header wins over the query, nonsense means from the start. */
  function StartCursor(header: Option<Numeral>, query: Option<Numeral>): nat {
    var requested := if header.Some? then header.value else query.GetOr(SafeInteger(0));
    if requested.SafeInteger? && requested.n >= 0 then requested.n else 0
  }

  /** The rows after the cursor, at most a page of them. */
  function Page(log: Log, cursor: nat): seq<EventRow> {
    if cursor >= |log.rows| then []
    else if |log.rows| - cursor <= PAGE then log.rows[cursor..]
    else log.rows[cursor..cursor + PAGE]
  }

  /** One connection on the server. */
  class EventStream {
    var sequence: nat
    var closed: bool
    var written: seq<EventRow>

    constructor (header: Option<Numeral>, query: Option<Numeral>)
      ensures sequence == StartCursor(header, query) && !closed && written == []
      ensures header.Some? && header.value.SafeInteger? && header.value.n >= 0 ==> sequence == header.value.n
      ensures header.None? && query.Some? && query.value.SafeInteger? && query.value.n >= 0 ==> sequence == query.value.n
      ensures header.None? && query.None? ==> sequence == 0
      ensures var asked := if header.Some? then header else query;
        asked.Some? && (asked.value.NotSafe? || asked.value.n < 0) ==> sequence == 0
    {
      var requested := if header.Some? then header.value else query.GetOr(SafeInteger(0));
      sequence := if requested.SafeInteger? && requested.n >= 0 then requested.n else 0;
      closed, written := false, [];
    }

    /**
     One poll of the table.  The connection may close after any number of writes; the cursor then
     stands at the last row that was written.
     */
    method Drain(log: Log, closesAfter: Option<nat>)
      requires forall i :: 0 <= i < |log.rows| ==> log.rows[i].runSequence == i + 1
      modifies this
      ensures sequence == old(sequence) + (|written| - |old(written)|)
      ensures old(closed) ==> written == old(written)
      ensures !old(closed) ==>
        var page := Page(log, old(sequence));
        if closesAfter.Some? && closesAfter.value < |page|
        then closed && written == old(written) + page[..closesAfter.value]
        else !closed && written == old(written) + page
    {
      if closed { return; }
      var events := Page(log, sequence);
      var k := 0;
      while k < |events|
        invariant k <= |events| && !closed
        invariant closesAfter.Some? ==> k <= closesAfter.value || closesAfter.value >= |events|
        invariant written == old(written) + events[..k]
        invariant sequence == old(sequence) + k
      {
        if closesAfter == Some(k) {
          closed := true;
          break;
        }
        written := written + [events[k]];
        sequence := events[k].runSequence;
        k := k + 1;
      }
      assert events[..|events|] == events;
    }
  }

  // ---- The merge ----

  predicate Ascending(events: seq<EventRow>) {
    forall i, j :: 0 <= i < j < |events| ==> events[i].runSequence < events[j].runSequence
  }

  predicate Holds(events: seq<EventRow>, sequence: nat) {
    exists i :: 0 <= i < |events| && events[i].runSequence == sequence
  }

  /** Stable insertion behind every row that is not larger. */
  function Insert(events: seq<EventRow>, e: EventRow): seq<EventRow> {
    if events == [] || events[|events| - 1].runSequence <= e.runSequence then events + [e]
    else Insert(events[..|events| - 1], e) + [events[|events| - 1]]
  }

  function Sorted(events: seq<EventRow>): seq<EventRow> {
    if events == [] then [] else Insert(Sorted(events[..|events| - 1]), events[|events| - 1])
  }

  function MergeEvents(existing: seq<EventRow>, incoming: EventRow): seq<EventRow> {
    if Holds(existing, incoming.runSequence) then existing else Sorted(existing + [incoming])
  }

  lemma {:induction false} SortedIsStable(events: seq<EventRow>)
    requires Ascending(events)
    ensures Sorted(events) == events
  {
    if events != [] {
      var n := |events| - 1;
      SortedIsStable(events[..n]);
      assert events == events[..n] + [events[n]];
    }
  }

  lemma {:induction false} InsertAdds(events: seq<EventRow>, e: EventRow)
    ensures multiset(Insert(events, e)) == multiset(events) + multiset{e}
  {
    if events != [] {
      assert events == events[..|events| - 1] + [events[|events| - 1]];
      InsertAdds(events[..|events| - 1], e);
    }
  }

  lemma {:induction false} SortedKeeps(events: seq<EventRow>)
    ensures multiset(Sorted(events)) == multiset(events)
  {
    if events != [] {
      assert events == events[..|events| - 1] + [events[|events| - 1]];
      SortedKeeps(events[..|events| - 1]);
      InsertAdds(Sorted(events[..|events| - 1]), events[|events| - 1]);
    }
  }

  lemma {:induction false} InsertKeepsOrder(events: seq<EventRow>, e: EventRow)
    requires Ascending(events) && !Holds(events, e.runSequence)
    ensures Ascending(Insert(events, e))
  {
    if events != [] && events[|events| - 1].runSequence > e.runSequence {
      var n := |events| - 1;
      var init := events[..n];
      forall i | 0 <= i < n ensures init[i].runSequence != e.runSequence {
        assert init[i] == events[i];
      }
      InsertKeepsOrder(init, e);
      InsertAdds(init, e);
      var inner := Insert(init, e);
      forall i | 0 <= i < |inner| ensures inner[i].runSequence < events[n].runSequence {
        assert inner[i] in multiset(init) + multiset{e};
      }
    }
  }

  /** Merging keeps a list ascending and without duplicates, and adds exactly the event that is new. */
  lemma MergeAddsOnce(existing: seq<EventRow>, incoming: EventRow)
    requires Ascending(existing)
    ensures var merged := MergeEvents(existing, incoming);
      && Ascending(merged)
      && (Holds(existing, incoming.runSequence) ==> merged == existing)
      && (!Holds(existing, incoming.runSequence) ==> multiset(merged) == multiset(existing) + multiset{incoming})
  {
    if !Holds(existing, incoming.runSequence) {
      assert (existing + [incoming])[..|existing|] == existing;
      SortedIsStable(existing);
      InsertKeepsOrder(existing, incoming);
      InsertAdds(existing, incoming);
    }
  }

  lemma PrefixAscends(log: Log, n: nat)
    requires Gapless(log) && n <= |log.rows|
    ensures Ascending(log.rows[..n])
    ensures forall i :: 0 <= i < n ==> log.rows[..n][i].runSequence == i + 1
  {
  }

  /** Into a gapless prefix of the log, its next event goes at the end; an older one changes nothing. */
  lemma MergeOfNext(log: Log, n: nat, k: nat)
    requires Gapless(log) && k <= n <= |log.rows| && k < |log.rows|
    ensures MergeEvents(log.rows[..n], log.rows[k]) == log.rows[..if k < n then n else n + 1]
  {
    PrefixAscends(log, n);
    if k < n {
      assert log.rows[..n][k].runSequence == log.rows[k].runSequence;
    } else {
      assert !Holds(log.rows[..n], log.rows[k].runSequence);
      assert log.rows[..n + 1] == log.rows[..n] + [log.rows[n]];
      PrefixAscends(log, n + 1);
      SortedIsStable(log.rows[..n + 1]);
    }
  }

  // ---- Browser, connection and log together ----

  /**
   `last` is the newest id the page has seen.  A source asks for `asked`, in its address; once it has
   received an event it asks for that one, in a header, when it reconnects by itself.
   */
  datatype Source = Source(asked: nat, received: Option<nat>)

  /** A live connection: the server's cursor, and what was written but has not arrived. */
  datatype Line = Line(cursor: nat, inFlight: seq<EventRow>)

  datatype View = View(
    log: Log,
    list: seq<EventRow>,                 // the cached list
    last: nat,
    source: Option<Source>,
    line: Option<Line>,
    response: Option<seq<EventRow>>)     // the page's own list, read but not arrived

  datatype Step =
    | Store(key: string, payload: string)
    | Emitted(body: EventBody)
    | Open                               // a new source: first visit of the hook, or a manual retry
    | Reconnect                          // the same source by itself
    | Drain(n: nat)                      // n rows of the next page are written
    | Arrive                             // the next written row arrives
    | Drop                               // the connection is lost with everything on its way
    | Leave                              // the page is left; the cache stays
    | Forget                             // the cache of a page that nobody watches is dropped
    | Fetch                              // the server reads the list
    | Load                               // the list arrives and replaces the cache

  function AskedBy(source: Source): nat {
    StartCursor(if source.received.Some? then Some(SafeInteger(source.received.value)) else None,
                if source.asked > 0 then Some(SafeInteger(source.asked)) else None)
  }

  function After(v: View, step: Step): View {
    match step
    case Store(key, payload) => v.(log := Ingest(v.log, key, payload))
    case Emitted(body) => v.(log := Emit(v.log, body))
    case Open =>
      var source := Source(v.last, None);
      v.(source := Some(source), line := Some(Line(AskedBy(source), [])))
    case Reconnect => if v.source.None? then v else v.(line := Some(Line(AskedBy(v.source.value), [])))
    case Drain(n) =>
      if v.line.None? || n > |Page(v.log, v.line.value.cursor)| then v
      else
        v.(line := Some(Line(v.line.value.cursor + n,
                             v.line.value.inFlight + Page(v.log, v.line.value.cursor)[..n])))
    case Arrive =>
      if v.line.None? || v.line.value.inFlight == [] || v.source.None? then v
      else
        var e := v.line.value.inFlight[0];
        v.(list := MergeEvents(v.list, e),
           last := if v.last > e.runSequence then v.last else e.runSequence,
           source := Some(v.source.value.(received := Some(e.runSequence))),
           line := Some(v.line.value.(inFlight := v.line.value.inFlight[1..])))
    case Drop => v.(line := None)
    case Leave => v.(last := 0, source := None, line := None)
    case Forget => if v.source.None? then v.(list := []) else v
    case Fetch => v.(response := Some(v.log.rows))
    case Load => if v.response.None? then v else v.(list := v.response.value, response := None)
  }

  function Watch(v: View, steps: seq<Step>): View
    decreases |steps|
  {
    if steps == [] then v else Watch(After(v, steps[0]), steps[1..])
  }

  function Blank(): View { View(Log(0, []), [], 0, None, None, None) }

  /** The stream continues exactly where the page stands. */
  ghost predicate InStep(v: View) {
    && Gapless(v.log)
    && v.last <= |v.log.rows|
    && (if v.source.Some? then AskedBy(v.source.value) == v.last else v.last == 0)
    && (v.line.Some? ==>
          && v.source.Some?
          && v.last <= v.line.value.cursor <= |v.log.rows|
          && v.line.value.inFlight == v.log.rows[v.last..v.line.value.cursor])
    && (v.response.Some? ==> v.response.value <= v.log.rows)
  }

  /** The page shows events 1..n in order, with nothing missing up to the newest it has seen. */
  ghost predicate Complete(v: View) { v.list <= v.log.rows && v.last <= |v.list| }

  lemma GrowthStaysInStep(v: View, log: Log)
    requires InStep(v) && Gapless(log) && v.log.rows <= log.rows
    ensures InStep(v.(log := log))
  {
  }

  lemma DrainStaysInStep(v: View, n: nat)
    requires InStep(v) && v.line.Some? && n <= |Page(v.log, v.line.value.cursor)|
    ensures InStep(After(v, Drain(n)))
  {
    var c := v.line.value.cursor;
    assert Page(v.log, c)[..n] == v.log.rows[c..c + n];
  }

  lemma ArriveStaysInStep(v: View)
    requires InStep(v) && v.line.Some? && v.line.value.inFlight != []
    ensures v.line.value.inFlight[0] == v.log.rows[v.last]
    ensures InStep(After(v, Arrive)) && After(v, Arrive).last == v.last + 1
  {
  }

  lemma StepStaysInStep(v: View, step: Step)
    requires InStep(v)
    ensures InStep(After(v, step)) && v.log.rows <= After(v, step).log.rows
  {
    match step
    case Store(key, payload) =>
      IngestIsIdempotent(v.log, key, payload, "");
      GrowthStaysInStep(v, Ingest(v.log, key, payload));
    case Emitted(body) =>
      EmitKeepsGapless(v.log, body);
      GrowthStaysInStep(v, Emit(v.log, body));
    case Drain(n) => if v.line.Some? && n <= |Page(v.log, v.line.value.cursor)| { DrainStaysInStep(v, n); }
    case Arrive => if v.line.Some? && v.line.value.inFlight != [] { ArriveStaysInStep(v); }
    case _ =>
  }

  /** A list that arrives leaves the page complete exactly if it reaches the newest event seen. */
  lemma LoadKeepsComplete(v: View)
    requires InStep(v) && v.response.Some?
    ensures Complete(After(v, Load)) <==> |v.response.value| >= v.last
  {
  }

  /** A page that loads no list, or only lists that are not overtaken by the stream. */
  predicate FreshLoads(v: View, steps: seq<Step>)
    decreases |steps|
  {
    steps == []
    || ((steps[0].Load? && v.response.Some? ==> |v.response.value| >= v.last)
        && FreshLoads(After(v, steps[0]), steps[1..]))
  }

  lemma StepKeepsComplete(v: View, step: Step)
    requires InStep(v) && Complete(v)
    requires step.Load? && v.response.Some? ==> |v.response.value| >= v.last
    ensures Complete(After(v, step))
  {
    StepStaysInStep(v, step);
    if step.Arrive? && v.line.Some? && v.line.value.inFlight != [] {
      ArriveStaysInStep(v);
      MergeOfNext(v.log, |v.list|, v.last);
      assert v.list == v.log.rows[..|v.list|];
    }
  }

  lemma {:induction false} WatchKeepsComplete(v: View, steps: seq<Step>)
    requires InStep(v) && Complete(v) && FreshLoads(v, steps)
    ensures InStep(Watch(v, steps)) && Complete(Watch(v, steps))
    decreases |steps|
  {
    if steps != [] {
      StepStaysInStep(v, steps[0]);
      StepKeepsComplete(v, steps[0]);
      WatchKeepsComplete(After(v, steps[0]), steps[1..]);
    }
  }

  /** The page is complete after every one of these steps, not only at the end. */
  ghost predicate AlwaysComplete(v: View, steps: seq<Step>)
    decreases |steps|
  {
    steps == [] || (Complete(After(v, steps[0])) && AlwaysComplete(After(v, steps[0]), steps[1..]))
  }

  /** A page stays complete throughout if, and only if, no list it loads was overtaken by the stream. */
  lemma {:induction false} CompleteWhileFresh(v: View, steps: seq<Step>)
    requires InStep(v) && Complete(v)
    ensures AlwaysComplete(v, steps) <==> FreshLoads(v, steps)
    decreases |steps|
  {
    if steps != [] {
      StepStaysInStep(v, steps[0]);
      if steps[0].Load? && v.response.Some? {
        LoadKeepsComplete(v);
      } else {
        StepKeepsComplete(v, steps[0]);
      }
      if Complete(After(v, steps[0])) {
        CompleteWhileFresh(After(v, steps[0]), steps[1..]);
      }
    }
  }

  /**
   An exact view.  Whatever is stored, redelivered, dropped, retried and reconnected, a page that is
   never overtaken by its own list shows exactly the events 1..n of the log, in order, and n is at
   least the newest id it has seen.
   */
  lemma ViewIsExact(steps: seq<Step>)
    requires FreshLoads(Blank(), steps)
    ensures var v := Watch(Blank(), steps);
      && v.list <= v.log.rows && v.last <= |v.list|
      && (forall i :: 0 <= i < |v.list| ==> v.list[i].runSequence == i + 1)
  {
    WatchKeepsComplete(Blank(), steps);
  }

  predicate StreamOnly(step: Step) { !step.Load? && !step.Leave? }

  lemma StepKeepsCount(v: View, step: Step)
    requires InStep(v) && Complete(v) && |v.list| == v.last && StreamOnly(step)
    ensures |After(v, step).list| == After(v, step).last
  {
    if step.Arrive? && v.line.Some? && v.line.value.inFlight != [] {
      ArriveStaysInStep(v);
      MergeOfNext(v.log, v.last, v.last);
      assert v.list == v.log.rows[..v.last];
    }
  }

  lemma {:induction false} WatchKeepsCount(v: View, steps: seq<Step>)
    requires InStep(v) && Complete(v) && |v.list| == v.last
    requires forall i :: 0 <= i < |steps| ==> StreamOnly(steps[i])
    ensures |Watch(v, steps).list| == Watch(v, steps).last
    decreases |steps|
  {
    if steps != [] {
      assert StreamOnly(steps[0]);
      StepStaysInStep(v, steps[0]);
      StepKeepsComplete(v, steps[0]);
      StepKeepsCount(v, steps[0]);
      assert forall i :: 0 <= i < |steps[1..]| ==> steps[1..][i] == steps[i + 1];
      WatchKeepsCount(After(v, steps[0]), steps[1..]);
    }
  }

  lemma {:induction false} NoLoadsAreFresh(v: View, steps: seq<Step>)
    requires forall i :: 0 <= i < |steps| ==> StreamOnly(steps[i])
    ensures FreshLoads(v, steps)
    decreases |steps|
  {
    if steps != [] {
      assert StreamOnly(steps[0]);
      assert forall i :: 0 <= i < |steps[1..]| ==> steps[1..][i] == steps[i + 1];
      NoLoadsAreFresh(After(v, steps[0]), steps[1..]);
    }
  }

  /** The stream alone: the page holds exactly events 1..m, m being the newest id it has seen. */
  lemma StreamAloneIsExact(steps: seq<Step>)
    requires forall i :: 0 <= i < |steps| ==> StreamOnly(steps[i])
    ensures var v := Watch(Blank(), steps); v.last <= |v.log.rows| && v.list == v.log.rows[..v.last]
  {
    NoLoadsAreFresh(Blank(), steps);
    WatchKeepsComplete(Blank(), steps);
    WatchKeepsCount(Blank(), steps);
  }

  // ---- A list that comes late ----

  /** An event that is missing below `last` stays missing until a list is loaded or the page is left. */
  lemma {:induction false} GapStays(v: View, steps: seq<Step>, sequence: nat)
    requires InStep(v) && sequence <= v.last && !Holds(v.list, sequence)
    requires forall i :: 0 <= i < |steps| ==> StreamOnly(steps[i])
    ensures !Holds(Watch(v, steps).list, sequence)
    decreases |steps|
  {
    if steps != [] {
      assert StreamOnly(steps[0]);
      StepStaysInStep(v, steps[0]);
      var e := After(v, steps[0]);
      if steps[0].Arrive? && v.line.Some? && v.line.value.inFlight != [] {
        ArriveStaysInStep(v);
        MergeHolds(v.list, v.log.rows[v.last], sequence);
      }
      assert forall i :: 0 <= i < |steps[1..]| ==> steps[1..][i] == steps[i + 1];
      GapStays(e, steps[1..], sequence);
    }
  }

  lemma MergeHolds(existing: seq<EventRow>, incoming: EventRow, sequence: nat)
    requires incoming.runSequence != sequence && !Holds(existing, sequence)
    ensures !Holds(MergeEvents(existing, incoming), sequence)
  {
    SortedKeeps(existing + [incoming]);
    var merged := MergeEvents(existing, incoming);
    forall i | 0 <= i < |merged| ensures merged[i].runSequence != sequence {
      assert merged[i] in multiset(merged);
      if merged[i] in existing {
        var k :| 0 <= k < |existing| && existing[k] == merged[i];
      }
    }
  }

  /**
   A list that is overtaken by the stream loses events: whatever the stream delivers later, every
   event between the end of that list and the newest one seen stays missing.
   */
  lemma LateListLosesEvents(v: View, more: seq<Step>, sequence: nat)
    requires InStep(v) && v.response.Some? && |v.response.value| < sequence <= v.last
    requires forall i :: 0 <= i < |more| ==> StreamOnly(more[i])
    ensures !Holds(Watch(After(v, Load), more).list, sequence)
  {
    StepStaysInStep(v, Load);
    assert !Holds(After(v, Load).list, sequence) by {
      forall i | 0 <= i < |v.response.value| ensures v.response.value[i].runSequence != sequence {
        assert v.response.value[i] == v.log.rows[i];
      }
    }
    GapStays(After(v, Load), more, sequence);
  }

  lemma WatchOne(v: View, step: Step, rest: seq<Step>)
    ensures Watch(v, [step] + rest) == Watch(After(v, step), rest)
  {
    assert ([step] + rest)[1..] == rest;
  }

  function Overtaken(): seq<Step> { [Fetch, Emitted(ApprovalRequested), Open, Drain(1), Arrive] }

  lemma OvertakenRuns()
    ensures Watch(Blank(), Overtaken())
         == After(After(After(After(After(Blank(), Fetch), Emitted(ApprovalRequested)), Open), Drain(1)), Arrive)
  {
    var s1 := After(Blank(), Fetch);
    var s2 := After(s1, Emitted(ApprovalRequested));
    var s3 := After(s2, Open);
    assert Overtaken() == [Fetch] + [Emitted(ApprovalRequested), Open, Drain(1), Arrive];
    WatchOne(Blank(), Fetch, [Emitted(ApprovalRequested), Open, Drain(1), Arrive]);
    assert [Emitted(ApprovalRequested), Open, Drain(1), Arrive] == [Emitted(ApprovalRequested)] + [Open, Drain(1), Arrive];
    WatchOne(s1, Emitted(ApprovalRequested), [Open, Drain(1), Arrive]);
    assert [Open, Drain(1), Arrive] == [Open] + [Drain(1), Arrive] && [Drain(1), Arrive] == [Drain(1)] + [Arrive];
    WatchOne(s2, Open, [Drain(1), Arrive]);
    WatchOne(s3, Drain(1), [Arrive]);
    assert [Arrive] == [Arrive] + [];
    WatchOne(After(s3, Drain(1)), Arrive, []);
  }

  lemma OneIsOnItsWay()
    ensures var v := After(After(After(After(Blank(), Fetch), Emitted(ApprovalRequested)), Open), Drain(1));
      InStep(v) && v.line.Some? && v.line.value.inFlight != [] && v.response == Some([]) && v.last == 0
  {
    var row := EventRow(1, Synthetic(1), ApprovalRequested);
    var s2 := After(After(Blank(), Fetch), Emitted(ApprovalRequested));
    assert s2 == Blank().(log := Log(1, [row]), response := Some([]));
    var s3 := After(s2, Open);
    assert s3 == s2.(source := Some(Source(0, None)), line := Some(Line(0, [])));
    DrainStaysInStep(s3, 1);
    assert Page(s3.log, 0)[..1] == [row];
  }

  /** It happens: the list is read from an empty log and arrives after the first event. */
  lemma ListCanBeOvertaken()
    ensures var v := Watch(Blank(), Overtaken()); InStep(v) && v.response == Some([]) && v.last == 1
  {
    OvertakenRuns();
    OneIsOnItsWay();
    ArriveStaysInStep(After(After(After(After(Blank(), Fetch), Emitted(ApprovalRequested)), Open), Drain(1)));
  }

  // ---- The stream catches up ----

  /** A page of the table: the rows right after the cursor, five hundred of them or all there are. */
  lemma PageIsNext(log: Log, cursor: nat)
    requires Gapless(log) && cursor <= |log.rows|
    ensures var page := Page(log, cursor);
      && |page| == (if |log.rows| - cursor < 500 then |log.rows| - cursor else 500)
      && (forall k :: 0 <= k < |page| ==> page[k] == log.rows[cursor + k] && page[k].runSequence == cursor + k + 1)
  {
  }

  function Arrives(k: nat): seq<Step> { if k == 0 then [] else [Arrive] + Arrives(k - 1) }

  /** Page after page is written and arrives, for what is left of `n` rows. */
  function CatchUp(n: nat, last: nat): seq<Step>
    decreases n - last
  {
    if last >= n then []
    else
      var k := if n - last < PAGE then n - last else PAGE;
      [Drain(k)] + (Arrives(k) + CatchUp(n, last + k))
  }

  lemma {:induction false} WatchAppend(v: View, first: seq<Step>, second: seq<Step>)
    ensures Watch(v, first + second) == Watch(Watch(v, first), second)
    decreases |first|
  {
    if first == [] {
      assert first + second == second;
    } else {
      assert (first + second)[0] == first[0] && (first + second)[1..] == first[1..] + second;
      WatchAppend(After(v, first[0]), first[1..], second);
    }
  }

  /** Everything is shown up to the newest id, and `k` more rows are on their way. */
  ghost predicate Behind(v: View, log: Log, last: nat, k: nat) {
    && InStep(v) && Complete(v) && v.log == log && v.last == last
    && v.line.Some? && v.line.value.cursor == last + k
  }

  lemma ArriveCatchesUp(v: View, log: Log, last: nat, k: nat)
    requires k > 0
    ensures Behind(v, log, last, k) ==> Behind(After(v, Arrive), log, last + 1, k - 1)
  {
    if Behind(v, log, last, k) {
      ArriveStaysInStep(v);
      StepKeepsComplete(v, Arrive);
    }
  }

  lemma {:induction false} ArrivesCatchUp(v: View, log: Log, last: nat, k: nat)
    requires Behind(v, log, last, k)
    ensures Behind(Watch(v, Arrives(k)), log, last + k, 0)
    decreases k
  {
    if k > 0 {
      ArriveCatchesUp(v, log, last, k);
      ArrivesCatchUp(After(v, Arrive), log, last + 1, k - 1);
      assert Arrives(k)[0] == Arrive && Arrives(k)[1..] == Arrives(k - 1);
    }
  }

  lemma DrainCatchesUp(v: View, log: Log, last: nat, k: nat)
    requires last < |log.rows| && k == (if |log.rows| - last < PAGE then |log.rows| - last else PAGE)
    ensures Behind(v, log, last, 0) ==> Behind(After(v, Drain(k)), log, last, k)
  {
    if Behind(v, log, last, 0) {
      DrainStaysInStep(v, k);
    }
  }

  lemma PageCatchesUp(v: View, log: Log, last: nat, k: nat)
    requires last < |log.rows| && k == (if |log.rows| - last < PAGE then |log.rows| - last else PAGE)
    ensures Behind(v, log, last, 0) ==> Behind(Watch(After(v, Drain(k)), Arrives(k)), log, last + k, 0)
  {
    if Behind(v, log, last, 0) {
      DrainCatchesUp(v, log, last, k);
      ArrivesCatchUp(After(v, Drain(k)), log, last, k);
    }
  }

  lemma CatchUpOnePage(v: View, n: nat, last: nat, k: nat)
    requires last < n && k == (if n - last < PAGE then n - last else PAGE)
    ensures Watch(v, CatchUp(n, last)) == Watch(Watch(After(v, Drain(k)), Arrives(k)), CatchUp(n, last + k))
  {
    WatchOne(v, Drain(k), Arrives(k) + CatchUp(n, last + k));
    WatchAppend(After(v, Drain(k)), Arrives(k), CatchUp(n, last + k));
  }

  lemma {:induction false} CatchUpCatchesUp(v: View, log: Log, last: nat)
    requires last <= |log.rows|
    ensures Behind(v, log, last, 0) ==> Behind(Watch(v, CatchUp(|log.rows|, last)), log, |log.rows|, 0)
    decreases |log.rows| - last
  {
    if last < |log.rows| {
      var k := if |log.rows| - last < PAGE then |log.rows| - last else PAGE;
      PageCatchesUp(v, log, last, k);
      CatchUpCatchesUp(Watch(After(v, Drain(k)), Arrives(k)), log, last + k);
      CatchUpOnePage(v, |log.rows|, last, k);
    }
  }

  /**
   Nothing stays behind: from any state in which it misses nothing below its newest id, a page that
   connects again and stays connected gets the rest, page after page, and shows the whole log.
   */
  lemma StreamCatchesUp(v: View)
    requires InStep(v) && Complete(v)
    ensures Watch(After(v, Open), CatchUp(|v.log.rows|, v.last)).list == v.log.rows
  {
    StepStaysInStep(v, Open);
    CatchUpCatchesUp(After(v, Open), v.log, v.last);
    var e := Watch(After(v, Open), CatchUp(|v.log.rows|, v.last));
    assert e.list <= v.log.rows && |e.list| >= |v.log.rows|;
  }
}
