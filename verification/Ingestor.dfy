/**
 The consumer of the worker event stream: at-least-once delivery in, each event stored once.

 An entry that is not acknowledged stays pending and is delivered again.
 */
module Ingestor {
  import opened Rows
  import opened EventLog

  datatype Entry =
    | Unparseable                                // not JSON
    | Malformed                                  // JSON, but not an event
    | Orphan                                     // an event of a run that does not exist
    | Event(key: string, payload: string)

  /** What can go wrong around the transaction, besides the entry itself. */
  datatype Weather = Weather(
    broken: bool,                                // the database or the connection fails
    overtaken: bool,                             // someone stores the same key after the look-up
    ackFails: bool)                              // the acknowledgement does not get through

  const FAIR := Weather(false, false, false)

  predicate Acknowledged(log: Log, entry: Entry, weather: Weather) {
    && !weather.ackFails
    && (entry.Malformed? || (entry.Event? && !weather.broken))
  }

  /** Whether the event is stored does not depend on what becomes of the acknowledgement. */
  function LogAfter(log: Log, entry: Entry, weather: Weather): Log {
    if entry.Event? && !weather.broken then Ingest(log, entry.key, entry.payload) else log
  }

  class Consumer {
    var log: Log

    constructor ()
      ensures log == Log(0, [])
    {
      log := Log(0, []);
    }

    /** Increments the counter and inserts under the new number, or rolls both back. */
    method Store(key: string, payload: string) returns (stored: bool)
      modifies this
      ensures stored <==> !FindKey(old(log).rows, Worker(key))
      ensures log == if stored then Append(old(log), Worker(key), Runtime(payload)) else old(log)
    {
      var saved := log;
      log := log.(last := log.last + 1);
      if FindKey(log.rows, Worker(key)) {
        log := saved;
        return false;
      }
      log := log.(rows := log.rows + [EventRow(log.last, Worker(key), Runtime(payload))]);
      return true;
    }

    method Acknowledge(weather: Weather) returns (ok: bool)
      ensures ok == !weather.ackFails
    {
      return !weather.ackFails;
    }

    /** The result says whether the entry is acknowledged. */
    method HandleEntry(entry: Entry, weather: Weather) returns (acked: bool)
      modifies this
      ensures log == LogAfter(old(log), entry, weather)
      ensures acked == Acknowledged(old(log), entry, weather)
      // An event with a new key goes in with its own content, anything else leaves the log alone.
      ensures entry.Event? && !weather.broken && !FindKey(old(log).rows, Worker(entry.key)) ==>
        && log.last == old(log).last + 1
        && log.rows == old(log).rows + [EventRow(log.last, Worker(entry.key), Runtime(entry.payload))]
      ensures !(entry.Event? && !weather.broken && !FindKey(old(log).rows, Worker(entry.key))) ==> log == old(log)
      ensures acked ==> entry.Malformed? || (entry.Event? && FindKey(log.rows, Worker(entry.key)))
      ensures acked <==> !weather.ackFails && !entry.Unparseable? && !entry.Orphan? && (entry.Event? ==> !weather.broken)
    {
      match entry {
        case Unparseable => return false;
        case Malformed => acked := Acknowledge(weather);
        case Orphan => return false;
        case Event(key, payload) =>
          if weather.broken { return false; }
          var existing := FindKey(log.rows, Worker(key));
          if !existing {
            if weather.overtaken {
              var _ := Store(key, payload);
            }
            var stored := Store(key, payload);
            if !stored {                         // the key is taken by now
              acked := Acknowledge(weather);
              return;
            }
          }
          acked := Acknowledge(weather);
      }
    }
  }

  // ---- Any deliveries, in any order ----

  datatype Delivery =
    | Handle(entry: nat, weather: Weather)       // entry by position in the stream
    | Write(body: EventBody)                     // the control plane logs something itself

  datatype Stream = Stream(entries: seq<Entry>, acked: set<nat>, log: Log)

  function Receive(s: Stream, delivery: Delivery): Stream {
    match delivery
    case Write(body) => s.(log := Emit(s.log, body))
    case Handle(i, weather) =>
      if i >= |s.entries| then s
      else
        Stream(s.entries,
               if Acknowledged(s.log, s.entries[i], weather) then s.acked + {i} else s.acked,
               LogAfter(s.log, s.entries[i], weather))
  }

  function ReceiveAll(s: Stream, deliveries: seq<Delivery>): Stream
    decreases |deliveries|
  {
    if deliveries == [] then s else ReceiveAll(Receive(s, deliveries[0]), deliveries[1..])
  }

  /** The event is stored, with this content. */
  ghost predicate Stored(log: Log, key: string, payload: string) {
    exists i :: 0 <= i < |log.rows| && log.rows[i].key == Worker(key) && log.rows[i].body == Runtime(payload)
  }

  predicate SameKey(a: Entry, b: Entry) { a.Event? && b.Event? && a.key == b.key }

  /** Two entries have the same key only if they are the same event. */
  predicate KeysTell(entries: seq<Entry>) {
    forall i, j :: 0 <= i < |entries| && 0 <= j < |entries| && SameKey(entries[i], entries[j]) ==> entries[i] == entries[j]
  }

  /** The row of a worker event is the copy of an entry. */
  predicate Copied(row: EventRow, entries: seq<Entry>) {
    row.key.Worker? ==> exists i :: 0 <= i < |entries| && entries[i].Event?
                                    && row.key == Worker(entries[i].key) && row.body == Runtime(entries[i].payload)
  }

  /** Nothing is acknowledged that could still be lost, and nothing is stored that was not delivered. */
  ghost predicate StreamOk(s: Stream) {
    && Gapless(s.log)
    && (forall k :: 0 <= k < |s.log.rows| ==> Copied(s.log.rows[k], s.entries))
    && (forall i :: i in s.acked ==>
          i < |s.entries| && (s.entries[i].Malformed? || (s.entries[i].Event? && HasKey(s.log, Worker(s.entries[i].key)))))
  }

  lemma KeysStay(log: Log, more: Log, key: EventKey)
    requires HasKey(log, key) && log.rows <= more.rows
    ensures HasKey(more, key)
  {
    var i :| 0 <= i < |log.rows| && log.rows[i].key == key;
    assert more.rows[i] == log.rows[i];
  }

  lemma HandleKeepsStream(s: Stream, i: nat, weather: Weather)
    requires StreamOk(s) && i < |s.entries|
    ensures StreamOk(Receive(s, Handle(i, weather))) && s.log.rows <= Receive(s, Handle(i, weather)).log.rows
  {
    var e := Receive(s, Handle(i, weather));
    var entry := s.entries[i];
    if entry.Event? {
      IngestIsIdempotent(s.log, entry.key, entry.payload, "");
      forall k | 0 <= k < |e.log.rows| ensures Copied(e.log.rows[k], e.entries) {
        if k < |s.log.rows| {
          assert e.log.rows[k] == s.log.rows[k];
        }
      }
    }
    forall k | k in s.acked && s.entries[k].Event? ensures HasKey(e.log, Worker(s.entries[k].key)) {
      KeysStay(s.log, e.log, Worker(s.entries[k].key));
    }
  }

  lemma WriteKeepsStream(s: Stream, body: EventBody)
    requires StreamOk(s)
    ensures StreamOk(Receive(s, Write(body))) && s.log.rows <= Receive(s, Write(body)).log.rows
  {
    var e := Receive(s, Write(body));
    EmitKeepsGapless(s.log, body);
    forall k | 0 <= k < |e.log.rows| ensures Copied(e.log.rows[k], e.entries) {
      if k < |s.log.rows| {
        assert e.log.rows[k] == s.log.rows[k];
      }
    }
    forall k | k in s.acked && s.entries[k].Event? ensures HasKey(e.log, Worker(s.entries[k].key)) {
      KeysStay(s.log, e.log, Worker(s.entries[k].key));
    }
  }

  lemma ReceiveKeepsStream(s: Stream, delivery: Delivery)
    requires StreamOk(s)
    ensures StreamOk(Receive(s, delivery)) && s.log.rows <= Receive(s, delivery).log.rows
  {
    match delivery
    case Write(body) => WriteKeepsStream(s, body);
    case Handle(i, weather) => if i < |s.entries| { HandleKeepsStream(s, i, weather); }
  }

  /** An event that is in the log under its key is there with its content, if keys tell events apart. */
  lemma StoredAsItIs(s: Stream, i: nat)
    requires StreamOk(s) && KeysTell(s.entries) && i < |s.entries| && s.entries[i].Event?
    requires HasKey(s.log, Worker(s.entries[i].key))
    ensures Stored(s.log, s.entries[i].key, s.entries[i].payload)
  {
    var k :| 0 <= k < |s.log.rows| && s.log.rows[k].key == Worker(s.entries[i].key);
    assert Copied(s.log.rows[k], s.entries);
  }

  lemma {:induction false} EveryDeliveryKeepsStream(s: Stream, deliveries: seq<Delivery>)
    requires StreamOk(s)
    ensures var e := ReceiveAll(s, deliveries);
      StreamOk(e) && s.log.rows <= e.log.rows && e.entries == s.entries && s.acked <= e.acked
    decreases |deliveries|
  {
    if deliveries != [] {
      ReceiveKeepsStream(s, deliveries[0]);
      EveryDeliveryKeepsStream(Receive(s, deliveries[0]), deliveries[1..]);
    }
  }

  /**
   Exactly once, whatever is redelivered, raced or broken: the stored numbers are 1..lastSequence with
   no key twice, stored rows stay as they are, each is the copy of a delivered event, and what is
   acknowledged was never an event or is stored; with its own content, where keys tell events apart.
   */
  lemma NothingIsLost(s: Stream, deliveries: seq<Delivery>)
    requires StreamOk(s)
    ensures var e := ReceiveAll(s, deliveries);
      && StreamOk(e) && s.log.rows <= e.log.rows && e.entries == s.entries && s.acked <= e.acked
      && (KeysTell(s.entries) ==>
            forall i :: i in e.acked && e.entries[i].Event? ==> Stored(e.log, e.entries[i].key, e.entries[i].payload))
  {
    EveryDeliveryKeepsStream(s, deliveries);
    var e := ReceiveAll(s, deliveries);
    if KeysTell(s.entries) {
      forall i | i in e.acked && e.entries[i].Event? ensures Stored(e.log, e.entries[i].key, e.entries[i].payload) {
        StoredAsItIs(e, i);
      }
    }
  }

  /** Of several events under one key the first that is stored stays, at its place, whatever comes later. */
  lemma FirstIsKept(s: Stream, i: nat, weather: Weather, after: seq<Delivery>)
    requires StreamOk(s) && i < |s.entries| && s.entries[i].Event? && !weather.broken
    requires !HasKey(s.log, Worker(s.entries[i].key))
    ensures var e := ReceiveAll(Receive(s, Handle(i, weather)), after);
      && |s.log.rows| < |e.log.rows|
      && e.log.rows[|s.log.rows|]
         == EventRow(|s.log.rows| + 1, Worker(s.entries[i].key), Runtime(s.entries[i].payload))
  {
    HandleKeepsStream(s, i, weather);
    IngestIsIdempotent(s.log, s.entries[i].key, s.entries[i].payload, "");
    EveryDeliveryKeepsStream(Receive(s, Handle(i, weather)), after);
  }

  /** One delivery in fair weather is enough, however many went wrong before and come after. */
  lemma OneDeliveryIsEnough(s: Stream, before: seq<Delivery>, i: nat, after: seq<Delivery>)
    requires StreamOk(s) && i < |s.entries| && s.entries[i].Event?
    ensures var e := ReceiveAll(Receive(ReceiveAll(s, before), Handle(i, FAIR)), after);
      && i in e.acked && HasKey(e.log, Worker(s.entries[i].key))
      && (KeysTell(s.entries) ==> Stored(e.log, s.entries[i].key, s.entries[i].payload))
  {
    EveryDeliveryKeepsStream(s, before);
    var m := ReceiveAll(s, before);
    ReceiveKeepsStream(m, Handle(i, FAIR));
    EveryDeliveryKeepsStream(Receive(m, Handle(i, FAIR)), after);
    if KeysTell(s.entries) {
      StoredAsItIs(ReceiveAll(Receive(m, Handle(i, FAIR)), after), i);
    }
  }
}
