/** A worker handling one entry of the command stream. */
module CommandWorker {
  datatype CommandType = StartRun | ResumeRun | CancelRun

  /** An entry as read from the stream; commands of snapshot tasks are recognised by the claim alone. */
  datatype Entry = Garbage | Command(id: nat, kind: CommandType, snapshot: bool)

  /** How the claim request ends: an HTTP error, no answer at all, or one of the service's answers. */
  datatype ClaimReply = HttpError(code: nat) | NoAnswer | Duplicate | Granted

  /** How the execution ends. */
  datatype Execution = Paused | Finished(succeeded: bool) | Raised

  datatype Report = Success | Failure

  /** What the handler tells the control plane and the stream about one entry. */
  datatype Trace = Trace(claims: nat, executions: nat, reports: seq<Report>, acked: bool)

  /** The reports of one execution; a report that is not accepted is followed by one of failure. */
  function Reports(execution: Execution, accepted: bool): seq<Report> {
    match execution
    case Paused => []
    case Finished(succeeded) =>
      var report := if succeeded then Report.Success else Report.Failure;
      if accepted then [report] else [report, Report.Failure]
    case Raised => [Report.Failure]
  }

  predicate Refused(reply: ClaimReply) { reply.Duplicate? || (reply.HttpError? && (reply.code == 404 || reply.code == 409)) }

  class Worker {
    var seen: set<nat>  // commands remembered in Redis
    var trace: Trace

    constructor (seen: set<nat>)
      ensures this.seen == seen && trace == Trace(0, 0, [], false)
    {
      this.seen, trace := seen, Trace(0, 0, [], false);
    }

    method Complete(report: Report, accepted: bool) returns (ok: bool)
      modifies `trace
      ensures trace == old(trace).(reports := old(trace).reports + [report]) && ok == accepted
    {
      trace := trace.(reports := trace.reports + [report]);
      return accepted;
    }

    /** `raised` leaves the entry pending. */
    method HandleEntry(entry: Entry, reply: ClaimReply, execution: Execution, accepted: bool) returns (raised: bool)
      modifies this
      // An entry stays pending exactly if it cannot be read or its claim got no usable answer.
      ensures raised <==> !trace.acked
      ensures raised <==>
        || entry.Garbage?
        || (!entry.kind.CancelRun? && (entry.snapshot || entry.id !in old(seen))
            && (reply.NoAnswer? || (reply.HttpError? && reply.code != 404 && reply.code != 409)))
      // It executes exactly when a claim was asked for and granted; then it reports, and acknowledges.
      ensures trace.executions == if trace.claims == 1 && reply.Granted? then 1 else 0
      ensures trace.claims ==
        if entry.Command? && !entry.kind.CancelRun? && (entry.snapshot || entry.id !in old(seen)) then 1 else 0
      ensures trace.reports == if trace.executions == 1 then Reports(execution, accepted) else []
      // Success is reported only for an execution that finished with it; failure if it raised, or if the
      // report was not accepted; a paused one reports nothing.
      ensures trace.executions == 1 ==>
        match execution
        case Paused => trace.reports == []
        case Finished(succeeded) =>
          && trace.reports != [] && (trace.reports[0].Success? <==> succeeded)
          && trace.reports[1..] == (if accepted then [] else [Report.Failure])
        case Raised => trace.reports == [Report.Failure]
      ensures seen == old(seen) + (if entry.Command? && !entry.snapshot then {entry.id} else {})
    {
      trace := Trace(0, 0, [], false);
      if entry.Garbage? { return true; }
      if !entry.snapshot {
        if entry.id in seen {
          trace := trace.(acked := true);
          return false;
        }
        seen := seen + {entry.id};
      }
      if entry.kind.CancelRun? {
        trace := trace.(acked := true);
        return false;
      }
      trace := trace.(claims := trace.claims + 1);
      if reply.HttpError? {
        if reply.code == 404 || reply.code == 409 {
          trace := trace.(acked := true);
          return false;
        }
        return true;
      }
      if reply.NoAnswer? { return true; }
      if reply.Duplicate? {
        trace := trace.(acked := true);
        return false;
      }
      trace := trace.(executions := trace.executions + 1);
      match execution {
        case Paused =>
        case Finished(succeeded) =>
          var ok := Complete(if succeeded then Report.Success else Report.Failure, accepted);
          if !ok {
            var _ := Complete(Report.Failure, accepted);
          }
        case Raised =>
          var _ := Complete(Report.Failure, accepted);
      }
      trace := trace.(acked := true);
      return false;
    }
  }
}
