/** The worker's half of the token ledger: one model call, from reservation to settlement. */
module BudgetedModel {
  import opened Wrappers

  /** What a call tells the outside world, in order. */
  datatype CallEvent =
    | Reserve(amount: nat)
    | Invoke(timeout: Option<real>)
    | Settle(used: Option<nat>)

  /** The control plane's answer to a reservation: refused or lost, or granted. */
  datatype Reply = Refused | Grant(remainingSeconds: Option<real>)

  /** What the provider's client gives back; the usage is missing if either count is. */
  datatype Answer = Raised | Response(usage: Option<int>)

  datatype CallOutcome = Returned | ProviderError | ReserveError | UsageUnknown

  /** The token bounds the provider enforces for one call. */
  datatype Limits = Limits(input: int, output: int)

  function Clamp(seconds: real): (t: real)
    ensures 0.1 <= t <= 120.0
    ensures 0.1 <= seconds <= 120.0 ==> t == seconds
    ensures seconds < 0.1 ==> t == 0.1
    ensures seconds > 120.0 ==> t == 120.0
  {
    var most := if seconds < 120.0 then seconds else 120.0;
    if most > 0.1 then most else 0.1
  }

  /** What is settled: a usage that was reported and makes sense, or nothing. */
  function Reported(answer: Answer): Option<nat> {
    match answer
    case Raised => None
    case Response(usage) => if usage.Some? && usage.value >= 0 then Some(usage.value) else None
  }

  /** The provider reported a count, and one that makes sense. */
  predicate UsageKnown(answer: Answer) { answer.Response? && answer.usage.Some? && answer.usage.value >= 0 }

  predicate Bounded(limits: Limits) { limits.input > 0 && limits.output > 0 }

  /** The timeout in force during the call. */
  function TimeoutFor(reply: Reply, before: Option<real>): Option<real> {
    if reply.Grant? && reply.remainingSeconds.Some? then Some(Clamp(reply.remainingSeconds.value)) else before
  }

  /** Everything a call under a budget may do. */
  function CallTrace(limits: Limits, reply: Reply, answer: Answer, timeout: Option<real>): seq<CallEvent> {
    if !Bounded(limits) then []
    else if reply.Refused? then [Reserve(limits.input + limits.output)]
    else [Reserve(limits.input + limits.output), Invoke(TimeoutFor(reply, timeout)), Settle(Reported(answer))]
  }

  class ModelCaller {
    var events: seq<CallEvent>
    var callTimeout: Option<real>

    constructor ()
      ensures events == [] && callTimeout == None
    {
      events, callTimeout := [], None;
    }

    method BudgetSettle(used: Option<nat>, delivered: bool) returns (ok: bool)
      modifies `events
      ensures events == old(events) + [Settle(used)] && ok == delivered
    {
      events := events + [Settle(used)];
      return delivered;
    }

    /**
     `reply`, `answer` and `delivered` are what the outside world does: the answer to the
     reservation, the provider's, and whether the settlement gets through.
     */
    method BudgetCall(budget: Option<Limits>, reply: Reply, answer: Answer, delivered: bool)
      returns (outcome: CallOutcome)
      modifies this
      ensures budget.None? ==>
        && events == old(events) + [Invoke(old(callTimeout))] && callTimeout == old(callTimeout)
        && outcome == if answer.Raised? then ProviderError else Returned
      ensures budget.Some? ==> events == old(events) + CallTrace(budget.value, reply, answer, old(callTimeout))
      // The timeout is lifted on every way out of a call that was granted.
      ensures budget.Some? ==>
        callTimeout == if Bounded(budget.value) && reply.Grant? then None else old(callTimeout)
      // What is settled, last, is the usage as the provider reports it, or that it is not known.
      ensures budget.Some? && budget.value.input > 0 && budget.value.output > 0 && reply.Grant? ==>
        && |events| == |old(events)| + 3
        && events[|old(events)|] == Reserve(budget.value.input + budget.value.output)
        && events[|old(events)| + 1] == Invoke(if reply.remainingSeconds.Some?
                                               then Some(Clamp(reply.remainingSeconds.value)) else old(callTimeout))
        && events[|old(events)| + 2]
           == Settle(if answer.Response? && answer.usage.Some? && answer.usage.value >= 0 then Some(answer.usage.value)
                     else None)
      // A result is only handed on if its usage is known, settled and within the declared bounds.
      ensures budget.Some? ==>
        (outcome.Returned? <==>
          && budget.value.input > 0 && budget.value.output > 0 && reply.Grant? && delivered
          && answer.Response? && answer.usage.Some?
          && 0 <= answer.usage.value <= budget.value.input + budget.value.output)
      ensures budget.Some? ==>
        (outcome.ReserveError? <==> budget.value.input > 0 && budget.value.output > 0 && reply.Refused?)
      ensures budget.Some? ==> !outcome.ProviderError?
    {
      if budget.None? {
        events := events + [Invoke(callTimeout)];
        return if answer.Raised? then ProviderError else Returned;
      }
      var limits := budget.value;
      if limits.input <= 0 || limits.output <= 0 { return UsageUnknown; }
      events := events + [Reserve(limits.input + limits.output)];
      if reply.Refused? { return ReserveError; }
      if reply.remainingSeconds.Some? {
        callTimeout := Some(Clamp(reply.remainingSeconds.value));
      }
      events := events + [Invoke(callTimeout)];
      if answer.Raised? || answer.usage.None? || answer.usage.value < 0 {
        var _ := BudgetSettle(None, delivered);
        callTimeout := None;
        return UsageUnknown;
      }
      var used: nat := answer.usage.value;
      var ok := BudgetSettle(Some(used), delivered);
      callTimeout := None;
      if !ok { return UsageUnknown; }
      if used > limits.input + limits.output { return UsageUnknown; }
      return Returned;
    }
  }

  /**
   Reserve before use, settle once after it: a call invokes the provider at most once, only after
   a granted reservation of its full bound, and then settles exactly once, last.
   */
  lemma CallsAreBracketed(limits: Limits, reply: Reply, answer: Answer, timeout: Option<real>, k: nat)
    requires k < |CallTrace(limits, reply, answer, timeout)| && !CallTrace(limits, reply, answer, timeout)[k].Reserve?
    ensures var trace := CallTrace(limits, reply, answer, timeout);
      && |trace| == 3 && reply.Grant?
      && trace[0] == Reserve(limits.input + limits.output)
      && (trace[k].Invoke? <==> k == 1) && (trace[k].Settle? <==> k == 2)
  {
  }
}
