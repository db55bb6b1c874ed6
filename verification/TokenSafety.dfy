/**
 Token safety from end to end: the ledger of the control plane together with the workers that make
 model calls and the provider that bills them.

 A call goes through the events of its trace one at a time, with anything in between: transactions
 of anyone, crashes, redispatches, other calls.  A worker that dies takes no further step; a
 settlement may arrive late, more than once or never.
 */
module TokenSafety {
  import opened Wrappers
  import opened Rows
  import opened RunProtocol
  import opened RunSystem
  import opened RunInvariant
  import opened LedgerProof
  import opened RunTheorems
  import opened TimeProof
  import opened BudgetedModel

  /** One model call: who makes it, under which bounds, and what the provider does with it. */
  datatype ModelCall = ModelCall(attempt: nat, token: nat, id: nat, limits: Limits, answer: Answer, billed: nat)

  /** A call whose reservation was granted, and how many events of its trace have happened. */
  datatype Client = Client(call: ModelCall, done: nat)

  datatype World = World(core: Sys, clients: seq<Client>)

  datatype Move =
    | Other(op: Op)           // any transaction but those of the ledger
    | Begin(call: ModelCall)  // asks for the reservation
    | Go(k: nat)              // the next event of the k-th granted call
    | Redeliver(k: nat)       // its settlement arrives again

  function Trace(call: ModelCall): seq<CallEvent> {
    CallTrace(call.limits, Grant(None), call.answer, None)
  }

  function Bound(call: ModelCall): nat { if Bounded(call.limits) then call.limits.input + call.limits.output else 0 }

  /** What the provider has billed for this call so far. */
  function Spent(c: Client): nat { if c.done >= 2 then c.call.billed else 0 }

  /** The transaction that a move runs, if any. */
  function OpOf(clients: seq<Client>, move: Move): Op {
    match move
    case Other(op) => if op.ReserveCall? || op.SettleUsage? then Advance(0) else op
    case Begin(call) =>
      if Bounded(call.limits) then ReserveCall(call.attempt, call.token, call.id, Bound(call)) else Advance(0)
    case Go(k) =>
      if k < |clients| && clients[k].done < |Trace(clients[k].call)| && Trace(clients[k].call)[clients[k].done].Settle?
      then SettleUsage(clients[k].call.id, Trace(clients[k].call)[clients[k].done].used)
      else Advance(0)
    case Redeliver(k) =>
      if k < |clients| && clients[k].done >= 3
      then SettleUsage(clients[k].call.id, Reported(clients[k].call.answer))
      else Advance(0)
  }

  /** The calls after a move; a refused reservation ends its call. */
  function ClientsAfter(d: Db, now: int, clients: seq<Client>, move: Move): seq<Client> {
    match move
    case Begin(call) =>
      if Bounded(call.limits) && MayReserve(d, now, call.attempt, call.token, call.id, Bound(call))
      then clients + [Client(call, 1)]
      else clients
    case Go(k) =>
      if k < |clients| && clients[k].done < |Trace(clients[k].call)|
      then clients[k := clients[k].(done := clients[k].done + 1)]
      else clients
    case _ => clients
  }

  function StepWorld(w: World, move: Move): World {
    World(Next(w.core, OpOf(w.clients, move)), ClientsAfter(w.core.d, w.core.now, w.clients, move))
  }

  function RunWorld(w: World, moves: seq<Move>): World
    decreases |moves|
  {
    if moves == [] then w else RunWorld(StepWorld(w, moves[0]), moves[1..])
  }

  /** If the provider reports a usage at all, it is what it bills. */
  predicate Truthful(call: ModelCall) {
    UsageKnown(call.answer) ==> call.answer.usage.value == call.billed
  }

  predicate AllTruthful(moves: seq<Move>) {
    forall i :: 0 <= i < |moves| && moves[i].Begin? ==> Truthful(moves[i].call)
  }

  function TotalSpent(clients: seq<Client>): nat {
    if clients == [] then 0 else TotalSpent(clients[..|clients| - 1]) + Spent(clients[|clients| - 1])
  }

  /** What was billed beyond the declared bounds. */
  function Beyond(clients: seq<Client>): nat {
    if clients == [] then 0
    else
      var c := clients[|clients| - 1];
      Beyond(clients[..|clients| - 1]) + (if Spent(c) > Bound(c.call) then Spent(c) - Bound(c.call) else 0)
  }

  // ---- The ledger mirrors the calls ----

  /** The ledger row of a granted call: it holds its bound until its usage is known. */
  ghost predicate Mirrors(c: Client, row: Call) {
    && row.id == c.call.id && row.reserved == Bound(c.call)
    && Bounded(c.call.limits) && 1 <= c.done <= 3 && Truthful(c.call)
    && (row.used.Some? <==> c.done == 3 && UsageKnown(c.call.answer))
    && (row.used.Some? ==> row.used == Some(c.call.billed))
  }

  ghost predicate Mirrored(clients: seq<Client>, calls: seq<Call>) {
    && |clients| == |calls|
    && (forall k :: 0 <= k < |clients| ==> Mirrors(clients[k], calls[k]))
  }

  ghost predicate WorldOk(w: World) { Inv(w.core) && Mirrored(w.clients, w.core.d.calls) }

  lemma OtherKeepsCalls(s: Sys, op: Op)
    requires Inv(s) && !op.ReserveCall? && !op.SettleUsage?
    ensures Next(s, op).d.calls == s.d.calls
  {
    if op.Fail? || op.Expire? {
      FailureKeepsLedgerRows(s.d, s.now, s.ttl, op);
    } else {
      OtherKeepsLedgerRows(s.d, s.now, s.ttl, op);
    }
  }

  /** The row of a known id is the only one with it. */
  lemma RowOfClient(calls: seq<Call>, k: nat)
    requires k < |calls| && (forall i, j :: 0 <= i < j < |calls| ==> calls[i].id != calls[j].id)
    ensures FindCall(calls, calls[k].id) == Some(k)
  {
    var at := FindCall(calls, calls[k].id);
    assert at.Some? && !(at.value < k) && !(k < at.value);
  }

  /** Applying the settlement of call `k`, for the first time or again. */
  lemma SettlementMirrors(d: Db, clients: seq<Client>, k: nat)
    requires LedgerOk(d) && Mirrored(clients, d.calls) && k < |clients| && clients[k].done >= 2
    ensures var c := clients[k].(done := 3);
      Mirrored(clients[k := c], SettleTx(d, c.call.id, Reported(c.call.answer)).calls)
  {
    assert Mirrors(clients[k], d.calls[k]);
    RowOfClient(d.calls, k);
  }

  /** The next event of a granted call is its one invocation or its one settlement. */
  lemma GoMirrors(d: Db, now: int, ttl: nat, clients: seq<Client>, k: nat)
    requires LedgerOk(d) && Mirrored(clients, d.calls) && k < |clients|
    ensures Mirrored(ClientsAfter(d, now, clients, Go(k)), Apply(d, now, ttl, OpOf(clients, Go(k))).calls)
  {
    var c := clients[k];
    assert Mirrors(c, d.calls[k]);
    if c.done < |Trace(c.call)| {
      CallsAreBracketed(c.call.limits, Grant(None), c.call.answer, None, c.done);
      if Trace(c.call)[c.done].Settle? {
        SettlementMirrors(d, clients, k);
      }
    }
  }

  lemma MoveMirrors(d: Db, now: int, ttl: nat, clients: seq<Client>, move: Move)
    requires LedgerOk(d) && Mirrored(clients, d.calls)
    requires move.Begin? ==> Truthful(move.call)
    requires move.Other? ==> Apply(d, now, ttl, OpOf(clients, move)).calls == d.calls
    ensures Mirrored(ClientsAfter(d, now, clients, move), Apply(d, now, ttl, OpOf(clients, move)).calls)
  {
    match move
    case Other(_) =>
    case Begin(_) =>
    case Go(k) =>
      if k < |clients| { GoMirrors(d, now, ttl, clients, k); }
    case Redeliver(k) =>
      if k < |clients| && clients[k].done >= 3 {
        assert Mirrors(clients[k], d.calls[k]);
        assert clients[k := clients[k].(done := 3)] == clients;
        SettlementMirrors(d, clients, k);
      }
  }

  lemma MoveKeepsWorld(w: World, move: Move)
    requires WorldOk(w) && (move.Begin? ==> Truthful(move.call))
    ensures WorldOk(StepWorld(w, move))
  {
    if move.Other? {
      OtherKeepsCalls(w.core, OpOf(w.clients, move));
    }
    MoveMirrors(w.core.d, w.core.now, w.core.ttl, w.clients, move);
    StepKeepsInv(w.core, OpOf(w.clients, move));
  }

  lemma {:induction false} RunKeepsWorld(w: World, moves: seq<Move>)
    requires WorldOk(w) && AllTruthful(moves)
    ensures WorldOk(RunWorld(w, moves))
    ensures RunWorld(w, moves).core.d.run.cfg == w.core.d.run.cfg
    decreases |moves|
  {
    if moves != [] {
      MoveKeepsWorld(w, moves[0]);
      ConfigNeverChanges(w.core.d, w.core.now, w.core.ttl, OpOf(w.clients, moves[0]));
      assert AllTruthful(moves[1..]) by {
        forall i | 0 <= i < |moves[1..]| && moves[1..][i].Begin? ensures Truthful(moves[1..][i].call) {
          assert moves[1..][i] == moves[i + 1];
        }
      }
      RunKeepsWorld(StepWorld(w, moves[0]), moves[1..]);
    }
  }

  /** Call by call: what was billed within the bound is covered by what the row holds within it. */
  lemma {:induction false} LedgerCoversSpending(clients: seq<Client>, calls: seq<Call>)
    requires Mirrored(clients, calls)
    ensures TotalSpent(clients) - Beyond(clients) <= LedgerTotal(calls) - Overrun(calls)
    ensures (forall k :: 0 <= k < |clients| ==> Spent(clients[k]) <= Bound(clients[k].call))
              ==> TotalSpent(clients) <= LedgerTotal(calls)
  {
    if clients != [] {
      var n := |clients| - 1;
      LedgerCoversSpending(clients[..n], calls[..n]);
      assert Mirrors(clients[n], calls[n]);
      if forall k :: 0 <= k < |clients| ==> Spent(clients[k]) <= Bound(clients[k].call) {
        forall k | 0 <= k < n ensures Spent(clients[..n][k]) <= Bound(clients[..n][k].call) {
          assert clients[..n][k] == clients[k];
        }
      }
    }
  }

  lemma {:induction false} NothingBeyond(clients: seq<Client>)
    requires forall k :: 0 <= k < |clients| ==> Spent(clients[k]) <= Bound(clients[k].call)
    ensures Beyond(clients) == 0
  {
    if clients != [] {
      NothingBeyond(clients[..|clients| - 1]);
    }
  }

  /**
   Token safety.  Whatever happens between and after the events of any number of model calls, the
   tokens billed exceed the budget by no more than what calls used beyond their declared bounds.  If
   every call stays within its bound, spending stays within the ledger and the ledger in the budget.
   */
  lemma TokensAreSafe(cfg: Config, now: int, ttl: nat, moves: seq<Move>)
    requires ValidConfig(cfg) && AllTruthful(moves)
    ensures var w := RunWorld(World(Start(cfg, now, ttl), []), moves);
      && TotalSpent(w.clients) <= cfg.budgetTokens + Beyond(w.clients)
      && ((forall k :: 0 <= k < |w.clients| ==> Spent(w.clients[k]) <= Bound(w.clients[k].call))
            ==> TotalSpent(w.clients) <= LedgerTotal(w.core.d.calls) <= cfg.budgetTokens)
  {
    CreationHolds(cfg, now, ttl);
    var w := RunWorld(World(Start(cfg, now, ttl), []), moves);
    RunKeepsWorld(World(Start(cfg, now, ttl), []), moves);
    LedgerCoversSpending(w.clients, w.core.d.calls);
    if forall k :: 0 <= k < |w.clients| ==> Spent(w.clients[k]) <= Bound(w.clients[k].call) {
      NoRowOverruns(w);
    }
  }

  lemma NoRowOverruns(w: World)
    requires WorldOk(w)
    requires forall k :: 0 <= k < |w.clients| ==> Spent(w.clients[k]) <= Bound(w.clients[k].call)
    ensures LedgerTotal(w.core.d.calls) <= w.core.d.run.cfg.budgetTokens
  {
    forall k | 0 <= k < |w.core.d.calls| ensures Charge(w.core.d.calls[k]) <= w.core.d.calls[k].reserved {
      assert Mirrors(w.clients[k], w.core.d.calls[k]);
    }
    NoOverrun(w.core.d.calls);
  }

  lemma {:induction false} LedgerIsSpending(clients: seq<Client>, calls: seq<Call>)
    requires Mirrored(clients, calls)
    requires forall k :: 0 <= k < |clients| ==> clients[k].done == 3 && UsageKnown(clients[k].call.answer)
    ensures LedgerTotal(calls) == TotalSpent(clients)
  {
    if clients != [] {
      var n := |clients| - 1;
      assert forall k :: 0 <= k < n ==> clients[..n][k] == clients[k];
      LedgerIsSpending(clients[..n], calls[..n]);
      assert Mirrors(clients[n], calls[n]);
    }
  }

  /**
   Exact accounts.  Once every granted call has been settled with a usage that is known, the ledger
   holds exactly what was billed, and so does the used-tokens column of a snapshot run.
   */
  lemma AccountsAreExact(cfg: Config, now: int, ttl: nat, moves: seq<Move>)
    requires ValidConfig(cfg) && AllTruthful(moves)
    ensures var w := RunWorld(World(Start(cfg, now, ttl), []), moves);
      (forall k :: 0 <= k < |w.clients| ==> w.clients[k].done == 3 && UsageKnown(w.clients[k].call.answer)) ==>
        && LedgerTotal(w.core.d.calls) == TotalSpent(w.clients)
        && (cfg.snapshot ==> w.core.d.run.usedTokens == TotalSpent(w.clients))
  {
    CreationHolds(cfg, now, ttl);
    var w := RunWorld(World(Start(cfg, now, ttl), []), moves);
    RunKeepsWorld(World(Start(cfg, now, ttl), []), moves);
    if forall k :: 0 <= k < |w.clients| ==> w.clients[k].done == 3 && UsageKnown(w.clients[k].call.answer) {
      LedgerIsSpending(w.clients, w.core.d.calls);
      forall k | 0 <= k < |w.core.d.calls| ensures w.core.d.calls[k].status.Settled? {
        assert Mirrors(w.clients[k], w.core.d.calls[k]);
      }
    }
  }
}
