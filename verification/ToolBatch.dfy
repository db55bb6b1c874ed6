/**
 A batch of tool calls, the checkpoint after each of them, and its replay after a crash.

 The workspace and its patches belong to Git: all that is asked of it is that a captured difference,
 applied to the base it was taken against, gives the workspace back.
 */
module ToolBatch {
  import opened Wrappers

  datatype Git<!W, !P> = Git(
    applies: (W, P) -> bool,   // git apply --check
    apply: (W, P) -> W,        // git apply, when it applies
    reverses: (W, P) -> bool,  // git apply --check --reverse
    diff: (W, W) -> P,         // the captured difference of a workspace from its base
    blank: P -> bool)

  ghost predicate DiffRestores<W(!new), P(!new)>(git: Git<W, P>) {
    forall base: W, w: W ::
      if git.blank(git.diff(base, w)) then w == base
      else git.applies(base, git.diff(base, w)) && git.apply(base, git.diff(base, w)) == w
  }

  /** A patch that was just applied can be taken back. */
  ghost predicate ApplyReverses<W(!new), P(!new)>(git: Git<W, P>) {
    forall w: W, p: P :: git.applies(w, p) ==> git.reverses(git.apply(w, p), p)
  }

  /** Only `apply_patch` passes on the model's call id; of the others only the outcome matters here. */
  datatype ToolCall<P> =
    | ApplyPatch(id: string, patch: P)
    | Other(outcome: Option<string>)  // None if the tool raised

  /** Ids made up by the toolset carry the attempt and a counter. */
  datatype Key = Fresh(attempt: nat, counter: nat) | Stable(id: string)

  datatype Tools<W> = Tools(workspace: W, completed: map<Key, string>, attempt: nat, counter: nat)

  function KeyOf<W, P>(t: Tools<W>, call: ToolCall<P>): Key {
    if call.ApplyPatch? && call.id != "" then Stable(call.id) else Fresh(t.attempt, t.counter + 1)
  }

  /** A patch that the model sent under an id of its own. */
  predicate Named<P>(call: ToolCall<P>) { call.ApplyPatch? && call.id != "" }

  /** The patch would be refused, or is found to be there already. */
  predicate Inert<W, P>(git: Git<W, P>, w: W, patch: P) { git.reverses(w, patch) || !git.applies(w, patch) }

  /** The tool itself: the new workspace and the result, or None if it raises. */
  function Perform<W, P>(git: Git<W, P>, w: W, call: ToolCall<P>): Option<(W, string)> {
    match call
    case ApplyPatch(_, patch) =>
      if git.reverses(w, patch) then Some((w, "[skipped]"))
      else if git.applies(w, patch) then Some((git.apply(w, patch), "[ok]"))
      else None
    case Other(outcome) => if outcome.None? then None else Some((w, outcome.value))
  }

  /** One call: a completed id is answered from the cache, a call that raises is not recorded. */
  function Dispatch<W, P>(git: Git<W, P>, t: Tools<W>, call: ToolCall<P>): Tools<W> {
    var key := KeyOf(t, call);
    var t1 := if key.Fresh? then t.(counter := t.counter + 1) else t;
    if key in t.completed then t1
    else
      match Perform(git, t.workspace, call)
      case None => t1
      case Some((w, result)) => t1.(workspace := w, completed := t.completed[key := result])
  }

  /** This call really runs `git apply`. */
  predicate TakesEffect<W, P>(git: Git<W, P>, t: Tools<W>, call: ToolCall<P>) {
    call.ApplyPatch? && KeyOf(t, call) !in t.completed && !Inert(git, t.workspace, call.patch)
  }

  function Run<W, P>(git: Git<W, P>, t: Tools<W>, batch: seq<ToolCall<P>>): Tools<W> {
    if batch == [] then t
    else Dispatch(git, Run(git, t, batch[..|batch| - 1]), batch[|batch| - 1])
  }

  /** The calls of a batch that really ran `git apply`, in order. */
  function Effects<W, P>(git: Git<W, P>, t: Tools<W>, batch: seq<ToolCall<P>>): seq<nat> {
    if batch == [] then []
    else
      var n := |batch| - 1;
      Effects(git, t, batch[..n]) + (if TakesEffect(git, Run(git, t, batch[..n]), batch[n]) then [n] else [])
  }

  function From(indices: seq<nat>, j: nat): seq<nat> {
    if indices == [] then []
    else
      var n := |indices| - 1;
      From(indices[..n], j) + (if indices[n] >= j then [indices[n]] else [])
  }

  /**
   The reverse check makes a patch idempotent across ids: sent again right after a call that was not
   answered from the cache, under whatever id, it does not run `git apply` a second time.
   */
  lemma PatchTwiceIsOnce<W(!new), P(!new)>(git: Git<W, P>, t: Tools<W>, first: string, second: string, patch: P)
    requires ApplyReverses(git) && KeyOf(t, ApplyPatch(first, patch)) !in t.completed
    ensures !TakesEffect(git, Dispatch(git, t, ApplyPatch(first, patch)), ApplyPatch(second, patch))
  {
    if git.applies(t.workspace, patch) {
      assert git.reverses(git.apply(t.workspace, patch), patch);
    }
  }

  // ---- Checkpoint and restart ----

  datatype Saved<P> = Saved(patch: P, completed: map<Key, string>)

  function Save<W, P>(git: Git<W, P>, base: W, t: Tools<W>): Saved<P> {
    Saved(git.diff(base, t.workspace), t.completed)
  }

  /** What the tools loop saves: one checkpoint after every call, whether it raised or not. */
  function Checkpoints<W, P>(git: Git<W, P>, base: W, t: Tools<W>, batch: seq<ToolCall<P>>): (saved: seq<Saved<P>>)
    ensures |saved| == |batch|
  {
    if batch == [] then []
    else Checkpoints(git, base, t, batch[..|batch| - 1]) + [Save(git, base, Run(git, t, batch))]
  }

  /** A new sandbox at the base commit, with the saved difference; None if Git refuses it. */
  function Restore<W, P>(git: Git<W, P>, base: W, saved: Saved<P>, attempt: nat): Option<Tools<W>> {
    if git.blank(saved.patch) then Some(Tools(base, saved.completed, attempt, 0))
    else if git.applies(base, saved.patch) then Some(Tools(git.apply(base, saved.patch), saved.completed, attempt, 0))
    else None
  }

  /** Made-up ids are from earlier attempts, or from this one up to the counter. */
  predicate Dated<W>(t: Tools<W>) {
    forall key :: key in t.completed && key.Fresh? ==>
      key.attempt < t.attempt || (key.attempt == t.attempt && key.counter <= t.counter)
  }

  predicate DistinctIds<P>(batch: seq<ToolCall<P>>) {
    forall a, b :: 0 <= a < b < |batch| && Named(batch[a]) && Named(batch[b]) ==> batch[a].id != batch[b].id
  }

  /** The same calls; what tools other than `apply_patch` return may differ. */
  predicate SameCalls<P(==)>(batch: seq<ToolCall<P>>, again: seq<ToolCall<P>>) {
    && |batch| == |again|
    && (forall i :: 0 <= i < |batch| ==> batch[i] == again[i] || (batch[i].Other? && again[i].Other?))
  }

  /** The checkpoint holds the result of this call. */
  predicate Remembered<P>(completed: map<Key, string>, call: ToolCall<P>) {
    Named(call) && Stable(call.id) in completed
  }

  /** Every patch that the checkpoint does not remember still has no effect on its workspace. */
  predicate StillInert<W, P>(git: Git<W, P>, w: W, completed: map<Key, string>, prefix: seq<ToolCall<P>>) {
    forall i :: 0 <= i < |prefix| && prefix[i].ApplyPatch? && !Remembered(completed, prefix[i])
      ==> Inert(git, w, prefix[i].patch)
  }

  // ---- What the first run says about a call ----

  /** Git can neither take the patch back nor apply it, so the tool raises. */
  predicate Refused<W, P>(git: Git<W, P>, w: W, patch: P) { !git.reverses(w, patch) && !git.applies(w, patch) }

  /**
   Call `i` of the first run has given no result that could be found again: it raised, and its id was
   not known from before the batch; or the model sent no id.
   */
  predicate LeftNoResult<W, P>(git: Git<W, P>, t: Tools<W>, batch: seq<ToolCall<P>>, i: nat)
    requires i < |batch|
  {
    && batch[i].ApplyPatch?
    && (batch[i].id == ""
        || (Stable(batch[i].id) !in t.completed && Refused(git, Run(git, t, batch[..i]).workspace, batch[i].patch)))
  }

  /** No patch without a result from the first `j` calls has become applicable by then. */
  predicate QuietPrefix<W, P>(git: Git<W, P>, t: Tools<W>, batch: seq<ToolCall<P>>, j: nat)
    requires j <= |batch|
  {
    forall i :: 0 <= i < j && LeftNoResult(git, t, batch, i) ==>
      !git.applies(Run(git, t, batch[..j]).workspace, batch[i].patch)
      || git.reverses(Run(git, t, batch[..j]).workspace, batch[i].patch)
  }

  /** Among the first `k` calls an id is completed by the call that carries it, unless that raised. */
  lemma {:induction false} CompletedByItsCall<W, P>(git: Git<W, P>, t: Tools<W>, batch: seq<ToolCall<P>>, i: nat, k: nat)
    requires DistinctIds(batch) && i < |batch| && k <= |batch| && Named(batch[i])
    ensures Stable(batch[i].id) in Run(git, t, batch[..k]).completed
       <==> Stable(batch[i].id) in t.completed
            || (i < k && !Refused(git, Run(git, t, batch[..i]).workspace, batch[i].patch))
    decreases k
  {
    if k > 0 {
      var m := k - 1;
      CompletedByItsCall(git, t, batch, i, m);
      assert batch[..k][..m] == batch[..m];
      assert Run(git, t, batch[..k]) == Dispatch(git, Run(git, t, batch[..m]), batch[m]);
      if m != i && Named(batch[m]) {
        assert batch[m].id != batch[i].id;
      }
    }
  }

  /** The checkpoint remembers exactly the named calls that gave a result. */
  lemma RememberedByResult<W, P>(git: Git<W, P>, t: Tools<W>, batch: seq<ToolCall<P>>, i: nat, j: nat)
    requires DistinctIds(batch) && i < j <= |batch| && batch[i].ApplyPatch?
    ensures Remembered(Run(git, t, batch[..j]).completed, batch[i]) <==> !LeftNoResult(git, t, batch, i)
  {
    if batch[i].id != "" {
      CompletedByItsCall(git, t, batch, i, j);
    }
  }

  lemma QuietIsInert<W, P>(git: Git<W, P>, t: Tools<W>, batch: seq<ToolCall<P>>, j: nat)
    requires DistinctIds(batch) && j <= |batch|
    ensures var at := Run(git, t, batch[..j]);
      QuietPrefix(git, t, batch, j) <==> StillInert(git, at.workspace, at.completed, batch[..j])
  {
    var at := Run(git, t, batch[..j]);
    forall i | 0 <= i < j && batch[i].ApplyPatch?
      ensures LeftNoResult(git, t, batch, i) <==> !Remembered(at.completed, batch[..j][i])
    {
      RememberedByResult(git, t, batch, i, j);
    }
    if StillInert(git, at.workspace, at.completed, batch[..j]) {
      forall i | 0 <= i < j && LeftNoResult(git, t, batch, i) ensures Inert(git, at.workspace, batch[i].patch) {
        assert batch[..j][i] == batch[i];
      }
    }
    if QuietPrefix(git, t, batch, j) {
      forall i | 0 <= i < j && batch[..j][i].ApplyPatch? && !Remembered(at.completed, batch[..j][i])
        ensures Inert(git, at.workspace, batch[..j][i].patch)
      {
        assert LeftNoResult(git, t, batch, i);
      }
    }
  }

  lemma {:induction false} RunStaysDated<W, P>(git: Git<W, P>, t: Tools<W>, batch: seq<ToolCall<P>>)
    requires Dated(t)
    ensures Dated(Run(git, t, batch)) && Run(git, t, batch).attempt == t.attempt
    ensures forall key :: key in t.completed ==> key in Run(git, t, batch).completed
  {
    if batch != [] {
      RunStaysDated(git, t, batch[..|batch| - 1]);
    }
  }

  predicate AllBelow(indices: seq<nat>, n: nat) { forall i :: 0 <= i < |indices| ==> indices[i] < n }

  lemma {:induction false} EffectsInRange<W, P>(git: Git<W, P>, t: Tools<W>, batch: seq<ToolCall<P>>)
    ensures AllBelow(Effects(git, t, batch), |batch|)
  {
    if batch != [] {
      EffectsInRange(git, t, batch[..|batch| - 1]);
    }
  }

  lemma {:induction false} EffectsGrow<W, P>(git: Git<W, P>, t: Tools<W>, batch: seq<ToolCall<P>>, k: nat, x: nat)
    requires k <= |batch| && x in Effects(git, t, batch[..k])
    ensures x in Effects(git, t, batch)
    decreases |batch|
  {
    if k < |batch| {
      var n := |batch| - 1;
      assert batch[..n][..k] == batch[..k];
      EffectsGrow(git, t, batch[..n], k, x);
    } else {
      assert batch[..k] == batch;
    }
  }

  lemma {:induction false} FromOnlyLater(indices: seq<nat>, j: nat)
    ensures forall x :: x in From(indices, j) ==> x >= j
  {
    if indices != [] {
      FromOnlyLater(indices[..|indices| - 1], j);
    }
  }

  lemma {:induction false} FromNothing(indices: seq<nat>, j: nat)
    requires AllBelow(indices, j)
    ensures From(indices, j) == []
  {
    if indices != [] {
      FromNothing(indices[..|indices| - 1], j);
    }
  }

  lemma FromOfMore(indices: seq<nat>, took: bool, x: nat, j: nat)
    requires x >= j
    ensures From(indices + (if took then [x] else []), j) == From(indices, j) + (if took then [x] else [])
  {
    if took {
      assert (indices + [x])[..|indices|] == indices;
    } else {
      assert indices + [] == indices;
    }
  }

  /** While the prefix is quiet its replay leaves the workspace alone and completes none but its own ids. */
  lemma {:induction false} ReplayOfPrefix<W, P>(git: Git<W, P>, r: Tools<W>, prefix: seq<ToolCall<P>>)
    requires Dated(r) && StillInert(git, r.workspace, r.completed, prefix)
    ensures var e := Run(git, r, prefix);
      && e.workspace == r.workspace
      && Effects(git, r, prefix) == []
      && (forall id :: Stable(id) in e.completed ==>
            Stable(id) in r.completed || exists i :: 0 <= i < |prefix| && Named(prefix[i]) && prefix[i].id == id)
  {
    if prefix != [] {
      var n := |prefix| - 1;
      ReplayOfPrefix(git, r, prefix[..n]);
      RunStaysDated(git, r, prefix[..n]);
      var before := Run(git, r, prefix[..n]);
      var e := Run(git, r, prefix);
      assert prefix[n].ApplyPatch? && !Remembered(r.completed, prefix[n]) ==> Inert(git, r.workspace, prefix[n].patch);
      forall id | Stable(id) in e.completed && Stable(id) !in r.completed
        ensures exists i :: 0 <= i < |prefix| && Named(prefix[i]) && prefix[i].id == id
      {
        if Stable(id) in before.completed {
          var i :| 0 <= i < n && Named(prefix[..n][i]) && prefix[..n][i].id == id;
          assert prefix[i] == prefix[..n][i];
        } else {
          assert Named(prefix[n]) && prefix[n].id == id;
        }
      }
    }
  }

  lemma OneMore<W, P>(git: Git<W, P>, t: Tools<W>, batch: seq<ToolCall<P>>, k: nat)
    requires k < |batch|
    ensures Run(git, t, batch[..k + 1]) == Dispatch(git, Run(git, t, batch[..k]), batch[k])
    ensures Effects(git, t, batch[..k + 1])
         == Effects(git, t, batch[..k]) + (if TakesEffect(git, Run(git, t, batch[..k]), batch[k]) then [k] else [])
  {
    assert batch[..k + 1][..k] == batch[..k];
  }

  /** From two states that agree on the workspace and on the ids to come, a batch does the same. */
  predicate Agree<W(==), P>(a: Tools<W>, b: Tools<W>, rest: seq<ToolCall<P>>) {
    && a.workspace == b.workspace
    && (forall i :: 0 <= i < |rest| && Named(rest[i]) ==>
          (Stable(rest[i].id) in a.completed <==> Stable(rest[i].id) in b.completed))
  }

  lemma DispatchAgrees<W, P>(git: Git<W, P>, a: Tools<W>, b: Tools<W>, call: ToolCall<P>, again: ToolCall<P>,
                             rest: seq<ToolCall<P>>)
    requires Dated(a) && Dated(b) && Agree(a, b, [call] + rest) && DistinctIds([call] + rest)
    requires call == again || (call.Other? && again.Other?)
    ensures Agree(Dispatch(git, a, call), Dispatch(git, b, again), rest)
    ensures TakesEffect(git, a, call) <==> TakesEffect(git, b, again)
  {
    var all := [call] + rest;
    assert all[0] == call;
    forall i | 0 <= i < |rest| && Named(rest[i])
      ensures (Stable(rest[i].id) in Dispatch(git, a, call).completed)
         <==> (Stable(rest[i].id) in Dispatch(git, b, again).completed)
    {
      assert all[i + 1] == rest[i];
    }
  }

  lemma RestIsDistinct<P>(batch: seq<ToolCall<P>>, m: nat)
    requires m < |batch| && DistinctIds(batch)
    ensures [batch[m]] + batch[m + 1..] == batch[m..] && DistinctIds(batch[m..])
  {
    forall a, b | 0 <= a < b < |batch[m..]| && Named(batch[m..][a]) && Named(batch[m..][b])
      ensures batch[m..][a].id != batch[m..][b].id
    {
      assert batch[m + a].id != batch[m + b].id;
    }
  }

  lemma {:induction false} ReplayOfRest<W, P>(git: Git<W, P>, t: Tools<W>, r: Tools<W>,
                                               batch: seq<ToolCall<P>>, again: seq<ToolCall<P>>, j: nat, k: nat)
    requires Dated(t) && Dated(r) && SameCalls(batch, again) && DistinctIds(batch) && j <= k <= |batch|
    requires Agree(Run(git, t, batch[..j]), Run(git, r, again[..j]), batch[j..]) && Effects(git, r, again[..j]) == []
    ensures Agree(Run(git, t, batch[..k]), Run(git, r, again[..k]), batch[k..])
    ensures Effects(git, r, again[..k]) == From(Effects(git, t, batch[..k]), j)
    decreases k
  {
    if k == j {
      EffectsInRange(git, t, batch[..j]);
      FromNothing(Effects(git, t, batch[..j]), j);
    } else {
      var m := k - 1;
      ReplayOfRest(git, t, r, batch, again, j, m);
      OneMore(git, t, batch, m);
      OneMore(git, r, again, m);
      RestIsDistinct(batch, m);
      RunStaysDated(git, t, batch[..m]);
      RunStaysDated(git, r, again[..m]);
      DispatchAgrees(git, Run(git, t, batch[..m]), Run(git, r, again[..m]), batch[m], again[m], batch[k..]);
      FromOfMore(Effects(git, t, batch[..m]), TakesEffect(git, Run(git, t, batch[..m]), batch[m]), m, j);
    }
  }

  lemma RestoreGivesCheckpoint<W(!new), P(!new)>(git: Git<W, P>, base: W, t: Tools<W>, attempt: nat)
    requires DiffRestores(git)
    ensures Restore(git, base, Save(git, base, t), attempt) == Some(Tools(t.workspace, t.completed, attempt, 0))
  {
    assert git.blank(git.diff(base, t.workspace)) ==> t.workspace == base;
  }

  /** After a quiet prefix the replay goes on exactly as the first run did. */
  lemma QuietReplay<W, P>(git: Git<W, P>, t: Tools<W>, r: Tools<W>,
                          batch: seq<ToolCall<P>>, again: seq<ToolCall<P>>, j: nat)
    requires Dated(t) && Dated(r) && SameCalls(batch, again) && DistinctIds(batch) && j <= |batch|
    requires var at := Run(git, t, batch[..j]);
      && r.workspace == at.workspace && r.completed == at.completed
      && QuietPrefix(git, t, batch, j)
    ensures Run(git, r, again).workspace == Run(git, t, batch).workspace
    ensures Effects(git, r, again) == From(Effects(git, t, batch), j)
  {
    var at := Run(git, t, batch[..j]);
    QuietIsInert(git, t, batch, j);
    assert StillInert(git, r.workspace, r.completed, again[..j]) by {
      forall i | 0 <= i < j && again[i].ApplyPatch? && !Remembered(r.completed, again[i])
        ensures Inert(git, r.workspace, again[i].patch)
      {
        assert batch[..j][i] == again[i];
      }
    }
    ReplayOfPrefix(git, r, again[..j]);
    RunStaysDated(git, r, again[..j]);
    var e := Run(git, r, again[..j]);
    assert Agree(at, e, batch[j..]) by {
      forall i | 0 <= i < |batch[j..]| && Named(batch[j..][i])
        ensures Stable(batch[j..][i].id) in at.completed <==> Stable(batch[j..][i].id) in e.completed
      {
        assert batch[j..][i] == batch[j + i];
        forall a | 0 <= a < j && Named(again[..j][a]) ensures again[..j][a].id != batch[j + i].id {
          assert batch[a] == again[..j][a];
        }
      }
    }
    ReplayOfRest(git, t, r, batch, again, j, |batch|);
    assert batch[..|batch|] == batch && again[..|batch|] == again;
  }

  /** If the prefix is not quiet, its replay applies a patch for which the first run had no result. */
  lemma LoudReplay<W, P>(git: Git<W, P>, t: Tools<W>, r: Tools<W>,
                         batch: seq<ToolCall<P>>, again: seq<ToolCall<P>>, j: nat)
    requires Dated(r) && SameCalls(batch, again) && DistinctIds(batch) && j <= |batch|
    requires var at := Run(git, t, batch[..j]);
      r.workspace == at.workspace && r.completed == at.completed && !QuietPrefix(git, t, batch, j)
    ensures exists i :: 0 <= i < j && LeftNoResult(git, t, batch, i) && i in Effects(git, r, again)
  {
    QuietIsInert(git, t, batch, j);
    var k :| 0 <= k < j && batch[..j][k].ApplyPatch? && !Remembered(r.completed, batch[..j][k])
             && !Inert(git, r.workspace, batch[..j][k].patch);
    assert again[..j][k] == batch[..j][k];
    var i := LoudAgain(git, r, again, j);
    assert again[i] == batch[i];
    RememberedByResult(git, t, batch, i, j);
  }

  lemma LoudAgain<W, P>(git: Git<W, P>, r: Tools<W>, again: seq<ToolCall<P>>, j: nat) returns (i: nat)
    requires Dated(r) && DistinctIds(again) && j <= |again|
    requires !StillInert(git, r.workspace, r.completed, again[..j])
    ensures i < j && again[i].ApplyPatch? && !Remembered(r.completed, again[i]) && i in Effects(git, r, again)
  {
    i := FirstLoud(git, r, again[..j]);
    assert again[..j][..i] == again[..i];
    ReplayOfPrefix(git, r, again[..i]);
    RunStaysDated(git, r, again[..i]);
    var e := Run(git, r, again[..i]);
    assert KeyOf(e, again[i]) !in e.completed by {
      forall a | 0 <= a < i && Named(again[..i][a]) && Named(again[i]) ensures again[..i][a].id != again[i].id {
        assert again[..i][a] == again[a];
      }
    }
    OneMore(git, r, again, i);
    assert i in Effects(git, r, again[..i + 1]);
    EffectsGrow(git, r, again, i + 1, i);
  }

  lemma {:induction false} FirstLoud<W, P>(git: Git<W, P>, r: Tools<W>, prefix: seq<ToolCall<P>>) returns (i: nat)
    requires !StillInert(git, r.workspace, r.completed, prefix)
    ensures i < |prefix| && StillInert(git, r.workspace, r.completed, prefix[..i])
    ensures prefix[i].ApplyPatch? && !Remembered(r.completed, prefix[i]) && !Inert(git, r.workspace, prefix[i].patch)
  {
    i := 0;
    assert prefix[..|prefix|] == prefix;
    while !(prefix[i].ApplyPatch? && !Remembered(r.completed, prefix[i]) && !Inert(git, r.workspace, prefix[i].patch))
      invariant i < |prefix| && StillInert(git, r.workspace, r.completed, prefix[..i])
      decreases |prefix| - i
    {
      assert prefix[..i + 1] == prefix[..i] + [prefix[i]];
      i := i + 1;
    }
  }

  /** The j-th checkpoint of a batch holds the state after j calls. */
  lemma {:induction false} CheckpointOf<W, P>(git: Git<W, P>, base: W, t: Tools<W>, batch: seq<ToolCall<P>>, j: nat)
    requires 1 <= j <= |batch|
    ensures Checkpoints(git, base, t, batch)[j - 1] == Save(git, base, Run(git, t, batch[..j]))
    decreases |batch|
  {
    var n := |batch| - 1;
    if j <= n {
      assert batch[..n][..j] == batch[..j];
      CheckpointOf(git, base, t, batch[..n], j);
    } else {
      assert batch[..j] == batch;
    }
  }

  /**
   Crash recovery of a batch.  The worker dies when the first `j` checkpoints of the batch are stored,
   whatever it did after that; a later attempt restores the checkpoint and replays the whole batch.  The replay
   runs `git apply` for exactly the calls that the first run would still have applied if, and only
   if, no patch that failed before the checkpoint has become applicable in its workspace.  Then the
   workspace ends up as if nothing had happened, each patch having taken effect once.
   */
  lemma CrashRecovery<W(!new), P(!new)>(git: Git<W, P>, base: W, t: Tools<W>,
                                        batch: seq<ToolCall<P>>, again: seq<ToolCall<P>>, j: nat, attempt: nat)
    requires DiffRestores(git) && Dated(t) && t.attempt < attempt
    requires SameCalls(batch, again) && DistinctIds(batch) && j <= |batch|
    ensures var at := Run(git, t, batch[..j]);
      var quiet := QuietPrefix(git, t, batch, j);
      // With no call of the batch finished, the newest checkpoint is the one before it.
      var saved := if j == 0 then Save(git, base, t) else Checkpoints(git, base, t, batch)[j - 1];
      var restored := Restore(git, base, saved, attempt);
      && restored.Some?
      && ((Effects(git, restored.value, again) == From(Effects(git, t, batch), j)) <==> quiet)
      && (quiet ==> Run(git, restored.value, again).workspace == Run(git, t, batch).workspace)
  {
    var at := Run(git, t, batch[..j]);
    if j > 0 {
      CheckpointOf(git, base, t, batch, j);
    }
    RestoreGivesCheckpoint(git, base, at, attempt);
    RunStaysDated(git, t, batch[..j]);
    var r := Tools(at.workspace, at.completed, attempt, 0);
    if QuietPrefix(git, t, batch, j) {
      QuietReplay(git, t, r, batch, again, j);
    } else {
      LoudReplay(git, t, r, batch, again, j);
      FromOnlyLater(Effects(git, t, batch), j);
    }
  }

  // ---- Results are found again ----

  lemma {:induction false} RunKeepsResults<W, P>(git: Git<W, P>, t: Tools<W>, batch: seq<ToolCall<P>>, key: Key)
    requires key in t.completed
    ensures var e := Run(git, t, batch); key in e.completed && e.completed[key] == t.completed[key]
  {
    if batch != [] {
      RunKeepsResults(git, t, batch[..|batch| - 1], key);
    }
  }

  /**
   A named patch that gave a result in the first run, because it was applied, or found to be there, or
   known from before, is answered from the cache in the replay: with the same result, and without any
   effect, whatever the workspace looks like and even if the patch has become applicable.
   */
  lemma ResultsAreFoundAgain<W, P>(git: Git<W, P>, t: Tools<W>, r: Tools<W>,
                                   batch: seq<ToolCall<P>>, again: seq<ToolCall<P>>, i: nat, j: nat)
    requires SameCalls(batch, again) && DistinctIds(batch) && i < j <= |batch|
    requires batch[i].ApplyPatch? && batch[i].id != ""
    requires var w := Run(git, t, batch[..i]).workspace;
      Stable(batch[i].id) in t.completed || git.reverses(w, batch[i].patch) || git.applies(w, batch[i].patch)
    requires r.completed == Run(git, t, batch[..j]).completed
    ensures var e := Run(git, r, again[..i]);
      && Dispatch(git, e, again[i]) == e
      && Stable(batch[i].id) in r.completed && Stable(batch[i].id) in e.completed
      && e.completed[Stable(batch[i].id)] == r.completed[Stable(batch[i].id)]
  {
    assert batch[i] == again[i];
    KnownByThen(git, t, batch, i, j);
    RunKeepsResults(git, r, again[..i], Stable(batch[i].id));
    KnownDoesNothing(git, Run(git, r, again[..i]), batch[i]);
  }

  lemma KnownByThen<W, P>(git: Git<W, P>, t: Tools<W>, batch: seq<ToolCall<P>>, i: nat, j: nat)
    requires DistinctIds(batch) && i < j <= |batch| && Named(batch[i])
    ensures var w := Run(git, t, batch[..i]).workspace;
      (Stable(batch[i].id) in t.completed || git.reverses(w, batch[i].patch) || git.applies(w, batch[i].patch)) ==>
        Stable(batch[i].id) in Run(git, t, batch[..j]).completed
  {
    CompletedByItsCall(git, t, batch, i, j);
  }

  lemma KnownDoesNothing<W, P>(git: Git<W, P>, t: Tools<W>, call: ToolCall<P>)
    requires call.ApplyPatch? && call.id != "" && Stable(call.id) in t.completed
    ensures Dispatch(git, t, call) == t
  {
  }
}
