/** The toolset and the tools loop as they run, each against its meaning in ToolBatch. */
module Toolset {
  import opened Wrappers
  import B = ToolBatch

  datatype Reply = Result(text: string) | Cached(digest: string) | Error

  /** A patch whose id is known gets the result that is known. */
  predicate FromCache<P>(known: map<B.Key, string>, call: B.ToolCall<P>, reply: Reply) {
    call.ApplyPatch? && call.id != "" && B.Stable(call.id) in known ==> reply == Cached(known[B.Stable(call.id)])
  }

  class Sandbox<!W, !P> {
    const git: B.Git<W, P>
    const base: W
    const attempt: nat
    var workspace: W
    var completed: map<B.Key, string>
    var counter: nat
    var checkpoints: seq<B.Saved<P>>  // what was reported to the control plane

    ghost function State(): B.Tools<W>
      reads this
    {
      B.Tools(workspace, completed, attempt, counter)
    }

    constructor (git: B.Git<W, P>, base: W, attempt: nat)
      ensures this.git == git && this.base == base && checkpoints == []
      ensures State() == B.Tools(base, map[], attempt, 0)
    {
      this.git, this.base, this.attempt := git, base, attempt;
      workspace, completed, counter, checkpoints := base, map[], 0, [];
    }

    /** A fresh sandbox takes over the saved difference and the completed calls. */
    method RestoreFromCheckpoint(saved: B.Saved<P>) returns (ok: bool)
      requires workspace == base && counter == 0
      modifies `workspace, `completed
      ensures ok <==> B.Restore(git, base, saved, attempt).Some?
      ensures ok ==> State() == B.Restore(git, base, saved, attempt).value
    {
      if !git.blank(saved.patch) {
        if !git.applies(workspace, saved.patch) { return false; }
        workspace := git.apply(workspace, saved.patch);
      }
      completed := saved.completed;
      return true;
    }

    method NextId() returns (key: B.Key)
      modifies `counter
      ensures counter == old(counter) + 1 && key == B.Fresh(attempt, counter)
    {
      counter := counter + 1;
      key := B.Fresh(attempt, counter);
    }

    /** First whether the patch is there already, then whether it applies. */
    method ApplyPatch(patch: P) returns (result: Option<string>)
      modifies `workspace
      ensures match B.Perform(git, old(workspace), B.ApplyPatch("", patch))
              case None => result.None? && workspace == old(workspace)
              case Some((w, text)) => result == Some(text) && workspace == w
    {
      if git.reverses(workspace, patch) { return Some("[skipped]"); }
      if !git.applies(workspace, patch) { return None; }
      workspace := git.apply(workspace, patch);
      return Some("[ok]");
    }

    method Dispatch(call: B.ToolCall<P>) returns (reply: Reply)
      modifies `workspace, `completed, `counter
      ensures State() == B.Dispatch(git, old(State()), call)
      // A patch with an id of the model's is looked up under that id, everything else under a new one.
      ensures call.ApplyPatch? && call.id != "" ==>
        && counter == old(counter)
        && (reply.Cached? <==> B.Stable(call.id) in old(completed))
        && (reply.Cached? ==> reply.digest == old(completed)[B.Stable(call.id)])
        && (reply.Result? ==> completed == old(completed)[B.Stable(call.id) := reply.text])
      ensures !(call.ApplyPatch? && call.id != "") ==>
        counter == old(counter) + 1 && (reply.Cached? <==> B.Fresh(attempt, counter) in old(completed))
      ensures reply.Cached? <==> B.KeyOf(old(State()), call) in old(completed)
      ensures reply.Cached? ==> reply.digest == old(completed)[B.KeyOf(old(State()), call)]
      ensures reply.Error? <==>
        B.KeyOf(old(State()), call) !in old(completed) && B.Perform(git, old(workspace), call).None?
      ensures reply.Result? ==> completed == old(completed)[B.KeyOf(old(State()), call) := reply.text]
      ensures !reply.Result? ==> completed == old(completed) && workspace == old(workspace)
    {
      var key;
      if call.ApplyPatch? && call.id != "" {
        key := B.Stable(call.id);
      } else {
        key := NextId();
      }
      if key in completed { return Cached(completed[key]); }
      var result;
      match call {
        case ApplyPatch(_, patch) => result := ApplyPatch(patch);
        case Other(outcome) => result := outcome;
      }
      if result.None? { return Error; }
      completed := completed[key := result.value];
      return Result(result.value);
    }

    method OnCheckpoint()
      modifies `checkpoints
      ensures checkpoints == old(checkpoints) + [B.Save(git, base, State())]
    {
      checkpoints := checkpoints + [B.Saved(git.diff(base, workspace), completed)];
    }

    /** Runs a batch and reports a checkpoint after every call, so a crash finds one for each prefix. */
    method ToolsNode(batch: seq<B.ToolCall<P>>) returns (outputs: seq<Reply>)
      modifies `workspace, `completed, `counter, `checkpoints
      ensures State() == B.Run(git, old(State()), batch) && |outputs| == |batch|
      ensures checkpoints == old(checkpoints) + B.Checkpoints(git, base, old(State()), batch)
    {
      outputs := [];
      for k := 0 to |batch|
        invariant State() == B.Run(git, old(State()), batch[..k]) && |outputs| == k
        invariant checkpoints == old(checkpoints) + B.Checkpoints(git, base, old(State()), batch[..k])
      {
        B.OneMore(git, old(State()), batch, k);
        var output := Dispatch(batch[k]);
        outputs := outputs + [output];
        OnCheckpoint();
        assert batch[..k + 1][..k] == batch[..k];
      }
      assert batch[..|batch|] == batch;
    }

    /** After a restart the whole batch is sent through the cache again, without checkpoints. */
    method Replay(batch: seq<B.ToolCall<P>>) returns (inject: seq<Reply>)
      modifies `workspace, `completed, `counter
      ensures State() == B.Run(git, old(State()), batch) && |inject| == |batch|
      ensures forall i :: 0 <= i < |batch| ==> FromCache(old(completed), batch[i], inject[i])
    {
      ghost var before := State();
      inject := [];
      for k := 0 to |batch|
        invariant State() == B.Run(git, old(State()), batch[..k]) && |inject| == k
        invariant forall i :: 0 <= i < k ==> FromCache(before.completed, batch[i], inject[i])
      {
        B.OneMore(git, old(State()), batch, k);
        if batch[k].ApplyPatch? && B.Stable(batch[k].id) in before.completed {
          B.RunKeepsResults(git, before, batch[..k], B.Stable(batch[k].id));
        }
        var output := Dispatch(batch[k]);
        assert FromCache(before.completed, batch[k], output);
        inject := inject + [output];
      }
      assert batch[..|batch|] == batch;
    }
  }
}
