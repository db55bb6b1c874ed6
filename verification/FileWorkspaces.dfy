/** Workspaces as files with contents, patches as file replacements: Git's laws hold, and a crash can matter. */
module FileWorkspaces {
  import opened Wrappers
  import opened ToolBatch

  type Files = map<string, string>

  /** For every file it touches, what was there before and what is there after. */
  type Edits = map<string, (Option<string>, Option<string>)>

  function At(w: Files, file: string): Option<string> { if file in w then Some(w[file]) else None }

  predicate EditsFit(w: Files, p: Edits) { p != map[] && forall f :: f in p ==> At(w, f) == p[f].0 }

  predicate EditsThere(w: Files, p: Edits) { p != map[] && forall f :: f in p ==> At(w, f) == p[f].1 }

  function Edited(w: Files, p: Edits): Files {
    map f | f in w.Keys + p.Keys && (f in p ==> p[f].1.Some?) :: if f in p then p[f].1.value else w[f]
  }

  function Difference(base: Files, w: Files): Edits {
    map f | f in base.Keys + w.Keys && At(base, f) != At(w, f) :: (At(base, f), At(w, f))
  }

  function FileGit(): Git<Files, Edits> {
    Git((w, p) => EditsFit(w, p), (w, p) => Edited(w, p), (w, p) => EditsThere(w, p),
        (b, w) => Difference(b, w), p => p == map[])
  }

  lemma FileGitIsLawful()
    ensures DiffRestores(FileGit()) && ApplyReverses(FileGit())
  {
    forall base: Files, w: Files
      ensures Edited(base, Difference(base, w)) == w
      ensures Difference(base, w) == map[] ==> w == base
    {
      var e := Edited(base, Difference(base, w));
      forall f ensures At(e, f) == At(w, f) {
        if f in Difference(base, w) {
        } else if f in base.Keys + w.Keys {
          assert At(base, f) == At(w, f);
        }
      }
      assert forall f :: f in e <==> At(e, f).Some?;
      assert forall f :: f in w <==> At(w, f).Some?;
      assert forall f :: f in base <==> At(base, f).Some?;
      if Difference(base, w) == map[] {
        assert forall f :: f in base.Keys + w.Keys ==> At(base, f) == At(w, f);
      }
    }
  }

  const NOTES: string := "notes.txt"

  function EditNotes(): ToolCall<Edits> { ApplyPatch("a", map[NOTES := (Some("one"), Some("two"))]) }

  function CreateNotes(): ToolCall<Edits> { ApplyPatch("b", map[NOTES := (None, Some("one"))]) }

  function Batch(): seq<ToolCall<Edits>> { [EditNotes(), CreateNotes()] }

  lemma RunOfTwo(git: Git<Files, Edits>, t: Tools<Files>, a: ToolCall<Edits>, b: ToolCall<Edits>)
    ensures Run(git, t, [a, b]) == Dispatch(git, Dispatch(git, t, a), b)
  {
    assert [a, b][..1] == [a] && [a][..0] == [];
    assert Run(git, t, [a]) == Dispatch(git, t, a);
  }

  lemma FirstRun(t: Tools<Files>)
    requires t == Tools(map[], map[], 1, 0)
    ensures Run(FileGit(), t, Batch()) == Tools(map[NOTES := "one"], map[Stable("b") := "[ok]"], 1, 0)
  {
    RunOfTwo(FileGit(), t, EditNotes(), CreateNotes());
    assert NOTES in EditNotes().patch && NOTES in CreateNotes().patch;
    assert Edited(map[], CreateNotes().patch) == map[NOTES := "one"];
  }

  lemma SecondRun(r: Tools<Files>)
    requires r.workspace == map[NOTES := "one"] && r.completed == map[Stable("b") := "[ok]"]
    ensures Run(FileGit(), r, Batch()).workspace == map[NOTES := "two"]
  {
    RunOfTwo(FileGit(), r, EditNotes(), CreateNotes());
    assert At(r.workspace, NOTES) == Some("one") && NOTES in EditNotes().patch;
    assert Edited(r.workspace, EditNotes().patch) == map[NOTES := "two"];
  }

  /**
   A patch that fails is not remembered, so it comes back: an edit of a file that the next call
   creates is refused at first, and applied by the replay after a crash.
   */
  lemma FailedPatchComesBack(attempt: nat)
    requires attempt > 1
    ensures var t := Tools(map[], map[], 1, 0);
      var restored := Restore(FileGit(), map[], Checkpoints(FileGit(), map[], t, Batch())[1], attempt);
      && DiffRestores(FileGit()) && DistinctIds(Batch()) && Dated(t)
      && Run(FileGit(), t, Batch()).workspace == map[NOTES := "one"]
      && restored.Some?
      && Run(FileGit(), restored.value, Batch()).workspace == map[NOTES := "two"]
  {
    var t: Tools<Files> := Tools(map[], map[], 1, 0);
    FileGitIsLawful();
    FirstRun(t);
    assert Batch()[..2] == Batch();
    CheckpointOf(FileGit(), map[], t, Batch(), 2);
    RestoreGivesCheckpoint(FileGit(), map[], Run(FileGit(), t, Batch()), attempt);
    SecondRun(Tools(map[NOTES := "one"], map[Stable("b") := "[ok]"], attempt, 0));
  }
}
