/** Gates in a row: what is recorded when they are passed one after another up to the first that is not fine. */
module GateCourse {
  import opened Wrappers
  import opened Rows

  datatype Step = V1 | V2 | V3 | V4 | V5 | V6

  datatype StepResult = StepResult(step: Step, passed: bool, code: Option<FailureCode>)

  /** A gate is fine, at fault, or takes the sandbox down with it. */
  datatype Verdict = Fine | Fault(code: FailureCode) | Down

  datatype Judged = Judged(step: Step, verdict: Verdict)

  function ResultOf(gate: Judged): StepResult {
    StepResult(gate.step, gate.verdict.Fine?, if gate.verdict.Fault? then Some(gate.verdict.code) else None)
  }

  /** The results up to and with the first gate that is not fine; `down` if that gate lost the sandbox. */
  datatype Course = Course(results: seq<StepResult>, down: bool) {
    predicate Clear() { !down && AllPassed(results) }
  }

  predicate AllPassed(results: seq<StepResult>) { forall i :: 0 <= i < |results| ==> results[i].passed }

  predicate AllFine(gates: seq<Judged>) { forall i :: 0 <= i < |gates| ==> gates[i].verdict.Fine? }

  function Follow(gates: seq<Judged>): Course {
    if gates == [] then Course([], false)
    else
      match gates[0].verdict
      case Down => Course([], true)
      case Fault(_) => Course([ResultOf(gates[0])], false)
      case Fine =>
        var rest := Follow(gates[1..]);
        Course([ResultOf(gates[0])] + rest.results, rest.down)
  }

  /** All but the last result passed; and if the course ended in a fault, the last one did not. */
  predicate FailsLast(course: Course) {
    var n := |course.results| - 1;
    && (forall i :: 0 <= i < n ==> course.results[i].passed)
    && (!course.Clear() && !course.down ==> n >= 0 && !course.results[n].passed && course.results[n].code.Some?)
  }

  /** The results are those of the first gates, in order. */
  predicate Follows(course: Course, gates: seq<Judged>) {
    && |course.results| <= |gates|
    && (forall i :: 0 <= i < |course.results| ==> course.results[i] == ResultOf(gates[i]))
  }

  lemma PassedInFront(first: StepResult, rest: seq<StepResult>)
    ensures AllPassed([first] + rest) <==> first.passed && AllPassed(rest)
  {
    var all := [first] + rest;
    if AllPassed(all) {
      assert all[0].passed;
      forall i | 0 <= i < |rest| ensures rest[i].passed {
        assert all[i + 1].passed;
      }
    } else if first.passed {
      var i :| 0 <= i < |all| && !all[i].passed;
      assert all[i] == rest[i - 1];
    }
  }

  lemma FineInFront(gates: seq<Judged>)
    requires gates != []
    ensures AllFine(gates) <==> gates[0].verdict.Fine? && AllFine(gates[1..])
  {
    assert forall i :: 0 <= i < |gates[1..]| ==> gates[1..][i] == gates[i + 1];
  }

  /** A course is clear exactly if every gate is fine; then every gate has left its result. */
  lemma {:induction false} FollowIsExact(gates: seq<Judged>)
    ensures Follow(gates).Clear() <==> AllFine(gates)
    ensures Follow(gates).Clear() ==> |Follow(gates).results| == |gates|
  {
    if gates != [] {
      FollowIsExact(gates[1..]);
      FineInFront(gates);
      PassedInFront(ResultOf(gates[0]), Follow(gates[1..]).results);
      assert gates[0].verdict.Fault? ==> !Follow(gates).results[0].passed;
    }
  }

  lemma {:induction false} FollowKeepsOrder(gates: seq<Judged>)
    ensures Follows(Follow(gates), gates)
  {
    if gates != [] {
      FollowKeepsOrder(gates[1..]);
      var rest := Follow(gates[1..]);
      if gates[0].verdict.Fine? {
        forall i | 0 <= i < |rest.results| + 1 ensures Follow(gates).results[i] == ResultOf(gates[i]) {
          assert i > 0 ==> rest.results[i - 1] == ResultOf(gates[1..][i - 1]);
        }
      }
    }
  }

  /** A fault is the last result and carries its code. */
  lemma {:induction false} FollowFailsLast(gates: seq<Judged>)
    ensures FailsLast(Follow(gates))
  {
    if gates != [] {
      FollowFailsLast(gates[1..]);
      if gates[0].verdict.Fine? {
        FineFailsLast(ResultOf(gates[0]), Follow(gates[1..]));
      }
    }
  }

  lemma FineFailsLast(first: StepResult, rest: Course)
    requires first.passed && FailsLast(rest)
    ensures FailsLast(Course([first] + rest.results, rest.down))
  {
    PassedInFront(first, rest.results);
    var results := [first] + rest.results;
    forall i | 0 <= i < |results| - 1 ensures results[i].passed {
      assert i > 0 ==> results[i] == rest.results[i - 1];
    }
  }

  /** Three gates in a row, spelled out. */
  lemma FollowThree(a: Judged, b: Judged, c: Judged)
    ensures Follow([a, b, c])
         == if a.verdict.Down? then Course([], true)
            else if a.verdict.Fault? then Course([ResultOf(a)], false)
            else if b.verdict.Down? then Course([ResultOf(a)], true)
            else if b.verdict.Fault? then Course([ResultOf(a), ResultOf(b)], false)
            else if c.verdict.Down? then Course([ResultOf(a), ResultOf(b)], true)
            else Course([ResultOf(a), ResultOf(b), ResultOf(c)], false)
  {
    assert [a, b, c][1..] == [b, c] && [b, c][1..] == [c] && [c][1..] == [];
    assert Follow([c]) == if c.verdict.Down? then Course([], true) else Course([ResultOf(c)], false);
  }

  /**
   Two courses with the benchmark's tests put in between: if they are `missing`, the target tests count
   as failed before anything runs.
   */
  function Whole(first: Course, missing: bool, second: Course): Course {
    if !first.Clear() then first
    else if missing then Course(first.results + [StepResult(V4, false, Some(VerifyTargetTestsFailed))], false)
    else Course(first.results + second.results, second.down)
  }

  lemma PassedTogether(a: seq<StepResult>, b: seq<StepResult>)
    ensures AllPassed(a + b) <==> AllPassed(a) && AllPassed(b)
  {
    assert forall i :: 0 <= i < |a| ==> (a + b)[i] == a[i];
    assert forall i :: 0 <= i < |b| ==> (a + b)[|a| + i] == b[i];
  }

  lemma WholeIsClear(first: Course, missing: bool, second: Course)
    ensures Whole(first, missing, second).Clear() <==> first.Clear() && !missing && second.Clear()
  {
    PassedTogether(first.results, second.results);
    var failed := StepResult(V4, false, Some(VerifyTargetTestsFailed));
    PassedTogether(first.results, [failed]);
    assert !AllPassed([failed]) by {
      assert ![failed][0].passed;
    }
  }

  lemma WholeFailsLast(first: Course, missing: bool, second: Course)
    requires FailsLast(first) && FailsLast(second)
    ensures FailsLast(Whole(first, missing, second))
  {
    if first.Clear() && !missing {
      var results := first.results + second.results;
      PassedTogether(first.results, second.results);
      forall i | 0 <= i < |results| - 1 ensures results[i].passed {
        assert results[i] == if i < |first.results| then first.results[i] else second.results[i - |first.results|];
      }
    }
  }

  /** The failure code of a report: that of the first result that did not pass. */
  function FailureCodeOf(results: seq<StepResult>): Option<FailureCode> {
    if results == [] then None
    else if !results[0].passed then results[0].code
    else FailureCodeOf(results[1..])
  }

  lemma {:induction false} CodeIsLast(results: seq<StepResult>)
    requires results != [] && forall i :: 0 <= i < |results| - 1 ==> results[i].passed
    ensures FailureCodeOf(results) == if results[|results| - 1].passed then None else results[|results| - 1].code
  {
    if |results| > 1 {
      CodeIsLast(results[1..]);
    } else {
      assert results[1..] == [];
    }
  }
}
