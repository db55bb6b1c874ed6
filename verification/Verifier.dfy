/**
 The verifier's six gates over a repaired workspace, short-circuiting at the first that fails.

 What Git, the sandbox and the glob matcher answer is an input; which answer counts as what is proved.
 */
module Verifier {
  import opened Wrappers
  import opened Rows
  import opened GateCourse

  datatype Report = Report(passed: bool, results: seq<StepResult>, patch: string)

  /** The difference to the base: captured, refused by the capture, or the capture itself broke down. */
  datatype Capture = Captured(patch: string) | Refused | Broke

  datatype CaseOutcome = Passed | Failed | Skipped

  /** A command ran, with pytest's cases if it is a pytest command, or took the sandbox down. */
  datatype Ran = Ran(exitCode: int, cases: Option<map<string, CaseOutcome>>) | Crashed

  datatype Spec = Spec(
    allowed: seq<string>,
    protected: seq<string>,
    staticCheck: seq<string>,
    failToPass: seq<string>,
    passToPass: seq<string>,
    testPatch: string,
    verifyContract: bool,
    baseline: map<string, map<string, CaseOutcome>>)

  /** Everything outside: Git's answers, the glob matcher, and how each command of a step runs. */
  datatype Outside = Outside(
    capture: Capture,
    changed: seq<string>,
    matches: (string, string) -> bool,
    run: (Step, nat) -> Ran,
    testPatchApplies: bool,
    rollbackWorks: bool)

  // ---- Which files count as tests ----

  predicate Contains(text: string, part: string) {
    part <= text || (text != "" && Contains(text[1..], part))
  }

  predicate NoSlash(path: string) { forall k :: 0 <= k < |path| ==> path[k] != '/' }

  /** What follows the last slash. */
  function FileName(path: string): (name: string)
    ensures |name| <= |path| && path[|path| - |name|..] == name
    ensures |name| < |path| ==> path[|path| - |name| - 1] == '/'
  {
    var n := |path| - 1;
    if path == "" || path[n] == '/' then ""
    else
      var name := FileName(path[..n]) + [path[n]];
      assert path[|path| - |name|..] == path[..n][|path| - |name|..] + [path[n]];
      name
  }

  predicate IsTestFile(path: string) {
    || "test_" <= FileName(path)
    || Contains(path, "tests/") || Contains(path, ".test.") || Contains(path, ".spec.") || Contains(path, "/test_")
  }

  /** The part stands somewhere in the text. */
  ghost predicate Has(text: string, part: string) { exists i :: 0 <= i <= |text| && part <= text[i..] }

  lemma HasLater(text: string, part: string)
    requires text != ""
    ensures Has(text, part) <==> part <= text || Has(text[1..], part)
  {
    assert text[0..] == text;
    if i :| 0 <= i <= |text| && part <= text[i..] {
      assert i > 0 ==> text[i..] == text[1..][i - 1..];
    }
    if i :| 0 <= i <= |text[1..]| && part <= text[1..][i..] {
      assert text[1..][i..] == text[i + 1..];
    }
  }

  lemma {:induction false} ContainsMeans(text: string, part: string)
    ensures Contains(text, part) <==> Has(text, part)
  {
    if text != "" {
      ContainsMeans(text[1..], part);
      HasLater(text, part);
    } else {
      assert text[0..] == text;
    }
  }

  lemma AfterSlash(path: string, name: string, part: string)
    requires |name| < |path| && path[|path| - |name|..] == name && path[|path| - |name| - 1] == '/'
    ensures part <= name ==> Has(path, ['/'] + part)
  {
    var k := |path| - |name| - 1;
    assert path[k..] == ['/'] + name;
    if part <= name {
      assert ['/'] + part <= path[k..];
    }
  }

  /** What makes a test: the beginning of a name, or of a part of the path, or one of three marks anywhere. */
  lemma TestsByName(path: string)
    ensures IsTestFile(path) <==>
      || ("test_" <= path && NoSlash(path)) || Has(path, ['/'] + "test_")
      || Has(path, "tests/") || Has(path, ".test.") || Has(path, ".spec.")
  {
    ContainsMeans(path, "tests/");
    ContainsMeans(path, ".test.");
    ContainsMeans(path, ".spec.");
    ContainsMeans(path, "/test_");
    assert ['/'] + "test_" == "/test_";
    NameBegins(path, "test_");
  }

  lemma NoSlashOfLast(path: string)
    requires path != ""
    ensures NoSlash(path) <==> path[|path| - 1] != '/' && NoSlash(path[..|path| - 1])
  {
    var n := |path| - 1;
    assert forall k :: 0 <= k < n ==> path[k] == path[..n][k];
  }

  /** A name is the whole path exactly if there is no slash in it. */
  lemma {:induction false} NameIsPath(path: string)
    ensures |FileName(path)| == |path| <==> NoSlash(path)
  {
    if path != "" {
      NameIsPath(path[..|path| - 1]);
      NoSlashOfLast(path);
      NameOfLast(path);
    }
  }

  lemma NameOfLast(path: string)
    requires path != ""
    ensures |FileName(path)| == if path[|path| - 1] == '/' then 0 else |FileName(path[..|path| - 1])| + 1
  {
  }

  lemma NameBegins(path: string, part: string)
    ensures part <= FileName(path) ==> (part <= path && NoSlash(path)) || Has(path, ['/'] + part)
    ensures part <= path && NoSlash(path) ==> part <= FileName(path)
  {
    NameIsPath(path);
    NameEnds(path, FileName(path), part);
  }

  lemma NameEnds(path: string, name: string, part: string)
    requires |name| <= |path| && path[|path| - |name|..] == name
    requires |name| < |path| ==> path[|path| - |name| - 1] == '/'
    ensures |name| == |path| ==> name == path
    ensures |name| < |path| && part <= name ==> Has(path, ['/'] + part)
  {
    if |name| < |path| {
      AfterSlash(path, name, part);
    } else {
      assert path[0..] == path;
    }
  }

  /** The characters that Python strips: all of Unicode's white space and the four separators of ASCII. */
  predicate IsSpace(c: char) {
    || '\t' <= c <= '\r' || '\U{1C}' <= c <= ' ' || '\U{2000}' <= c <= '\U{200A}'
    || c == '\U{85}' || c == '\U{A0}' || c == '\U{1680}' || c == '\U{2028}' || c == '\U{2029}'
    || c == '\U{202F}' || c == '\U{205F}' || c == '\U{3000}'
  }

  predicate Blank(text: string) { forall i :: 0 <= i < |text| ==> IsSpace(text[i]) }

  predicate MatchesAny(outside: Outside, path: string, patterns: seq<string>) {
    exists i :: 0 <= i < |patterns| && outside.matches(path, patterns[i])
  }

  predicate InScope(spec: Spec, outside: Outside, path: string) { MatchesAny(outside, path, spec.allowed) }

  predicate Tampers(spec: Spec, outside: Outside, path: string) {
    IsTestFile(path) || MatchesAny(outside, path, spec.protected)
  }

  predicate AllInScope(spec: Spec, outside: Outside) {
    forall i :: 0 <= i < |outside.changed| ==> InScope(spec, outside, outside.changed[i])
  }

  predicate NoneTampers(spec: Spec, outside: Outside) {
    forall i :: 0 <= i < |outside.changed| ==> !Tampers(spec, outside, outside.changed[i])
  }

  // ---- Commands ----

  /** Every case that ran before and was not skipped passes now, and there was one. */
  predicate CoveragePreserved(before: map<string, CaseOutcome>, after: map<string, CaseOutcome>) {
    && (exists name :: name in before && !before[name].Skipped?)
    && (forall name :: name in before && !before[name].Skipped? ==> name in after && after[name].Passed?)
  }

  function CommandVerdict(spec: Spec, command: string, ran: Ran, code: FailureCode): Verdict {
    if ran.Crashed? then Down
    else if spec.verifyContract && ran.exitCode == 0 && command in spec.baseline
            && !CoveragePreserved(spec.baseline[command], ran.cases.GetOr(map[])) then Fault(VerifyTestTampering)
    else if spec.verifyContract && ran.cases == Some(map[]) then Fault(code)
    else if ran.exitCode != 0 then Fault(code)
    else Fine
  }

  /** The first command that is not fine decides. */
  function CommandsVerdict(spec: Spec, outside: Outside, step: Step, commands: seq<string>, code: FailureCode): Verdict {
    if commands == [] then Fine
    else
      var n := |commands| - 1;
      var before := CommandsVerdict(spec, outside, step, commands[..n], code);
      if before.Fine? then CommandVerdict(spec, commands[n], outside.run(step, n), code) else before
  }

  lemma {:induction false} AllCommandsFine(spec: Spec, outside: Outside, step: Step, commands: seq<string>,
                                         code: FailureCode)
    ensures CommandsVerdict(spec, outside, step, commands, code).Fine?
       <==> forall k :: 0 <= k < |commands| ==> CommandVerdict(spec, commands[k], outside.run(step, k), code).Fine?
  {
    if commands != [] {
      var n := |commands| - 1;
      AllCommandsFine(spec, outside, step, commands[..n], code);
      assert forall k :: 0 <= k < n ==> commands[..n][k] == commands[k];
    }
  }

  // ---- The gates, one by one ----

  /** The verdict of each gate by itself, whatever the others say. */
  function Gate(spec: Spec, outside: Outside, step: Step): Verdict {
    match step
    case V1 =>
      (match outside.capture
       case Captured(patch) => if Blank(patch) then Fault(VerifyPatchMalformed) else Fine
       case Refused => Fault(VerifyPatchMalformed)
       case Broke => Down)
    case V2 =>
      if AllInScope(spec, outside) then Fine else Fault(VerifyScopeViolation)
    case V6 =>
      if NoneTampers(spec, outside) then Fine else Fault(VerifyTestTampering)
    case V3 => CommandsVerdict(spec, outside, V3, spec.staticCheck, VerifyStaticFailed)
    case V4 => CommandsVerdict(spec, outside, V4, spec.failToPass, VerifyTargetTestsFailed)
    case V5 => CommandsVerdict(spec, outside, V5, spec.passToPass, VerifyRegressionFailed)
  }

  function Judge(spec: Spec, outside: Outside, step: Step): Judged { Judged(step, Gate(spec, outside, step)) }

  predicate HasTestPatch(spec: Spec) { !Blank(spec.testPatch) }

  /** The benchmark's tests cannot be put in: the target tests count as failed before anything runs. */
  predicate TestsMissing(spec: Spec, outside: Outside) { HasTestPatch(spec) && !outside.testPatchApplies }

  function DiffGates(spec: Spec, outside: Outside): seq<Judged> {
    [Judge(spec, outside, V1), Judge(spec, outside, V2), Judge(spec, outside, V6)]
  }

  function TestGates(spec: Spec, outside: Outside): seq<Judged> {
    [Judge(spec, outside, V3), Judge(spec, outside, V4), Judge(spec, outside, V5)]
  }

  /** The whole course: the gates on the diff, the benchmark's tests, the gates that run commands. */
  function FullCourse(spec: Spec, outside: Outside): Course {
    Whole(Follow(DiffGates(spec, outside)), TestsMissing(spec, outside), Follow(TestGates(spec, outside)))
  }

  function AllSteps(): seq<Step> { [V1, V2, V6, V3, V4, V5] }

  ghost predicate EveryGateFine(spec: Spec, outside: Outside) {
    !TestsMissing(spec, outside) && forall step: Step :: Gate(spec, outside, step).Fine?
  }

  lemma ThreeFine(a: Judged, b: Judged, c: Judged)
    ensures AllFine([a, b, c]) <==> a.verdict.Fine? && b.verdict.Fine? && c.verdict.Fine?
  {
    assert [a, b, c][0] == a && [a, b, c][1] == b && [a, b, c][2] == c;
  }

  lemma ClearMeansFine(spec: Spec, outside: Outside)
    ensures FullCourse(spec, outside).Clear() <==> EveryGateFine(spec, outside)
  {
    FollowIsExact(DiffGates(spec, outside));
    FollowIsExact(TestGates(spec, outside));
    WholeIsClear(Follow(DiffGates(spec, outside)), TestsMissing(spec, outside), Follow(TestGates(spec, outside)));
    ThreeFine(Judge(spec, outside, V1), Judge(spec, outside, V2), Judge(spec, outside, V6));
    ThreeFine(Judge(spec, outside, V3), Judge(spec, outside, V4), Judge(spec, outside, V5));
    if FullCourse(spec, outside).Clear() {
      forall step: Step ensures Gate(spec, outside, step).Fine? {
        assert step.V1? || step.V2? || step.V3? || step.V4? || step.V5? || step.V6?;
      }
    }
  }

  /** A clear course has recorded all six steps, in the order in which they run. */
  lemma ClearIsComplete(spec: Spec, outside: Outside)
    requires FullCourse(spec, outside).Clear()
    ensures var results := FullCourse(spec, outside).results;
      |results| == 6 && forall i :: 0 <= i < 6 ==> results[i] == StepResult(AllSteps()[i], true, None)
  {
    ClearMeansFine(spec, outside);
    FollowThree(Judge(spec, outside, V1), Judge(spec, outside, V2), Judge(spec, outside, V6));
    FollowThree(Judge(spec, outside, V3), Judge(spec, outside, V4), Judge(spec, outside, V5));
    FollowIsExact(DiffGates(spec, outside));
    WholeIsClear(Follow(DiffGates(spec, outside)), TestsMissing(spec, outside), Follow(TestGates(spec, outside)));
    assert forall step: Step :: Gate(spec, outside, step).Fine?;
  }

  /** However far a course gets, its results are those of the steps in this order, unless the tests are missing. */
  lemma CourseKeepsOrder(spec: Spec, outside: Outside)
    requires !TestsMissing(spec, outside)
    ensures var results := FullCourse(spec, outside).results;
      |results| <= 6 && forall i :: 0 <= i < |results| ==> results[i].step == AllSteps()[i]
  {
    var first, second := Follow(DiffGates(spec, outside)), Follow(TestGates(spec, outside));
    FollowKeepsOrder(DiffGates(spec, outside));
    FollowKeepsOrder(TestGates(spec, outside));
    FollowIsExact(DiffGates(spec, outside));
    if first.Clear() {
      var results := first.results + second.results;
      forall i | 3 <= i < |results| ensures results[i].step == AllSteps()[i] {
        assert results[i] == second.results[i - 3] == ResultOf(TestGates(spec, outside)[i - 3]);
      }
    }
  }

  lemma JudgedCode(spec: Spec, outside: Outside, step: Step)
    ensures var result := ResultOf(Judge(spec, outside, step));
      result.code.Some? ==> result.code.value in CodesOf(result.step)
  {
    StepsHaveCodes(spec, outside, step);
  }

  predicate CodesFit(results: seq<StepResult>) {
    forall i :: 0 <= i < |results| && results[i].code.Some? ==> results[i].code.value in CodesOf(results[i].step)
  }

  lemma CodesOfGates(spec: Spec, outside: Outside)
    ensures CodesFit(Follow(DiffGates(spec, outside)).results) && CodesFit(Follow(TestGates(spec, outside)).results)
  {
    FollowKeepsOrder(DiffGates(spec, outside));
    FollowKeepsOrder(TestGates(spec, outside));
    JudgedCode(spec, outside, V1);
    JudgedCode(spec, outside, V2);
    JudgedCode(spec, outside, V3);
    JudgedCode(spec, outside, V4);
    JudgedCode(spec, outside, V5);
    JudgedCode(spec, outside, V6);
  }

  lemma CodesOfCourse(spec: Spec, outside: Outside)
    ensures CodesFit(FullCourse(spec, outside).results)
  {
    CodesOfGates(spec, outside);
    var first, second := Follow(DiffGates(spec, outside)), Follow(TestGates(spec, outside));
    var missing := StepResult(V4, false, Some(VerifyTargetTestsFailed));
    CodesTogether(first.results, second.results);
    CodesTogether(first.results, [missing]);
  }

  lemma CodesTogether(a: seq<StepResult>, b: seq<StepResult>)
    requires CodesFit(a) && CodesFit(b)
    ensures CodesFit(a + b)
  {
  }

  /**
   Fail-closed.  The verifier passes exactly if every gate is fine: then it has recorded V1, V2, V6, V3,
   V4, V5 in this order, all passed.  Otherwise, unless the sandbox was lost, exactly one result
   failed, it is the last one, and the report carries its code; the steps before it are the first ones
   in that order, except that tests that cannot be put in fail V4 before V3 runs.
   */
  lemma VerifierIsFailClosed(spec: Spec, outside: Outside)
    ensures var course := FullCourse(spec, outside);
      && (!TestsMissing(spec, outside) ==>
            |course.results| <= 6
            && forall i :: 0 <= i < |course.results| ==> course.results[i].step == [V1, V2, V6, V3, V4, V5][i])
      && (course.Clear() <==> EveryGateFine(spec, outside))
      && (course.Clear() ==>
            && |course.results| == 6
            && forall i :: 0 <= i < 6 ==> course.results[i] == StepResult([V1, V2, V6, V3, V4, V5][i], true, None))
      && (!course.Clear() && !course.down ==>
            var n := |course.results| - 1;
            && n >= 0 && !course.results[n].passed && (forall i :: 0 <= i < n ==> course.results[i].passed)
            && FailureCodeOf(course.results) == course.results[n].code && course.results[n].code.Some?
            && course.results[n].code.value in CodesOf(course.results[n].step)
            && (TestsMissing(spec, outside) && Follow(DiffGates(spec, outside)).Clear() ==>
                  course.results[n] == StepResult(V4, false, Some(VerifyTargetTestsFailed))))
  {
    var course := FullCourse(spec, outside);
    if !TestsMissing(spec, outside) {
      CourseKeepsOrder(spec, outside);
    }
    ClearMeansFine(spec, outside);
    if course.Clear() {
      ClearIsComplete(spec, outside);
    }
    FollowFailsLast(DiffGates(spec, outside));
    FollowFailsLast(TestGates(spec, outside));
    WholeFailsLast(Follow(DiffGates(spec, outside)), TestsMissing(spec, outside), Follow(TestGates(spec, outside)));
    CodesOfCourse(spec, outside);
    if course.results != [] {
      CodeIsLast(course.results);
    }
  }

  /** Exit code zero; under the contract also real test results, and none of the original tests lost. */
  predicate Succeeds(spec: Spec, command: string, ran: Ran) {
    && ran.Ran? && ran.exitCode == 0
    && (spec.verifyContract ==>
          && ran.cases != Some(map[])
          && (command in spec.baseline ==>
                var before, after := spec.baseline[command], ran.cases.GetOr(map[]);
                && (exists name :: name in before && before[name] != Skipped)
                && (forall name :: name in before && before[name] != Skipped ==> name in after && after[name] == Passed)))
  }

  /** A command is fine exactly if it succeeds; a fault of coverage counts as tampering, any other by its step. */
  lemma CommandIsFine(spec: Spec, command: string, ran: Ran, code: FailureCode)
    ensures var verdict := CommandVerdict(spec, command, ran, code);
      && (verdict.Fine? <==> Succeeds(spec, command, ran))
      && (verdict.Down? <==> ran.Crashed?)
      && (verdict.Fault? ==> verdict.code == code || verdict.code == VerifyTestTampering)
      && (verdict.Fault? && (!spec.verifyContract || ran.exitCode != 0) ==> verdict.code == code)
  {
  }

  ghost predicate AllSucceed(spec: Spec, outside: Outside, step: Step, commands: seq<string>) {
    forall k :: 0 <= k < |commands| ==> Succeeds(spec, commands[k], outside.run(step, k))
  }

  lemma CommandsSucceed(spec: Spec, outside: Outside, step: Step, commands: seq<string>, code: FailureCode)
    ensures CommandsVerdict(spec, outside, step, commands, code).Fine? <==> AllSucceed(spec, outside, step, commands)
  {
    AllCommandsFine(spec, outside, step, commands, code);
    forall k | 0 <= k < |commands|
      ensures CommandVerdict(spec, commands[k], outside.run(step, k), code).Fine?
         <==> Succeeds(spec, commands[k], outside.run(step, k))
    {
      CommandIsFine(spec, commands[k], outside.run(step, k), code);
    }
  }

  /**
   What a pass means, exactly: a patch that is not blank, only allowed files that are neither tests nor
   protected in the list, tests that can be put in, and commands that all succeed.
   */
  lemma PassMeansClean(spec: Spec, outside: Outside)
    ensures FullCourse(spec, outside).Clear() <==>
      && outside.capture.Captured? && !Blank(outside.capture.patch)
      && (forall i :: 0 <= i < |outside.changed| ==>
            InScope(spec, outside, outside.changed[i]) && !Tampers(spec, outside, outside.changed[i]))
      && (!Blank(spec.testPatch) ==> outside.testPatchApplies)
      && AllSucceed(spec, outside, V3, spec.staticCheck)
      && AllSucceed(spec, outside, V4, spec.failToPass)
      && AllSucceed(spec, outside, V5, spec.passToPass)
  {
    ClearMeansFine(spec, outside);
    AllGates(spec, outside);
    CommandsSucceed(spec, outside, V3, spec.staticCheck, VerifyStaticFailed);
    CommandsSucceed(spec, outside, V4, spec.failToPass, VerifyTargetTestsFailed);
    CommandsSucceed(spec, outside, V5, spec.passToPass, VerifyRegressionFailed);
  }

  lemma AllGates(spec: Spec, outside: Outside)
    ensures (forall step: Step :: Gate(spec, outside, step).Fine?) <==>
      && Gate(spec, outside, V1).Fine? && Gate(spec, outside, V2).Fine? && Gate(spec, outside, V6).Fine?
      && Gate(spec, outside, V3).Fine? && Gate(spec, outside, V4).Fine? && Gate(spec, outside, V5).Fine?
  {
    if Gate(spec, outside, V1).Fine? && Gate(spec, outside, V2).Fine? && Gate(spec, outside, V6).Fine?
       && Gate(spec, outside, V3).Fine? && Gate(spec, outside, V4).Fine? && Gate(spec, outside, V5).Fine? {
      forall step: Step ensures Gate(spec, outside, step).Fine? {
        assert step.V1? || step.V2? || step.V3? || step.V4? || step.V5? || step.V6?;
      }
    }
  }

  /** The codes a step can fail with. */
  function CodesOf(step: Step): set<FailureCode> {
    match step
    case V1 => {VerifyPatchMalformed}
    case V2 => {VerifyScopeViolation}
    case V3 => {VerifyStaticFailed, VerifyTestTampering}
    case V4 => {VerifyTargetTestsFailed, VerifyTestTampering}
    case V5 => {VerifyRegressionFailed, VerifyTestTampering}
    case V6 => {VerifyTestTampering}
  }

  lemma {:induction false} CommandsCode(spec: Spec, outside: Outside, step: Step, commands: seq<string>, code: FailureCode)
    ensures var verdict := CommandsVerdict(spec, outside, step, commands, code);
      verdict.Fault? ==> verdict.code == code || (spec.verifyContract && verdict.code == VerifyTestTampering)
  {
    if commands != [] {
      CommandsCode(spec, outside, step, commands[..|commands| - 1], code);
    }
  }

  /** A step fails with a code of its own; a command step with another only under the contract. */
  lemma StepsHaveCodes(spec: Spec, outside: Outside, step: Step)
    ensures var verdict := Gate(spec, outside, step);
      verdict.Fault? ==>
        && verdict.code in CodesOf(step)
        && ((step.V3? || step.V4? || step.V5?) && !spec.verifyContract ==> verdict.code != VerifyTestTampering)
  {
    CommandsCode(spec, outside, V3, spec.staticCheck, VerifyStaticFailed);
    CommandsCode(spec, outside, V4, spec.failToPass, VerifyTargetTestsFailed);
    CommandsCode(spec, outside, V5, spec.passToPass, VerifyRegressionFailed);
  }

  function PatchOf(outside: Outside): string {
    if outside.capture.Captured? && !Blank(outside.capture.patch) then outside.capture.patch else ""
  }

  class Pipeline {
    const spec: Spec
    const outside: Outside
    var recorded: seq<StepResult>   // the VERIFICATION_RESULT events
    var testsIn: bool               // the benchmark's test patch is in the workspace
    var testsInAfter: Option<nat>   // how many results were recorded when it was put in

    constructor (spec: Spec, outside: Outside)
      ensures this.spec == spec && this.outside == outside && recorded == [] && !testsIn && testsInAfter == None
    {
      this.spec, this.outside, recorded, testsIn, testsInAfter := spec, outside, [], false, None;
    }

    method Record(step: Step, passed: bool, code: Option<FailureCode>) returns (result: StepResult)
      modifies `recorded
      ensures result == StepResult(step, passed, if passed then None else code)
      ensures recorded == old(recorded) + [result]
    {
      result := StepResult(step, passed, if passed then None else code);
      recorded := recorded + [result];
    }

    /** None if the sandbox is lost on the way. */
    method RunCommands(step: Step, commands: seq<string>, code: FailureCode) returns (result: Option<StepResult>)
      modifies `recorded
      ensures var verdict := CommandsVerdict(spec, outside, step, commands, code);
        && result == (if verdict.Down? then None else Some(ResultOf(Judged(step, verdict))))
        && recorded == old(recorded) + (if verdict.Down? then [] else [ResultOf(Judged(step, verdict))])
    {
      var k := 0;
      while k < |commands|
        invariant k <= |commands| && recorded == old(recorded)
        invariant CommandsVerdict(spec, outside, step, commands[..k], code).Fine?
      {
        var command, ran := commands[k], outside.run(step, k);
        assert commands[..k + 1][..k] == commands[..k];
        FirstDecides(step, commands, code, k);
        if ran.Crashed? { return None; }
        if spec.verifyContract {
          if ran.exitCode == 0 && command in spec.baseline
             && !CoveragePreserved(spec.baseline[command], ran.cases.GetOr(map[])) {
            var r := Record(step, false, Some(VerifyTestTampering));
            return Some(r);
          }
          if ran.cases == Some(map[]) {
            var r := Record(step, false, Some(code));
            return Some(r);
          }
        }
        if ran.exitCode != 0 {
          var r := Record(step, false, Some(code));
          return Some(r);
        }
        k := k + 1;
      }
      assert commands[..|commands|] == commands;
      var r := Record(step, true, None);
      return Some(r);
    }

    lemma FirstDecides(step: Step, commands: seq<string>, code: FailureCode, k: nat)
      requires k < |commands| && CommandsVerdict(spec, outside, step, commands[..k], code).Fine?
      ensures var verdict := CommandVerdict(spec, commands[k], outside.run(step, k), code);
        !verdict.Fine? ==> CommandsVerdict(spec, outside, step, commands, code) == verdict
      ensures CommandsVerdict(spec, outside, step, commands[..k + 1], code)
           == CommandVerdict(spec, commands[k], outside.run(step, k), code)
    {
      assert commands[..k + 1][..k] == commands[..k];
      VerdictStays(step, commands, code, k + 1);
    }

    lemma {:induction false} VerdictStays(step: Step, commands: seq<string>, code: FailureCode, k: nat)
      requires k <= |commands|
      ensures !CommandsVerdict(spec, outside, step, commands[..k], code).Fine? ==>
        CommandsVerdict(spec, outside, step, commands, code) == CommandsVerdict(spec, outside, step, commands[..k], code)
      decreases |commands|
    {
      if k < |commands| {
        var n := |commands| - 1;
        assert commands[..n][..k] == commands[..k];
        VerdictStays(step, commands[..n], code, k);
      } else {
        assert commands[..k] == commands;
      }
    }

    /** The gates that run commands. */
    method RunTests(before: seq<StepResult>, patch: string) returns (report: Option<Report>)
      modifies `recorded
      ensures var course := Follow(TestGates(spec, outside));
        && recorded == old(recorded) + course.results
        && report == (if course.down then None else Some(Report(course.Clear(), before + course.results, patch)))
    {
      FollowThree(Judge(spec, outside, V3), Judge(spec, outside, V4), Judge(spec, outside, V5));
      FollowIsExact(TestGates(spec, outside));
      ThreeFine(Judge(spec, outside, V3), Judge(spec, outside, V4), Judge(spec, outside, V5));
      var v3 := RunCommands(V3, spec.staticCheck, VerifyStaticFailed);
      if v3.None? { return None; }
      var results := before + [v3.value];
      if !v3.value.passed { return Some(Report(false, results, patch)); }
      var v4 := RunCommands(V4, spec.failToPass, VerifyTargetTestsFailed);
      if v4.None? { return None; }
      results := results + [v4.value];
      assert results == before + [v3.value, v4.value];
      if !v4.value.passed { return Some(Report(false, results, patch)); }
      var v5 := RunCommands(V5, spec.passToPass, VerifyRegressionFailed);
      if v5.None? { return None; }
      results := results + [v5.value];
      assert results == before + [v3.value, v4.value, v5.value];
      return Some(Report(v5.value.passed, results, patch));
    }

    /** The gates on the diff, which run nothing of the agent's. */
    method CheckDiff() returns (results: Option<seq<StepResult>>)
      modifies `recorded
      ensures var course := Follow(DiffGates(spec, outside));
        && recorded == old(recorded) + course.results
        && results == (if course.down then None else Some(course.results))
    {
      FollowThree(Judge(spec, outside, V1), Judge(spec, outside, V2), Judge(spec, outside, V6));
      if outside.capture.Broke? { return None; }
      if outside.capture.Refused? || Blank(outside.capture.patch) {
        var r := Record(V1, false, Some(VerifyPatchMalformed));
        return Some([r]);
      }
      var r1 := Record(V1, true, None);
      if !AllInScope(spec, outside) {
        var r := Record(V2, false, Some(VerifyScopeViolation));
        return Some([r1, r]);
      }
      var r2 := Record(V2, true, None);
      if !NoneTampers(spec, outside) {
        var r := Record(V6, false, Some(VerifyTestTampering));
        return Some([r1, r2, r]);
      }
      var r6 := Record(V6, true, None);
      return Some([r1, r2, r6]);
    }

    /** The benchmark's tests go in, the commands run, and the tests come out, whatever happened. */
    method RunWithTests(before: seq<StepResult>, patch: string) returns (report: Option<Report>)
      requires !testsIn && testsInAfter == None && !TestsMissing(spec, outside)
      modifies this
      ensures var course := Follow(TestGates(spec, outside));
        && recorded == old(recorded) + course.results
        && report == (if course.down then None else Some(Report(course.Clear(), before + course.results, patch)))
      ensures testsInAfter == if HasTestPatch(spec) then Some(|old(recorded)|) else None
      ensures testsIn <==> HasTestPatch(spec) && !outside.rollbackWorks
    {
      if HasTestPatch(spec) {
        testsIn, testsInAfter := true, Some(|recorded|);
      }
      report := RunTests(before, patch);
      if HasTestPatch(spec) && outside.rollbackWorks {
        testsIn := false;
      }
    }

    /** What follows once the diff is clear: tests that cannot be put in count as failed before anything runs. */
    method RunBehindDiff(before: seq<StepResult>, patch: string) returns (report: Option<Report>)
      requires !testsIn && testsInAfter == None
      modifies this
      ensures var missing, course := TestsMissing(spec, outside), Follow(TestGates(spec, outside));
        var results := if missing then [StepResult(V4, false, Some(VerifyTargetTestsFailed))] else course.results;
        && recorded == old(recorded) + results
        && report == (if !missing && course.down then None
                      else Some(Report(!missing && course.Clear(), before + results, patch)))
      ensures testsInAfter == if HasTestPatch(spec) && outside.testPatchApplies then Some(|old(recorded)|) else None
      ensures testsIn <==> testsInAfter.Some? && !outside.rollbackWorks
    {
      if HasTestPatch(spec) && !outside.testPatchApplies {
        var r := Record(V4, false, Some(VerifyTargetTestsFailed));
        return Some(Report(false, before + [r], patch));
      }
      report := RunWithTests(before, patch);
    }

    /** None if an exception leaves the verifier. */
    method Run() returns (report: Option<Report>)
      requires !testsIn
      modifies this
      ensures var course := FullCourse(spec, outside);
        && recorded == old(recorded) + course.results
        && report == (if course.down then None else Some(Report(course.Clear(), course.results, PatchOf(outside))))
      // The report carries the patch as it was captured.
      ensures report.Some? && report.value.passed ==>
        outside.capture.Captured? && report.value.patch == outside.capture.patch
      // The benchmark's tests go in only behind V1, V2 and V6, and are gone on return if that works.
      ensures testsInAfter ==
        if HasTestPatch(spec) && outside.testPatchApplies && Follow(DiffGates(spec, outside)).Clear()
        then Some(|old(recorded)| + 3) else None
      ensures testsIn <==> testsInAfter.Some? && !outside.rollbackWorks
    {
      testsInAfter := None;
      DiffEnds(spec, outside);
      var first := CheckDiff();
      if first.None? { return None; }
      var results := first.value;
      if !results[|results| - 1].passed { return Some(Report(false, results, PatchOf(outside))); }
      WholeIsClear(Follow(DiffGates(spec, outside)), TestsMissing(spec, outside), Follow(TestGates(spec, outside)));
      report := RunBehindDiff(results, PatchOf(outside));
      PassMeansClean(spec, outside);
    }
  }

  /** The gates on the diff leave a result; the last one tells whether they are clear, and then there are three. */
  lemma DiffEnds(spec: Spec, outside: Outside)
    ensures var diff := Follow(DiffGates(spec, outside));
      && (!diff.down ==> diff.results != [] && (diff.results[|diff.results| - 1].passed <==> diff.Clear()))
      && (diff.Clear() ==> |diff.results| == 3)
  {
    FollowFailsLast(DiffGates(spec, outside));
    FollowIsExact(DiffGates(spec, outside));
  }
}
