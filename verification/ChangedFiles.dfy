/**
 The list of changed files as the verifier gets it: the lines Git prints, read without looking at the
 exit code, with names quoted and renames shown by their new name.

 A pass speaks of that list.  Here it is told exactly when it speaks of every file that was changed.
 */
module ChangedFiles {
  import opened GateCourse
  import opened Verifier

  /** A change to the base, as Git pairs files up. */
  datatype Change = Touched(path: string) | Moved(source: string, target: string)

  /** The workspace, and whether Git manages to list it; if not, it prints nothing. */
  datatype Workspace = Workspace(changes: seq<Change>, listed: bool)

  function Names(c: Change): set<string> {
    match c
    case Touched(path) => {path}
    case Moved(source, target) => {source, target}
  }

  /** The one name that Git prints for a change. */
  function NameOf(c: Change): string { if c.Touched? then c.path else c.target }

  predicate Affected(changes: seq<Change>, path: string) { exists i :: 0 <= i < |changes| && path in Names(changes[i]) }

  /** Names are not empty, and no file takes part in two changes. */
  ghost predicate WellFormed(changes: seq<Change>) {
    && (forall i :: 0 <= i < |changes| ==> "" !in Names(changes[i]))
    && (forall i :: 0 <= i < |changes| && changes[i].Moved? ==> changes[i].source != changes[i].target)
    && (forall i, j :: 0 <= i < j < |changes| ==> Names(changes[i]) !! Names(changes[j]))
  }

  // ---- How Git prints a name ----

  /** Control characters, quotes, backslashes and everything beyond ASCII make Git quote a name. */
  predicate IsPlain(c: char) { ' ' <= c <= '~' && c != '"' && c != '\\' }

  predicate NeedsQuotes(name: string) { exists i :: 0 <= i < |name| && !IsPlain(name[i]) }

  function Octal(b: nat): string {
    var digits := "01234567";
    ['\\', digits[b / 64 % 8], digits[b / 8 % 8], digits[b % 8]]
  }

  function Octals(bytes: seq<nat>): string {
    if bytes == [] then "" else Octal(bytes[0]) + Octals(bytes[1..])
  }

  /** The bytes of a code point, as RFC 3629 has them. */
  function Utf8(c: nat): seq<nat> {
    if c < 0x80 then [c]
    else if c < 0x800 then [0xC0 + c / 64, 0x80 + c % 64]
    else if c < 0x1_0000 then [0xE0 + c / 4096, 0x80 + c / 64 % 64, 0x80 + c % 64]
    else [0xF0 + c / 262_144, 0x80 + c / 4096 % 64, 0x80 + c / 64 % 64, 0x80 + c % 64]
  }

  function Escaped(c: char): string {
    if IsPlain(c) then [c]
    else if c == '"' then "\\\""
    else if c == '\\' then "\\\\"
    else if c == '\t' then "\\t"
    else if c == '\n' then "\\n"
    else if c == '\r' then "\\r"
    else if c == '\U{7}' then "\\a"
    else if c == '\U{8}' then "\\b"
    else if c == '\U{B}' then "\\v"
    else if c == '\U{C}' then "\\f"
    else Octals(Utf8(c as nat))
  }

  function AllEscaped(name: string): (text: string)
    ensures |text| >= |name|
  {
    if name == "" then ""
    else
      assert |Escaped(name[0])| >= 1;
      Escaped(name[0]) + AllEscaped(name[1..])
  }

  function Printed(name: string): string { if NeedsQuotes(name) then "\"" + AllEscaped(name) + "\"" else name }

  /** The lines that are not blank. */
  function LinesOf(changes: seq<Change>): seq<string> {
    if changes == [] then []
    else
      var n := |changes| - 1;
      var line := Printed(NameOf(changes[n]));
      LinesOf(changes[..n]) + (if Blank(line) then [] else [line])
  }

  function ChangedFiles(w: Workspace): seq<string> { if w.listed then LinesOf(w.changes) else [] }

  predicate Prints(changes: seq<Change>, line: string) {
    exists i :: 0 <= i < |changes| && Printed(NameOf(changes[i])) == line
  }

  lemma PrintsOfLast(changes: seq<Change>, line: string)
    requires changes != []
    ensures var n := |changes| - 1;
      Prints(changes, line) <==> Prints(changes[..n], line) || Printed(NameOf(changes[n])) == line
  {
    var n := |changes| - 1;
    assert forall i :: 0 <= i < n ==> changes[..n][i] == changes[i];
  }

  lemma {:induction false} LinesAre(changes: seq<Change>, line: string)
    ensures line in LinesOf(changes) <==> !Blank(line) && Prints(changes, line)
  {
    if changes != [] {
      LinesAre(changes[..|changes| - 1], line);
      PrintsOfLast(changes, line);
    }
  }

  // ---- When the list is the list of changed files ----

  /** Git has listed the workspace, nothing was renamed, and no name has to be quoted or is blank. */
  predicate Faithful(w: Workspace) {
    w.changes == []
    || (w.listed && forall i :: 0 <= i < |w.changes| ==>
          w.changes[i].Touched? && !NeedsQuotes(w.changes[i].path) && !Blank(w.changes[i].path))
  }

  ghost predicate Complete(w: Workspace) { forall path :: Affected(w.changes, path) ==> path in ChangedFiles(w) }

  lemma PrintedIsLonger(name: string)
    requires NeedsQuotes(name)
    ensures |Printed(name)| > |name| && NeedsQuotes(Printed(name))
  {
    assert !IsPlain(Printed(name)[0]);
  }

  /** If a name has to be quoted, some name goes missing: at least the shortest of them. */
  lemma {:induction false} QuotedGoesMissing(w: Workspace, name: string) returns (missing: string)
    requires w.listed && Affected(w.changes, name) && NeedsQuotes(name)
    ensures Affected(w.changes, missing) && missing !in ChangedFiles(w)
    decreases |name|
  {
    LinesAre(w.changes, name);
    if name in ChangedFiles(w) {
      var i :| 0 <= i < |w.changes| && Printed(NameOf(w.changes[i])) == name;
      var shorter := NameOf(w.changes[i]);
      assert NeedsQuotes(shorter) && shorter in Names(w.changes[i]);
      PrintedIsLonger(shorter);
      missing := QuotedGoesMissing(w, shorter);
    } else {
      missing := name;
    }
  }

  /** If no name has to be quoted, the old name of a renamed file goes missing. */
  lemma SourceGoesMissing(w: Workspace, i: nat)
    requires WellFormed(w.changes) && w.listed && i < |w.changes| && w.changes[i].Moved?
    requires forall path :: Affected(w.changes, path) ==> !NeedsQuotes(path)
    ensures Affected(w.changes, w.changes[i].source) && w.changes[i].source !in ChangedFiles(w)
  {
    var source := w.changes[i].source;
    assert source in Names(w.changes[i]);
    forall j | 0 <= j < |w.changes| ensures Printed(NameOf(w.changes[j])) != source {
      assert NameOf(w.changes[j]) in Names(w.changes[j]);
      assert Affected(w.changes, NameOf(w.changes[j]));
      if j < i {
        assert Names(w.changes[j]) !! Names(w.changes[i]);
      } else if i < j {
        assert Names(w.changes[i]) !! Names(w.changes[j]);
      }
    }
    LinesAre(w.changes, source);
  }

  lemma SomethingGoesMissing(w: Workspace) returns (missing: string)
    requires WellFormed(w.changes) && !Faithful(w)
    ensures Affected(w.changes, missing) && missing !in ChangedFiles(w)
  {
    if !w.listed {
      missing := NameOf(w.changes[0]);
      assert missing in Names(w.changes[0]);
    } else if path :| Affected(w.changes, path) && NeedsQuotes(path) {
      missing := QuotedGoesMissing(w, path);
    } else {
      var i :| 0 <= i < |w.changes| && !(w.changes[i].Touched? && !NeedsQuotes(w.changes[i].path)
                                         && !Blank(w.changes[i].path));
      assert NameOf(w.changes[i]) in Names(w.changes[i]);
      if w.changes[i].Moved? {
        SourceGoesMissing(w, i);
        missing := w.changes[i].source;
      } else {
        missing := w.changes[i].path;
        LinesAre(w.changes, missing);
      }
    }
  }

  /** The list names every changed file if, and only if, nothing has to be quoted, renamed or is blank. */
  lemma ListIsComplete(w: Workspace)
    requires WellFormed(w.changes)
    ensures Complete(w) <==> Faithful(w)
  {
    if Faithful(w) {
      forall path | Affected(w.changes, path) ensures path in ChangedFiles(w) {
        var i :| 0 <= i < |w.changes| && path in Names(w.changes[i]);
        assert Printed(NameOf(w.changes[i])) == path;
        LinesAre(w.changes, path);
      }
    } else {
      var _ := SomethingGoesMissing(w);
    }
  }

  // ---- What a pass means for the workspace ----

  ghost predicate Clean(spec: Spec, outside: Outside, w: Workspace) {
    forall path :: Affected(w.changes, path) ==> InScope(spec, outside, path) && !Tampers(spec, outside, path)
  }

  /** Whatever is allowed, protected and run: if the verifier passes this workspace, it is clean. */
  ghost predicate PassMeansCleanWorkspace(w: Workspace) {
    forall spec: Spec, outside: Outside ::
      outside.changed == ChangedFiles(w) && FullCourse(spec, outside).Clear() ==> Clean(spec, outside, w)
  }

  /** A test file in the list; then nothing can pass. */
  predicate ShowsTests(lines: seq<string>) { exists k :: 0 <= k < |lines| && IsTestFile(lines[k]) }

  lemma PassOfCompleteList(w: Workspace, spec: Spec, outside: Outside)
    requires Complete(w) && outside.changed == ChangedFiles(w) && FullCourse(spec, outside).Clear()
    ensures Clean(spec, outside, w)
  {
    PassMeansClean(spec, outside);
    forall path | Affected(w.changes, path) ensures InScope(spec, outside, path) && !Tampers(spec, outside, path) {
      var k :| 0 <= k < |outside.changed| && outside.changed[k] == path;
      assert InScope(spec, outside, outside.changed[k]);
    }
  }

  lemma TestsNeverPass(spec: Spec, outside: Outside)
    requires ShowsTests(outside.changed)
    ensures !FullCourse(spec, outside).Clear()
  {
    var k :| 0 <= k < |outside.changed| && IsTestFile(outside.changed[k]);
    assert Tampers(spec, outside, outside.changed[k]);
    if FullCourse(spec, outside).Clear() {
      PassMeansClean(spec, outside);
    }
  }

  /** Everything is allowed but one file, which is protected; there is nothing to run. */
  function Lenient(): Spec { Spec(["*"], ["one"], [], [], [], "", false, map[]) }

  function AllBut(lines: seq<string>, one: string): Outside {
    Outside(Captured("+"), lines, (path: string, pattern: string) => pattern == "*" || path == one,
            (step, k) => Ran.Crashed, true, true)
  }

  lemma LenientPasses(lines: seq<string>, one: string)
    requires one !in lines && !ShowsTests(lines)
    ensures FullCourse(Lenient(), AllBut(lines, one)).Clear() && Tampers(Lenient(), AllBut(lines, one), one)
  {
    var spec, outside := Lenient(), AllBut(lines, one);
    forall path: string ensures InScope(spec, outside, path) {
      assert outside.matches(path, spec.allowed[0]);
    }
    assert outside.matches(one, spec.protected[0]);
    assert !IsSpace('+') && outside.capture.patch[0] == '+';
    assert Gate(spec, outside, V1).Fine?;
    assert AllInScope(spec, outside) && NoneTampers(spec, outside);
    forall step: Step ensures Gate(spec, outside, step).Fine? {
    }
    ClearMeansFine(spec, outside);
  }

  /**
   A pass means a clean workspace, whatever the specification, exactly if Git's list is faithful, or
   shows a test file, so that nothing passes at all.
   */
  lemma PassIsCleanExactly(w: Workspace)
    requires WellFormed(w.changes)
    ensures PassMeansCleanWorkspace(w) <==> (Faithful(w) || ShowsTests(ChangedFiles(w)))
  {
    ListIsComplete(w);
    if Faithful(w) {
      forall spec: Spec, outside: Outside | outside.changed == ChangedFiles(w) && FullCourse(spec, outside).Clear()
        ensures Clean(spec, outside, w)
      {
        PassOfCompleteList(w, spec, outside);
      }
    } else if ShowsTests(ChangedFiles(w)) {
      forall spec: Spec, outside: Outside | outside.changed == ChangedFiles(w) ensures !FullCourse(spec, outside).Clear() {
        TestsNeverPass(spec, outside);
      }
    } else {
      var missing := SomethingGoesMissing(w);
      LenientPasses(ChangedFiles(w), missing);
      assert FullCourse(Lenient(), AllBut(ChangedFiles(w), missing)).Clear();
    }
  }

  // ---- It happens ----

  predicate Lacks(text: string, mark: char) { forall k :: 0 <= k < |text| ==> text[k] != mark }

  lemma OctalsAreDigits(bytes: seq<nat>)
    ensures Lacks(Octals(bytes), '/') && Lacks(Octals(bytes), '.')
  {
  }

  lemma EscapedIsNoMark(c: char, mark: char)
    requires (mark == '/' || mark == '.') && c != mark
    ensures Lacks(Escaped(c), mark)
  {
    OctalsAreDigits(Utf8(c as nat));
  }

  /** Quoting a name adds no slash and no dot. */
  lemma {:induction false} EscapingAddsNoMark(name: string, mark: char)
    requires (mark == '/' || mark == '.') && Lacks(name, mark)
    ensures Lacks(AllEscaped(name), mark)
  {
    if name != "" {
      EscapedIsNoMark(name[0], mark);
      EscapingAddsNoMark(name[1..], mark);
    }
  }

  lemma {:induction false} NeedsEveryChar(text: string, part: string, i: nat)
    requires i < |part|
    ensures Contains(text, part) ==> !Lacks(text, part[i])
  {
    if part <= text {
      assert text[i] == part[i];
    } else if text != "" {
      NeedsEveryChar(text[1..], part, i);
    }
  }

  /** Without a slash and a dot, only the beginning of a name can make it a test. */
  lemma OnlyTheBeginning(name: string)
    requires Lacks(name, '/') && Lacks(name, '.')
    ensures IsTestFile(name) <==> "test_" <= name
  {
    assert NoSlash(name);
    NameIsPath(name);
    assert name[0..] == name;
    NeedsEveryChar(name, "tests/", 5);
    NeedsEveryChar(name, "/test_", 0);
    NeedsEveryChar(name, ".test.", 0);
    NeedsEveryChar(name, ".spec.", 0);
  }

  /** The plainest of these names: a test with an accent. */
  const ACCENTED: string := "test_\U{E9}"

  lemma AccentedIsQuoted()
    ensures "test_" <= ACCENTED && Lacks(ACCENTED, '/') && Lacks(ACCENTED, '.') && NeedsQuotes(ACCENTED)
  {
    assert !IsPlain(ACCENTED[5]);
  }

  lemma OneLine(path: string)
    ensures !Blank(Printed(path)) ==> ChangedFiles(Workspace([Touched(path)], true)) == [Printed(path)]
  {
    var changes := [Touched(path)];
    assert changes[..0] == [];
    assert LinesOf(changes) == LinesOf([]) + (if Blank(Printed(path)) then [] else [Printed(path)]);
  }

  /** Some specification lets this workspace pass. */
  ghost predicate CanPass(w: Workspace) {
    exists spec: Spec, outside: Outside :: outside.changed == ChangedFiles(w) && FullCourse(spec, outside).Clear()
  }

  lemma OneChange(name: string)
    requires name != ""
    ensures WellFormed([Touched(name)]) && Affected([Touched(name)], name)
  {
    assert name in Names([Touched(name)][0]);
  }

  lemma PassesUnseen(w: Workspace, line: string)
    requires ChangedFiles(w) == [line] && !IsTestFile(line)
    ensures CanPass(w)
  {
    var one := line + "+";
    LenientPasses([line], one);
    assert AllBut([line], one).changed == ChangedFiles(w);
  }

  lemma BeginsWithQuote(line: string)
    requires line != "" && line[0] == '"' && Lacks(line, '/') && Lacks(line, '.')
    ensures !IsTestFile(line) && !Blank(line)
  {
    OnlyTheBeginning(line);
    assert "test_"[0] == 't';
    assert !IsSpace(line[0]);
  }

  lemma QuotedIsNoTest(name: string)
    requires Lacks(name, '/') && Lacks(name, '.') && NeedsQuotes(name)
    ensures !IsTestFile(Printed(name)) && !Blank(Printed(name))
  {
    EscapingAddsNoMark(name, '/');
    EscapingAddsNoMark(name, '.');
    BeginsWithQuote(Printed(name));
  }

  /**
   A changed test that is known as one by the beginning of its name alone, and whose name has to be
   quoted, is taken for no test: its line begins with the quote.
   */
  lemma QuotedTestPasses(name: string)
    requires "test_" <= name && Lacks(name, '/') && Lacks(name, '.') && NeedsQuotes(name)
    ensures var w := Workspace([Touched(name)], true);
      && WellFormed(w.changes) && Affected(w.changes, name) && IsTestFile(name) && CanPass(w)
  {
    OneChange(name);
    OnlyTheBeginning(name);
    QuotedPasses(name);
  }

  lemma QuotedPasses(name: string)
    requires Lacks(name, '/') && Lacks(name, '.') && NeedsQuotes(name)
    ensures CanPass(Workspace([Touched(name)], true))
  {
    QuotedIsNoTest(name);
    OneLine(name);
    PassesUnseen(Workspace([Touched(name)], true), Printed(name));
  }
}
