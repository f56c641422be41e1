/**
  The summary of the deployment compatibility test (`main` in
  test_compability.py): the status of each check, the pass / undetermined /
  fail counts, the three-way verdict and the exit code.
 */
module CompatSummary {
  import opened CompatChecks

  /** `test_results`: check name to returned value, in insertion order. */
  type Results = seq<(string, Value)>

  datatype Status = Passed | Undetermined | Failed

  /** The status shown for a value: "undetermined" first, then truthiness. */
  function Classify(v: Value): Status {
    if v == UndeterminedValue then Undetermined
    else if Truthy(v) then Passed
    else Failed
  }

  function StatusName(s: Status): string {
    match s
    case Passed => "PASSED"
    case Undetermined => "UNDETERMINED"
    case Failed => "FAILED"
  }

  /** The values the checks of this test return. */
  predicate IsCheckValue(v: Value) {
    v == Bool(true) || v == Bool(false) || v == UndeterminedValue
  }

  /** On the values the checks return, PASSED is shown exactly for `True`. */
  lemma ClassifyCheckValue(v: Value)
    requires IsCheckValue(v)
    ensures Classify(v) == Passed <==> v == Bool(true)
    ensures Classify(v) == Undetermined <==> v == UndeterminedValue
    ensures Classify(v) == Failed <==> v == Bool(false)
  {
  }

  /**
    On other values the two disagree: a non-empty string other than
    "undetermined" is shown as PASSED but is not counted as passed, since
    the count asks for `r is True`.
   */
  lemma ClassifyOtherString(s: string)
    requires s != "" && s != "undetermined"
    ensures Classify(Str(s)) == Passed && CountTrue([("", Str(s))]) == 0
  {
  }

  /** `sum(1 for r in ... if r is True)` */
  function CountTrue(rs: Results): nat {
    if rs == [] then 0 else (if rs[0].1 == Bool(true) then 1 else 0) + CountTrue(rs[1..])
  }

  /** `sum(1 for r in ... if r == "undetermined")` */
  function CountUndetermined(rs: Results): nat {
    if rs == [] then 0 else (if rs[0].1 == UndeterminedValue then 1 else 0) + CountUndetermined(rs[1..])
  }

  /** The number of checks whose result is anything but exactly `True`. */
  function CountNotTrue(rs: Results): nat {
    if rs == [] then 0 else (if rs[0].1 != Bool(true) then 1 else 0) + CountNotTrue(rs[1..])
  }

  /** The number of checks shown with status `st`. */
  function CountStatus(rs: Results, st: Status): nat {
    if rs == [] then 0 else (if Classify(rs[0].1) == st then 1 else 0) + CountStatus(rs[1..], st)
  }

  /**
    The passed and undetermined counts never exceed the number of checks,
    and the checks that are not exactly True are the rest.
   */
  lemma {:induction false} CountsPartition(rs: Results)
    ensures CountTrue(rs) + CountUndetermined(rs) <= |rs|
    ensures CountTrue(rs) + CountNotTrue(rs) == |rs|
  {
    if rs != [] {
      CountsPartition(rs[1..]);
    }
  }

  /**
    When every check returns True, False or "undetermined", the counts in
    the "Total:" line agree with the statuses listed above it.
   */
  lemma {:induction false} StatusCountsAgree(rs: Results)
    requires forall i :: 0 <= i < |rs| ==> IsCheckValue(rs[i].1)
    ensures CountStatus(rs, Passed) == CountTrue(rs)
    ensures CountStatus(rs, Undetermined) == CountUndetermined(rs)
    ensures CountStatus(rs, Failed) == |rs| - CountTrue(rs) - CountUndetermined(rs)
  {
    if rs != [] {
      assert forall i :: 0 <= i < |rs[1..]| ==> rs[1..][i] == rs[i + 1];
      StatusCountsAgree(rs[1..]);
      ClassifyCheckValue(rs[0].1);
    }
  }

  /** `test_results.get(name, default)`. */
  function Lookup(rs: Results, name: string, default: Value): Value {
    if rs == [] then default
    else if rs[0].0 == name then rs[0].1
    else Lookup(rs[1..], name, default)
  }

  /** The checks that must pass to deploy. */
  const CriticalTests: seq<string> := ["Docker", "Docker Compose", "Project Structure"]

  /** `all(test_results.get(test, False) for test in critical_tests)` */
  predicate CriticalPassed(rs: Results) {
    forall i :: 0 <= i < |CriticalTests| ==> Truthy(Lookup(rs, CriticalTests[i], Bool(false)))
  }

  datatype Verdict = Ready | ReadyWithIssues | CriticalMissing

  datatype Summary = Summary(
    passed: nat, undetermined: nat, failed: int, total: nat,
    critical: bool, verdict: Verdict, exitCode: int)

  /**
    The counts, verdict and exit code of a run. SUCCESS needs the critical
    checks and at most one check that is not exactly True; WARNING is the
    rest of the critical-pass cases; FAILED is everything else. The exit
    code depends on the critical checks only.
   */
  function Summarize(rs: Results): (s: Summary)
    ensures s.total == |rs| && s.passed == CountTrue(rs) && s.undetermined == CountUndetermined(rs)
    ensures s.failed >= 0 && s.passed + s.undetermined + s.failed == s.total
    ensures s.critical == CriticalPassed(rs)
    ensures s.exitCode == 0 <==> s.critical
    ensures s.exitCode == 0 || s.exitCode == 1
    ensures s.verdict == Ready <==> s.critical && CountNotTrue(rs) <= 1
    ensures s.verdict == ReadyWithIssues <==> s.critical && CountNotTrue(rs) > 1
    ensures s.verdict == CriticalMissing <==> !s.critical
  {
    CountsPartition(rs);
    var passed := CountTrue(rs);
    var undetermined := CountUndetermined(rs);
    var total := |rs|;
    var critical := CriticalPassed(rs);
    var verdict :=
      if critical && passed >= total - 1 then Ready
      else if critical then ReadyWithIssues
      else CriticalMissing;
    Summary(passed, undetermined, total - passed - undetermined, total, critical, verdict,
      if critical then 0 else 1)
  }

  function StatusLine(entry: (string, Value)): string {
    "  " + entry.0 + ": " + StatusName(Classify(entry.1))
  }

  /** `Total: {passed} passed, {undetermined} undetermined, {failed} failed`, after a blank line. */
  function TotalLine(s: Summary): string
    requires s.failed >= 0
  {
    "\nTotal: " + Decimal(s.passed) + " passed, " + Decimal(s.undetermined) + " undetermined, "
      + Decimal(s.failed) + " failed"
  }

  /** The lines logged after the summary table, one block per verdict. */
  function VerdictLines(v: Verdict): seq<string> {
    match v
    case Ready => [
      "\n[SUCCESS] System ready for deployment",
      "\nNext steps:",
      "  1. docker compose build ollama",
      "  2. docker compose up -d ollama",
      "  3. curl http://localhost:11434/api/tags"]
    case ReadyWithIssues => ["\n[WARNING] System ready but with minor issues"]
    case CriticalMissing => [
      "\n[FAILED] Critical requirements missing",
      "Fix failed tests before deployment"]
  }

  /** The status table: one line per check, in the order the checks ran. */
  method StatusTable(rs: Results) returns (lines: seq<string>)
    ensures |lines| == |rs|
    ensures forall i :: 0 <= i < |rs| ==> lines[i] == StatusLine(rs[i])
  {
    lines := [];
    for i := 0 to |rs|
      invariant |lines| == i
      invariant forall j :: 0 <= j < i ==> lines[j] == StatusLine(rs[j])
    {
      lines := lines + [StatusLine(rs[i])];
    }
  }

  /** Everything the probes of one run report. */
  datatype Probes = Probes(
    dockerVersion: ProcResult, dockerInfo: ProcResult,
    composeV2: ProcResult, composeLegacy: ProcResult,
    git: ProcResult, curl: ProcResult,
    connect: nat -> ConnectResult,
    disk: DiskProbe,
    present: string -> bool)

  const TestNames: seq<string> := [
    "Docker", "Docker Compose", "Git", "curl", "Port Availability", "Disk Space", "Project Structure"]

  /** Runs the seven checks in order and collects `test_results`. */
  method RunChecks(p: Probes) returns (rs: Results)
    ensures |rs| == |TestNames|
    ensures forall i :: 0 <= i < |rs| ==> rs[i].0 == TestNames[i]
    ensures rs[0].1 == Docker(p.dockerVersion, p.dockerInfo)
    ensures rs[1].1 == DockerCompose(p.composeV2, p.composeLegacy).value
    ensures rs[2].1 == VersionProbe(p.git)
    ensures rs[3].1 == VersionProbe(p.curl)
    ensures rs[4].1 == PortValue(PortsToCheck, p.connect)
    ensures rs[5].1 == DiskSpace(p.disk).value
    ensures rs[6].1 == Bool(forall i :: 0 <= i < |RequiredPaths| ==> p.present(RequiredPaths[i].0))
  {
    var port, _, _ := PortAvailability(PortsToCheck, p.connect);
    var structure, _ := ProjectStructure(RequiredPaths, p.present);
    rs := [
      (TestNames[0], Docker(p.dockerVersion, p.dockerInfo)),
      (TestNames[1], DockerCompose(p.composeV2, p.composeLegacy).value),
      (TestNames[2], VersionProbe(p.git)),
      (TestNames[3], VersionProbe(p.curl)),
      (TestNames[4], port),
      (TestNames[5], DiskSpace(p.disk).value),
      (TestNames[6], Bool(structure))];
  }

  /** Every check of a run returns True, False or "undetermined". */
  lemma RunChecksValues(rs: Results, p: Probes)
    requires |rs| == 7
    requires rs[0].1 == Docker(p.dockerVersion, p.dockerInfo)
    requires rs[1].1 == DockerCompose(p.composeV2, p.composeLegacy).value
    requires rs[2].1 == VersionProbe(p.git) && rs[3].1 == VersionProbe(p.curl)
    requires rs[4].1 == PortValue(PortsToCheck, p.connect)
    requires rs[5].1 == DiskSpace(p.disk).value
    requires rs[6].1.Bool?
    ensures forall i :: 0 <= i < |rs| ==> IsCheckValue(rs[i].1)
  {
  }

  /**
    The summary section of `main`: the status table, the "Total:" line and
    the verdict's lines, with the exit code and verdict of the results.
   */
  method SummaryReport(results: Results) returns (exitCode: int, verdict: Verdict, report: seq<string>)
    ensures exitCode == Summarize(results).exitCode && verdict == Summarize(results).verdict
    ensures |report| == |results| + 1 + |VerdictLines(verdict)|
    ensures forall i :: 0 <= i < |results| ==> report[i] == StatusLine(results[i])
    ensures report[|results|] == TotalLine(Summarize(results))
    ensures report[|results| + 1..] == VerdictLines(verdict)
  {
    var summary := Summarize(results);
    var table := StatusTable(results);
    exitCode, verdict := summary.exitCode, summary.verdict;
    report := table + [TotalLine(summary)] + VerdictLines(verdict);
    assert report[|results| + 1..] == VerdictLines(verdict);
  }

  /**
    `main`: runs the checks, logs the status table, the totals and the
    verdict, and exits with 0 exactly when Docker, Docker Compose and the
    project structure pass.
   */
  method CompatibilityTest(p: Probes) returns (results: Results, exitCode: int, verdict: Verdict, report: seq<string>)
    ensures |results| == |TestNames|
    ensures forall i :: 0 <= i < |results| ==> results[i].0 == TestNames[i] && IsCheckValue(results[i].1)
    ensures results[0].1 == Docker(p.dockerVersion, p.dockerInfo)
    ensures results[1].1 == DockerCompose(p.composeV2, p.composeLegacy).value
    ensures results[2].1 == VersionProbe(p.git)
    ensures results[3].1 == VersionProbe(p.curl)
    ensures results[4].1 == PortValue(PortsToCheck, p.connect)
    ensures results[5].1 == DiskSpace(p.disk).value
    ensures results[6].1 == Bool(forall i :: 0 <= i < |RequiredPaths| ==> p.present(RequiredPaths[i].0))
    ensures exitCode == 0 <==>
      && Docker(p.dockerVersion, p.dockerInfo) == Bool(true)
      && DockerCompose(p.composeV2, p.composeLegacy).value == Bool(true)
      && (forall i :: 0 <= i < |RequiredPaths| ==> p.present(RequiredPaths[i].0))
    ensures exitCode == 0 || exitCode == 1
    ensures verdict == Ready <==> exitCode == 0 && CountNotTrue(results) <= 1
    ensures verdict == ReadyWithIssues <==> exitCode == 0 && CountNotTrue(results) > 1
    ensures verdict == CriticalMissing <==> exitCode == 1
    ensures |report| == |results| + 1 + |VerdictLines(verdict)|
    ensures forall i :: 0 <= i < |results| ==> report[i] == StatusLine(results[i])
    ensures report[|results|] == TotalLine(Summarize(results))
    ensures report[|results| + 1..] == VerdictLines(verdict)
  {
    results := RunChecks(p);
    RunChecksValues(results, p);
    CriticalOfRun(results);
    exitCode, verdict, report := SummaryReport(results);
  }

  /** The lookup finds the first entry carrying the name. */
  lemma {:induction false} LookupFirst(rs: Results, name: string, default: Value, i: nat)
    requires i < |rs| && rs[i].0 == name
    requires forall j :: 0 <= j < i ==> rs[j].0 != name
    ensures Lookup(rs, name, default) == rs[i].1
  {
    if i > 0 {
      LookupFirst(rs[1..], name, default, i - 1);
    }
  }

  /** For the fixed table of checks, the critical lookup finds entries 0, 1 and 6. */
  lemma CriticalOfRun(rs: Results)
    requires |rs| == |TestNames|
    requires forall i :: 0 <= i < |rs| ==> rs[i].0 == TestNames[i]
    ensures CriticalPassed(rs) <==> Truthy(rs[0].1) && Truthy(rs[1].1) && Truthy(rs[6].1)
  {
    LookupFirst(rs, "Docker", Bool(false), 0);
    LookupFirst(rs, "Docker Compose", Bool(false), 1);
    LookupFirst(rs, "Project Structure", Bool(false), 6);
    assert CriticalTests[0] == "Docker" && CriticalTests[1] == "Docker Compose";
    assert CriticalTests[2] == "Project Structure";
    if Truthy(rs[0].1) && Truthy(rs[1].1) && Truthy(rs[6].1) {
      forall i | 0 <= i < |CriticalTests|
        ensures Truthy(Lookup(rs, CriticalTests[i], Bool(false)))
      {
      }
    }
  }
}
