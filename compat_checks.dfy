/**
  The individual checks of the deployment compatibility test
  (test_compability.py). Every external probe (a `subprocess.run`, a
  socket `connect_ex`, `shutil.disk_usage`, `Path.exists`) is an input; a
  check returns the Python value it returns (`True`, `False` or the string
  "undetermined") and, where the model keeps it, the lines it logs.
 */
module CompatChecks {

  /** A value a check returns: a Python bool or a Python string. */
  datatype Value = Bool(b: bool) | Str(s: string)

  /** The string the port check returns when it cannot decide. */
  const UndeterminedValue := Str("undetermined")

  /** Python truthiness of a value. */
  predicate Truthy(v: Value) {
    match v
    case Bool(b) => b
    case Str(s) => s != ""
  }

  /** What one `subprocess.run` gave: an exit status, a timeout, or an exception (program not installed). */
  datatype ProcResult = Exited(code: int) | TimedOut | Raised

  /**
    `test_docker`: `docker --version` must succeed, and only then is
    `docker info` run; any exception or timeout gives False.
   */
  function Docker(version: ProcResult, info: ProcResult): (r: Value)
    ensures r == Bool(true) <==> version == Exited(0) && info == Exited(0)
    ensures r == Bool(true) || r == Bool(false)
  {
    match version
    case Exited(code) =>
      if code != 0 then Bool(false)
      else if info.Exited? && info.code == 0 then Bool(true)
      else Bool(false)
    case _ => Bool(false)
  }

  /** What `test_docker_compose` returned and whether it ran the legacy command. */
  datatype ComposeCheck = ComposeCheck(value: Value, triedLegacy: bool)

  /**
    `test_docker_compose`: `docker compose version` first; the legacy
    `docker-compose --version` only when the first exits non-zero. An
    exception from either (a missing program) goes to the `except` branch,
    so when `docker` itself is missing the legacy command is never tried.
   */
  function DockerCompose(v2: ProcResult, legacy: ProcResult): (c: ComposeCheck)
    ensures c.triedLegacy <==> v2.Exited? && v2.code != 0
    ensures c.value == Bool(true) <==> v2 == Exited(0) || (c.triedLegacy && legacy == Exited(0))
    ensures c.value == Bool(true) || c.value == Bool(false)
  {
    match v2
    case Exited(code) =>
      if code == 0 then ComposeCheck(Bool(true), false)
      else ComposeCheck(if legacy == Exited(0) then Bool(true) else Bool(false), true)
    case _ => ComposeCheck(Bool(false), false)
  }

  /** `test_git` and `test_curl`: the `--version` command must run and exit 0. */
  function VersionProbe(p: ProcResult): (r: Value)
    ensures r == Bool(true) <==> p == Exited(0)
    ensures r == Bool(true) || r == Bool(false)
  {
    if p.Exited? && p.code == 0 then Bool(true) else Bool(false)
  }

  /** What `shutil.disk_usage` gave, in bytes, or that it raised. */
  datatype DiskProbe = Usage(free: nat, total: nat) | Unavailable

  /** The 10 GB the disk check asks for, in bytes. */
  const RequiredBytes: nat := 10 * 1024 * 1024 * 1024

  /** What `test_disk_space` returned and whether it logged the low-space warning. */
  datatype DiskCheck = DiskCheck(value: Value, lowSpace: bool)

  /**
    `test_disk_space`: True whenever the measurement succeeds, below the
    threshold as well (with a warning); False only when it raises.
   */
  function DiskSpace(probe: DiskProbe): (c: DiskCheck)
    ensures c.value == Bool(true) <==> probe.Usage?
    ensures c.value == Bool(true) || c.value == Bool(false)
    ensures c.lowSpace <==> probe.Usage? && probe.free < RequiredBytes
  {
    match probe
    case Usage(free, _) => DiskCheck(Bool(true), free < RequiredBytes)
    case Unavailable => DiskCheck(Bool(false), false)
  }

  // ---------------------------------------------------------------------
  // Decimal rendering of port numbers in log lines
  // ---------------------------------------------------------------------

  function Digit(d: nat): char
    requires d < 10
  {
    ('0' as int + d) as char
  }

  predicate IsDigits(s: string) {
    forall i :: 0 <= i < |s| ==> '0' <= s[i] <= '9'
  }

  /** The number a string of decimal digits denotes, `int(s)`. */
  function DecimalValue(s: string): nat
    requires IsDigits(s)
  {
    if s == [] then 0
    else DecimalValue(s[..|s| - 1]) * 10 + (s[|s| - 1] as int - '0' as int)
  }

  /**
    Python's `str(n)` for a non-negative integer: decimal digits that
    denote `n`, with no leading zero unless `n` is 0.
   */
  function Decimal(n: nat): (s: string)
    ensures |s| >= 1 && IsDigits(s)
    ensures DecimalValue(s) == n
    ensures s[0] == '0' ==> n == 0
  {
    if n < 10 then [Digit(n)]
    else
      var s := Decimal(n / 10) + [Digit(n % 10)];
      assert s[..|s| - 1] == Decimal(n / 10);
      s
  }

  // ---------------------------------------------------------------------
  // Port availability
  // ---------------------------------------------------------------------

  /** What `connect_ex(('localhost', port))` gave: an error number (0 = connected), or an exception. */
  datatype ConnectResult = Code(errno: int) | SocketError(msg: string)

  /** `ports_to_check`, in dictionary order. */
  const PortsToCheck: seq<(nat, string)> := [(11434, "Ollama API"), (3000, "Frontend (Next.js)")]

  const PortHeader := "\nPORT AVAILABILITY TEST"

  /** Index of the first port whose probe raises, or |ports| when none does. */
  function FirstSocketError(ports: seq<(nat, string)>, probe: nat -> ConnectResult): (k: nat)
    ensures k <= |ports|
    ensures forall i :: 0 <= i < k ==> probe(ports[i].0).Code?
    ensures k < |ports| ==> probe(ports[k].0).SocketError?
  {
    if ports == [] then 0
    else if probe(ports[0].0).SocketError? then 0
    else
      var k := 1 + FirstSocketError(ports[1..], probe);
      assert forall i :: 1 <= i < |ports| ==> ports[i] == ports[1..][i - 1];
      k
  }

  /** The ports found in use (connect_ex gave 0), in check order. */
  function InUse(ports: seq<(nat, string)>, probe: nat -> ConnectResult): seq<nat>
    decreases |ports|
  {
    if ports == [] then []
    else
      var last := ports[|ports| - 1];
      InUse(ports[..|ports| - 1], probe) + (if probe(last.0) == Code(0) then [last.0] else [])
  }

  /** A port is reported in use exactly when it is checked and its probe connected. */
  lemma {:induction false} InUseMembers(ports: seq<(nat, string)>, probe: nat -> ConnectResult, p: nat)
    ensures p in InUse(ports, probe) <==>
      exists i :: 0 <= i < |ports| && ports[i].0 == p && probe(p) == Code(0)
    decreases |ports|
  {
    if ports != [] {
      var init := ports[..|ports| - 1];
      InUseMembers(init, probe, p);
      assert forall i :: 0 <= i < |init| ==> init[i] == ports[i];
    }
  }

  /** Checking a list of ports in two parts reports the first part's ports first. */
  lemma {:induction false} InUseAppend(a: seq<(nat, string)>, b: seq<(nat, string)>, probe: nat -> ConnectResult)
    ensures InUse(a + b, probe) == InUse(a, probe) + InUse(b, probe)
    decreases |b|
  {
    if b != [] {
      var binit := b[..|b| - 1];
      assert (a + b)[..|a + b| - 1] == a + binit;
      InUseAppend(a, binit, probe);
    } else {
      assert a + b == a;
    }
  }

  function PortLine(entry: (nat, string), result: ConnectResult): string {
    "Port " + Decimal(entry.0) + " (" + entry.1 + "): "
      + (if result == Code(0) then "IN USE (service may be running)" else "Available")
  }

  /** The per-port lines, one for each port, in check order. */
  function PortLines(ports: seq<(nat, string)>, probe: nat -> ConnectResult): (lines: seq<string>)
    ensures |lines| == |ports|
    decreases |ports|
  {
    if ports == [] then []
    else
      var last := ports[|ports| - 1];
      PortLines(ports[..|ports| - 1], probe) + [PortLine(last, probe(last.0))]
  }

  /** Line `i` reports port `i` and whether its probe connected. */
  lemma {:induction false} PortLinesInOrder(ports: seq<(nat, string)>, probe: nat -> ConnectResult, i: nat)
    requires i < |ports|
    ensures PortLines(ports, probe)[i] == PortLine(ports[i], probe(ports[i].0))
    decreases |ports|
  {
    if i < |ports| - 1 {
      var init := ports[..|ports| - 1];
      PortLinesInOrder(init, probe, i);
    }
  }

  /** The value `test_port_availability` returns. */
  function PortValue(ports: seq<(nat, string)>, probe: nat -> ConnectResult): Value {
    if FirstSocketError(ports, probe) < |ports| then Bool(false)
    else if InUse(ports, probe) == [] then Bool(true)
    else UndeterminedValue
  }

  /**
    The lines `test_port_availability` logs: the header and one line per
    port; then the verdict line, or, when a probe raises, the error line
    right after the lines of the ports before it.
   */
  function PortLog(ports: seq<(nat, string)>, probe: nat -> ConnectResult): seq<string> {
    var k := FirstSocketError(ports, probe);
    if k < |ports| then
      [PortHeader] + PortLines(ports[..k], probe) + ["Port test failed: " + probe(ports[k].0).msg]
    else
      [PortHeader] + PortLines(ports, probe)
      + [if InUse(ports, probe) == [] then "Port availability test passed"
         else "Port status: UNDETERMINED (services may already be running)"]
  }

  /**
    `test_port_availability`: probes each port in order, collecting the
    ones in use; True when none is, "undetermined" when some are, and
    False when a probe raises (the loop stops there).
   */
  method PortAvailability(ports: seq<(nat, string)>, probe: nat -> ConnectResult)
    returns (r: Value, portsInUse: seq<nat>, lines: seq<string>)
    ensures r == PortValue(ports, probe)
    ensures r == Bool(false) <==> exists i :: 0 <= i < |ports| && probe(ports[i].0).SocketError?
    ensures r == Bool(true) <==>
      (forall i :: 0 <= i < |ports| ==> probe(ports[i].0).Code? && probe(ports[i].0) != Code(0))
    ensures FirstSocketError(ports, probe) == |ports| ==> portsInUse == InUse(ports, probe)
    ensures lines == PortLog(ports, probe)
  {
    portsInUse := [];
    lines := [PortHeader];
    var i := 0;
    while i < |ports|
      invariant 0 <= i <= |ports|
      invariant forall j :: 0 <= j < i ==> probe(ports[j].0).Code?
      invariant portsInUse == InUse(ports[..i], probe)
      invariant lines == [PortHeader] + PortLines(ports[..i], probe)
    {
      var (port, service) := ports[i];
      assert ports[..i + 1][..i] == ports[..i];
      match probe(port) {
        case SocketError(msg) =>
          FirstErrorAt(ports, probe, i);
          lines := lines + ["Port test failed: " + msg];
          r := Bool(false);
          return;
        case Code(code) =>
          if code == 0 {
            portsInUse := portsInUse + [port];
          }
          lines := lines + [PortLine(ports[i], Code(code))];
      }
      i := i + 1;
    }
    assert ports[..i] == ports;
    NoErrorNoUseMeansFree(ports, probe);
    if portsInUse == [] {
      lines := lines + ["Port availability test passed"];
      r := Bool(true);
    } else {
      lines := lines + ["Port status: UNDETERMINED (services may already be running)"];
      r := UndeterminedValue;
    }
  }

  /** The first raising probe is at `i` when all before it returned a code. */
  lemma FirstErrorAt(ports: seq<(nat, string)>, probe: nat -> ConnectResult, i: nat)
    requires i < |ports| && probe(ports[i].0).SocketError?
    requires forall j :: 0 <= j < i ==> probe(ports[j].0).Code?
    ensures FirstSocketError(ports, probe) == i
  {
  }

  /** With no raising probe, no port is in use exactly when every probe gave a non-zero code. */
  lemma NoErrorNoUseMeansFree(ports: seq<(nat, string)>, probe: nat -> ConnectResult)
    requires forall j :: 0 <= j < |ports| ==> probe(ports[j].0).Code?
    ensures InUse(ports, probe) == [] <==> forall j :: 0 <= j < |ports| ==> probe(ports[j].0) != Code(0)
  {
  }

  // ---------------------------------------------------------------------
  // Project structure
  // ---------------------------------------------------------------------

  /** `required_paths`, path and description, in dictionary order. */
  const RequiredPaths: seq<(string, string)> := [
    ("docker-compose.yml", "Docker orchestration file"),
    ("backend/models", "Model deployment directory"),
    ("backend/models/Dockerfile", "Model container definition"),
    ("frontend", "Frontend application directory")
  ]

  const StructureHeader := "\nPROJECT STRUCTURE TEST"

  function PathLine(entry: (string, string), found: bool): string {
    if found then entry.0 + ": Found" else entry.0 + ": MISSING (" + entry.1 + ")"
  }

  /** The per-path lines, one for each required path, in declaration order. */
  function PathLines(required: seq<(string, string)>, present: string -> bool): (lines: seq<string>)
    ensures |lines| == |required|
    decreases |required|
  {
    if required == [] then []
    else
      var last := required[|required| - 1];
      PathLines(required[..|required| - 1], present) + [PathLine(last, present(last.0))]
  }

  /** Line `i` reports path `i`: found or missing with its description. */
  lemma {:induction false} PathLinesInOrder(required: seq<(string, string)>, present: string -> bool, i: nat)
    requires i < |required|
    ensures PathLines(required, present)[i] == PathLine(required[i], present(required[i].0))
    decreases |required|
  {
    if i < |required| - 1 {
      var init := required[..|required| - 1];
      PathLinesInOrder(init, present, i);
    }
  }

  /**
    `test_project_structure`: logs one line per required path and returns
    True exactly when every path exists.
   */
  method ProjectStructure(required: seq<(string, string)>, present: string -> bool)
    returns (allExist: bool, lines: seq<string>)
    ensures allExist <==> forall i :: 0 <= i < |required| ==> present(required[i].0)
    ensures lines == [StructureHeader] + PathLines(required, present)
      + [if allExist then "Project structure test passed" else "Project structure test failed"]
  {
    allExist := true;
    lines := [StructureHeader];
    var i := 0;
    while i < |required|
      invariant 0 <= i <= |required|
      invariant allExist <==> forall j :: 0 <= j < i ==> present(required[j].0)
      invariant lines == [StructureHeader] + PathLines(required[..i], present)
    {
      var (path, description) := required[i];
      assert required[..i + 1][..i] == required[..i];
      if present(path) {
        lines := lines + [path + ": Found"];
      } else {
        lines := lines + [path + ": MISSING (" + description + ")"];
        allExist := false;
      }
      i := i + 1;
    }
    assert required[..i] == required;
    if allExist {
      lines := lines + ["Project structure test passed"];
    } else {
      lines := lines + ["Project structure test failed"];
    }
  }
}
