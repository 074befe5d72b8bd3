/** The sandbox start script: worker ports under retries, and the port reports the master collects. */
module Sandbox {
  import opened Options

  const MAX_STARTUP_RETRIES: nat := 5
  const PORT_INCREMENT: nat := 200

  // ---- worker ports ----------------------------------------------------------------

  /** `conflicts(r, i)`: when retry round `r` looks, worker `i` is dead with its port in use. Workers count from 0. */
  type Conflicts = (nat, nat) -> bool

  predicate SomeFailed(conflicts: Conflicts, n: nat, r: nat) {
    exists i: nat :: i < n && conflicts(r, i)
  }

  /** The number of retry rounds run, from round `r` on: until nobody failed, at most five. */
  function Rounds(conflicts: Conflicts, n: nat, r: nat): (k: nat)
    requires r <= MAX_STARTUP_RETRIES
    ensures r <= k <= MAX_STARTUP_RETRIES
    decreases MAX_STARTUP_RETRIES - r
  {
    if r == MAX_STARTUP_RETRIES || !SomeFailed(conflicts, n, r) then r else Rounds(conflicts, n, r + 1)
  }

  /** The last of the first `r` rounds that moved worker `i`, counted from 1; 0 when none did. */
  function LastMove(conflicts: Conflicts, i: nat, r: nat): (k: nat)
    ensures k <= r
  {
    if r == 0 then 0 else if conflicts(r - 1, i) then r else LastMove(conflicts, i, r - 1)
  }

  /** A retried worker gets its first port plus the offset of the round. */
  function PortAfter(base: nat, conflicts: Conflicts, i: nat, r: nat): nat {
    base + i + LastMove(conflicts, i, r) * PORT_INCREMENT
  }

  function PortOf(base: nat, conflicts: Conflicts, n: nat, i: nat): nat {
    PortAfter(base, conflicts, i, Rounds(conflicts, n, 0))
  }

  /** Spawning all workers and retrying those whose port was taken. */
  method AssignPorts(base: nat, n: nat, conflicts: Conflicts) returns (ports: array<nat>)
    ensures fresh(ports) && ports.Length == n
    ensures forall i :: 0 <= i < n ==> ports[i] == PortOf(base, conflicts, n, i)
  {
    ports := new nat[n](i => base + i);
    var round := 0;
    while round < MAX_STARTUP_RETRIES
      invariant round <= MAX_STARTUP_RETRIES && fresh(ports) && ports.Length == n
      invariant Rounds(conflicts, n, 0) == Rounds(conflicts, n, round)
      invariant forall i :: 0 <= i < n ==> ports[i] == PortAfter(base, conflicts, i, round)
    {
      var failed := CollectFailed(conflicts, n, round);
      if failed == [] {
        break;
      }
      assert SomeFailed(conflicts, n, round);
      var k := 0;
      while k < |failed|
        invariant k <= |failed|
        invariant forall i :: 0 <= i < n ==>
          ports[i] == PortAfter(base, conflicts, i, if i in failed[..k] then round + 1 else round)
      {
        var i := failed[k];
        assert i in failed && failed[..k + 1] == failed[..k] + [i];
        ports[i] := base + i + (round + 1) * PORT_INCREMENT;
        k := k + 1;
      }
      assert failed[..k] == failed;
      round := round + 1;
    }
  }

  method CollectFailed(conflicts: Conflicts, n: nat, round: nat) returns (failed: seq<nat>)
    ensures forall i: nat :: i in failed <==> i < n && conflicts(round, i)
    ensures failed != [] <==> SomeFailed(conflicts, n, round)
  {
    failed := [];
    for i := 0 to n
      invariant forall j: nat :: j in failed <==> j < i && conflicts(round, j)
    {
      if conflicts(round, i) {
        failed := failed + [i];
      }
    }
    if failed != [] { assert failed[0] in failed; }
  }

  /** Round `r` found worker `i` failed as the last of the first `rounds` rounds, or none did. */
  ghost predicate LastMoved(conflicts: Conflicts, i: nat, rounds: nat, last: nat) {
    && last <= rounds && (last > 0 ==> conflicts(last - 1, i))
    && forall r: nat :: last <= r < rounds ==> !conflicts(r, i)
  }

  lemma {:induction false} LastMoveIsLast(conflicts: Conflicts, i: nat, r: nat)
    ensures LastMoved(conflicts, i, r, LastMove(conflicts, i, r))
  {
    if r > 0 { LastMoveIsLast(conflicts, i, r - 1); }
  }

  lemma {:induction false} RoundsStop(conflicts: Conflicts, n: nat, r: nat)
    requires r <= 5
    ensures Rounds(conflicts, n, r) <= 5
    ensures forall k: nat :: r <= k < Rounds(conflicts, n, r) ==> SomeFailed(conflicts, n, k)
    ensures Rounds(conflicts, n, r) < 5 ==> !SomeFailed(conflicts, n, Rounds(conflicts, n, r))
    decreases 5 - r
  {
    if r < 5 && SomeFailed(conflicts, n, r) { RoundsStop(conflicts, n, r + 1); }
  }

  /**
   * The assigned ports in numbers: retry rounds run until one finds nobody failed, five at most, and a worker ends 200
   * ports above its first one for every round up to the last that found it failed.
   */
  lemma PortsInNumbers(base: nat, conflicts: Conflicts, n: nat, i: nat) returns (rounds: nat, last: nat)
    ensures rounds <= 5 && (forall k: nat :: k < rounds ==> SomeFailed(conflicts, n, k)) && (rounds < 5 ==> !SomeFailed(conflicts, n, rounds))
    ensures LastMoved(conflicts, i, rounds, last) && PortOf(base, conflicts, n, i) == base + i + 200 * last
  {
    rounds := Rounds(conflicts, n, 0);
    last := LastMove(conflicts, i, rounds);
    RoundsStop(conflicts, n, 0);
    LastMoveIsLast(conflicts, i, rounds);
  }

  ghost predicate DistinctPorts(base: nat, conflicts: Conflicts, n: nat) {
    forall i: nat, j: nat :: i < j < n ==> PortOf(base, conflicts, n, i) != PortOf(base, conflicts, n, j)
  }

  lemma OffsetsApart(i: nat, j: nat, a: nat, b: nat)
    requires i < j < PORT_INCREMENT
    ensures i + a * PORT_INCREMENT != j + b * PORT_INCREMENT
  {
  }

  /** Worker 0 fails once, everybody else is fine. */
  function FirstFailsOnce(): Conflicts {
    (r, i) => r == 0 && i == 0
  }

  lemma FirstLandsOnLast(base: nat, n: nat)
    requires n > PORT_INCREMENT
    ensures PortOf(base, FirstFailsOnce(), n, 0) == PortOf(base, FirstFailsOnce(), n, PORT_INCREMENT)
  {
    var c := FirstFailsOnce();
    assert c(0, 0) && SomeFailed(c, n, 0);
    assert !SomeFailed(c, n, 1);
    assert Rounds(c, n, 0) == Rounds(c, n, 1) == 1;
    assert LastMove(c, 0, 1) == 1 && LastMove(c, PORT_INCREMENT, 1) == LastMove(c, PORT_INCREMENT, 0);
  }

  /** The assigned ports are distinct under every pattern of conflicts exactly when there are at most 200 workers. */
  lemma PortsDistinctIffAtMost200(base: nat, n: nat)
    ensures (forall conflicts: Conflicts :: DistinctPorts(base, conflicts, n)) <==> n <= PORT_INCREMENT
  {
    if n <= PORT_INCREMENT {
      forall conflicts: Conflicts ensures DistinctPorts(base, conflicts, n) {
        forall i: nat, j: nat | i < j < n ensures PortOf(base, conflicts, n, i) != PortOf(base, conflicts, n, j) {
          var r := Rounds(conflicts, n, 0);
          OffsetsApart(i, j, LastMove(conflicts, i, r), LastMove(conflicts, j, r));
        }
      }
    } else {
      FirstLandsOnLast(base, n);
      assert !DistinctPorts(base, FirstFailsOnce(), n);
    }
  }

  // ---- port reports ----------------------------------------------------------------------

  /** A line of a report: a worker's port, or the mark that ends it. */
  datatype Line = WorkerPort(worker: nat, port: nat) | ReportComplete

  /** A host of the node list: its name, its name up to the first dot, its base port, and the ports its workers got. */
  datatype Node = Node(name: string, short: string, base: nat, ports: seq<nat>)

  datatype Endpoint = Endpoint(host: string, port: nat)

  /** Starting removes an old report; then the report is opened, filled line by line, and marked complete. */
  datatype Stage = Down | Up | Reporting(lines: nat) | Reported

  /**
   * The master checks the nodes' reports one after another until a whole pass finds each complete; then it reads them
   * one after another, and writes the upstream.
   */
  datatype Master = Checking(node: nat) | Reading(node: nat, got: seq<Endpoint>) | Built(upstream: seq<Endpoint>)

  /** A worker's place: `known` is its entry in `ACTUAL_WORKER_PORTS`, `serves` the port its live process is bound to. */
  datatype Worker = Worker(known: Option<nat>, serves: Option<nat>)

  /** The shared directory, by short name, where each node stands, its workers, and the master's progress. */
  datatype Cluster = Cluster(files: map<string, seq<Line>>, stages: seq<Stage>, workers: seq<seq<Worker>>, master: Master)

  datatype Act =
    | Boot(i: nat) | Open(i: nat) | Append(i: nat) | Finish(i: nat)
    | Die(i: nat, w: nat) | Restart(i: nat, w: nat)
    | Check | Read

  function PortLines(ports: seq<nat>, k: nat): (r: seq<Line>)
    requires k <= |ports|
    ensures |r| == k && forall i :: 0 <= i < k ==> r[i] == WorkerPort(i + 1, ports[i])
  {
    seq(k, i requires 0 <= i < k => WorkerPort(i + 1, ports[i]))
  }

  /** `read_port_file` on the lines of a file. */
  function ReadPorts(host: string, lines: seq<Line>): seq<Endpoint> {
    if lines == [] then []
    else (if lines[0].WorkerPort? then [Endpoint(host, lines[0].port)] else []) + ReadPorts(host, lines[1..])
  }

  /** `read_port_file`; a missing file gives nothing. */
  function ReadNow(node: Node, files: map<string, seq<Line>>): seq<Endpoint> {
    if node.short in files then ReadPorts(node.name, files[node.short]) else []
  }

  predicate HasReport(files: map<string, seq<Line>>, short: string) {
    short in files && ReportComplete in files[short]
  }

  function Gathered(nodes: seq<Node>, files: map<string, seq<Line>>): seq<Endpoint> {
    if nodes == [] then [] else ReadNow(nodes[0], files) + Gathered(nodes[1..], files)
  }

  /** What the upstream ought to hold of one node: its ports under its name. */
  function Endpoints(node: Node): (r: seq<Endpoint>)
    ensures |r| == |node.ports| && forall i :: 0 <= i < |r| ==> r[i] == Endpoint(node.name, node.ports[i])
  {
    seq(|node.ports|, i requires 0 <= i < |node.ports| => Endpoint(node.name, node.ports[i]))
  }

  function AllEndpoints(nodes: seq<Node>): seq<Endpoint> {
    if nodes == [] then [] else Endpoints(nodes[0]) + AllEndpoints(nodes[1..])
  }

  predicate HasWorker(nodes: seq<Node>, c: Cluster, i: nat, w: nat) {
    i < |nodes| && i < |c.workers| && w < |nodes[i].ports| && w < |c.workers[i]|
  }

  /** The master is the first node; it turns to the reports after writing its own. A node mends its workers after reporting. */
  predicate Can(nodes: seq<Node>, c: Cluster, act: Act) {
    && |c.stages| == |nodes|
    && match act
       case Boot(i) => i < |nodes| && c.stages[i] == Down
       case Open(i) => i < |nodes| && c.stages[i] == Up
       case Append(i) =>
         && i < |nodes| && c.stages[i].Reporting? && nodes[i].short in c.files
         && HasWorker(nodes, c, i, c.stages[i].lines) && c.workers[i][c.stages[i].lines].known.Some?
       case Finish(i) => i < |nodes| && c.stages[i] == Reporting(|nodes[i].ports|) && nodes[i].short in c.files
       case Die(i, w) => HasWorker(nodes, c, i, w) && c.workers[i][w].serves.Some?
       case Restart(i, w) => HasWorker(nodes, c, i, w) && c.stages[i] == Reported && c.workers[i][w].serves.None?
       case Check => c.master.Checking? && c.master.node < |nodes| && c.stages[0] == Reported
       case Read => c.master.Reading? && c.master.node < |nodes|
  }

  function SetWorker(workers: seq<seq<Worker>>, i: nat, w: nat, worker: Worker): (r: seq<seq<Worker>>)
    requires i < |workers| && w < |workers[i]|
    ensures |r| == |workers| && forall j :: 0 <= j < |r| ==> |r[j]| == |workers[j]|
    ensures forall j, v :: 0 <= j < |r| && 0 <= v < |r[j]| ==> r[j][v] == if j == i && v == w then worker else workers[j][v]
  {
    workers[i := workers[i][w := worker]]
  }

  /** `start_worker`: the port on record, else the worker's first port. */
  function RestartPort(node: Node, w: nat, worker: Worker): nat {
    if worker.known.Some? then worker.known.value else node.base + w
  }

  /** One pass of the barrier starts over at the first report that is not complete. */
  function Checked(nodes: seq<Node>, c: Cluster): Master
    requires c.master.Checking? && c.master.node < |nodes|
  {
    var k := c.master.node;
    if !HasReport(c.files, nodes[k].short) then Checking(0) else if k + 1 < |nodes| then Checking(k + 1) else Reading(0, [])
  }

  function ReadOne(nodes: seq<Node>, c: Cluster): Master
    requires c.master.Reading? && c.master.node < |nodes|
  {
    var k := c.master.node;
    var got := c.master.got + ReadNow(nodes[k], c.files);
    if k + 1 < |nodes| then Reading(k + 1, got) else Built(got)
  }

  function Done(nodes: seq<Node>, c: Cluster, act: Act): (r: Cluster)
    requires Can(nodes, c, act)
    ensures |r.stages| == |nodes|
  {
    match act
    case Boot(i) => c.(files := c.files - {nodes[i].short}, stages := c.stages[i := Up])
    case Open(i) => c.(files := c.files[nodes[i].short := []], stages := c.stages[i := Reporting(0)])
    case Append(i) =>
      var k := c.stages[i].lines;
      var line := WorkerPort(k + 1, c.workers[i][k].known.value);
      c.(files := c.files[nodes[i].short := c.files[nodes[i].short] + [line]], stages := c.stages[i := Reporting(k + 1)])
    case Finish(i) => c.(files := c.files[nodes[i].short := c.files[nodes[i].short] + [ReportComplete]], stages := c.stages[i := Reported])
    case Die(i, w) => c.(workers := SetWorker(c.workers, i, w, c.workers[i][w].(serves := None)))
    case Restart(i, w) =>
      var port := RestartPort(nodes[i], w, c.workers[i][w]);
      c.(workers := SetWorker(c.workers, i, w, Worker(Some(port), Some(port))))
    case Check => c.(master := Checked(nodes, c))
    case Read => c.(master := ReadOne(nodes, c))
  }

  ghost predicate LegalActs(nodes: seq<Node>, c: Cluster, run: seq<Act>)
    decreases run
  {
    run == [] || (Can(nodes, c, run[0]) && LegalActs(nodes, Done(nodes, c, run[0]), run[1..]))
  }

  ghost function AfterActs(nodes: seq<Node>, c: Cluster, run: seq<Act>): Cluster
    requires LegalActs(nodes, c, run)
    decreases run
  {
    if run == [] then c else AfterActs(nodes, Done(nodes, c, run[0]), run[1..])
  }

  function CountChecks(run: seq<Act>): nat {
    if run == [] then 0 else (if run[0].Check? then 1 else 0) + CountChecks(run[1..])
  }

  lemma {:induction false} PassTakesChecks(nodes: seq<Node>, c: Cluster, run: seq<Act>)
    requires LegalActs(nodes, c, run) && c.master.Checking? && c.master.node <= |nodes| && !AfterActs(nodes, c, run).master.Checking?
    ensures CountChecks(run) >= |nodes| - c.master.node
    decreases run
  {
    if run != [] {
      var next := Done(nodes, c, run[0]);
      if next.master.Checking? { PassTakesChecks(nodes, next, run[1..]); }
    }
  }

  /** The barrier needs one whole pass: after a check that finds no complete report, every node is checked again before any report is read. */
  lemma FailedCheckStartsOver(nodes: seq<Node>, c: Cluster, later: seq<Act>)
    requires Can(nodes, c, Check) && !HasReport(c.files, nodes[c.master.node].short) && LegalActs(nodes, Done(nodes, c, Check), later)
    requires !AfterActs(nodes, Done(nodes, c, Check), later).master.Checking?
    ensures CountChecks(later) >= |nodes|
  {
    PassTakesChecks(nodes, Done(nodes, c, Check), later);
  }

  /** The workers of a node once its ports are assigned. */
  function StartedWorkers(node: Node): (r: seq<Worker>)
    ensures |r| == |node.ports| && forall w :: 0 <= w < |r| ==> r[w] == Worker(Some(node.ports[w]), Some(node.ports[w]))
  {
    seq(|node.ports|, w requires 0 <= w < |node.ports| => Worker(Some(node.ports[w]), Some(node.ports[w])))
  }

  function Launch(nodes: seq<Node>, files: map<string, seq<Line>>): Cluster {
    Cluster(files, seq(|nodes|, i => Down), seq(|nodes|, i requires 0 <= i < |nodes| => StartedWorkers(nodes[i])), Checking(0))
  }

  predicate DistinctShorts(nodes: seq<Node>) {
    forall i, j :: 0 <= i < j < |nodes| ==> nodes[i].short != nodes[j].short
  }

  // ---- what every act keeps --------------------------------------------------------------------

  /** A report is what its node has written so far, or, before the node is up, what an earlier launch left. */
  predicate ReportSo(files: map<string, seq<Line>>, node: Node, stage: Stage, left: map<string, seq<Line>>) {
    match stage
    case Down => if node.short in left then node.short in files && files[node.short] == left[node.short] else node.short !in files
    case Up => node.short !in files
    case Reporting(k) => k <= |node.ports| && node.short in files && files[node.short] == PortLines(node.ports, k)
    case Reported => node.short in files && files[node.short] == PortLines(node.ports, |node.ports|) + [ReportComplete]
  }

  /** Every worker's port is on record, and a live worker serves on it: restarts keep ports. */
  ghost predicate PortsKept(nodes: seq<Node>, workers: seq<seq<Worker>>) {
    && |workers| == |nodes|
    && (forall i :: 0 <= i < |nodes| ==> |workers[i]| == |nodes[i].ports|)
    && (forall i, w :: 0 <= i < |nodes| && 0 <= w < |workers[i]| ==>
          workers[i][w].known == Some(nodes[i].ports[w]) && (workers[i][w].serves.Some? ==> workers[i][w].serves == Some(nodes[i].ports[w])))
  }

  ghost predicate Faithful(nodes: seq<Node>, c: Cluster, left: map<string, seq<Line>>) {
    && |c.stages| == |nodes| && PortsKept(nodes, c.workers)
    && forall i :: 0 <= i < |nodes| ==> ReportSo(c.files, nodes[i], c.stages[i], left)
  }

  /** The acts of a node on its own report. */
  predicate Writes(act: Act) {
    act.Boot? || act.Open? || act.Append? || act.Finish?
  }

  lemma WriteFaithful(nodes: seq<Node>, c: Cluster, act: Act, left: map<string, seq<Line>>)
    requires DistinctShorts(nodes) && Faithful(nodes, c, left) && Can(nodes, c, act) && Writes(act)
    ensures Faithful(nodes, Done(nodes, c, act), left)
  {
    var d := Done(nodes, c, act);
    forall j | 0 <= j < |nodes| ensures ReportSo(d.files, nodes[j], d.stages[j], left) {
      assert ReportSo(c.files, nodes[j], c.stages[j], left);
      if act.i != j { assert nodes[act.i].short != nodes[j].short; }
    }
  }

  lemma ActFaithful(nodes: seq<Node>, c: Cluster, act: Act, left: map<string, seq<Line>>)
    requires DistinctShorts(nodes) && Faithful(nodes, c, left) && Can(nodes, c, act)
    ensures Faithful(nodes, Done(nodes, c, act), left)
  {
    if Writes(act) { WriteFaithful(nodes, c, act, left); }
  }

  lemma LaunchFaithful(nodes: seq<Node>, files: map<string, seq<Line>>)
    ensures Faithful(nodes, Launch(nodes, files), files)
  {
  }

  lemma {:induction false} ReadLines(host: string, ports: seq<nat>, lines: seq<Line>, tail: seq<Line>)
    requires |lines| == |ports| && (forall i :: 0 <= i < |lines| ==> lines[i].WorkerPort? && lines[i].port == ports[i])
    requires tail == [ReportComplete]
    ensures |ReadPorts(host, lines + tail)| == |ports|
    ensures forall i :: 0 <= i < |ports| ==> ReadPorts(host, lines + tail)[i] == Endpoint(host, ports[i])
  {
    if lines == [] {
      assert lines + tail == tail && tail[1..] == [];
    } else {
      ReadLines(host, ports[1..], lines[1..], tail);
      assert (lines + tail)[1..] == lines[1..] + tail;
    }
  }

  // ---- which leftovers are harmless -------------------------------------------------------------

  /** A node without ports of which nothing is left over: whatever is read of it is right. */
  predicate Silent(node: Node, left: map<string, seq<Line>>) {
    node.ports == [] && ReadNow(node, left) == []
  }

  /** A complete report left over by an earlier launch, for a node other than the master, is of a silent node. */
  ghost predicate NothingLeftOver(nodes: seq<Node>, left: map<string, seq<Line>>) {
    forall i :: 1 <= i < |nodes| && HasReport(left, nodes[i].short) ==> Silent(nodes[i], left)
  }

  /** What is read of the node now is right and stays so. */
  predicate Settled(node: Node, stage: Stage, left: map<string, seq<Line>>) {
    stage == Reported || Silent(node, left)
  }

  lemma ReportedRight(files: map<string, seq<Line>>, node: Node, left: map<string, seq<Line>>)
    requires ReportSo(files, node, Reported, left)
    ensures ReadNow(node, files) == Endpoints(node)
  {
    ReadLines(node.name, node.ports, PortLines(node.ports, |node.ports|), [ReportComplete]);
  }

  lemma SettledRight(files: map<string, seq<Line>>, node: Node, stage: Stage, left: map<string, seq<Line>>)
    requires ReportSo(files, node, stage, left) && Settled(node, stage, left)
    ensures ReadNow(node, files) == Endpoints(node)
  {
    if stage == Reported {
      ReportedRight(files, node, left);
    } else {
      assert Endpoints(node) == [];
    }
  }

  /** A report seen complete is the node's own, finished, unless the node is silent. */
  lemma CompleteIsSettled(nodes: seq<Node>, c: Cluster, left: map<string, seq<Line>>, i: nat)
    requires NothingLeftOver(nodes, left) && Faithful(nodes, c, left) && 1 <= i < |nodes| && HasReport(c.files, nodes[i].short)
    ensures Settled(nodes[i], c.stages[i], left)
  {
    assert ReportSo(c.files, nodes[i], c.stages[i], left);
  }

  /** What the master has seen or read so far. */
  ghost predicate OnTheWay(nodes: seq<Node>, c: Cluster, left: map<string, seq<Line>>) {
    |c.stages| == |nodes| &&
    match c.master
    case Checking(k) => k <= |nodes| && forall i :: 0 <= i < k ==> Settled(nodes[i], c.stages[i], left)
    case Reading(k, got) =>
      k <= |nodes| && got == AllEndpoints(nodes[..k]) && forall i :: 0 <= i < |nodes| ==> Settled(nodes[i], c.stages[i], left)
    case Built(upstream) => upstream == AllEndpoints(nodes)
  }

  lemma {:induction false} EndpointsSnoc(nodes: seq<Node>, k: nat)
    requires k < |nodes|
    ensures AllEndpoints(nodes[..k + 1]) == AllEndpoints(nodes[..k]) + Endpoints(nodes[k])
  {
    if k == 0 {
      assert nodes[..1][1..] == [];
    } else {
      EndpointsSnoc(nodes[1..], k - 1);
      assert nodes[..k + 1][1..] == nodes[1..][..k] && nodes[..k][1..] == nodes[1..][..k - 1];
      Assoc(Endpoints(nodes[0]), AllEndpoints(nodes[1..][..k - 1]), Endpoints(nodes[k]));
    }
  }

  lemma CheckOnTheWay(nodes: seq<Node>, c: Cluster, left: map<string, seq<Line>>)
    requires NothingLeftOver(nodes, left) && Faithful(nodes, c, left) && OnTheWay(nodes, c, left) && Can(nodes, c, Check)
    ensures OnTheWay(nodes, Done(nodes, c, Check), left)
  {
    var k := c.master.node;
    if HasReport(c.files, nodes[k].short) && k > 0 { CompleteIsSettled(nodes, c, left, k); }
  }

  lemma ReadOnTheWay(nodes: seq<Node>, c: Cluster, left: map<string, seq<Line>>)
    requires Faithful(nodes, c, left) && OnTheWay(nodes, c, left) && Can(nodes, c, Read)
    ensures OnTheWay(nodes, Done(nodes, c, Read), left)
  {
    var k := c.master.node;
    SettledRight(c.files, nodes[k], c.stages[k], left);
    EndpointsSnoc(nodes, k);
    assert nodes[..|nodes|] == nodes;
  }

  lemma ActOnTheWay(nodes: seq<Node>, c: Cluster, act: Act, left: map<string, seq<Line>>)
    requires NothingLeftOver(nodes, left) && Faithful(nodes, c, left) && OnTheWay(nodes, c, left) && Can(nodes, c, act)
    ensures OnTheWay(nodes, Done(nodes, c, act), left)
  {
    if act.Check? {
      CheckOnTheWay(nodes, c, left);
    } else if act.Read? {
      ReadOnTheWay(nodes, c, left);
    }
  }

  /**
   * With distinct short names and nothing left over, whatever the schedule: an upstream the master builds lists exactly
   * every node's ports, in node order; and at any moment, restarts included, every live worker serves on its port.
   */
  lemma {:induction false} UpstreamIsRight(nodes: seq<Node>, left: map<string, seq<Line>>, c: Cluster, run: seq<Act>)
    requires DistinctShorts(nodes) && NothingLeftOver(nodes, left) && LegalActs(nodes, c, run)
    requires Faithful(nodes, c, left) && OnTheWay(nodes, c, left)
    ensures var d := AfterActs(nodes, c, run);
      PortsKept(nodes, d.workers) && (d.master.Built? ==> d.master.upstream == AllEndpoints(nodes))
    decreases run
  {
    if run != [] {
      ActFaithful(nodes, c, run[0], left);
      ActOnTheWay(nodes, c, run[0], left);
      UpstreamIsRight(nodes, left, Done(nodes, c, run[0]), run[1..]);
    }
  }

  // ---- and only then ------------------------------------------------------------------------

  lemma {:induction false} ActsConcat(nodes: seq<Node>, c: Cluster, a: seq<Act>, b: seq<Act>)
    requires LegalActs(nodes, c, a) && LegalActs(nodes, AfterActs(nodes, c, a), b)
    ensures LegalActs(nodes, c, a + b) && AfterActs(nodes, c, a + b) == AfterActs(nodes, AfterActs(nodes, c, a), b)
    decreases a
  {
    if a == [] {
      assert a + b == b;
    } else {
      ActsConcat(nodes, Done(nodes, c, a[0]), a[1..], b);
      assert (a + b)[0] == a[0] && (a + b)[1..] == a[1..] + b;
    }
  }

  lemma ActsCons(nodes: seq<Node>, c: Cluster, act: Act, rest: seq<Act>)
    requires Can(nodes, c, act) && LegalActs(nodes, Done(nodes, c, act), rest)
    ensures LegalActs(nodes, c, [act] + rest) && AfterActs(nodes, c, [act] + rest) == AfterActs(nodes, Done(nodes, c, act), rest)
  {
    assert ([act] + rest)[0] == act && ([act] + rest)[1..] == rest;
  }

  /** Node `i` can always write its report to the end. */
  lemma {:induction false} Fill(nodes: seq<Node>, c: Cluster, i: nat, left: map<string, seq<Line>>) returns (run: seq<Act>)
    requires DistinctShorts(nodes) && Faithful(nodes, c, left) && i < |nodes| && c.stages[i].Reporting?
    ensures LegalActs(nodes, c, run)
    ensures var d := AfterActs(nodes, c, run);
      d.stages == c.stages[i := Reported] && d.master == c.master && Faithful(nodes, d, left)
    decreases |nodes[i].ports| - c.stages[i].lines
  {
    assert ReportSo(c.files, nodes[i], c.stages[i], left);
    var act := if c.stages[i].lines < |nodes[i].ports| then Append(i) else Finish(i);
    var next := Done(nodes, c, act);
    ActFaithful(nodes, c, act, left);
    var rest := [];
    if act.Append? { rest := Fill(nodes, next, i, left); }
    run := [act] + rest;
    ActsCons(nodes, c, act, rest);
    assert next.stages[i := Reported] == c.stages[i := Reported];
  }

  lemma {:induction false} BringUp(nodes: seq<Node>, c: Cluster, i: nat, left: map<string, seq<Line>>) returns (run: seq<Act>)
    requires DistinctShorts(nodes) && Faithful(nodes, c, left) && i < |nodes| && c.stages[i] == Down
    ensures LegalActs(nodes, c, run)
    ensures var d := AfterActs(nodes, c, run);
      d.stages == c.stages[i := Reported] && d.master == c.master && Faithful(nodes, d, left)
  {
    var up := Done(nodes, c, Boot(i));
    ActFaithful(nodes, c, Boot(i), left);
    var blank := Done(nodes, up, Open(i));
    ActFaithful(nodes, up, Open(i), left);
    var fill := Fill(nodes, blank, i, left);
    ActsCons(nodes, up, Open(i), fill);
    ActsCons(nodes, c, Boot(i), [Open(i)] + fill);
    run := [Boot(i)] + ([Open(i)] + fill);
    assert blank.stages[i := Reported] == c.stages[i := Reported];
  }

  /** Every node from `j` on but `skip` reports. */
  lemma {:induction false} BringRest(nodes: seq<Node>, c: Cluster, j: nat, skip: nat, left: map<string, seq<Line>>) returns (run: seq<Act>)
    requires DistinctShorts(nodes) && Faithful(nodes, c, left) && j <= |nodes|
    requires forall i :: j <= i < |nodes| ==> c.stages[i] == Down
    ensures LegalActs(nodes, c, run)
    ensures var d := AfterActs(nodes, c, run);
      && d.master == c.master && Faithful(nodes, d, left)
      && forall i :: 0 <= i < |nodes| ==> d.stages[i] == if i < j || i == skip then c.stages[i] else Reported
    decreases |nodes| - j
  {
    if j == |nodes| {
      run := [];
    } else if j == skip {
      run := BringRest(nodes, c, j + 1, skip, left);
    } else {
      var one := BringUp(nodes, c, j, left);
      var d := AfterActs(nodes, c, one);
      var more := BringRest(nodes, d, j + 1, skip, left);
      ActsConcat(nodes, c, one, more);
      run := one + more;
    }
  }

  /** With every report complete the barrier passes. */
  lemma {:induction false} PassBarrier(nodes: seq<Node>, c: Cluster) returns (run: seq<Act>)
    requires c.master.Checking? && c.master.node < |nodes| == |c.stages| && c.stages[0] == Reported
    requires forall i :: 0 <= i < |nodes| ==> HasReport(c.files, nodes[i].short)
    ensures LegalActs(nodes, c, run) && AfterActs(nodes, c, run) == c.(master := Reading(0, []))
    decreases |nodes| - c.master.node
  {
    var next := Done(nodes, c, Check);
    var rest := [];
    if next.master.Checking? { rest := PassBarrier(nodes, next); }
    run := [Check] + rest;
    ActsCons(nodes, c, Check, rest);
  }

  /** Reading without interruption gathers what the directory holds. */
  lemma {:induction false} ReadRest(nodes: seq<Node>, c: Cluster) returns (run: seq<Act>)
    requires c.master.Reading? && c.master.node < |nodes| == |c.stages|
    ensures LegalActs(nodes, c, run)
    ensures AfterActs(nodes, c, run).master == Built(c.master.got + Gathered(nodes[c.master.node..], c.files))
    decreases |nodes| - c.master.node
  {
    var k, next := c.master.node, Done(nodes, c, Read);
    assert nodes[k..][0] == nodes[k] && nodes[k..][1..] == nodes[k + 1..];
    Assoc(c.master.got, ReadNow(nodes[k], c.files), Gathered(nodes[k + 1..], c.files));
    var rest := [];
    if next.master.Reading? {
      rest := ReadRest(nodes, next);
    } else {
      assert nodes[k + 1..] == [] && Gathered([], c.files) == [];
    }
    run := [Read] + rest;
    ActsCons(nodes, c, Read, rest);
  }

  lemma AppendCancels<T>(x: seq<T>, y: seq<T>, s: seq<T>)
    ensures x + s == y + s ==> x == y
  {
    if x + s == y + s {
      assert |x + s| == |y + s|;
      assert x == (x + s)[..|x|] && y == (y + s)[..|y|];
    }
  }

  lemma PrependCancels<T>(p: seq<T>, x: seq<T>, y: seq<T>)
    ensures p + x == p + y ==> x == y
  {
    assert x == (p + x)[|p|..] && y == (p + y)[|p|..];
  }

  lemma {:induction false} GatheredAll(nodes: seq<Node>, files: map<string, seq<Line>>)
    requires forall i :: 0 <= i < |nodes| ==> ReadNow(nodes[i], files) == Endpoints(nodes[i])
    ensures Gathered(nodes, files) == AllEndpoints(nodes)
  {
    if nodes != [] {
      assert forall i :: 0 <= i < |nodes[1..]| ==> nodes[1..][i] == nodes[i + 1];
      GatheredAll(nodes[1..], files);
    }
  }

  /** One wrong report among right ones spoils the list. */
  lemma {:induction false} OneWrong(nodes: seq<Node>, files: map<string, seq<Line>>, i: nat)
    requires i < |nodes| && ReadNow(nodes[i], files) != Endpoints(nodes[i])
    requires forall j :: 0 <= j < |nodes| && j != i ==> ReadNow(nodes[j], files) == Endpoints(nodes[j])
    ensures Gathered(nodes, files) != AllEndpoints(nodes)
  {
    var first, rest := nodes[0], nodes[1..];
    assert forall j :: 0 <= j < |rest| ==> rest[j] == nodes[j + 1];
    if i == 0 {
      GatheredAll(rest, files);
      AppendCancels(ReadNow(first, files), Endpoints(first), AllEndpoints(rest));
    } else {
      OneWrong(rest, files, i - 1);
      PrependCancels(Endpoints(first), Gathered(rest, files), AllEndpoints(rest));
    }
  }

  /** The barrier passes on the leftover of node `i` while the other nodes report. */
  lemma {:induction false} PassOnLeftover(nodes: seq<Node>, left: map<string, seq<Line>>, i: nat) returns (run: seq<Act>)
    requires DistinctShorts(nodes) && 1 <= i < |nodes| && HasReport(left, nodes[i].short)
    ensures LegalActs(nodes, Launch(nodes, left), run)
    ensures var d := AfterActs(nodes, Launch(nodes, left), run);
      && d.master == Reading(0, []) && Faithful(nodes, d, left)
      && forall j :: 0 <= j < |nodes| ==> d.stages[j] == if j == i then Down else Reported
  {
    var c := Launch(nodes, left);
    LaunchFaithful(nodes, left);
    var bring := BringRest(nodes, c, 0, i, left);
    var d := AfterActs(nodes, c, bring);
    forall j | 0 <= j < |nodes| ensures HasReport(d.files, nodes[j].short) {
      assert ReportSo(d.files, nodes[j], d.stages[j], left);
    }
    var pass := PassBarrier(nodes, d);
    ActsConcat(nodes, c, bring, pass);
    run := bring + pass;
  }

  /** Reading goes on without node `i`'s own report: an upstream that is not right. */
  lemma {:induction false} ReadWrong(nodes: seq<Node>, c: Cluster, left: map<string, seq<Line>>, i: nat) returns (run: seq<Act>)
    requires Faithful(nodes, c, left) && c.master == Reading(0, []) && i < |nodes|
    requires forall j :: 0 <= j < |nodes| && j != i ==> c.stages[j] == Reported
    requires ReadNow(nodes[i], c.files) != Endpoints(nodes[i])
    ensures LegalActs(nodes, c, run)
    ensures var d := AfterActs(nodes, c, run); d.master.Built? && d.master.upstream != AllEndpoints(nodes)
  {
    forall j | 0 <= j < |nodes| && j != i ensures ReadNow(nodes[j], c.files) == Endpoints(nodes[j]) {
      assert ReportSo(c.files, nodes[j], c.stages[j], left);
      ReportedRight(c.files, nodes[j], left);
    }
    OneWrong(nodes, c.files, i);
    run := ReadRest(nodes, c);
    assert nodes[0..] == nodes && [] + Gathered(nodes, c.files) == Gathered(nodes, c.files);
  }

  /**
   * A complete leftover of a node that is not silent spoils some schedule: the node has ports and removes its leftover
   * between barrier and reading, or it has none and the leftover names some.
   */
  lemma {:induction false} LeftoverSpoils(nodes: seq<Node>, left: map<string, seq<Line>>, i: nat) returns (run: seq<Act>)
    requires DistinctShorts(nodes) && 1 <= i < |nodes| && HasReport(left, nodes[i].short) && !Silent(nodes[i], left)
    ensures LegalActs(nodes, Launch(nodes, left), run)
    ensures var d := AfterActs(nodes, Launch(nodes, left), run); d.master.Built? && d.master.upstream != AllEndpoints(nodes)
  {
    var c := Launch(nodes, left);
    var pass := PassOnLeftover(nodes, left, i);
    var d := AfterActs(nodes, c, pass);
    assert ReportSo(d.files, nodes[i], d.stages[i], left);
    if nodes[i].ports == [] {
      var rest := ReadWrong(nodes, d, left, i);
      ActsConcat(nodes, c, pass, rest);
      run := pass + rest;
    } else {
      var up := Done(nodes, d, Boot(i));
      ActFaithful(nodes, d, Boot(i), left);
      var rest := ReadWrong(nodes, up, left, i);
      ActsCons(nodes, d, Boot(i), rest);
      ActsConcat(nodes, c, pass, [Boot(i)] + rest);
      run := pass + ([Boot(i)] + rest);
    }
  }

  /**
   * Every schedule gives the right upstream exactly when no complete report is left over for another node that has ports,
   * and a leftover of a node without ports names none.
   */
  lemma {:induction false} UpstreamRightIffNothingLeftOver(nodes: seq<Node>, left: map<string, seq<Line>>)
    requires DistinctShorts(nodes)
    ensures NothingLeftOver(nodes, left) <==>
      forall run :: LegalActs(nodes, Launch(nodes, left), run) && AfterActs(nodes, Launch(nodes, left), run).master.Built? ==>
        AfterActs(nodes, Launch(nodes, left), run).master.upstream == AllEndpoints(nodes)
  {
    LaunchFaithful(nodes, left);
    if NothingLeftOver(nodes, left) {
      forall run | LegalActs(nodes, Launch(nodes, left), run) && AfterActs(nodes, Launch(nodes, left), run).master.Built?
        ensures AfterActs(nodes, Launch(nodes, left), run).master.upstream == AllEndpoints(nodes)
      {
        UpstreamIsRight(nodes, left, Launch(nodes, left), run);
      }
    } else {
      var i :| 1 <= i < |nodes| && HasReport(left, nodes[i].short) && !Silent(nodes[i], left);
      var run := LeftoverSpoils(nodes, left, i);
    }
  }

  /** Even a right leftover: node "b" has port 9, and an earlier launch left a complete report of port 9. */
  lemma {:induction false} RightLeftoverSpoils() returns (run: seq<Act>)
    ensures var nodes := [Node("a", "a", 5, [5]), Node("b", "b", 9, [9])];
      var c := Launch(nodes, map["b" := [WorkerPort(1, 9), ReportComplete]]);
      LegalActs(nodes, c, run) && AfterActs(nodes, c, run).master.Built? &&
      AfterActs(nodes, c, run).master.upstream != [Endpoint("a", 5), Endpoint("b", 9)]
  {
    var nodes := [Node("a", "a", 5, [5]), Node("b", "b", 9, [9])];
    var lines := [WorkerPort(1, 9), ReportComplete];
    assert "a" != "b" by { assert "a"[0] != "b"[0]; }
    assert lines[1] == ReportComplete;
    run := LeftoverSpoils(nodes, map["b" := lines], 1);
    assert nodes[1..] == [Node("b", "b", 9, [9])] && nodes[1..][1..] == [];
    assert Endpoints(nodes[0]) == [Endpoint("a", 5)] && Endpoints(nodes[1]) == [Endpoint("b", 9)];
    assert AllEndpoints(nodes[1..]) == [Endpoint("b", 9)] + AllEndpoints(nodes[1..][1..]) == [Endpoint("b", 9)] + [];
    assert AllEndpoints(nodes) == [Endpoint("a", 5)] + ([Endpoint("b", 9)] + []) == [Endpoint("a", 5), Endpoint("b", 9)];
  }
}
