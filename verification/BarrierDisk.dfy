/**
 A manager's barrier file and the machine under it: what the barrier write does
 to the disk step by step, what a process crash, a power loss and a restart leave
 behind, and which barriers the Agent answers with over a whole run.
 */
module BarrierDisk {
  import opened Basics

  datatype BarrierState = BarrierState(cluster: string, generation: nat, open: bool)

  const Fresh := BarrierState("", 0, false)

  predicate ValidCluster(c: string) {
    && 1 <= |c| <= 128
    && (forall i :: 0 <= i < |c| ==>
          'a' <= c[i] <= 'z' || 'A' <= c[i] <= 'Z' || '0' <= c[i] <= '9' || c[i] == '_' || c[i] == '-')
  }

  predicate ValidState(v: BarrierState) {
    1 <= v.generation <= 0xFFFF_FFFF_FFFF_FFFF && ValidCluster(v.cluster)
  }

  // ----- the disk -----

  /** What the barrier path holds; content that does not parse is `Raw(None)`. */
  datatype Image = Absent | Raw(parsed: Option<BarrierState>)

  datatype Temp = Temp(image: Image, synced: bool)

  /**
   The live directory, and what a power loss may leave instead: any marker state in
   `markers`, and at the path the live file or one of `others`. Once a file whose
   content was never synced has been renamed into place, anything (`wild`).
   */
  datatype Disk = Disk(marker: bool, markers: set<bool>, file: Image, others: set<Image>, wild: bool,
    temp: Option<Temp>)

  datatype DiskOp =
    | CreateMarker | SyncMarker | CloseFile | SyncDir | CreateTemp
    | Chmod | WriteTemp | SyncTemp | Rename | RemoveMarker

  /** The barrier write, one system call after the other. */
  const Script: seq<DiskOp> := [
    CreateMarker, SyncMarker, CloseFile, SyncDir,
    CreateTemp, Chmod, WriteTemp, SyncTemp, CloseFile, Rename, SyncDir, RemoveMarker]

  predicate Possible(d: Disk, op: DiskOp) {
    match op
    case CreateMarker => !d.marker
    case WriteTemp => d.temp.Some?
    case SyncTemp => d.temp.Some?
    case Rename => d.temp.Some?
    case RemoveMarker => d.marker
    case _ => true
  }

  /** The effect of a call that succeeds, when the barrier being written is `v`. */
  function Done(d: Disk, op: DiskOp, v: BarrierState): Disk
    requires Possible(d, op)
  {
    match op
    case CreateMarker => d.(marker := true, markers := d.markers + {true})
    case SyncDir => d.(markers := {d.marker}, others := {})
    case CreateTemp => d.(temp := Some(Temp(Raw(None), false)))
    case WriteTemp => d.(temp := Some(Temp(Raw(Some(v)), false)))
    case SyncTemp => d.(temp := Some(d.temp.value.(synced := true)))
    case Rename =>
      var temp := d.temp.value;
      d.(file := temp.image, others := d.others + {d.file}, wild := d.wild || !temp.synced, temp := None)
    case RemoveMarker => d.(marker := false, markers := d.markers + {false})
    case _ => d
  }

  /** A call that reports an error may have done nothing, everything or part of its work. */
  predicate DiskStep(d: Disk, op: DiskOp, v: BarrierState, ok: bool, after: Disk) {
    if ok then Possible(d, op) && after == Done(d, op, v)
    else
      || after == d
      || (Possible(d, op) && after == Done(d, op, v))
      || (op == SyncDir && (after == d.(markers := {d.marker}) || after == d.(others := {})))
      || (op == WriteTemp && after == d.(temp := Some(Temp(Raw(None), false))))
  }

  predicate MayHold(d: Disk, image: Image) {
    d.wild || image == d.file || image in d.others
  }

  /** A power loss would leave the path exactly as it is now. */
  predicate Settled(d: Disk) {
    !d.wild && d.others == {}
  }

  // ----- the Agent process -----

  /** What a start makes of the file: `None` means the barrier is unusable. */
  function Load(image: Image): Option<BarrierState> {
    match image
    case Absent => Some(Fresh)
    case Raw(None) => None
    case Raw(Some(v)) => if ValidState(v) then Some(v) else None
  }

  /** A barrier write in progress: the next call to make and the barrier being written. */
  datatype Job = Job(pc: nat, target: BarrierState)

  datatype Process = Process(held: BarrierState, invalid: bool, job: Option<Job>)

  function BootProcess(d: Disk): Process {
    if d.marker || Load(d.file).None? then Process(Fresh, true, None)
    else Process(Load(d.file).value, false, None)
  }

  datatype PutVerdict = Unavailable | ClusterUnavailable | ForeignCluster | Backwards | Repeat | Write

  /**
   How a decoded, well-formed transition request is answered; `swarm` is the manager's current
   cluster, if it can be read.
   */
  function JudgePut(held: BarrierState, invalid: bool, v: BarrierState, swarm: Option<string>): PutVerdict {
    if invalid then Unavailable
    else if swarm != Some(v.cluster) then ClusterUnavailable
    else if held.cluster != "" && held.cluster != v.cluster then ForeignCluster
    else if v.generation < held.generation || (v.generation == held.generation && v.open != held.open) then Backwards
    else if v.generation == held.generation then Repeat
    else Write
  }

  // ----- the node as a step system -----

  /** `served` lists every barrier the Agent has reported in a 200 answer, oldest first. */
  datatype Node = Node(disk: Disk, process: Option<Process>, served: seq<BarrierState>)

  const NewNode := Node(Disk(false, {false}, Absent, {}, false, None), None, [])

  datatype NodeEvent =
    | Boot
    | Kill
    | PowerLoss(marker: bool, file: Image)
    | Reconcile                            // an operator, with the Agent stopped, clears the marker and syncs
    | Put(state: BarrierState, swarm: Option<string>)
    | Call(ok: bool, disk: Disk)           // the next system call of the write in progress
    | Get(swarm: Option<string>)

  function NextNode(n: Node, e: NodeEvent): Option<Node> {
    match e
    case Boot => if n.process.Some? then None else Some(n.(process := Some(BootProcess(n.disk))))
    case Kill => Some(n.(process := None))
    case PowerLoss(marker, file) =>
      if marker !in n.disk.markers || !MayHold(n.disk, file) then None
      else Some(n.(disk := Disk(marker, {marker}, file, {}, false, None), process := None))
    case Reconcile =>
      if n.process.Some? then None
      else Some(n.(disk := n.disk.(marker := false, markers := {false}, others := {})))
    case Put(v, swarm) => NextPut(n, v, swarm)
    case Call(ok, after) => NextCall(n, ok, after)
    case Get(swarm) => NextGet(n, swarm)
  }

  function NextPut(n: Node, v: BarrierState, swarm: Option<string>): Option<Node> {
    if n.process.None? || n.process.value.job.Some? || !ValidState(v) then None
    else match JudgePut(n.process.value.held, n.process.value.invalid, v, swarm)
      case Repeat => Some(n.(served := n.served + [n.process.value.held]))
      case Write => Some(n.(process := Some(n.process.value.(job := Some(Job(0, v))))))
      case _ => Some(n)
  }

  function NextCall(n: Node, ok: bool, after: Disk): Option<Node> {
    if n.process.None? || n.process.value.job.None? then None
    else
      var p, job := n.process.value, n.process.value.job.value;
      if job.pc >= |Script| || !DiskStep(n.disk, Script[job.pc], job.target, ok, after) then None
      else if !ok then Some(n.(disk := after, process := Some(Process(p.held.(open := false), true, None))))
      else if job.pc + 1 < |Script| then
        Some(n.(disk := after, process := Some(p.(job := Some(job.(pc := job.pc + 1))))))
      else Some(Node(after, Some(Process(job.target, false, None)), n.served + [job.target]))
  }

  function NextGet(n: Node, swarm: Option<string>): Option<Node> {
    if n.process.None? || n.process.value.job.Some? then None
    else
      var p := n.process.value;
      if p.invalid || swarm != Some(p.held.cluster) || !ValidState(p.held) then Some(n)
      else Some(n.(served := n.served + [p.held]))
  }

  function RunNode(n: Node, events: seq<NodeEvent>): Option<Node>
    decreases |events|
  {
    if events == [] then Some(n)
    else match NextNode(n, events[0])
      case None => None
      case Some(m) => RunNode(m, events[1..])
  }

  // ----- the invariant -----

  /** `later` may be answered after `earlier`: the same barrier, or a newer one of the same cluster. */
  predicate Follows(earlier: BarrierState, later: BarrierState) {
    earlier == later || (earlier.cluster == later.cluster && earlier.generation < later.generation)
  }

  ghost predicate Above(served: seq<BarrierState>, v: BarrierState) {
    forall i :: 0 <= i < |served| ==> Follows(served[i], v)
  }

  ghost predicate ImageOk(image: Image, served: seq<BarrierState>) {
    Load(image).Some? ==> Above(served, Load(image).value)
  }

  ghost predicate ServedOk(served: seq<BarrierState>) {
    && (forall i :: 0 <= i < |served| ==> ValidState(served[i]))
    && (forall i, j :: 0 <= i <= j < |served| ==> Follows(served[i], served[j]))
  }

  /** Whenever a power loss could change the path, the pending marker is durable. */
  ghost predicate DiskOk(d: Disk, served: seq<BarrierState>) {
    && d.marker in d.markers
    && !d.wild
    && (d.others != {} ==> d.markers == {true})
    && ImageOk(d.file, served)
    && (forall image :: image in d.others ==> ImageOk(image, served))
  }

  predicate Supersedes(target: BarrierState, held: BarrierState) {
    && ValidState(target)
    && held.generation < target.generation
    && (held == Fresh || held.cluster == target.cluster)
  }

  ghost predicate JobOk(d: Disk, held: BarrierState, job: Job) {
    && job.pc < |Script|
    && Supersedes(job.target, held)
    && (d.marker <==> job.pc >= 1)
    && (job.pc >= 4 ==> d.markers == {true})
    && (job.pc >= 7 && job.pc <= 9 ==> d.temp == Some(Temp(Raw(Some(job.target)), job.pc >= 8)))
    && (job.pc >= 5 && job.pc <= 6 ==> d.temp.Some?)
    && (job.pc <= 9 ==> Settled(d) && Load(d.file) == Some(held))
    && (job.pc >= 10 ==> d.file == Raw(Some(job.target)))
    && (job.pc == 10 ==> forall image :: image in d.others ==> Load(image) == Some(held))
    && (job.pc == 11 ==> Settled(d))
  }

  ghost predicate ProcessOk(d: Disk, p: Process, served: seq<BarrierState>) {
    && (p.invalid ==> p.job.None?)
    && (!p.invalid ==> (p.held == Fresh || ValidState(p.held)) && Above(served, p.held))
    && (!p.invalid && p.job.None? ==> Settled(d) && !d.marker && Load(d.file) == Some(p.held))
    && (p.job.Some? ==> JobOk(d, p.held, p.job.value))
  }

  ghost predicate NodeInv(n: Node) {
    && ServedOk(n.served)
    && DiskOk(n.disk, n.served)
    && (n.process.Some? ==> ProcessOk(n.disk, n.process.value, n.served))
  }
}
