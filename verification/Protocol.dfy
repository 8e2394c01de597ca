/** The ledger at lock, read and write granularity.
    Any number of actors in any number of processes take one step at a time; every write stores a value
    the actor computed from its own, possibly stale, local copies. File locks and in-memory mutexes alike
    are taken and given back in steps of their own. */
module Protocol {
  import opened Records
  import opened Disk

  // ---------------------------------------------------------------- vocabulary

  /** The file locks, then the mutexes of one process: its set of live files, the table of one `Ledger` value,
      and the mutex of one waiter. */
  datatype Lock =
    | AdmitLock
    | ThreadLock(threadId: string)
    | GenerationLock(generationId: string)
    | LiveLock(generationId: string)
    | TableLock(proc: nat, ledger: nat)
    | ProcessLock(proc: nat)
    | PairLock(pair: nat)

  /** One thread of execution: its process, the `Ledger` value it uses, and a number. */
  datatype Actor = Actor(proc: nat, ledger: nat, index: nat)

  datatype GenerationUpdate = Child(pid: nat, epoch: nat) | Eof {
    function On(r: Generation): Generation {
      match this
      case Child(pid, epoch) =>
        r.(childPid := Some(pid), childStartedEpoch := Some(epoch), childEof := false)
      case Eof => r.(childEof := true)
    }
  }

  /** Who asked for a turn operation: a plain call, or one of the four observations inside an admission. */
  datatype Caller =
    | Direct
    | KeyIndex(spec: NewTurn)
    | KeyScan(spec: NewTurn, rest: set<string>)
    | PointerCheck(spec: NewTurn, record: Thread)
    | ThreadScan(spec: NewTurn, record: Thread, rest: set<string>)

  datatype Admission = Deduplicated(turn: Turn) | Busy(turn: Turn) | Admitted(turn: Turn) | Refused

  datatype Task =
    | TurnTask(id: string, op: TurnOp)
    | AdmitTask(spec: NewTurn)
    | SessionTask(threadId: string, session: string)
    | GenerationTask(generationId: string, update: GenerationUpdate)
    | ThreadTask(thread: Thread)
    | WaiterTask
    | SleepTask(pair: nat)

  /** Program points of one operation on one turn, up to its write, with the locals alive there. */
  datatype TurnPoint =
    | FirstRead(t: string, op: TurnOp, c: Caller)
    | WantThread(t: string, op: TurnOp, c: Caller, th: string)
    | Locked(t: string, op: TurnOp, c: Caller, th: string)
    | GotTurn(t: string, op: TurnOp, c: Caller, th: string, v: Turn)
    | Judged(t: string, op: TurnOp, c: Caller, th: string, v: Turn, dead: bool)

  /** The turn whose generation is being probed, with the operation it is probed for. */
  datatype Subject = Subject(t: string, op: TurnOp, c: Caller, th: string, v: Turn)

  /** The liveness probe: the live files of this process first, then the file lock itself, then the child. */
  datatype ProbeStage = ToMine | InMine | TryFile | InFile | LookChild

  /** Giving up a live file: under the ledger's table, its entry in the process set, then the file. */
  datatype DropStage = ToTable | InTable | ToProcess | InProcess | OutOfTable

  /** Opening a live file: the file lock, the process set, the ledger's table. */
  datatype OpenStage = ToFile | ToMark | InMark | ToKeep | InKeep | OutOfKeep

  /** Work on the waiter table: waking waiters one mutex at a time, registering, or sleeping on one mutex. */
  datatype Stage = ToWake | InWake | ToPair(pair: nat) | InPair(pair: nat) | ToSleep(pair: nat) | InSleep(pair: nat)

  /** The same operation after its write: pointer, live file, return. */
  datatype EndPoint =
    | ClearPointer(c: Caller, th: string, n: Turn)
    | StorePointer(c: Caller, th: string, n: Turn, record: Thread)
    | Drop(c: Caller, th: string, n: Turn, drop: DropStage)
    | Finish(c: Caller, th: string, v: Turn)
    | Leave(c: Caller, th: string)

  /** An admission before it creates anything. */
  datatype ScanPoint =
    | WantAdmit(spec: NewTurn)
    | LookupKey(spec: NewTurn)
    | ListKey(spec: NewTurn)
    | ScanKey(spec: NewTurn, rest: set<string>)
    | WantAdmitThread(spec: NewTurn)
    | ReadThread(spec: NewTurn)
    | CheckPointer(spec: NewTurn, record: Thread)
    | ListThread(spec: NewTurn, record: Thread)
    | ScanThread(spec: NewTurn, record: Thread, rest: set<string>)

  /** An admission creating its turn and leaving. */
  datatype WritePoint =
    | WriteGeneration(spec: NewTurn, record: Thread, gid: string, t: string)
    | WriteTurn(spec: NewTurn, record: Thread, gid: string, t: string)
    | WritePointer(spec: NewTurn, record: Thread, n: Turn)
    | Open(spec: NewTurn, n: Turn, locked: bool, open: OpenStage)
    | LeaveThread(th: string, result: Admission)
    | LeaveAdmit(result: Admission)

  /** Creating a thread, and updates of one thread's session id or one generation's child fields. */
  datatype FieldPoint =
    | MakeThread(record: Thread)
    | WantSession(th: string, session: string)
    | ReadSession(th: string, session: string)
    | WriteSession(th: string, session: string, record: Thread)
    | LeaveSession(th: string)
    | WantGeneration(gid: string, update: GenerationUpdate)
    | ReadGeneration(gid: string, update: GenerationUpdate)
    | StoreGeneration(gid: string, update: GenerationUpdate, g: Generation)
    | LeaveGeneration(gid: string)

  datatype Point =
    | InTurn(turn: TurnPoint)
    | InProbe(k: Subject, g: Generation, probe: ProbeStage)
    | InEnd(end: EndPoint)
    | InScan(scan: ScanPoint)
    | InWrite(write: WritePoint)
    | InField(field: FieldPoint)

  /** An actor is at a point of its operation, or busy with the waiter table before it resumes there. */
  datatype Place = On(point: Point) | Aside(stage: Stage, back: Option<Point>)

  /** Everything a step leaves to chance: whether an ignored write works, whether the liveness probe errs,
      what the client index file happens to hold, which file a scan visits next, which waiters there are,
      and fresh ids. */
  datatype Choice = Choice(
    ok: bool, probeFails: bool, epoch: nat, index: Option<string>, pick: string, pair: Option<nat>,
    freshThread: string, freshGeneration: string, freshTurn: string, freshRequest: string)

  datatype Write =
    | NoWrite
    | PutThread(thread: Thread)
    | PutGeneration(generation: Generation)
    | PutNewTurn(turn: Turn)
    | PutTurn(turn: Turn, op: TurnOp, minted: string)
    | OpenLive(id: string, hold: Hold)
    | CloseLive(id: string, proc: nat, ledger: nat)

  datatype LockChange = Keep | Take(lock: Lock) | Free(lock: Lock)

  /** `wake` says that the waiters of the turn are woken before the next point. */
  datatype Move = Move(write: Write, change: LockChange, next: Option<Point>, wake: bool)

  /** Two of the fields are histories: `keepers` tells which `Ledger` value of which process opened a live file,
      `dropped` which of these values were dropped. */
  datatype System = System(
    disk: State,
    locks: map<Lock, Actor>,
    running: map<Actor, Place>,
    crashed: set<nat>,
    gone: set<nat>,
    keepers: map<string, (nat, nat)>,
    dropped: set<(nat, nat)>)

  datatype Action =
    | Begin(a: Actor, task: Task)
    | Go(a: Actor, choice: Choice)
    | Abort(a: Actor)
    | Crash(proc: nat)
    | DropLedger(proc: nat, ledger: nat)
    | ChildDies(pid: nat)

  // ---------------------------------------------------------------- what a point holds

  function CallerLocks(c: Caller): set<Lock> {
    match c
    case Direct => {}
    case KeyIndex(_) => {AdmitLock}
    case KeyScan(_, _) => {AdmitLock}
    case PointerCheck(spec, _) => {AdmitLock, ThreadLock(spec.threadId)}
    case ThreadScan(spec, _, _) => {AdmitLock, ThreadLock(spec.threadId)}
  }

  function HeldInTurn(q: TurnPoint): set<Lock> {
    if q.FirstRead? || q.WantThread? then CallerLocks(q.c) else CallerLocks(q.c) + {ThreadLock(q.th)}
  }

  function HeldInProbe(a: Actor, k: Subject, g: Generation, probe: ProbeStage): set<Lock> {
    CallerLocks(k.c) + {ThreadLock(k.th)} +
    (match probe
     case InMine => {ProcessLock(a.proc)}
     case InFile => {LiveLock(g.id)}
     case _ => {})
  }

  function HeldInDrop(a: Actor, drop: DropStage): set<Lock> {
    match drop
    case ToTable => {}
    case InProcess => {TableLock(a.proc, a.ledger), ProcessLock(a.proc)}
    case _ => {TableLock(a.proc, a.ledger)}
  }

  function HeldInEnd(a: Actor, q: EndPoint): set<Lock> {
    CallerLocks(q.c) + {ThreadLock(q.th)} + (if q.Drop? then HeldInDrop(a, q.drop) else {})
  }

  function HeldInScan(q: ScanPoint): set<Lock> {
    if q.WantAdmit? then {}
    else if q.LookupKey? || q.ListKey? || q.ScanKey? || q.WantAdmitThread? then {AdmitLock}
    else {AdmitLock, ThreadLock(q.spec.threadId)}
  }

  function HeldInOpen(a: Actor, gid: string, locked: bool, open: OpenStage): set<Lock> {
    (if locked && !open.ToFile? && !open.OutOfKeep? then {LiveLock(gid)} else {}) +
    (match open
     case InMark => {ProcessLock(a.proc)}
     case InKeep => {TableLock(a.proc, a.ledger)}
     case OutOfKeep => {TableLock(a.proc, a.ledger)}
     case _ => {})
  }

  function HeldInWrite(a: Actor, q: WritePoint): set<Lock> {
    if q.LeaveAdmit? then {AdmitLock}
    else if q.LeaveThread? then {AdmitLock, ThreadLock(q.th)}
    else {AdmitLock, ThreadLock(q.spec.threadId)} +
         (if q.Open? then HeldInOpen(a, q.n.generationId, q.locked, q.open) else {})
  }

  function HeldInField(q: FieldPoint): set<Lock> {
    if q.MakeThread? || q.WantSession? || q.WantGeneration? then {}
    else if q.ReadSession? || q.WriteSession? || q.LeaveSession? then {ThreadLock(q.th)}
    else {GenerationLock(q.gid)}
  }

  function Held(a: Actor, p: Point): set<Lock> {
    match p
    case InTurn(q) => HeldInTurn(q)
    case InProbe(k, g, probe) => HeldInProbe(a, k, g, probe)
    case InEnd(q) => HeldInEnd(a, q)
    case InScan(q) => HeldInScan(q)
    case InWrite(q) => HeldInWrite(a, q)
    case InField(q) => HeldInField(q)
  }

  function HeldAside(a: Actor, stage: Stage): set<Lock> {
    match stage
    case ToWake => {}
    case InWake => {TableLock(a.proc, a.ledger)}
    case ToPair(_) => {TableLock(a.proc, a.ledger)}
    case InPair(n) => {TableLock(a.proc, a.ledger), PairLock(n)}
    case ToSleep(_) => {}
    case InSleep(n) => {PairLock(n)}
  }

  function HeldBack(a: Actor, back: Option<Point>): set<Lock> {
    if back.Some? then Held(a, back.value) else {}
  }

  function HeldAt(a: Actor, place: Place): set<Lock> {
    match place
    case On(p) => Held(a, p)
    case Aside(stage, back) => HeldBack(a, back) + HeldAside(a, stage)
  }

  /** The lock a point blocks on, if any. */
  function Wants(a: Actor, p: Point): Option<Lock> {
    match p
    case InTurn(q) => if q.WantThread? then Some(ThreadLock(q.th)) else None
    case InProbe(_, _, probe) => if probe.ToMine? then Some(ProcessLock(a.proc)) else None
    case InEnd(q) =>
      if q.Drop? && q.drop.ToTable? then Some(TableLock(a.proc, a.ledger))
      else if q.Drop? && q.drop.ToProcess? then Some(ProcessLock(a.proc))
      else None
    case InScan(q) =>
      if q.WantAdmit? then Some(AdmitLock)
      else if q.WantAdmitThread? then Some(ThreadLock(q.spec.threadId))
      else None
    case InWrite(q) =>
      if q.Open? && q.open.ToFile? then Some(LiveLock(q.n.generationId))
      else if q.Open? && q.open.ToMark? then Some(ProcessLock(a.proc))
      else if q.Open? && q.open.ToKeep? then Some(TableLock(a.proc, a.ledger))
      else None
    case InField(q) =>
      if q.WantSession? then Some(ThreadLock(q.th))
      else if q.WantGeneration? then Some(GenerationLock(q.gid))
      else None
  }

  function WantsAside(a: Actor, stage: Stage): Option<Lock> {
    match stage
    case ToWake => Some(TableLock(a.proc, a.ledger))
    case ToPair(n) => Some(PairLock(n))
    case ToSleep(n) => Some(PairLock(n))
    case _ => None
  }

  function WantsAt(a: Actor, place: Place): Option<Lock> {
    match place
    case On(p) => Wants(a, p)
    case Aside(stage, _) => WantsAside(a, stage)
  }

  /** A lock is free when no actor has it and, for a live file, no ledger keeps it locked. */
  predicate Available(s: System, l: Lock) {
    && l !in s.locks
    && (l.LiveLock? ==> !(l.generationId in s.disk.holds && s.disk.holds[l.generationId].locked))
  }

  // ---------------------------------------------------------------- the liveness probe

  /** This process keeps the live file open. */
  predicate KeptHere(s: System, a: Actor, g: Generation) {
    g.id in s.disk.holds && s.disk.holds[g.id].proc == a.proc
  }

  /** The test of the file lock finds no owner; when the test itself errs, the owner's pid decides. */
  predicate FileLooksDead(s: System, g: Generation, probeFails: bool) {
    if probeFails then g.ownerPid in s.crashed else Available(s, LiveLock(g.id))
  }

  predicate ChildLooksDead(s: System, g: Generation) {
    g.childEof || (g.childPid.Some? && g.childPid.value in s.gone)
  }

  // ---------------------------------------------------------------- one step of one actor

  function Then(next: Point): Move { Move(NoWrite, Keep, Some(next), false) }

  function Acquire(l: Lock, next: Point): Move { Move(NoWrite, Take(l), Some(next), false) }

  function Release(l: Lock, next: Option<Point>): Move { Move(NoWrite, Free(l), next, false) }

  function StepTurn(s: System, a: Actor, q: TurnPoint, ch: Choice): Move {
    match q
    case FirstRead(t, op, c) =>
      if t in s.disk.turns then Then(InTurn(WantThread(t, op, c, s.disk.turns[t].threadId)))
      else (match c
            case Direct => Move(NoWrite, Keep, None, false)
            case KeyIndex(spec) => Then(InScan(ListKey(spec)))
            case _ => Then(InWrite(LeaveAdmit(Refused))))
    case WantThread(t, op, c, th) => Acquire(ThreadLock(th), InTurn(Locked(t, op, c, th)))
    case Locked(t, op, c, th) =>
      if t in s.disk.turns then Then(InTurn(GotTurn(t, op, c, th, s.disk.turns[t])))
      else if c.PointerCheck? then Then(InScan(ListThread(c.spec, c.record)))
      else Then(InEnd(Leave(c, th)))
    case GotTurn(t, op, c, th, v) =>
      if !op.Probes() || v.IsTerminal() then Then(InTurn(Judged(t, op, c, th, v, false)))
      else if v.generationId in s.disk.generations then
        Then(InProbe(Subject(t, op, c, th, v), s.disk.generations[v.generationId], ToMine))
      else Then(InEnd(Leave(c, th)))
    case Judged(t, op, c, th, v, dead) =>
      var r := Rewrite(op, v, dead, ch.freshRequest);
      if r.None? then Then(InEnd(Finish(c, th, v)))
      else if r.value.IsTerminal() && !v.IsTerminal() then
        Move(PutTurn(r.value, op, ch.freshRequest), Keep, Some(InEnd(ClearPointer(c, th, r.value))), false)
      else Move(PutTurn(r.value, op, ch.freshRequest), Keep, Some(InEnd(Finish(c, th, r.value))), true)
  }

  function Verdict(k: Subject, dead: bool): Point { InTurn(Judged(k.t, k.op, k.c, k.th, k.v, dead)) }

  function StepProbe(s: System, a: Actor, k: Subject, g: Generation, probe: ProbeStage, ch: Choice): Move {
    match probe
    case ToMine => Acquire(ProcessLock(a.proc), InProbe(k, g, InMine))
    case InMine => Release(ProcessLock(a.proc), Some(InProbe(k, g, if KeptHere(s, a, g) then LookChild else TryFile)))
    case TryFile =>
      if !FileLooksDead(s, g, ch.probeFails) then Then(InProbe(k, g, LookChild))
      else if ch.probeFails then Then(Verdict(k, true))
      else Acquire(LiveLock(g.id), InProbe(k, g, InFile))
    case InFile => Release(LiveLock(g.id), Some(Verdict(k, true)))
    case LookChild => Then(Verdict(k, ChildLooksDead(s, g)))
  }

  function StepDrop(s: System, a: Actor, c: Caller, th: string, n: Turn, drop: DropStage): Move {
    match drop
    case ToTable => Acquire(TableLock(a.proc, a.ledger), InEnd(Drop(c, th, n, InTable)))
    case InTable =>
      if n.generationId in s.disk.holds &&
         s.disk.holds[n.generationId].proc == a.proc && s.disk.holds[n.generationId].ledger == a.ledger
      then Then(InEnd(Drop(c, th, n, ToProcess)))
      else Then(InEnd(Drop(c, th, n, OutOfTable)))
    case ToProcess => Acquire(ProcessLock(a.proc), InEnd(Drop(c, th, n, InProcess)))
    case InProcess =>
      Move(CloseLive(n.generationId, a.proc, a.ledger), Free(ProcessLock(a.proc)),
           Some(InEnd(Drop(c, th, n, OutOfTable))), false)
    case OutOfTable => Move(NoWrite, Free(TableLock(a.proc, a.ledger)), Some(InEnd(Finish(c, th, n))), true)
  }

  function StepFinish(c: Caller, th: string, v: Turn): Move {
    match c
    case Direct => Release(ThreadLock(th), None)
    case KeyIndex(spec) =>
      Release(ThreadLock(th),
              Some(if !v.IsTerminal() && v.clientRequestId == spec.clientRequestId
                   then InWrite(LeaveAdmit(Deduplicated(v))) else InScan(ListKey(spec))))
    case KeyScan(spec, rest) =>
      Release(ThreadLock(th),
              Some(if !v.IsTerminal() then InWrite(LeaveAdmit(Deduplicated(v))) else InScan(ScanKey(spec, rest))))
    case PointerCheck(spec, record) =>
      Then(if !v.IsTerminal() then InWrite(LeaveThread(th, Busy(v))) else InScan(ListThread(spec, record)))
    case ThreadScan(spec, record, rest) =>
      Then(if !v.IsTerminal() then InWrite(LeaveThread(th, Busy(v))) else InScan(ScanThread(spec, record, rest)))
  }

  function StepEnd(s: System, a: Actor, q: EndPoint, ch: Choice): Move {
    match q
    case ClearPointer(c, th, n) =>
      if n.threadId in s.disk.threads && s.disk.threads[n.threadId].inProgressTurnId == n.id
      then Then(InEnd(StorePointer(c, th, n, s.disk.threads[n.threadId])))
      else Then(InEnd(Drop(c, th, n, ToTable)))
    case StorePointer(c, th, n, record) =>
      Move(if ch.ok then PutThread(record.(inProgressTurnId := "")) else NoWrite, Keep,
           Some(InEnd(Drop(c, th, n, ToTable))), false)
    case Drop(c, th, n, drop) => StepDrop(s, a, c, th, n, drop)
    case Finish(c, th, v) => StepFinish(c, th, v)
    case Leave(c, th) =>
      (match c
       case Direct => Release(ThreadLock(th), None)
       case KeyIndex(_) => Release(ThreadLock(th), Some(InWrite(LeaveAdmit(Refused))))
       case KeyScan(_, _) => Release(ThreadLock(th), Some(InWrite(LeaveAdmit(Refused))))
       case PointerCheck(_, _) => Then(InWrite(LeaveThread(th, Refused)))
       case ThreadScan(_, _, _) => Then(InWrite(LeaveThread(th, Refused))))
  }

  function StepScan(s: System, a: Actor, q: ScanPoint, ch: Choice): Move {
    match q
    case WantAdmit(spec) =>
      Acquire(AdmitLock, InScan(if spec.clientRequestId == [] then WantAdmitThread(spec) else LookupKey(spec)))
    case LookupKey(spec) =>
      Then(if ch.index.None? then InScan(ListKey(spec))
           else InTurn(FirstRead(ch.index.value, Observe, KeyIndex(spec))))
    case ListKey(spec) => Then(InScan(ScanKey(spec, s.disk.turns.Keys)))
    case ScanKey(spec, rest) =>
      if rest == {} then Then(InScan(WantAdmitThread(spec)))
      else if ch.pick in s.disk.turns && s.disk.turns[ch.pick].clientRequestId != spec.clientRequestId
      then Then(InScan(ScanKey(spec, rest - {ch.pick})))
      else Then(InTurn(FirstRead(ch.pick, Observe, KeyScan(spec, rest - {ch.pick}))))
    case WantAdmitThread(spec) => Acquire(ThreadLock(spec.threadId), InScan(ReadThread(spec)))
    case ReadThread(spec) =>
      if spec.threadId in s.disk.threads then Then(InScan(CheckPointer(spec, s.disk.threads[spec.threadId])))
      else Then(InWrite(LeaveThread(spec.threadId, Refused)))
    case CheckPointer(spec, record) =>
      Then(if record.inProgressTurnId == "" then InScan(ListThread(spec, record))
           else InTurn(Locked(record.inProgressTurnId, Observe, PointerCheck(spec, record), spec.threadId)))
    case ListThread(spec, record) => Then(InScan(ScanThread(spec, record, s.disk.turns.Keys)))
    case ScanThread(spec, record, rest) =>
      if rest == {} then Then(InWrite(WriteGeneration(spec, record, ch.freshGeneration, ch.freshTurn)))
      else if ch.pick in s.disk.turns &&
              (s.disk.turns[ch.pick].threadId != spec.threadId || s.disk.turns[ch.pick].IsTerminal())
      then Then(InScan(ScanThread(spec, record, rest - {ch.pick})))
      else Then(InTurn(Locked(ch.pick, Observe, ThreadScan(spec, record, rest - {ch.pick}), spec.threadId)))
  }

  function NewGeneration(gid: string, t: string, owner: nat, epoch: nat): Generation {
    Generation(gid, t, owner, epoch, None, None, false)
  }

  function StepOpen(s: System, a: Actor, spec: NewTurn, n: Turn, locked: bool, open: OpenStage, ch: Choice): Move {
    match open
    case ToFile =>
      if ch.ok then Acquire(LiveLock(n.generationId), InWrite(Open(spec, n, true, ToMark)))
      else Then(InWrite(Open(spec, n, false, ToMark)))
    case ToMark => Acquire(ProcessLock(a.proc), InWrite(Open(spec, n, locked, InMark)))
    case InMark => Release(ProcessLock(a.proc), Some(InWrite(Open(spec, n, locked, ToKeep))))
    case ToKeep => Acquire(TableLock(a.proc, a.ledger), InWrite(Open(spec, n, locked, InKeep)))
    case InKeep =>
      Move(OpenLive(n.generationId, Hold(a.proc, a.ledger, locked)),
           if locked then Free(LiveLock(n.generationId)) else Keep,
           Some(InWrite(Open(spec, n, locked, OutOfKeep))), false)
    case OutOfKeep =>
      Release(TableLock(a.proc, a.ledger), Some(InWrite(LeaveThread(spec.threadId, Admitted(n)))))
  }

  function StepWrite(s: System, a: Actor, q: WritePoint, ch: Choice): Move {
    match q
    case WriteGeneration(spec, record, gid, t) =>
      Move(PutGeneration(NewGeneration(gid, t, a.proc, ch.epoch)), Keep,
           Some(InWrite(WriteTurn(spec, record, gid, t))), false)
    case WriteTurn(spec, record, gid, t) =>
      Move(PutNewTurn(FreshRecord(spec, gid, t)), Keep,
           Some(InWrite(WritePointer(spec, record, FreshRecord(spec, gid, t)))), false)
    case WritePointer(spec, record, n) =>
      Move(if ch.ok then PutThread(record.(inProgressTurnId := n.id)) else NoWrite, Keep,
           Some(InWrite(Open(spec, n, false, ToFile))), false)
    case Open(spec, n, locked, open) => StepOpen(s, a, spec, n, locked, open, ch)
    case LeaveThread(th, result) => Release(ThreadLock(th), Some(InWrite(LeaveAdmit(result))))
    case LeaveAdmit(_) => Release(AdmitLock, None)
  }

  function StepField(s: System, a: Actor, q: FieldPoint, ch: Choice): Move {
    match q
    case MakeThread(record) => Move(PutThread(record.(id := ch.freshThread)), Keep, None, false)
    case WantSession(th, sid) => Acquire(ThreadLock(th), InField(ReadSession(th, sid)))
    case ReadSession(th, sid) =>
      Then(InField(if th in s.disk.threads then WriteSession(th, sid, s.disk.threads[th]) else LeaveSession(th)))
    case WriteSession(th, sid, record) =>
      Move(PutThread(record.(acpSessionId := sid)), Keep, Some(InField(LeaveSession(th))), false)
    case LeaveSession(th) => Release(ThreadLock(th), None)
    case WantGeneration(g, u) => Acquire(GenerationLock(g), InField(ReadGeneration(g, u)))
    case ReadGeneration(g, u) =>
      Then(InField(if g in s.disk.generations then StoreGeneration(g, u, s.disk.generations[g])
                   else LeaveGeneration(g)))
    case StoreGeneration(g, u, r) =>
      Move(PutGeneration(u.On(r)), Keep, Some(InField(LeaveGeneration(g))), u.Eof?)
    case LeaveGeneration(g) => Release(GenerationLock(g), None)
  }

  function Step(s: System, a: Actor, p: Point, ch: Choice): Move {
    match p
    case InTurn(q) => StepTurn(s, a, q, ch)
    case InProbe(k, g, probe) => StepProbe(s, a, k, g, probe, ch)
    case InEnd(q) => StepEnd(s, a, q, ch)
    case InScan(q) => StepScan(s, a, q, ch)
    case InWrite(q) => StepWrite(s, a, q, ch)
    case InField(q) => StepField(s, a, q, ch)
  }

  /** Work aside: the table's mutex, then any number of waiters one after the other. */
  function StepAside(a: Actor, stage: Stage, ch: Choice): (LockChange, Option<Stage>) {
    match stage
    case ToWake => (Take(TableLock(a.proc, a.ledger)), Some(InWake))
    case InWake =>
      if ch.pair.Some? then (Keep, Some(ToPair(ch.pair.value))) else (Free(TableLock(a.proc, a.ledger)), None)
    case ToPair(n) => (Take(PairLock(n)), Some(InPair(n)))
    case InPair(n) => (Free(PairLock(n)), Some(InWake))
    case ToSleep(n) => (Take(PairLock(n)), Some(InSleep(n)))
    case InSleep(n) => (Free(PairLock(n)), None)
  }

  predicate FreeToTake(s: System, a: Actor, place: Place) {
    WantsAt(a, place).Some? ==> Available(s, WantsAt(a, place).value)
  }

  /** What must hold of the choice: a free lock, a file still to visit, ids never used before. */
  predicate ReadyTurn(d: State, q: TurnPoint, ch: Choice) {
    q.Judged? && q.op.Park? ==> ch.freshRequest != "" && ch.freshRequest !in d.issued
  }

  predicate ReadyScan(d: State, q: ScanPoint, ch: Choice) {
    && ((q.ScanKey? || q.ScanThread?) && q.rest != {} ==> ch.pick in q.rest)
    && (q.ScanThread? && q.rest == {} ==>
          && ch.freshGeneration !in d.generations
          && ch.freshTurn !in d.turns && ch.freshTurn != "")
  }

  predicate ReadyPoint(d: State, p: Point, ch: Choice) {
    && (p.InTurn? ==> ReadyTurn(d, p.turn, ch))
    && (p.InScan? ==> ReadyScan(d, p.scan, ch))
    && (p.InField? && p.field.MakeThread? ==> ch.freshThread !in d.threads)
  }

  predicate Ready(s: System, a: Actor, place: Place, ch: Choice) {
    FreeToTake(s, a, place) && (place.On? ==> ReadyPoint(s.disk, place.point, ch))
  }

  // ---------------------------------------------------------------- the system

  function Store(d: State, w: Write): State {
    match w
    case NoWrite => d
    case PutThread(r) => d.(threads := d.threads[r.id := r])
    case PutGeneration(r) => d.(generations := d.generations[r.id := r])
    case PutNewTurn(n) => d.(turns := d.turns[n.id := n])
    case PutTurn(n, op, minted) =>
      d.(turns := d.turns[n.id := n],
         answers := WithAnswer(d.answers, op),
         issued := WithIssued(d.issued, op, minted))
    case OpenLive(g, h) => d.(holds := d.holds[g := h])
    case CloseLive(g, proc, ledger) =>
      if g in d.holds && d.holds[g].proc == proc && d.holds[g].ledger == ledger
      then d.(holds := d.holds - {g}) else d
  }

  function Relock(locks: map<Lock, Actor>, a: Actor, change: LockChange): map<Lock, Actor> {
    match change
    case Keep => locks
    case Take(l) => locks[l := a]
    case Free(l) => locks - {l}
  }

  function Resume(running: map<Actor, Place>, a: Actor, next: Option<Place>): map<Actor, Place> {
    if next.Some? then running[a := next.value] else running - {a}
  }

  function Placed(next: Option<Point>, wake: bool): Option<Place> {
    if wake then Some(Aside(ToWake, next)) else if next.Some? then Some(On(next.value)) else None
  }

  function Kept(keepers: map<string, (nat, nat)>, w: Write): map<string, (nat, nat)> {
    if w.OpenLive? then keepers[w.id := (w.hold.proc, w.hold.ledger)] else keepers
  }

  function After(s: System, a: Actor, m: Move): System {
    s.(disk := Store(s.disk, m.write),
       locks := Relock(s.locks, a, m.change),
       running := Resume(s.running, a, Placed(m.next, m.wake)),
       keepers := Kept(s.keepers, m.write))
  }

  function AfterAside(s: System, a: Actor, stage: Stage, back: Option<Point>, ch: Choice): System {
    var (change, next) := StepAside(a, stage, ch);
    s.(locks := Relock(s.locks, a, change),
       running := Resume(s.running, a, if next.Some? then Some(Aside(next.value, back)) else Placed(back, false)))
  }

  function AfterGo(s: System, a: Actor, place: Place, ch: Choice): System {
    match place
    case On(p) => After(s, a, Step(s, a, p, ch))
    case Aside(stage, back) => AfterAside(s, a, stage, back, ch)
  }

  function Start(task: Task): Place {
    match task
    case TurnTask(t, op) => On(InTurn(FirstRead(t, op, Direct)))
    case AdmitTask(spec) => On(InScan(WantAdmit(spec)))
    case SessionTask(th, sid) => On(InField(WantSession(th, sid)))
    case GenerationTask(g, u) => On(InField(WantGeneration(g, u)))
    case ThreadTask(r) => On(InField(MakeThread(r.(inProgressTurnId := ""))))
    case WaiterTask => Aside(ToWake, None)
    case SleepTask(n) => Aside(ToSleep(n), None)
  }

  /** Where an I/O or decoding error may end an operation: nowhere after its record was persisted. */
  predicate MayFail(p: Point) {
    match p
    case InTurn(_) => true
    case InProbe(_, _, _) => false
    case InEnd(_) => false
    case InScan(_) => true
    case InWrite(q) => q.WriteGeneration? || q.WriteTurn?
    case InField(q) => !q.LeaveSession? && !q.LeaveGeneration?
  }

  function ErrorExit(p: Point): Option<Point>
    requires MayFail(p)
  {
    match p
    case InTurn(q) =>
      if !q.FirstRead? && !q.WantThread? then Some(InEnd(Leave(q.c, q.th)))
      else if q.c.Direct? then None
      else Some(InWrite(LeaveAdmit(Refused)))
    case InScan(q) =>
      if q.WantAdmit? then None
      else if q.LookupKey? || q.ListKey? || q.ScanKey? || q.WantAdmitThread? then Some(InWrite(LeaveAdmit(Refused)))
      else Some(InWrite(LeaveThread(q.spec.threadId, Refused)))
    case InWrite(q) => Some(InWrite(LeaveThread(q.spec.threadId, Refused)))
    case InField(q) =>
      if q.ReadSession? || q.WriteSession? then Some(InField(LeaveSession(q.th)))
      else if q.ReadGeneration? || q.StoreGeneration? then Some(InField(LeaveGeneration(q.gid)))
      else None
  }

  predicate Enabled(s: System, act: Action) {
    match act
    case Begin(a, task) =>
      && a !in s.running && a.proc !in s.crashed && (a.proc, a.ledger) !in s.dropped
      && (task.TurnTask? ==> task.op.WellFormed() && (task.op.Respond? ==> task.op.request != ""))
    case Go(a, ch) => a in s.running && Ready(s, a, s.running[a], ch)
    case Abort(a) => a in s.running && s.running[a].On? && MayFail(s.running[a].point)
    case Crash(p) => true
    case DropLedger(p, l) => Available(s, ProcessLock(p)) && forall a :: a in s.running ==> (a.proc, a.ledger) != (p, l)
    case ChildDies(pid) => true
  }

  function Next(s: System, act: Action): System
    requires Enabled(s, act)
  {
    match act
    case Begin(a, task) => s.(running := s.running[a := Start(task)])
    case Go(a, ch) => AfterGo(s, a, s.running[a], ch)
    case Abort(a) => After(s, a, Move(NoWrite, Keep, ErrorExit(s.running[a].point), false))
    case Crash(p) =>
      s.(disk := s.disk.(holds := WithoutProcess(s.disk.holds, p)),
         locks := map l | l in s.locks && s.locks[l].proc != p :: s.locks[l],
         running := map a | a in s.running && a.proc != p :: s.running[a],
         crashed := s.crashed + {p})
    case DropLedger(p, l) =>
      s.(disk := s.disk.(holds := WithoutLedger(s.disk.holds, p, l)), dropped := s.dropped + {(p, l)})
    case ChildDies(pid) => s.(gone := s.gone + {pid})
  }

  predicate Initial(s: System) {
    s == System(Empty(), map[], map[], {}, {}, map[], {})
  }
}
