/** The invariant of the interleaved ledger, and its preservation by every action. */
module ProtocolInvariant {
  import opened Records
  import opened Disk
  import opened Protocol

  // ---------------------------------------------------------------- what each point knows

  ghost predicate KeyDone(d: State, key: seq<Byte>, rest: set<string>) {
    forall u :: u in d.turns && u !in rest && d.turns[u].clientRequestId == key ==> d.turns[u].IsTerminal()
  }

  ghost predicate ThreadDone(d: State, th: string, rest: set<string>) {
    forall u :: u in d.turns && u !in rest && d.turns[u].threadId == th ==> d.turns[u].IsTerminal()
  }

  /** The admission's copy of its thread is current except perhaps for the pointer. */
  ghost predicate RecordOk(d: State, spec: NewTurn, r: Thread) {
    && spec.threadId in d.threads
    && r.(inProgressTurnId := "") == d.threads[spec.threadId].(inProgressTurnId := "")
  }

  ghost predicate CallerOk(d: State, c: Caller, t: string) {
    match c
    case Direct => true
    case KeyIndex(spec) => spec.clientRequestId != []
    case KeyScan(spec, rest) => spec.clientRequestId != [] && t in d.turns &&
                                d.turns[t].clientRequestId == spec.clientRequestId &&
                                rest <= d.turns.Keys && KeyDone(d, spec.clientRequestId, rest + {t})
    case PointerCheck(spec, r) => KeyIdle(d, spec.clientRequestId) && RecordOk(d, spec, r)
    case ThreadScan(spec, r, rest) =>
      && KeyIdle(d, spec.clientRequestId) && RecordOk(d, spec, r)
      && rest <= d.turns.Keys && ThreadDone(d, spec.threadId, rest + {t})
  }

  /** Inside an admission's thread section the observed turn belongs to the locked thread. */
  predicate CallerThread(c: Caller, th: string) {
    match c
    case PointerCheck(spec, _) => spec.threadId == th
    case ThreadScan(spec, _, _) => spec.threadId == th
    case _ => true
  }

  predicate CallerOp(c: Caller, op: TurnOp) {
    && op.WellFormed() && (op.Respond? ==> op.request != "")
    && (!c.Direct? ==> op.Observe?)
  }

  ghost predicate Current(d: State, t: string, th: string, v: Turn) {
    t in d.turns && d.turns[t] == v && v.threadId == th
  }

  ghost predicate TurnPointOk(d: State, q: TurnPoint) {
    match q
    case FirstRead(t, op, c) =>
      && CallerOp(c, op) && CallerOk(d, c, t) && !c.PointerCheck? && !c.ThreadScan?
    case WantThread(t, op, c, th) =>
      && CallerOp(c, op) && CallerOk(d, c, t) && !c.PointerCheck? && !c.ThreadScan?
      && t in d.turns && d.turns[t].threadId == th
    case Locked(t, op, c, th) =>
      && CallerOp(c, op) && CallerOk(d, c, t) && CallerThread(c, th)
      && t in d.turns && d.turns[t].threadId == th
    case GotTurn(t, op, c, th, v) =>
      CallerOp(c, op) && CallerOk(d, c, t) && CallerThread(c, th) && Current(d, t, th, v)
    case Judged(t, op, c, th, v, _) =>
      CallerOp(c, op) && CallerOk(d, c, t) && CallerThread(c, th) && Current(d, t, th, v)
  }

  /** Past the first look, this process does not keep the live file; the copy of the generation may be stale. */
  ghost predicate ProbeOk(d: State, a: Actor, k: Subject, g: Generation, probe: ProbeStage) {
    && CallerOp(k.c, k.op) && CallerOk(d, k.c, k.t) && CallerThread(k.c, k.th) && Current(d, k.t, k.th, k.v)
    && k.op.Probes() && !k.v.IsTerminal()
    && g.id == k.v.generationId && g.id in d.generations && g.ownerPid == d.generations[g.id].ownerPid
    && (probe.TryFile? || probe.InFile? ==> g.id in d.holds ==> d.holds[g.id].proc != a.proc)
  }

  ghost predicate EndPointOk(d: State, q: EndPoint) {
    match q
    case ClearPointer(c, th, n) =>
      CallerOk(d, c, n.id) && CallerThread(c, th) && Current(d, n.id, th, n) && n.IsTerminal()
    case StorePointer(c, th, n, r) =>
      && CallerOk(d, c, n.id) && CallerThread(c, th) && Current(d, n.id, th, n) && n.IsTerminal()
      && th in d.threads && d.threads[th] == r && r.inProgressTurnId == n.id
    case Drop(c, th, n, _) =>
      CallerOk(d, c, n.id) && CallerThread(c, th) && Current(d, n.id, th, n) && n.IsTerminal()
    case Finish(c, th, v) =>
      CallerOk(d, c, v.id) && CallerThread(c, th) && Current(d, v.id, th, v)
    case Leave(c, th) => CallerThread(c, th)
  }

  /** While the thread lock is still held, the turn an admission reports is exactly the live one on disk. */
  ghost predicate AdmissionOk(d: State, th: string, result: Admission) {
    match result
    case Deduplicated(_) => false
    case Busy(v) => Current(d, v.id, th, v) && !v.IsTerminal()
    case Admitted(v) => Current(d, v.id, th, v) && !v.IsTerminal()
    case Refused => true
  }

  ghost predicate ScanPointOk(d: State, q: ScanPoint) {
    match q
    case WantAdmit(_) => true
    case LookupKey(spec) => spec.clientRequestId != []
    case ListKey(spec) => spec.clientRequestId != []
    case ScanKey(spec, rest) =>
      spec.clientRequestId != [] && rest <= d.turns.Keys && KeyDone(d, spec.clientRequestId, rest)
    case WantAdmitThread(spec) => KeyIdle(d, spec.clientRequestId)
    case ReadThread(spec) => KeyIdle(d, spec.clientRequestId)
    case CheckPointer(spec, r) =>
      && KeyIdle(d, spec.clientRequestId) && RecordOk(d, spec, r)
      && (r.inProgressTurnId != "" ==>
            r.inProgressTurnId in d.turns && d.turns[r.inProgressTurnId].threadId == spec.threadId)
    case ListThread(spec, r) => KeyIdle(d, spec.clientRequestId) && RecordOk(d, spec, r)
    case ScanThread(spec, r, rest) =>
      && KeyIdle(d, spec.clientRequestId) && RecordOk(d, spec, r)
      && rest <= d.turns.Keys && ThreadDone(d, spec.threadId, rest)
  }

  ghost predicate ReadyToCreate(d: State, spec: NewTurn, r: Thread, t: string) {
    && KeyIdle(d, spec.clientRequestId) && RecordOk(d, spec, r) && ThreadIdle(d, spec.threadId)
    && t !in d.turns && t != ""
  }

  ghost predicate JustCreated(d: State, owner: nat, spec: NewTurn, n: Turn) {
    && Current(d, n.id, spec.threadId, n) && !n.IsTerminal()
    && n.generationId in d.generations && d.generations[n.generationId].ownerPid == owner
  }

  ghost predicate WritePointOk(d: State, a: Actor, q: WritePoint) {
    match q
    case WriteGeneration(spec, r, g, t) => ReadyToCreate(d, spec, r, t) && g !in d.generations
    case WriteTurn(spec, r, g, t) =>
      && ReadyToCreate(d, spec, r, t) && g in d.generations
      && d.generations[g].turnId == t && d.generations[g].ownerPid == a.proc && g !in d.holds
    case WritePointer(spec, r, n) =>
      JustCreated(d, a.proc, spec, n) && RecordOk(d, spec, r) && n.generationId !in d.holds
    case Open(spec, n, _, open) =>
      JustCreated(d, a.proc, spec, n) && (!open.OutOfKeep? ==> n.generationId !in d.holds)
    case LeaveThread(th, result) => AdmissionOk(d, th, result)
    case LeaveAdmit(_) => true
  }

  ghost predicate FieldPointOk(d: State, q: FieldPoint) {
    match q
    case WriteSession(th, _, r) => th in d.threads && d.threads[th] == r
    case StoreGeneration(g, _, r) => g in d.generations && d.generations[g] == r
    case MakeThread(r) => r.inProgressTurnId == ""
    case _ => true
  }

  ghost predicate PointOk(d: State, a: Actor, p: Point) {
    match p
    case InTurn(q) => TurnPointOk(d, q)
    case InProbe(k, g, probe) => ProbeOk(d, a, k, g, probe)
    case InEnd(q) => EndPointOk(d, q)
    case InScan(q) => ScanPointOk(d, q)
    case InWrite(q) => WritePointOk(d, a, q)
    case InField(q) => FieldPointOk(d, q)
  }

  /** The points an actor may return to from the waiter table. */
  predicate Resumable(p: Point) {
    (p.InEnd? && p.end.Finish?) || (p.InField? && p.field.LeaveGeneration?)
  }

  ghost predicate PlaceOk(d: State, a: Actor, place: Place) {
    match place
    case On(p) => PointOk(d, a, p)
    case Aside(_, back) => back.Some? ==> Resumable(back.value) && PointOk(d, a, back.value)
  }

  // ---------------------------------------------------------------- interference freedom

  /** Nothing protected by `held` changed. */
  ghost predicate Untouched(d: State, d': State, held: set<Lock>)
    requires Grows(d, d')
  {
    && (AdmitLock in held ==>
          && d'.turns.Keys == d.turns.Keys && d'.generations.Keys == d.generations.Keys
          && d'.holds.Keys <= d.holds.Keys)
    && (forall t :: t in d.turns && ThreadLock(d.turns[t].threadId) in held && d.turns[t].generationId in d'.holds ==>
          d.turns[t].generationId in d.holds && d'.holds[d.turns[t].generationId] == d.holds[d.turns[t].generationId])
    && (forall th :: ThreadLock(th) in held && th in d.threads ==> d'.threads[th] == d.threads[th])
    && (forall t :: t in d.turns && ThreadLock(d.turns[t].threadId) in held ==> d'.turns[t] == d.turns[t])
    && (forall g :: GenerationLock(g) in held && g in d.generations ==> d'.generations[g] == d.generations[g])
  }

  ghost predicate Undisturbed(d: State, d': State, held: set<Lock>) {
    Grows(d, d') && Untouched(d, d', held)
  }

  lemma FrameCaller(d: State, d': State, c: Caller, t: string)
    requires CallerOk(d, c, t) && Undisturbed(d, d', CallerLocks(c))
    ensures CallerOk(d', c, t)
  {
  }

  lemma UndisturbedLess(d: State, d': State, held: set<Lock>, less: set<Lock>)
    requires Undisturbed(d, d', held) && less <= held
    ensures Undisturbed(d, d', less)
  {
  }

  lemma FrameTurnPoint(d: State, d': State, q: TurnPoint)
    requires TurnPointOk(d, q) && Undisturbed(d, d', HeldInTurn(q))
    ensures TurnPointOk(d', q)
  {
    UndisturbedLess(d, d', HeldInTurn(q), CallerLocks(q.c));
    FrameCaller(d, d', q.c, q.t);
  }

  lemma FrameProbe(d: State, d': State, a: Actor, k: Subject, g: Generation, probe: ProbeStage)
    requires ProbeOk(d, a, k, g, probe) && Undisturbed(d, d', HeldInProbe(a, k, g, probe))
    ensures ProbeOk(d', a, k, g, probe)
  {
    UndisturbedLess(d, d', HeldInProbe(a, k, g, probe), CallerLocks(k.c));
    FrameCaller(d, d', k.c, k.t);
    assert ThreadLock(d.turns[k.t].threadId) in HeldInProbe(a, k, g, probe);
  }

  lemma FrameEndPoint(d: State, d': State, a: Actor, q: EndPoint)
    requires EndPointOk(d, q) && Undisturbed(d, d', HeldInEnd(a, q))
    ensures EndPointOk(d', q)
  {
    UndisturbedLess(d, d', HeldInEnd(a, q), CallerLocks(q.c));
    if !q.Leave? { FrameCaller(d, d', q.c, if q.Finish? then q.v.id else q.n.id); }
    assert ThreadLock(q.th) in HeldInEnd(a, q);
  }

  lemma FrameScanPoint(d: State, d': State, q: ScanPoint)
    requires ScanPointOk(d, q) && Undisturbed(d, d', HeldInScan(q))
    ensures ScanPointOk(d', q)
  {
  }

  lemma FrameWritePoint(d: State, d': State, a: Actor, q: WritePoint)
    requires WritePointOk(d, a, q) && Undisturbed(d, d', HeldInWrite(a, q))
    ensures WritePointOk(d', a, q)
  {
  }

  lemma FrameFieldPoint(d: State, d': State, q: FieldPoint)
    requires FieldPointOk(d, q) && Undisturbed(d, d', HeldInField(q))
    ensures FieldPointOk(d', q)
  {
  }

  lemma FramePoint(d: State, d': State, a: Actor, p: Point)
    requires PointOk(d, a, p) && Undisturbed(d, d', Held(a, p))
    ensures PointOk(d', a, p)
  {
    match p
    case InTurn(q) => FrameTurnPoint(d, d', q);
    case InProbe(k, g, probe) => FrameProbe(d, d', a, k, g, probe);
    case InEnd(q) => FrameEndPoint(d, d', a, q);
    case InScan(q) => FrameScanPoint(d, d', q);
    case InWrite(q) => FrameWritePoint(d, d', a, q);
    case InField(q) => FrameFieldPoint(d, d', q);
  }

  /** What an actor knows survives every change made without its locks. */
  lemma FramePlace(d: State, d': State, a: Actor, place: Place)
    requires PlaceOk(d, a, place) && Undisturbed(d, d', HeldAt(a, place))
    ensures PlaceOk(d', a, place)
  {
    match place
    case On(p) => FramePoint(d, d', a, p);
    case Aside(stage, back) =>
      if back.Some? {
        UndisturbedLess(d, d', HeldAt(a, place), Held(a, back.value));
        FramePoint(d, d', a, back.value);
      }
  }

  // ---------------------------------------------------------------- the refinement of one write

  /** The atomic ledger operation that a write of the protocol amounts to. */
  ghost function AtomicOf(d: State, p: Point, w: Write): AtomicOp {
    match w
    case NoWrite => Stutter
    case PutThread(r) =>
      if p.InEnd? && p.end.StorePointer? then SetPointer(p.end.th, "")
      else if p.InWrite? && p.write.WritePointer? then SetPointer(p.write.spec.threadId, p.write.n.id)
      else if p.InField? && p.field.WriteSession? then SetSession(p.field.th, p.field.session)
      else CreateThread(r)
    case PutGeneration(r) =>
      if p.InField? && p.field.StoreGeneration? then
        (match p.field.update
         case Child(pid, e) => SetChild(p.field.gid, pid, e)
         case Eof => SetEof(p.field.gid))
      else CreateGeneration(r)
    case PutNewTurn(n) => CreateTurn(n)
    case PutTurn(_, op, minted) =>
      if p.InTurn? && p.turn.Judged? then CommitTurn(p.turn.t, op, p.turn.dead, minted) else Stutter
    case OpenLive(g, h) => TakeHold(g, h)
    case CloseLive(g, proc, ledger) =>
      if g in d.holds && d.holds[g].proc == proc && d.holds[g].ledger == ledger then ReleaseHold(g) else Stutter
  }

  /** The locks an operation's record is protected by. */
  ghost function Guards(d: State, op: AtomicOp): set<Lock>
    requires Legal(d, op)
  {
    match op
    case CreateTurn(n) => {AdmitLock, ThreadLock(n.threadId)}
    case CreateGeneration(_) => {AdmitLock}
    case CommitTurn(t, _, _, _) => {ThreadLock(d.turns[t].threadId)}
    case SetPointer(th, _) => {ThreadLock(th)}
    case SetSession(th, _) => {ThreadLock(th)}
    case SetChild(g, _, _) => {GenerationLock(g)}
    case SetEof(g) => {GenerationLock(g)}
    case TakeHold(g, _) => {AdmitLock} + ThreadOfGeneration(d, g)
    case _ => {}
  }

  /** The lock of the thread whose turn this generation runs. */
  ghost function ThreadOfGeneration(d: State, g: string): set<Lock>
    requires g in d.generations
  {
    var t := d.generations[g].turnId;
    if t in d.turns then {ThreadLock(d.turns[t].threadId)} else {}
  }

  /** A raw write is a legal operation on the records as they are, made under their locks. */
  ghost predicate Faithful(s: System, a: Actor, p: Point, w: Write) {
    var op := AtomicOf(s.disk, p, w);
    Legal(s.disk, op) && Store(s.disk, w) == Apply(s.disk, op) && Guards(s.disk, op) <= Held(a, p)
  }

  lemma TurnFaithful(s: System, a: Actor, q: TurnPoint, ch: Choice)
    requires Linked(s.disk) && TurnPointOk(s.disk, q) && ReadyTurn(s.disk, q, ch)
    ensures Faithful(s, a, InTurn(q), StepTurn(s, a, q, ch).write)
  {
    if q.Judged? { JudgedFaithful(s, a, q, ch); }
  }

  lemma JudgedFaithful(s: System, a: Actor, q: TurnPoint, ch: Choice)
    requires q.Judged? && Linked(s.disk) && TurnPointOk(s.disk, q) && ReadyTurn(s.disk, q, ch)
    ensures Faithful(s, a, InTurn(q), StepTurn(s, a, q, ch).write)
  {
    var r := Rewrite(q.op, q.v, q.dead, ch.freshRequest);
    if r.Some? { RewriteFacts(q.op, q.v, q.dead, ch.freshRequest); }
  }

  lemma DropFaithful(s: System, a: Actor, q: EndPoint, ch: Choice)
    requires Linked(s.disk) && EndPointOk(s.disk, q) && q.Drop?
    ensures Faithful(s, a, InEnd(q), StepEnd(s, a, q, ch).write)
  {
  }

  lemma EndFaithful(s: System, a: Actor, q: EndPoint, ch: Choice)
    requires Linked(s.disk) && EndPointOk(s.disk, q)
    ensures Faithful(s, a, InEnd(q), StepEnd(s, a, q, ch).write)
  {
    if q.Drop? { DropFaithful(s, a, q, ch); }
  }

  lemma OpenFaithful(s: System, a: Actor, q: WritePoint, ch: Choice)
    requires Linked(s.disk) && WritePointOk(s.disk, a, q) && q.Open?
    ensures Faithful(s, a, InWrite(q), StepOpen(s, a, q.spec, q.n, q.locked, q.open, ch).write)
  {
    if q.open.InKeep? { KeepFaithful(s, a, q); }
  }

  lemma KeepFaithful(s: System, a: Actor, q: WritePoint)
    requires Linked(s.disk) && WritePointOk(s.disk, a, q) && q.Open? && q.open.InKeep?
    ensures Faithful(s, a, InWrite(q), OpenLive(q.n.generationId, Hold(a.proc, a.ledger, q.locked)))
  {
    assert s.disk.generations[q.n.generationId].turnId == q.n.id;
  }

  lemma WriteFaithful(s: System, a: Actor, q: WritePoint, ch: Choice)
    requires Linked(s.disk) && WritePointOk(s.disk, a, q)
    ensures Faithful(s, a, InWrite(q), StepWrite(s, a, q, ch).write)
  {
    if q.Open? { OpenFaithful(s, a, q, ch); }
  }

  lemma FieldFaithful(s: System, a: Actor, q: FieldPoint, ch: Choice)
    requires Linked(s.disk) && FieldPointOk(s.disk, q) && (q.MakeThread? ==> ch.freshThread !in s.disk.threads)
    ensures Faithful(s, a, InField(q), StepField(s, a, q, ch).write)
  {
  }

  /** No lost update: whatever an actor writes, from copies however old, is a legal atomic operation applied
      to the current value of the record, and the actor holds that record's lock. */
  lemma StepFaithful(s: System, a: Actor, p: Point, ch: Choice)
    requires Linked(s.disk) && PointOk(s.disk, a, p) && ReadyPoint(s.disk, p, ch)
    ensures Faithful(s, a, p, Step(s, a, p, ch).write)
  {
    match p
    case InTurn(q) => TurnFaithful(s, a, q, ch);
    case InProbe(k, g, probe) =>
    case InEnd(q) => EndFaithful(s, a, q, ch);
    case InScan(q) =>
    case InWrite(q) => WriteFaithful(s, a, q, ch);
    case InField(q) => FieldFaithful(s, a, q, ch);
  }

  // ---------------------------------------------------------------- guarded writes go unnoticed

  lemma TurnsUntouched(d: State, op: AtomicOp, other: set<Lock>)
    requires op.CommitTurn? || op.CreateTurn?
    requires Legal(d, op) && Grows(d, Apply(d, op)) && Guards(d, op) !! other
    ensures Untouched(d, Apply(d, op), other)
  {
    if op.CommitTurn? { assert ThreadLock(d.turns[op.id].threadId) in Guards(d, op); }
    else { assert AdmitLock in Guards(d, op); }
  }

  lemma ThreadsUntouched(d: State, op: AtomicOp, other: set<Lock>)
    requires op.CreateThread? || op.SetPointer? || op.SetSession?
    requires Legal(d, op) && Grows(d, Apply(d, op)) && Guards(d, op) !! other
    ensures Untouched(d, Apply(d, op), other)
  {
    if !op.CreateThread? { assert ThreadLock(op.threadId) in Guards(d, op); }
  }

  lemma GenerationsUntouched(d: State, op: AtomicOp, other: set<Lock>)
    requires op.CreateGeneration? || op.SetChild? || op.SetEof?
    requires Legal(d, op) && Grows(d, Apply(d, op)) && Guards(d, op) !! other
    ensures Untouched(d, Apply(d, op), other)
  {
    if op.CreateGeneration? { assert AdmitLock in Guards(d, op); }
    else { assert GenerationLock(op.id) in Guards(d, op); }
  }

  lemma HoldsUntouched(d: State, op: AtomicOp, other: set<Lock>)
    requires op.Stutter? || op.ReleaseHold? || op.ProcessDies? || op.LedgerDropped?
    requires Legal(d, op) && Grows(d, Apply(d, op))
    ensures Untouched(d, Apply(d, op), other)
  {
  }

  lemma TakeHoldUntouched(d: State, op: AtomicOp, other: set<Lock>)
    requires Linked(d) && op.TakeHold? && Legal(d, op) && Grows(d, Apply(d, op)) && Guards(d, op) !! other
    ensures Untouched(d, Apply(d, op), other)
  {
    assert AdmitLock in Guards(d, op);
    forall t | t in d.turns && d.turns[t].generationId == op.id ensures ThreadLock(d.turns[t].threadId) !in other {
      assert ThreadLock(d.turns[t].threadId) in Guards(d, op);
    }
  }

  /** A guarded operation cannot be noticed by an actor holding other locks. */
  lemma ApplyUndisturbed(d: State, op: AtomicOp, other: set<Lock>)
    requires Disk.Inv(d) && Legal(d, op) && Guards(d, op) !! other
    ensures Undisturbed(d, Apply(d, op), other)
  {
    ApplyGrows(d, op);
    if op.CommitTurn? || op.CreateTurn? { TurnsUntouched(d, op, other); }
    else if op.CreateThread? || op.SetPointer? || op.SetSession? { ThreadsUntouched(d, op, other); }
    else if op.CreateGeneration? || op.SetChild? || op.SetEof? { GenerationsUntouched(d, op, other); }
    else if op.TakeHold? { TakeHoldUntouched(d, op, other); }
    else { HoldsUntouched(d, op, other); }
  }

  // ---------------------------------------------------------------- an actor's own next point

  ghost predicate NextOk(d: State, a: Actor, m: Move) {
    && (m.next.Some? ==> PointOk(Store(d, m.write), a, m.next.value))
    && (m.wake ==> m.next.Some? && Resumable(m.next.value))
  }

  /** Rewriting the turn under observation keeps what the caller knows about all the others. */
  lemma CommittedCaller(d: State, d': State, c: Caller, t: string, n: Turn)
    requires CallerOk(d, c, t) && Succeeds(d, t, n)
    requires d'.turns == d.turns[t := n] && d'.threads == d.threads
    ensures CallerOk(d', c, t)
  {
  }

  lemma JudgedNext(s: System, a: Actor, q: TurnPoint, ch: Choice)
    requires q.Judged? && Linked(s.disk) && TurnPointOk(s.disk, q) && ReadyTurn(s.disk, q, ch)
    ensures NextOk(s.disk, a, StepTurn(s, a, q, ch))
  {
    var r := Rewrite(q.op, q.v, q.dead, ch.freshRequest);
    if r.Some? {
      RewriteFacts(q.op, q.v, q.dead, ch.freshRequest);
      CommittedPoint(s.disk, q, r.value, ch.freshRequest);
    }
  }

  lemma CommittedPoint(d: State, q: TurnPoint, n: Turn, minted: string)
    requires q.Judged? && TurnPointOk(d, q) && Succeeds(d, q.t, n) && n.id == q.t
    ensures var d' := Store(d, PutTurn(n, q.op, minted));
            && EndPointOk(d', Finish(q.c, q.th, n))
            && (n.IsTerminal() ==> EndPointOk(d', ClearPointer(q.c, q.th, n)))
  {
    CommittedCaller(d, Store(d, PutTurn(n, q.op, minted)), q.c, q.t, n);
  }

  lemma ReadNext(s: System, a: Actor, q: TurnPoint, ch: Choice)
    requires !q.Judged? && Linked(s.disk) && TurnPointOk(s.disk, q)
    ensures NextOk(s.disk, a, StepTurn(s, a, q, ch))
  {
  }

  lemma FinishedObserving(d: State, c: Caller, th: string, v: Turn)
    requires CallerOk(d, c, v.id) && CallerThread(c, th) && Current(d, v.id, th, v) && v.IsTerminal()
    ensures c.KeyScan? ==> ScanPointOk(d, ScanKey(c.spec, c.rest))
    ensures c.PointerCheck? ==> ScanPointOk(d, ListThread(c.spec, c.record))
    ensures c.ThreadScan? ==> ScanPointOk(d, ScanThread(c.spec, c.record, c.rest))
  {
  }

  lemma ProbeNext(s: System, a: Actor, k: Subject, g: Generation, probe: ProbeStage, ch: Choice)
    requires ProbeOk(s.disk, a, k, g, probe)
    ensures NextOk(s.disk, a, StepProbe(s, a, k, g, probe, ch))
  {
  }

  lemma KeyFinishNext(d: State, a: Actor, c: Caller, th: string, v: Turn)
    requires !c.PointerCheck? && !c.ThreadScan? && EndPointOk(d, Finish(c, th, v))
    ensures NextOk(d, a, StepFinish(c, th, v))
  {
    if v.IsTerminal() { FinishedObserving(d, c, th, v); }
  }

  lemma ThreadFinishNext(d: State, a: Actor, c: Caller, th: string, v: Turn)
    requires (c.PointerCheck? || c.ThreadScan?) && EndPointOk(d, Finish(c, th, v))
    ensures NextOk(d, a, StepFinish(c, th, v))
  {
    if v.IsTerminal() { FinishedObserving(d, c, th, v); }
  }

  lemma FinishNext(s: System, a: Actor, q: EndPoint, ch: Choice)
    requires q.Finish? && EndPointOk(s.disk, q)
    ensures NextOk(s.disk, a, StepFinish(q.c, q.th, q.v))
  {
    if q.c.PointerCheck? || q.c.ThreadScan? { ThreadFinishNext(s.disk, a, q.c, q.th, q.v); }
    else { KeyFinishNext(s.disk, a, q.c, q.th, q.v); }
  }

  lemma ClearPointerNext(s: System, a: Actor, q: EndPoint, ch: Choice)
    requires q.ClearPointer? && EndPointOk(s.disk, q)
    ensures NextOk(s.disk, a, StepEnd(s, a, q, ch))
  {
  }

  /** Emptying the pointer of its own thread changes nothing the caller relies on. */
  lemma PointerCaller(d: State, d': State, c: Caller, t: string, th: string)
    requires CallerOk(d, c, t) && th in d.threads
    requires d'.turns == d.turns && d'.threads == d.threads[th := d.threads[th].(inProgressTurnId := "")]
    ensures CallerOk(d', c, t)
  {
  }

  lemma StorePointerNext(s: System, a: Actor, q: EndPoint, ch: Choice)
    requires q.StorePointer? && Linked(s.disk) && EndPointOk(s.disk, q)
    ensures NextOk(s.disk, a, StepEnd(s, a, q, ch))
  {
    if ch.ok { PointerCaller(s.disk, Store(s.disk, StepEnd(s, a, q, ch).write), q.c, q.n.id, q.th); }
  }

  lemma HoldsCaller(d: State, d': State, c: Caller, t: string)
    requires CallerOk(d, c, t) && d'.turns == d.turns && d'.threads == d.threads
    ensures CallerOk(d', c, t)
  {
  }

  lemma DropNext(s: System, a: Actor, q: EndPoint, ch: Choice)
    requires q.Drop? && EndPointOk(s.disk, q)
    ensures NextOk(s.disk, a, StepDrop(s, a, q.c, q.th, q.n, q.drop))
  {
    HoldsCaller(s.disk, Store(s.disk, StepDrop(s, a, q.c, q.th, q.n, q.drop).write), q.c, q.n.id);
  }

  lemma LeaveNext(s: System, a: Actor, q: EndPoint, ch: Choice)
    requires q.Leave? && EndPointOk(s.disk, q)
    ensures NextOk(s.disk, a, StepEnd(s, a, q, ch))
  {
  }

  lemma EndNext(s: System, a: Actor, q: EndPoint, ch: Choice)
    requires Linked(s.disk) && EndPointOk(s.disk, q)
    ensures NextOk(s.disk, a, StepEnd(s, a, q, ch))
  {
    match q
    case ClearPointer(_, _, _) => ClearPointerNext(s, a, q, ch);
    case StorePointer(_, _, _, _) => StorePointerNext(s, a, q, ch);
    case Drop(_, _, _, _) => DropNext(s, a, q, ch);
    case Finish(_, _, _) => FinishNext(s, a, q, ch);
    case Leave(_, _) => LeaveNext(s, a, q, ch);
  }

  lemma KeyScanNext(s: System, a: Actor, q: ScanPoint, ch: Choice)
    requires q.WantAdmit? || q.LookupKey? || q.ListKey? || q.ScanKey? || q.WantAdmitThread?
    requires ScanPointOk(s.disk, q) && ReadyScan(s.disk, q, ch)
    ensures NextOk(s.disk, a, StepScan(s, a, q, ch))
  {
  }

  lemma ThreadScanNext(s: System, a: Actor, q: ScanPoint, ch: Choice)
    requires q.ReadThread? || q.CheckPointer? || q.ListThread? || q.ScanThread?
    requires PointersOwn(s.disk) && ScanPointOk(s.disk, q) && ReadyScan(s.disk, q, ch)
    ensures NextOk(s.disk, a, StepScan(s, a, q, ch))
  {
    if q.ScanThread? { ThreadScanStepNext(s, a, q, ch); }
  }

  lemma ThreadScanStepNext(s: System, a: Actor, q: ScanPoint, ch: Choice)
    requires q.ScanThread? && ScanPointOk(s.disk, q) && ReadyScan(s.disk, q, ch)
    ensures NextOk(s.disk, a, StepScan(s, a, q, ch))
  {
  }

  lemma ScanNext(s: System, a: Actor, q: ScanPoint, ch: Choice)
    requires PointersOwn(s.disk) && ScanPointOk(s.disk, q) && ReadyScan(s.disk, q, ch)
    ensures NextOk(s.disk, a, StepScan(s, a, q, ch))
  {
    if q.ReadThread? || q.CheckPointer? || q.ListThread? || q.ScanThread? {
      ThreadScanNext(s, a, q, ch);
    } else {
      KeyScanNext(s, a, q, ch);
    }
  }

  lemma KeepNext(s: System, a: Actor, q: WritePoint, ch: Choice)
    requires q.Open? && (q.open.InKeep? || q.open.OutOfKeep?) && WritePointOk(s.disk, a, q)
    ensures NextOk(s.disk, a, StepOpen(s, a, q.spec, q.n, q.locked, q.open, ch))
  {
  }

  lemma OpenNext(s: System, a: Actor, q: WritePoint, ch: Choice)
    requires q.Open? && WritePointOk(s.disk, a, q)
    ensures NextOk(s.disk, a, StepOpen(s, a, q.spec, q.n, q.locked, q.open, ch))
  {
    if q.open.InKeep? || q.open.OutOfKeep? { KeepNext(s, a, q, ch); }
  }

  lemma CreateNext(s: System, a: Actor, q: WritePoint, ch: Choice)
    requires q.WriteGeneration? || q.WriteTurn?
    requires HoldsOwned(s.disk) && WritePointOk(s.disk, a, q)
    ensures NextOk(s.disk, a, StepWrite(s, a, q, ch))
  {
  }

  lemma WriteNext(s: System, a: Actor, q: WritePoint, ch: Choice)
    requires Linked(s.disk) && HoldsOwned(s.disk) && WritePointOk(s.disk, a, q)
    ensures NextOk(s.disk, a, StepWrite(s, a, q, ch))
  {
    if q.Open? { OpenNext(s, a, q, ch); }
    else if q.WriteGeneration? || q.WriteTurn? { CreateNext(s, a, q, ch); }
  }

  lemma FieldNext(s: System, a: Actor, q: FieldPoint, ch: Choice)
    ensures NextOk(s.disk, a, StepField(s, a, q, ch))
  {
  }

  /** After its own step an actor's locals again agree with the disk. */
  lemma StepNext(s: System, a: Actor, p: Point, ch: Choice)
    requires Linked(s.disk) && PointersOwn(s.disk) && HoldsOwned(s.disk)
    requires PointOk(s.disk, a, p) && ReadyPoint(s.disk, p, ch)
    ensures NextOk(s.disk, a, Step(s, a, p, ch))
  {
    match p
    case InTurn(q) => if q.Judged? { JudgedNext(s, a, q, ch); } else { ReadNext(s, a, q, ch); }
    case InProbe(k, g, probe) => ProbeNext(s, a, k, g, probe, ch);
    case InEnd(q) => EndNext(s, a, q, ch);
    case InScan(q) => ScanNext(s, a, q, ch);
    case InWrite(q) => WriteNext(s, a, q, ch);
    case InField(q) => FieldNext(s, a, q, ch);
  }

  lemma ExitNext(d: State, a: Actor, p: Point)
    requires PointOk(d, a, p) && MayFail(p)
    ensures NextOk(d, a, Move(NoWrite, Keep, ErrorExit(p), false))
  {
  }
}
