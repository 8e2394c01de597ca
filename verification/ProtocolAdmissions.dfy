/** Where the turns on disk come from: each one carries the fields of an admission some actor began. */
module ProtocolAdmissions {
  import opened Records
  import opened Disk
  import opened Protocol
  import opened ProtocolInvariant
  import opened ProtocolLocks
  import opened ProtocolTheorems

  // ---------------------------------------------------------------- the request an actor works on

  function SpecOfCaller(c: Caller): Option<NewTurn> {
    if c.Direct? then None else Some(c.spec)
  }

  function SpecOfWrite(q: WritePoint): Option<NewTurn> {
    if q.LeaveThread? || q.LeaveAdmit? then None else Some(q.spec)
  }

  function SpecOf(p: Point): Option<NewTurn> {
    match p
    case InTurn(q) => SpecOfCaller(q.c)
    case InProbe(k, _, _) => SpecOfCaller(k.c)
    case InEnd(q) => SpecOfCaller(q.c)
    case InScan(q) => Some(q.spec)
    case InWrite(q) => SpecOfWrite(q)
    case InField(_) => None
  }

  function SpecAt(place: Place): Option<NewTurn> {
    match place
    case On(p) => SpecOf(p)
    case Aside(_, back) => if back.Some? then SpecOf(back.value) else None
  }

  /** A step stays on the request, or has none any more. */
  predicate KeepsSpec(p: Point, next: Option<Point>) {
    next.Some? && SpecOf(next.value).Some? ==> SpecOf(next.value) == SpecOf(p)
  }

  lemma TurnKeepsSpec(s: System, a: Actor, q: TurnPoint, ch: Choice)
    ensures KeepsSpec(InTurn(q), StepTurn(s, a, q, ch).next)
  {
  }

  lemma EndKeepsSpec(s: System, a: Actor, q: EndPoint, ch: Choice)
    ensures KeepsSpec(InEnd(q), StepEnd(s, a, q, ch).next)
  {
  }

  lemma ScanKeepsSpec(s: System, a: Actor, q: ScanPoint, ch: Choice)
    ensures KeepsSpec(InScan(q), StepScan(s, a, q, ch).next)
  {
  }

  lemma WriteKeepsSpec(s: System, a: Actor, q: WritePoint, ch: Choice)
    ensures KeepsSpec(InWrite(q), StepWrite(s, a, q, ch).next)
  {
  }

  lemma StepKeepsSpec(s: System, a: Actor, p: Point, ch: Choice)
    ensures KeepsSpec(p, Step(s, a, p, ch).next)
  {
    match p
    case InTurn(q) => TurnKeepsSpec(s, a, q, ch);
    case InProbe(k, g, probe) =>
    case InEnd(q) => EndKeepsSpec(s, a, q, ch);
    case InScan(q) => ScanKeepsSpec(s, a, q, ch);
    case InWrite(q) => WriteKeepsSpec(s, a, q, ch);
    case InField(q) =>
  }

  lemma ExitKeepsSpec(p: Point)
    requires MayFail(p)
    ensures KeepsSpec(p, ErrorExit(p))
  {
  }

  lemma PlacedSpec(next: Option<Point>, wake: bool)
    ensures Placed(next, wake).Some? ==>
              SpecAt(Placed(next, wake).value) == if next.Some? then SpecOf(next.value) else None
  {
  }

  lemma GoKeepsSpec(s: System, a: Actor, ch: Choice)
    requires Enabled(s, Go(a, ch)) && a in Next(s, Go(a, ch)).running
    requires SpecAt(Next(s, Go(a, ch)).running[a]).Some?
    ensures SpecAt(Next(s, Go(a, ch)).running[a]) == SpecAt(s.running[a])
  {
    match s.running[a]
    case On(p) =>
      StepKeepsSpec(s, a, p, ch);
      PlacedSpec(Step(s, a, p, ch).next, Step(s, a, p, ch).wake);
    case Aside(_, back) => PlacedSpec(back, false);
  }

  /** An actor has its request from before, or began it in this very step. */
  lemma SpecBack(s: System, act: Action, a: Actor, spec: NewTurn)
    requires Enabled(s, act) && a in Next(s, act).running && SpecAt(Next(s, act).running[a]) == Some(spec)
    ensures (a in s.running && SpecAt(s.running[a]) == Some(spec)) || act == Begin(a, AdmitTask(spec))
  {
    WhoMoved(s, act, a);
    if a in s.running && Next(s, act).running[a] == s.running[a] {
    } else if act.Go? {
      GoKeepsSpec(s, a, act.choice);
    } else if act.Abort? {
      ExitKeepsSpec(s.running[a].point);
      PlacedSpec(ErrorExit(s.running[a].point), false);
    }
  }

  lemma {:induction false} SpecWasBegun(states: seq<System>, acts: seq<Action>, i: nat, a: Actor, spec: NewTurn)
    returns (j: nat)
    requires Run(states, acts) && i <= |acts| && a in states[i].running && SpecAt(states[i].running[a]) == Some(spec)
    ensures j < i && acts[j] == Begin(a, AdmitTask(spec))
    decreases i
  {
    PreviousState(states, acts, i, a);
    SpecBack(states[i - 1], acts[i - 1], a, spec);
    if acts[i - 1] == Begin(a, AdmitTask(spec)) {
      j := i - 1;
    } else {
      j := SpecWasBegun(states, acts, i - 1, a, spec);
    }
  }

  // ---------------------------------------------------------------- the turns on disk

  lemma CreationIsAWrite(s: System, act: Action, t: string)
    requires ProtocolLocks.Inv(s) && Enabled(s, act) && t !in s.disk.turns && t in Next(s, act).disk.turns
    ensures act.Go? && s.running[act.a].On?
    ensures s.running[act.a].point.InWrite? && s.running[act.a].point.write.WriteTurn?
    ensures t == s.running[act.a].point.write.t
  {
    assert PlaceOk(s.disk, act.a, s.running[act.a]);
    var p := s.running[act.a].point;
    StepFaithful(s, act.a, p, act.choice);
    OnlyWriteTurnCreates(s, act.a, p, act.choice, t);
  }

  lemma CreatedCarries(s: System, act: Action, t: string) returns (a: Actor, spec: NewTurn)
    requires ProtocolLocks.Inv(s) && Enabled(s, act) && t !in s.disk.turns && t in Next(s, act).disk.turns
    ensures a in s.running && SpecAt(s.running[a]) == Some(spec)
    ensures Carries(Next(s, act).disk.turns[t], spec)
  {
    CreationIsAWrite(s, act, t);
    a, spec := act.a, s.running[act.a].point.write.spec;
    FreshRecordCarries(spec, s.running[a].point.write.gid, t);
  }

  lemma TurnBack(states: seq<System>, acts: seq<Action>, i: nat, t: string)
    returns (created: bool, a: Actor, spec: NewTurn)
    requires Run(states, acts) && i < |acts| && t in states[i + 1].disk.turns
    ensures !created ==>
              t in states[i].disk.turns && SameIdentity(states[i].disk.turns[t], states[i + 1].disk.turns[t])
    ensures created ==>
              && a in states[i].running && SpecAt(states[i].running[a]) == Some(spec)
              && Carries(states[i + 1].disk.turns[t], spec)
  {
    RunInv(states, acts, i);
    created := t !in states[i].disk.turns;
    a, spec := *, *;
    if created {
      a, spec := CreatedCarries(states[i], acts[i], t);
    } else {
      StepGrows(states, acts, i);
    }
  }

  lemma NoTurnsAtFirst(states: seq<System>, acts: seq<Action>)
    requires Run(states, acts)
    ensures states[0].disk.turns == map[]
  {
  }

  /** At every moment of every run, every turn on disk has the thread, input, model, effort and client key of an
      admission that some actor began before. */
  lemma {:induction false} TurnsCarryTheirRequest(states: seq<System>, acts: seq<Action>, i: nat, t: string)
    returns (j: nat, a: Actor, spec: NewTurn)
    requires Run(states, acts) && i <= |acts| && t in states[i].disk.turns
    ensures j < i && acts[j] == Begin(a, AdmitTask(spec))
    ensures var v := states[i].disk.turns[t];
            && v.threadId == spec.threadId && v.input == spec.input && v.model == spec.model
            && v.effort == spec.effort && v.clientRequestId == spec.clientRequestId
    decreases i
  {
    NoTurnsAtFirst(states, acts);
    var created;
    created, a, spec := TurnBack(states, acts, i - 1, t);
    if created {
      j := SpecWasBegun(states, acts, i - 1, a, spec);
    } else {
      j, a, spec := TurnsCarryTheirRequest(states, acts, i - 1, t);
    }
  }

  // ---------------------------------------------------------------- the generations on disk

  lemma OnlyCreateGenerationAdds(d: State, op: AtomicOp, g: string)
    requires Legal(d, op) && g !in d.generations && g in Apply(d, op).generations
    ensures op.CreateGeneration? && g == op.generation.id
  {
  }

  lemma CreationIsAPut(d: State, p: Point, w: Write)
    requires AtomicOf(d, p, w).CreateGeneration?
    ensures w.PutGeneration? && !(p.InField? && p.field.StoreGeneration?)
    ensures AtomicOf(d, p, w).generation == w.generation
  {
  }

  lemma OnlyWriteGenerationPuts(s: System, a: Actor, p: Point, ch: Choice)
    requires Step(s, a, p, ch).write.PutGeneration? && !(p.InField? && p.field.StoreGeneration?)
    ensures p.InWrite? && p.write.WriteGeneration? && Step(s, a, p, ch).write.generation.id == p.write.gid
  {
  }

  lemma OnlyWriteGenerationCreates(s: System, a: Actor, p: Point, ch: Choice, g: string)
    requires Faithful(s, a, p, Step(s, a, p, ch).write)
    requires g !in s.disk.generations && g in Store(s.disk, Step(s, a, p, ch).write).generations
    ensures p.InWrite? && p.write.WriteGeneration? && g == p.write.gid
  {
    var w := Step(s, a, p, ch).write;
    OnlyCreateGenerationAdds(s.disk, AtomicOf(s.disk, p, w), g);
    CreationIsAPut(s.disk, p, w);
    OnlyWriteGenerationPuts(s, a, p, ch);
  }

  /** A generation appears only by an admission's generation write. */
  lemma GenerationIsAWrite(s: System, act: Action, g: string)
    requires ProtocolLocks.Inv(s) && Enabled(s, act) && g !in s.disk.generations && g in Next(s, act).disk.generations
    ensures act.Go? && s.running[act.a].On?
    ensures s.running[act.a].point.InWrite? && s.running[act.a].point.write.WriteGeneration?
    ensures g == s.running[act.a].point.write.gid
  {
    assert PlaceOk(s.disk, act.a, s.running[act.a]);
    var p := s.running[act.a].point;
    StepFaithful(s, act.a, p, act.choice);
    OnlyWriteGenerationCreates(s, act.a, p, act.choice, g);
  }

  lemma GenerationBorn(s: System, act: Action, g: string)
    requires ProtocolLocks.Inv(s) && Enabled(s, act) && g !in s.disk.generations && g in Next(s, act).disk.generations
    ensures act.Go?
    ensures var r := Next(s, act).disk.generations[g];
            && r.id == g && r.ownerPid == act.a.proc && r.startedEpoch == act.choice.epoch
            && r.childPid.None? && r.childStartedEpoch.None? && !r.childEof
  {
    GenerationIsAWrite(s, act, g);
  }

  lemma NoGenerationsAtFirst(states: seq<System>, acts: seq<Action>)
    requires Run(states, acts)
    ensures states[0].disk.generations == map[]
  {
  }

  predicate SameStart(r: Generation, r': Generation) { r.ownerPid == r'.ownerPid && r.startedEpoch == r'.startedEpoch }

  lemma GenerationBack(states: seq<System>, acts: seq<Action>, i: nat, g: string)
    returns (born: bool, a: Actor, ch: Choice)
    requires Run(states, acts) && i < |acts| && g in states[i + 1].disk.generations
    ensures !born ==>
              g in states[i].disk.generations &&
              SameStart(states[i].disk.generations[g], states[i + 1].disk.generations[g])
    ensures var r := states[i + 1].disk.generations[g];
            born ==>
              && acts[i] == Go(a, ch) && g !in states[i].disk.generations
              && r.ownerPid == a.proc && r.startedEpoch == ch.epoch
  {
    RunInv(states, acts, i);
    born := g !in states[i].disk.generations;
    a, ch := *, *;
    if born {
      GenerationBorn(states[i], acts[i], g);
      a, ch := acts[i].a, acts[i].choice;
    } else {
      StepGrows(states, acts, i);
    }
  }

  /** At every moment of every run, every generation on disk names the process of the actor that first wrote it and the
      time at which it did. */
  lemma {:induction false} GenerationsCarryTheirOwner(states: seq<System>, acts: seq<Action>, i: nat, g: string)
    returns (j: nat, a: Actor, ch: Choice)
    requires Run(states, acts) && i <= |acts| && g in states[i].disk.generations
    ensures j < i && acts[j] == Go(a, ch) && g !in states[j].disk.generations
    ensures var r := states[i].disk.generations[g]; r.ownerPid == a.proc && r.startedEpoch == ch.epoch
    decreases i
  {
    NoGenerationsAtFirst(states, acts);
    var born;
    born, a, ch := GenerationBack(states, acts, i - 1, g);
    j := i - 1;
    if !born { j, a, ch := GenerationsCarryTheirOwner(states, acts, i - 1, g); }
  }

  // ---------------------------------------------------------------- refusals

  /** An admission on its way out without an answer. */
  predicate Refusing(p: Point) {
    match p
    case InEnd(q) => q.Leave? && !q.c.Direct?
    case InWrite(q) => (q.LeaveThread? || q.LeaveAdmit?) && q.result.Refused?
    case _ => false
  }

  predicate RefusingAt(place: Place) {
    match place
    case On(p) => Refusing(p)
    case Aside(_, back) => back.Some? && Refusing(back.value)
  }

  /** It reads its thread and there is none. */
  predicate FindsNoThread(s: System, p: Point) {
    p.InScan? && p.scan.ReadThread? && p.scan.spec.threadId !in s.disk.threads
  }

  predicate BeginsToRefuse(s: System, p: Point, next: Option<Point>) {
    next.Some? && Refusing(next.value) ==> Refusing(p) || FindsNoThread(s, p)
  }

  lemma TurnRefuses(s: System, a: Actor, q: TurnPoint, ch: Choice)
    requires Linked(s.disk) && TurnPointOk(s.disk, q)
    ensures BeginsToRefuse(s, InTurn(q), StepTurn(s, a, q, ch).next)
  {
  }

  lemma EndRefuses(s: System, a: Actor, q: EndPoint, ch: Choice)
    ensures BeginsToRefuse(s, InEnd(q), StepEnd(s, a, q, ch).next)
  {
  }

  lemma ScanRefuses(s: System, a: Actor, q: ScanPoint, ch: Choice)
    ensures BeginsToRefuse(s, InScan(q), StepScan(s, a, q, ch).next)
  {
  }

  lemma WriteRefuses(s: System, a: Actor, q: WritePoint, ch: Choice)
    ensures BeginsToRefuse(s, InWrite(q), StepWrite(s, a, q, ch).next)
  {
  }

  lemma StepRefuses(s: System, a: Actor, p: Point, ch: Choice)
    requires Linked(s.disk) && PointOk(s.disk, a, p)
    ensures BeginsToRefuse(s, p, Step(s, a, p, ch).next)
  {
    match p
    case InTurn(q) => TurnRefuses(s, a, q, ch);
    case InProbe(k, g, probe) =>
    case InEnd(q) => EndRefuses(s, a, q, ch);
    case InScan(q) => ScanRefuses(s, a, q, ch);
    case InWrite(q) => WriteRefuses(s, a, q, ch);
    case InField(q) =>
  }

  lemma PlacedRefuses(next: Option<Point>, wake: bool)
    ensures Placed(next, wake).Some? && RefusingAt(Placed(next, wake).value) ==> next.Some? && Refusing(next.value)
  {
  }

  lemma GoRefuses(s: System, a: Actor, ch: Choice)
    requires Linked(s.disk) && Enabled(s, Go(a, ch)) && PlaceOk(s.disk, a, s.running[a])
    requires a in Next(s, Go(a, ch)).running && RefusingAt(Next(s, Go(a, ch)).running[a])
    ensures RefusingAt(s.running[a]) || (s.running[a].On? && FindsNoThread(s, s.running[a].point))
  {
    match s.running[a]
    case On(p) =>
      StepRefuses(s, a, p, ch);
      PlacedRefuses(Step(s, a, p, ch).next, Step(s, a, p, ch).wake);
    case Aside(_, back) => PlacedRefuses(back, false);
  }

  /** The step in which an admission is refused: its thread does not exist, or one of its accesses failed. */
  predicate Refuses(s: System, act: Action, a: Actor) {
    || act == Abort(a)
    || (act.Go? && act.a == a && a in s.running && s.running[a].On? && FindsNoThread(s, s.running[a].point))
  }

  lemma RefusalBack(s: System, act: Action, a: Actor)
    requires Linked(s.disk) && Enabled(s, act) && (a in s.running ==> PlaceOk(s.disk, a, s.running[a]))
    requires a in Next(s, act).running && RefusingAt(Next(s, act).running[a])
    ensures (a in s.running && RefusingAt(s.running[a])) || Refuses(s, act, a)
  {
    WhoMoved(s, act, a);
    if a in s.running && Next(s, act).running[a] == s.running[a] {
    } else if act.Go? {
      GoRefuses(s, a, act.choice);
    }
  }

  /** An admission ends without an answer only because its thread does not exist or an access to the disk failed; in
      every other case it names a created, a duplicate or a busy turn. */
  lemma {:induction false} RefusalHasAReason(states: seq<System>, acts: seq<Action>, i: nat, a: Actor) returns (j: nat)
    requires Run(states, acts) && i <= |acts| && a in states[i].running && RefusingAt(states[i].running[a])
    ensures j < i && Refuses(states[j], acts[j], a)
    decreases i
  {
    PreviousState(states, acts, i, a);
    RefusalBack(states[i - 1], acts[i - 1], a);
    if Refuses(states[i - 1], acts[i - 1], a) {
      j := i - 1;
    } else {
      j := RefusalHasAReason(states, acts, i - 1, a);
    }
  }
}
