/** Lock ownership, live holds, and the invariant of the whole system. */
module ProtocolLocks {
  import opened Records
  import opened Disk
  import opened Protocol
  import opened ProtocolInvariant

  // ---------------------------------------------------------------- locks follow the program points

  function Adjust(held: set<Lock>, change: LockChange): set<Lock> {
    match change
    case Keep => held
    case Take(l) => held + {l}
    case Free(l) => held - {l}
  }

  /** Only free locks are taken and only own locks are given back. */
  predicate Proper(locks: map<Lock, Actor>, held: set<Lock>, change: LockChange) {
    && (change.Take? ==> change.lock !in locks)
    && (change.Free? ==> change.lock in held)
  }

  predicate LocksFollow(s: System, a: Actor, p: Point, m: Move) {
    HeldBack(a, m.next) == Adjust(Held(a, p), m.change) && Proper(s.locks, Held(a, p), m.change)
  }

  lemma TurnLocksFollow(s: System, a: Actor, q: TurnPoint, ch: Choice)
    requires TurnPointOk(s.disk, q) && FreeToTake(s, a, On(InTurn(q)))
    ensures LocksFollow(s, a, InTurn(q), StepTurn(s, a, q, ch))
  {
  }

  lemma ProbeLocksFollow(s: System, a: Actor, k: Subject, g: Generation, probe: ProbeStage, ch: Choice)
    requires FreeToTake(s, a, On(InProbe(k, g, probe)))
    ensures LocksFollow(s, a, InProbe(k, g, probe), StepProbe(s, a, k, g, probe, ch))
  {
  }

  lemma DropLocksFollow(s: System, a: Actor, q: EndPoint, ch: Choice)
    requires q.Drop? && FreeToTake(s, a, On(InEnd(q)))
    ensures LocksFollow(s, a, InEnd(q), StepDrop(s, a, q.c, q.th, q.n, q.drop))
  {
  }

  lemma EndLocksFollow(s: System, a: Actor, q: EndPoint, ch: Choice)
    requires EndPointOk(s.disk, q) && FreeToTake(s, a, On(InEnd(q)))
    ensures LocksFollow(s, a, InEnd(q), StepEnd(s, a, q, ch))
  {
    if q.Drop? { DropLocksFollow(s, a, q, ch); }
  }

  lemma ScanLocksFollow(s: System, a: Actor, q: ScanPoint, ch: Choice)
    requires FreeToTake(s, a, On(InScan(q)))
    ensures LocksFollow(s, a, InScan(q), StepScan(s, a, q, ch))
  {
  }

  lemma OpenLocksFollow(s: System, a: Actor, q: WritePoint, ch: Choice)
    requires q.Open? && FreeToTake(s, a, On(InWrite(q)))
    ensures LocksFollow(s, a, InWrite(q), StepOpen(s, a, q.spec, q.n, q.locked, q.open, ch))
  {
  }

  lemma WriteLocksFollow(s: System, a: Actor, q: WritePoint, ch: Choice)
    requires FreeToTake(s, a, On(InWrite(q)))
    ensures LocksFollow(s, a, InWrite(q), StepWrite(s, a, q, ch))
  {
    if q.Open? { OpenLocksFollow(s, a, q, ch); }
  }

  lemma FieldLocksFollow(s: System, a: Actor, q: FieldPoint, ch: Choice)
    requires FreeToTake(s, a, On(InField(q)))
    ensures LocksFollow(s, a, InField(q), StepField(s, a, q, ch))
  {
  }

  lemma StepLocksFollow(s: System, a: Actor, p: Point, ch: Choice)
    requires PointOk(s.disk, a, p) && FreeToTake(s, a, On(p))
    ensures LocksFollow(s, a, p, Step(s, a, p, ch))
  {
    match p
    case InTurn(q) => TurnLocksFollow(s, a, q, ch);
    case InProbe(k, g, probe) => ProbeLocksFollow(s, a, k, g, probe, ch);
    case InEnd(q) => EndLocksFollow(s, a, q, ch);
    case InScan(q) => ScanLocksFollow(s, a, q, ch);
    case InWrite(q) => WriteLocksFollow(s, a, q, ch);
    case InField(q) => FieldLocksFollow(s, a, q, ch);
  }

  /** An error return gives back exactly the locks it holds. */
  lemma ExitLocksFollow(s: System, a: Actor, p: Point)
    requires PointOk(s.disk, a, p) && MayFail(p)
    ensures LocksFollow(s, a, p, Move(NoWrite, Keep, ErrorExit(p), false))
  {
  }

  // ---------------------------------------------------------------- the lock table

  function HeldNext(a: Actor, next: Option<Place>): set<Lock> {
    if next.Some? then HeldAt(a, next.value) else {}
  }

  /** The lock table is exactly what `held` says. */
  ghost predicate Table(locks: map<Lock, Actor>, held: map<Actor, set<Lock>>) {
    && (forall a, l :: a in held && l in held[a] ==> l in locks && locks[l] == a)
    && (forall l :: l in locks ==> locks[l] in held && l in held[locks[l]])
  }

  ghost function HeldAll(running: map<Actor, Place>): map<Actor, set<Lock>> {
    map a | a in running :: HeldAt(a, running[a])
  }

  /** The lock table agrees with the program points, and crashed processes run nothing. */
  ghost predicate LocksOk(s: System) {
    && (forall a :: a in s.running ==> a.proc !in s.crashed)
    && Table(s.locks, HeldAll(s.running))
  }

  lemma ChangeKeepsTable(locks: map<Lock, Actor>, held: map<Actor, set<Lock>>, held': map<Actor, set<Lock>>,
                         a: Actor, change: LockChange)
    requires Table(locks, held) && a in held && Proper(locks, held[a], change)
    requires held' == held[a := Adjust(held[a], change)] ||
             (Adjust(held[a], change) == {} && held' == held - {a})
    ensures Table(Relock(locks, a, change), held')
  {
    if change.Free? { assert locks[change.lock] == a; }
  }

  lemma MoveKeepsTable(
      locks: map<Lock, Actor>, running: map<Actor, Place>, a: Actor, next: Option<Place>, change: LockChange)
    requires a in running && Table(locks, HeldAll(running))
    requires HeldNext(a, next) == Adjust(HeldAt(a, running[a]), change)
    requires Proper(locks, HeldAt(a, running[a]), change)
    ensures Table(Relock(locks, a, change), HeldAll(Resume(running, a, next)))
  {
    var held, held' := HeldAll(running), HeldAll(Resume(running, a, next));
    if next.Some? {
      assert held' == held[a := Adjust(held[a], change)];
    } else {
      assert held' == held - {a};
    }
    ChangeKeepsTable(locks, held, held', a, change);
  }

  lemma PointMoveKeepsLocks(s: System, a: Actor, p: Point, m: Move)
    requires LocksOk(s) && a in s.running && s.running[a] == On(p) && LocksFollow(s, a, p, m)
    requires m.wake ==> m.next.Some?
    ensures LocksOk(After(s, a, m))
  {
    MoveKeepsTable(s.locks, s.running, a, Placed(m.next, m.wake), m.change);
  }

  lemma AsideFollows(a: Actor, stage: Stage, back: Option<Point>, ch: Choice)
    requires back.Some? ==> Resumable(back.value)
    ensures var (change, next) := StepAside(a, stage, ch);
            var place := if next.Some? then Some(Aside(next.value, back)) else Placed(back, false);
            && HeldNext(a, place) == Adjust(HeldAt(a, Aside(stage, back)), change)
            && (change.Free? ==> change.lock in HeldAt(a, Aside(stage, back)))
            && (change.Take? ==> WantsAside(a, stage) == Some(change.lock))
  {
  }

  lemma AsideKeepsLocks(s: System, a: Actor, ch: Choice)
    requires LocksOk(s) && a in s.running && s.running[a].Aside? && PlaceOk(s.disk, a, s.running[a])
    requires FreeToTake(s, a, s.running[a])
    ensures LocksOk(AfterGo(s, a, s.running[a], ch))
  {
    var Aside(stage, back) := s.running[a];
    AsideFollows(a, stage, back, ch);
    var (change, next) := StepAside(a, stage, ch);
    var place := if next.Some? then Some(Aside(next.value, back)) else Placed(back, false);
    MoveKeepsTable(s.locks, s.running, a, place, change);
  }

  // ---------------------------------------------------------------- live holds

  /** The turn whose live file this actor is about to open; empty when none. */
  function Opening(place: Place): string {
    if place.On? && place.point.InWrite? then
      (match place.point.write
       case WritePointer(_, _, n) => n.id
       case Open(_, n, _, open) => if open.OutOfKeep? then "" else n.id
       case _ => "")
    else ""
  }

  ghost predicate BeingOpened(s: System, t: string, th: string) {
    && ThreadLock(th) in s.locks && s.locks[ThreadLock(th)] in s.running
    && Opening(s.running[s.locks[ThreadLock(th)]]) == t
  }

  /** The ledger value that opened this live file has been dropped. */
  predicate KeeperDropped(s: System, g: string) { g in s.keepers && s.keepers[g] in s.dropped }

  /** A live turn has its hold, or lost its owner, or the ledger value that kept its hold, or is still inside its
      admission's thread section. */
  ghost predicate Guarded(s: System, t: string)
    requires t in s.disk.turns
  {
    var v := s.disk.turns[t];
    || v.generationId in s.disk.holds
    || (v.generationId in s.disk.generations && s.disk.generations[v.generationId].ownerPid in s.crashed)
    || KeeperDropped(s, v.generationId)
    || BeingOpened(s, t, v.threadId)
  }

  /** Holds belong to living processes and to ledger values that were not dropped. */
  ghost predicate KeepersOk(s: System) {
    && (forall g :: g in s.disk.holds ==>
          && s.disk.holds[g].proc !in s.crashed
          && g in s.keepers && s.keepers[g] == (s.disk.holds[g].proc, s.disk.holds[g].ledger)
          && s.keepers[g] !in s.dropped)
    && (forall a :: a in s.running ==> (a.proc, a.ledger) !in s.dropped)
  }

  ghost predicate LiveGuarded(s: System) {
    forall t :: t in s.disk.turns && !s.disk.turns[t].IsTerminal() ==> Guarded(s, t)
  }

  ghost predicate HoldsOk(s: System) { KeepersOk(s) && LiveGuarded(s) }

  lemma KeepGuard(s: System, s': System, t: string)
    requires t in s.disk.turns && Guarded(s, t) && Grows(s.disk, s'.disk)
    requires s.crashed <= s'.crashed && s.dropped <= s'.dropped
    requires var g := s.disk.turns[t].generationId;
             && (g in s.disk.holds ==> g in s'.disk.holds)
             && (g in s.keepers ==> g in s'.disk.holds || (g in s'.keepers && s'.keepers[g] == s.keepers[g]))
    requires BeingOpened(s, t, s.disk.turns[t].threadId) ==>
               BeingOpened(s', t, s.disk.turns[t].threadId) || s.disk.turns[t].generationId in s'.disk.holds
    ensures Guarded(s', t)
  {
  }

  /** Someone else's admission keeps its lock and its point. */
  lemma OthersStayOpening(s: System, s': System, a: Actor, change: LockChange, t: string, th: string)
    requires LocksOk(s) && a in s.running && Proper(s.locks, HeldAt(a, s.running[a]), change)
    requires s'.locks == Relock(s.locks, a, change)
    requires forall b :: b in s.running && b != a ==> b in s'.running && s'.running[b] == s.running[b]
    requires BeingOpened(s, t, th) && s.locks[ThreadLock(th)] != a
    ensures BeingOpened(s', t, th)
  {
    if change.Free? {
      assert change.lock in HeldAll(s.running)[a];
      assert s.locks[change.lock] == a;
    }
  }

  lemma CloseKeepsLiveHolds(d: State, q: EndPoint, a: Actor, t: string)
    requires Linked(d) && EndPointOk(d, q) && q.Drop?
    requires t in d.turns && !d.turns[t].IsTerminal() && d.turns[t].generationId in d.holds
    ensures d.turns[t].generationId in Store(d, CloseLive(q.n.generationId, a.proc, a.ledger)).holds
  {
  }

  /** Every write but the closing of a terminal turn's live file keeps every hold. */
  lemma WritesKeepHolds(s: System, a: Actor, p: Point, ch: Choice, t: string)
    requires Linked(s.disk) && PointOk(s.disk, a, p)
    requires t in s.disk.turns && !s.disk.turns[t].IsTerminal() && s.disk.turns[t].generationId in s.disk.holds
    ensures s.disk.turns[t].generationId in Store(s.disk, Step(s, a, p, ch).write).holds
  {
    var w := Step(s, a, p, ch).write;
    if w.CloseLive? {
      OnlyDropCloses(s, a, p, ch);
      CloseKeepsLiveHolds(s.disk, p.end, a, t);
    }
  }

  lemma OnlyDropCloses(s: System, a: Actor, p: Point, ch: Choice)
    requires Step(s, a, p, ch).write.CloseLive?
    ensures p.InEnd? && p.end.Drop?
    ensures Step(s, a, p, ch).write == CloseLive(p.end.n.generationId, a.proc, a.ledger)
  {
  }

  lemma OwnOpening(s: System, a: Actor, p: Point, ch: Choice, t: string)
    requires LocksOk(s) && a in s.running && s.running[a] == On(p) && PointOk(s.disk, a, p)
    requires t in s.disk.turns && t != "" && BeingOpened(s, t, s.disk.turns[t].threadId)
    requires s.locks[ThreadLock(s.disk.turns[t].threadId)] == a
    ensures p.InWrite?
    ensures var s' := After(s, a, StepWrite(s, a, p.write, ch));
            BeingOpened(s', t, s.disk.turns[t].threadId) || s.disk.turns[t].generationId in s'.disk.holds
  {
    OpeningStep(s, a, p.write, ch);
    assert t == Opening(On(p));
  }

  /** The opener moves on to a later stage under its locks, or its hold is there. */
  lemma OpeningStep(s: System, a: Actor, q: WritePoint, ch: Choice)
    requires WritePointOk(s.disk, a, q) && (q.WritePointer? || (q.Open? && !q.open.OutOfKeep?))
    ensures var m := StepWrite(s, a, q, ch);
            && m.next.Some? && !m.wake
            && m.change != Free(ThreadLock(q.spec.threadId))
            && (Opening(On(m.next.value)) == q.n.id || q.n.generationId in Store(s.disk, m.write).holds)
  {
  }

  lemma CreatedIsOpening(s: System, a: Actor, q: WritePoint, ch: Choice)
    requires LocksOk(s) && a in s.running && s.running[a] == On(InWrite(q)) && q.WriteTurn?
    ensures var s' := After(s, a, StepWrite(s, a, q, ch));
            q.t in s'.disk.turns && BeingOpened(s', q.t, s'.disk.turns[q.t].threadId)
  {
    assert ThreadLock(q.spec.threadId) in HeldAll(s.running)[a];
  }

  lemma OnlyWriteTurnPuts(s: System, a: Actor, p: Point, ch: Choice)
    requires Step(s, a, p, ch).write.PutNewTurn?
    ensures p.InWrite? && p.write.WriteTurn?
  {
  }

  lemma OnlyCreateAdds(d: State, op: AtomicOp, t: string)
    requires Legal(d, op) && t !in d.turns && t in Apply(d, op).turns
    ensures op.CreateTurn? && t == op.turn.id
  {
  }

  /** A turn appears only by an admission's turn write. */
  lemma OnlyWriteTurnCreates(s: System, a: Actor, p: Point, ch: Choice, t: string)
    requires Faithful(s, a, p, Step(s, a, p, ch).write)
    requires t !in s.disk.turns && t in Store(s.disk, Step(s, a, p, ch).write).turns
    ensures p.InWrite? && p.write.WriteTurn? && t == p.write.t
  {
    var w := Step(s, a, p, ch).write;
    OnlyCreateAdds(s.disk, AtomicOf(s.disk, p, w), t);
    assert w.PutNewTurn?;
    OnlyWriteTurnPuts(s, a, p, ch);
  }

  // ---------------------------------------------------------------- the invariant of the system

  ghost predicate PlacesOk(s: System) {
    forall a :: a in s.running ==> PlaceOk(s.disk, a, s.running[a])
  }

  ghost predicate Inv(s: System) {
    Disk.Inv(s.disk) && LocksOk(s) && PlacesOk(s) && HoldsOk(s)
  }

  lemma OpeningGoesOn(s: System, a: Actor, p: Point, ch: Choice, t: string)
    requires LocksOk(s) && a in s.running && s.running[a] == On(p) && PointOk(s.disk, a, p)
    requires Linked(s.disk) && FreeToTake(s, a, On(p))
    requires t in s.disk.turns && BeingOpened(s, t, s.disk.turns[t].threadId)
    ensures var s' := After(s, a, Step(s, a, p, ch));
            BeingOpened(s', t, s.disk.turns[t].threadId) || s.disk.turns[t].generationId in s'.disk.holds
  {
    var th := s.disk.turns[t].threadId;
    if s.locks[ThreadLock(th)] == a { OwnOpening(s, a, p, ch, t); }
    else {
      StepLocksFollow(s, a, p, ch);
      OthersOpenOn(s, a, p, Step(s, a, p, ch), t, th);
    }
  }

  lemma OthersOpenOn(s: System, a: Actor, p: Point, m: Move, t: string, th: string)
    requires LocksOk(s) && a in s.running && s.running[a] == On(p) && LocksFollow(s, a, p, m)
    requires BeingOpened(s, t, th) && s.locks[ThreadLock(th)] != a
    ensures BeingOpened(After(s, a, m), t, th)
  {
    OthersStayOpening(s, After(s, a, m), a, m.change, t, th);
  }

  lemma GuardAfterStep(s: System, a: Actor, p: Point, ch: Choice, t: string)
    requires LocksOk(s) && LiveGuarded(s) && a in s.running && s.running[a] == On(p) && PointOk(s.disk, a, p)
    requires Linked(s.disk) && FreeToTake(s, a, On(p)) && Grows(s.disk, After(s, a, Step(s, a, p, ch)).disk)
    requires t in s.disk.turns && !s.disk.turns[t].IsTerminal()
    ensures var s' := After(s, a, Step(s, a, p, ch)); t in s'.disk.turns && Guarded(s', t)
  {
    var m := Step(s, a, p, ch);
    var s' := After(s, a, m);
    var v := s.disk.turns[t];
    if v.generationId in s.disk.holds { WritesKeepHolds(s, a, p, ch, t); }
    if BeingOpened(s, t, v.threadId) { OpeningGoesOn(s, a, p, ch, t); }
    if v.generationId in s.keepers { KeepersStay(s.disk, s.keepers, m.write, v.generationId); }
    KeepGuard(s, s', t);
  }

  lemma KeepersStay(d: State, keepers: map<string, (nat, nat)>, w: Write, g: string)
    requires g in keepers
    ensures g in Store(d, w).holds || (g in Kept(keepers, w) && Kept(keepers, w)[g] == keepers[g])
  {
  }

  lemma OpensOwnHold(s: System, a: Actor, p: Point, ch: Choice)
    ensures var w := Step(s, a, p, ch).write;
            w.OpenLive? ==> w.hold.proc == a.proc && w.hold.ledger == a.ledger
  {
  }

  lemma StoreKeepsKeepers(s: System, a: Actor, w: Write)
    requires KeepersOk(s) && a.proc !in s.crashed && (a.proc, a.ledger) !in s.dropped
    requires w.OpenLive? ==> w.hold.proc == a.proc && w.hold.ledger == a.ledger
    ensures forall g :: g in Store(s.disk, w).holds ==>
              && Store(s.disk, w).holds[g].proc !in s.crashed && g in Kept(s.keepers, w)
              && Kept(s.keepers, w)[g] == (Store(s.disk, w).holds[g].proc, Store(s.disk, w).holds[g].ledger)
              && Kept(s.keepers, w)[g] !in s.dropped
  {
  }

  lemma StepKeepsKeepers(s: System, a: Actor, p: Point, ch: Choice)
    requires LocksOk(s) && KeepersOk(s) && a in s.running && s.running[a] == On(p)
    ensures KeepersOk(After(s, a, Step(s, a, p, ch)))
  {
    OpensOwnHold(s, a, p, ch);
    StoreKeepsKeepers(s, a, Step(s, a, p, ch).write);
  }

  lemma StepKeepsGuards(s: System, a: Actor, p: Point, ch: Choice)
    requires LocksOk(s) && LiveGuarded(s) && a in s.running && s.running[a] == On(p) && PointOk(s.disk, a, p)
    requires Linked(s.disk) && FreeToTake(s, a, On(p)) && Grows(s.disk, After(s, a, Step(s, a, p, ch)).disk)
    requires Faithful(s, a, p, Step(s, a, p, ch).write)
    ensures LiveGuarded(After(s, a, Step(s, a, p, ch)))
  {
    var s' := After(s, a, Step(s, a, p, ch));
    forall t | t in s'.disk.turns && !s'.disk.turns[t].IsTerminal() ensures Guarded(s', t) {
      if t in s.disk.turns { GuardAfterStep(s, a, p, ch, t); }
      else {
        OnlyWriteTurnCreates(s, a, p, ch, t);
        CreatedIsOpening(s, a, p.write, ch);
      }
    }
  }

  lemma DisjointHeld(s: System, a: Actor, b: Actor)
    requires LocksOk(s) && a in s.running && b in s.running && a != b
    ensures HeldAt(a, s.running[a]) !! HeldAt(b, s.running[b])
  {
    TableDisjoint(s.locks, HeldAll(s.running), a, b);
    assert HeldAll(s.running)[a] == HeldAt(a, s.running[a]) && HeldAll(s.running)[b] == HeldAt(b, s.running[b]);
  }

  lemma TableDisjoint(locks: map<Lock, Actor>, held: map<Actor, set<Lock>>, a: Actor, b: Actor)
    requires Table(locks, held) && a in held && b in held && a != b
    ensures held[a] !! held[b]
  {
    forall l | l in held[a] ensures l !in held[b] {
      assert locks[l] == a;
    }
  }

  lemma MoveKeepsPlaces(s: System, a: Actor, p: Point, m: Move)
    requires Disk.Inv(s.disk) && LocksOk(s) && PlacesOk(s) && a in s.running && s.running[a] == On(p)
    requires NextOk(s.disk, a, m) && Faithful(s, a, p, m.write)
    ensures PlacesOk(After(s, a, m))
  {
    var s' := After(s, a, m);
    if a in s'.running { PlacedOk(s.disk, a, m); }
    forall b | b in s'.running && b != a ensures PlaceOk(s'.disk, b, s'.running[b]) {
      OtherPlaceKept(s, a, p, m.write, b);
    }
  }

  lemma PlacedOk(d: State, a: Actor, m: Move)
    requires NextOk(d, a, m) && Placed(m.next, m.wake).Some?
    ensures PlaceOk(Store(d, m.write), a, Placed(m.next, m.wake).value)
  {
  }

  lemma OtherPlaceKept(s: System, a: Actor, p: Point, w: Write, b: Actor)
    requires Disk.Inv(s.disk) && LocksOk(s) && PlacesOk(s) && a in s.running && s.running[a] == On(p)
    requires Faithful(s, a, p, w) && b in s.running && b != a
    ensures PlaceOk(Store(s.disk, w), b, s.running[b])
  {
    var op := AtomicOf(s.disk, p, w);
    DisjointHeld(s, a, b);
    assert Guards(s.disk, op) !! HeldAt(b, s.running[b]);
    ApplyUndisturbed(s.disk, op, HeldAt(b, s.running[b]));
    FramePlace(s.disk, Store(s.disk, w), b, s.running[b]);
  }

  lemma FaithfulKeepsDisk(s: System, a: Actor, p: Point, w: Write)
    requires Disk.Inv(s.disk) && Faithful(s, a, p, w)
    ensures Disk.Inv(Store(s.disk, w)) && Grows(s.disk, Store(s.disk, w))
  {
    ApplyKeepsInv(s.disk, AtomicOf(s.disk, p, w));
    ApplyGrows(s.disk, AtomicOf(s.disk, p, w));
  }

  lemma StepKeepsInv(s: System, a: Actor, p: Point, ch: Choice)
    requires Inv(s) && a in s.running && s.running[a] == On(p) && Ready(s, a, On(p), ch)
    ensures Inv(After(s, a, Step(s, a, p, ch)))
  {
    assert PlaceOk(s.disk, a, s.running[a]);
    StepFacts(s, a, p, ch);
    MoveKeepsRest(s, a, p, Step(s, a, p, ch));
    StepKeepsHolds(s, a, p, ch);
  }

  lemma StepFacts(s: System, a: Actor, p: Point, ch: Choice)
    requires Linked(s.disk) && PointersOwn(s.disk) && HoldsOwned(s.disk) && PointOk(s.disk, a, p)
    requires FreeToTake(s, a, On(p)) && ReadyPoint(s.disk, p, ch)
    ensures var m := Step(s, a, p, ch);
            Faithful(s, a, p, m.write) && LocksFollow(s, a, p, m) && NextOk(s.disk, a, m)
  {
    StepFaithful(s, a, p, ch);
    StepLocksFollow(s, a, p, ch);
    StepNext(s, a, p, ch);
  }

  /** Any move with these properties keeps the disk invariant, the lock table and what every actor knows. */
  lemma MoveKeepsRest(s: System, a: Actor, p: Point, m: Move)
    requires Disk.Inv(s.disk) && LocksOk(s) && PlacesOk(s) && a in s.running && s.running[a] == On(p)
    requires Faithful(s, a, p, m.write) && LocksFollow(s, a, p, m) && NextOk(s.disk, a, m)
    ensures var s' := After(s, a, m); Disk.Inv(s'.disk) && LocksOk(s') && PlacesOk(s') && Grows(s.disk, s'.disk)
  {
    FaithfulKeepsDisk(s, a, p, m.write);
    PointMoveKeepsLocks(s, a, p, m);
    MoveKeepsPlaces(s, a, p, m);
  }

  lemma StepKeepsHolds(s: System, a: Actor, p: Point, ch: Choice)
    requires LocksOk(s) && HoldsOk(s) && a in s.running && s.running[a] == On(p) && PointOk(s.disk, a, p)
    requires Linked(s.disk) && FreeToTake(s, a, On(p)) && Grows(s.disk, Store(s.disk, Step(s, a, p, ch).write))
    requires Faithful(s, a, p, Step(s, a, p, ch).write)
    ensures HoldsOk(After(s, a, Step(s, a, p, ch)))
  {
    StepKeepsKeepers(s, a, p, ch);
    StepKeepsGuards(s, a, p, ch);
  }

  /** What no lock change can upset. */
  lemma SameDiskKeepsHolds(s: System, s': System)
    requires HoldsOk(s) && s'.disk == s.disk && s'.crashed == s.crashed
    requires s'.keepers == s.keepers && s'.dropped == s.dropped
    requires forall a :: a in s'.running ==> (a.proc, a.ledger) !in s.dropped
    requires forall t, th :: t != "" && BeingOpened(s, t, th) ==> BeingOpened(s', t, th)
    requires Linked(s.disk)
    ensures HoldsOk(s')
  {
    forall t | t in s'.disk.turns && !s'.disk.turns[t].IsTerminal() ensures Guarded(s', t) {
      assert Guarded(s, t) && t != "";
    }
  }

  lemma AsideKeepsInv(s: System, a: Actor, ch: Choice)
    requires Inv(s) && a in s.running && s.running[a].Aside? && Ready(s, a, s.running[a], ch)
    ensures Inv(AfterGo(s, a, s.running[a], ch))
  {
    assert PlaceOk(s.disk, a, s.running[a]);
    AsideKeepsLocks(s, a, ch);
    AsideKeepsHolds(s, a, ch);
    AsideKeepsPlaces(s, a, ch);
  }

  lemma AsideKeepsPlaces(s: System, a: Actor, ch: Choice)
    requires PlacesOk(s) && a in s.running && s.running[a].Aside?
    ensures PlacesOk(AfterGo(s, a, s.running[a], ch))
  {
    var s' := AfterGo(s, a, s.running[a], ch);
    assert PlaceOk(s.disk, a, s.running[a]);
    forall b | b in s'.running ensures PlaceOk(s'.disk, b, s'.running[b]) {
      if b != a { assert PlaceOk(s.disk, b, s.running[b]); }
    }
  }

  lemma AsideKeepsHolds(s: System, a: Actor, ch: Choice)
    requires Linked(s.disk) && LocksOk(s) && HoldsOk(s) && a in s.running && s.running[a].Aside?
    requires PlaceOk(s.disk, a, s.running[a]) && FreeToTake(s, a, s.running[a])
    ensures HoldsOk(AfterGo(s, a, s.running[a], ch))
  {
    var s' := AfterGo(s, a, s.running[a], ch);
    var Aside(stage, back) := s.running[a];
    AsideFollows(a, stage, back, ch);
    forall t, th | t != "" && BeingOpened(s, t, th) ensures BeingOpened(s', t, th) {
      OthersStayOpening(s, s', a, StepAside(a, stage, ch).0, t, th);
    }
    SameDiskKeepsHolds(s, s');
  }

  lemma GoKeepsInv(s: System, a: Actor, ch: Choice)
    requires Inv(s) && Enabled(s, Go(a, ch))
    ensures Inv(Next(s, Go(a, ch)))
  {
    match s.running[a]
    case On(p) => StepKeepsInv(s, a, p, ch);
    case Aside(_, _) => AsideKeepsInv(s, a, ch);
  }

  lemma AddToTable(locks: map<Lock, Actor>, held: map<Actor, set<Lock>>, a: Actor)
    requires Table(locks, held) && a !in held
    ensures Table(locks, held[a := {}])
  {
  }

  lemma BeginKeepsLocks(s: System, a: Actor, place: Place)
    requires LocksOk(s) && a !in s.running && a.proc !in s.crashed && HeldAt(a, place) == {}
    ensures LocksOk(s.(running := s.running[a := place]))
  {
    assert HeldAll(s.running[a := place]) == HeldAll(s.running)[a := {}];
    AddToTable(s.locks, HeldAll(s.running), a);
  }

  lemma BeginKeepsInv(s: System, a: Actor, task: Task)
    requires Inv(s) && Enabled(s, Begin(a, task))
    ensures Inv(Next(s, Begin(a, task)))
  {
    var s' := Next(s, Begin(a, task));
    BeginKeepsLocks(s, a, Start(task));
    forall t, th | BeingOpened(s, t, th) ensures BeingOpened(s', t, th) {
      assert s.locks[ThreadLock(th)] != a;
    }
    SameDiskKeepsHolds(s, s');
    assert PlaceOk(s.disk, a, Start(task));
  }

  lemma AbortKeepsInv(s: System, a: Actor)
    requires Inv(s) && Enabled(s, Abort(a))
    ensures Inv(Next(s, Abort(a)))
  {
    var p := s.running[a].point;
    var m := Move(NoWrite, Keep, ErrorExit(p), false);
    assert PlaceOk(s.disk, a, s.running[a]);
    ExitLocksFollow(s, a, p);
    ExitNext(s.disk, a, p);
    MoveKeepsRest(s, a, p, m);
    AbortKeepsHolds(s, a);
  }

  lemma AbortKeepsHolds(s: System, a: Actor)
    requires HoldsOk(s) && Linked(s.disk) && Enabled(s, Abort(a))
    ensures HoldsOk(Next(s, Abort(a)))
  {
    assert Opening(s.running[a]) == "";
    SameDiskKeepsHolds(s, Next(s, Abort(a)));
  }

  // ---------------------------------------------------------------- crashes and dropped ledgers

  lemma ThinTable(locks: map<Lock, Actor>, held: map<Actor, set<Lock>>, proc: nat)
    requires Table(locks, held)
    ensures Table(map l | l in locks && locks[l].proc != proc :: locks[l],
                  map a | a in held && a.proc != proc :: held[a])
  {
  }

  lemma CrashKeepsLocks(s: System, proc: nat)
    requires LocksOk(s)
    ensures LocksOk(Next(s, Crash(proc)))
  {
    var s' := Next(s, Crash(proc));
    ThinTable(s.locks, HeldAll(s.running), proc);
    assert HeldAll(s'.running) == map a | a in HeldAll(s.running) && a.proc != proc :: HeldAll(s.running)[a];
  }

  /** The actor opening a turn's live file runs in the process recorded as the turn's owner. */
  lemma OpenerOwns(s: System, b: Actor, t: string)
    requires PlacesOk(s) && b in s.running && Opening(s.running[b]) == t && t != ""
    ensures t in s.disk.turns && s.disk.turns[t].generationId in s.disk.generations
    ensures s.disk.generations[s.disk.turns[t].generationId].ownerPid == b.proc
  {
    assert PlaceOk(s.disk, b, s.running[b]);
  }

  /** A crash in the middle of anything, including an admission: its lost holds are excused by the owner's death. */
  lemma CrashKeepsHolds(s: System, proc: nat)
    requires Inv(s)
    ensures HoldsOk(Next(s, Crash(proc)))
  {
    var s' := Next(s, Crash(proc));
    forall t | t in s'.disk.turns && !s'.disk.turns[t].IsTerminal() ensures Guarded(s', t) {
      var v := s.disk.turns[t];
      assert Guarded(s, t);
      if BeingOpened(s, t, v.threadId) {
        var b := s.locks[ThreadLock(v.threadId)];
        if b.proc == proc { OpenerOwns(s, b, t); }
      }
    }
  }

  lemma HoldsGoKeepsPlaces(s: System, op: AtomicOp, running: map<Actor, Place>)
    requires Disk.Inv(s.disk) && PlacesOk(s) && (op.ProcessDies? || op.LedgerDropped?)
    requires forall b :: b in running ==> b in s.running && running[b] == s.running[b]
    ensures forall b :: b in running ==> PlaceOk(Apply(s.disk, op), b, running[b])
  {
    forall b | b in running ensures PlaceOk(Apply(s.disk, op), b, running[b]) {
      ApplyUndisturbed(s.disk, op, HeldAt(b, s.running[b]));
      FramePlace(s.disk, Apply(s.disk, op), b, s.running[b]);
    }
  }

  lemma CrashKeepsInv(s: System, proc: nat)
    requires Inv(s)
    ensures Inv(Next(s, Crash(proc)))
  {
    var op := ProcessDies(proc);
    ApplyKeepsInv(s.disk, op);
    CrashKeepsLocks(s, proc);
    CrashKeepsHolds(s, proc);
    HoldsGoKeepsPlaces(s, op, Next(s, Crash(proc)).running);
  }

  /** Dropping a `Ledger` value in a living process takes its holds with it. */
  lemma DropKeepsHolds(s: System, proc: nat, ledger: nat)
    requires Inv(s) && Enabled(s, DropLedger(proc, ledger))
    ensures HoldsOk(Next(s, DropLedger(proc, ledger)))
  {
    var s' := Next(s, DropLedger(proc, ledger));
    forall t | t in s'.disk.turns && !s'.disk.turns[t].IsTerminal() ensures Guarded(s', t) {
      assert Guarded(s, t);
      assert BeingOpened(s, t, s.disk.turns[t].threadId) ==> BeingOpened(s', t, s.disk.turns[t].threadId);
    }
  }

  lemma DropKeepsInv(s: System, proc: nat, ledger: nat)
    requires Inv(s) && Enabled(s, DropLedger(proc, ledger))
    ensures Inv(Next(s, DropLedger(proc, ledger)))
  {
    var op := LedgerDropped(proc, ledger);
    ApplyKeepsInv(s.disk, op);
    DropKeepsHolds(s, proc, ledger);
    HoldsGoKeepsPlaces(s, op, s.running);
  }

  lemma ChildDiesKeepsInv(s: System, pid: nat)
    requires Inv(s)
    ensures Inv(Next(s, ChildDies(pid)))
  {
    var s' := Next(s, ChildDies(pid));
    forall t, th | BeingOpened(s, t, th) ensures BeingOpened(s', t, th) { }
    SameDiskKeepsHolds(s, s');
  }

  /** Every action of every actor, every error return, every crash and every dropped ledger keeps the invariant. */
  lemma NextKeepsInv(s: System, act: Action)
    requires Inv(s) && Enabled(s, act)
    ensures Inv(Next(s, act))
  {
    match act
    case Begin(a, task) => BeginKeepsInv(s, a, task);
    case Go(a, ch) => GoKeepsInv(s, a, ch);
    case Abort(a) => AbortKeepsInv(s, a);
    case Crash(proc) => CrashKeepsInv(s, proc);
    case DropLedger(proc, ledger) => DropKeepsInv(s, proc, ledger);
    case ChildDies(pid) => ChildDiesKeepsInv(s, pid);
  }
}
