/** A run in which `worker_gone` is recorded although the owner lives on: its `Ledger` value was dropped while the turn
    was still in progress, and the live file went with it. */
module DroppedLedger {
  import opened Records
  import opened Disk
  import opened Protocol
  import opened ProtocolTheorems
  import opened Traces

  // ---------------------------------------------------------------- the cast

  const OWNER := Actor(1, 0, 0)
  const OBSERVER := Actor(2, 0, 0)
  const SPEC := NewTurn("th", [], "model", "effort", [])
  const LUCK := Choice(true, false, 0, None, "", None, "th", "g", "tu", "r")

  function Record(pointer: string): Thread {
    Thread("th", "/work", "model", ReadOnly, Never, "", "", pointer)
  }

  function Live(): Turn { FreshRecord(SPEC, "g", "tu") }

  function Gen(): Generation { NewGeneration("g", "tu", 1, 0) }

  function Home(pointer: string): State { Empty().(threads := map["th" := Record(pointer)]) }

  function WithGeneration(): State { Home("").(generations := map["g" := Gen()]) }

  function WithTurn(pointer: string): State {
    Home(pointer).(generations := map["g" := Gen()], turns := map["tu" := Live()])
  }

  /** The owner at one point of its admission. */
  function Owner(d: State, locks: map<Lock, Actor>, p: Point): System {
    System(d, locks, map[OWNER := On(p)], {}, {}, map[], {})
  }

  /** The owner from the moment its live file is kept. */
  function Kept(running: map<Actor, Place>, locks: map<Lock, Actor>): System {
    System(WithTurn("tu").(holds := map["g" := Hold(1, 0, true)]), locks, running, {}, {}, map["g" := (1, 0)], {})
  }

  /** The observer, after the ledger value of the owner was dropped. */
  function Orphaned(running: map<Actor, Place>, locks: map<Lock, Actor>): System {
    System(WithTurn("tu"), locks, running, {}, {}, map["g" := (1, 0)], {(1, 0)})
  }

  // ---------------------------------------------------------------- building a run

  lemma Do(states: seq<System>, acts: seq<Action>, act: Action, next: System)
    returns (states': seq<System>, acts': seq<Action>)
    requires Run(states, acts) && Enabled(states[|acts|], act) && Next(states[|acts|], act) == next
    ensures Run(states', acts') && states' == states + [next] && acts' == acts + [act]
  {
    states', acts' := states + [next], acts + [act];
    OneMore(states, acts, act, next, Follows);
  }

  /** A run that ends in this state. */
  ghost predicate Reaches(states: seq<System>, acts: seq<Action>, s: System) {
    Run(states, acts) && states[|acts|] == s
  }

  lemma CreateThread() returns (states: seq<System>, acts: seq<Action>)
    ensures Reaches(states, acts, System(Home(""), map[], map[], {}, {}, map[], {}))
  {
    var s0 := System(Empty(), map[], map[], {}, {}, map[], {});
    var s1 := s0.(running := map[OWNER := On(InField(MakeThread(Record(""))))]);
    var s2 := System(Home(""), map[], map[], {}, {}, map[], {});
    states, acts := [s0], [];
    states, acts := Do(states, acts, Begin(OWNER, ThreadTask(Record(""))), s1);
    assert s1.running - {OWNER} == map[];
    states, acts := Do(states, acts, Go(OWNER, LUCK), s2);
  }

  /** One step of an actor that runs alone and does not touch the live holds. */
  lemma Go1(states: seq<System>, acts: seq<Action>, s: System, a: Actor, p: Point, m: Move)
    returns (states': seq<System>, acts': seq<Action>)
    requires Reaches(states, acts, s) && s.running == map[a := On(p)]
    requires FreeToTake(s, a, On(p)) && ReadyPoint(s.disk, p, LUCK)
    requires Step(s, a, p, LUCK) == m && m.next.Some? && !m.wake && !m.write.OpenLive?
    ensures Reaches(states', acts', s.(disk := Store(s.disk, m.write), locks := Relock(s.locks, a, m.change),
                                       running := map[a := On(m.next.value)]))
    ensures states <= states'
  {
    states', acts' := Do(states, acts, Go(a, LUCK), After(s, a, m));
  }

  const ADMITTING: map<Lock, Actor> := map[AdmitLock := OWNER]
  const IN_THREAD: map<Lock, Actor> := map[AdmitLock := OWNER, ThreadLock("th") := OWNER]

  lemma EnterThread() returns (states: seq<System>, acts: seq<Action>)
    ensures Reaches(states, acts, Owner(Home(""), IN_THREAD, InScan(ReadThread(SPEC))))
  {
    states, acts := CreateThread();
    states, acts := Do(states, acts, Begin(OWNER, AdmitTask(SPEC)), Owner(Home(""), map[], InScan(WantAdmit(SPEC))));
    states, acts := Go1(states, acts, Owner(Home(""), map[], InScan(WantAdmit(SPEC))), OWNER, InScan(WantAdmit(SPEC)),
                        Acquire(AdmitLock, InScan(WantAdmitThread(SPEC))));
    var s := Owner(Home(""), ADMITTING, InScan(WantAdmitThread(SPEC)));
    states, acts := Go1(states, acts, s, OWNER, InScan(WantAdmitThread(SPEC)),
                        Acquire(ThreadLock("th"), InScan(ReadThread(SPEC))));
    assert Relock(ADMITTING, OWNER, Take(ThreadLock("th"))) == IN_THREAD;
  }

  lemma ScanIdle() returns (states: seq<System>, acts: seq<Action>)
    ensures Reaches(states, acts, Owner(Home(""), IN_THREAD, InScan(ScanThread(SPEC, Record(""), {}))))
  {
    states, acts := EnterThread();
    var p1, p2 := InScan(CheckPointer(SPEC, Record(""))), InScan(ListThread(SPEC, Record("")));
    states, acts := Go1(states, acts, Owner(Home(""), IN_THREAD, InScan(ReadThread(SPEC))), OWNER,
                        InScan(ReadThread(SPEC)), Then(p1));
    states, acts := Go1(states, acts, Owner(Home(""), IN_THREAD, p1), OWNER, p1, Then(p2));
    assert Home("").turns.Keys == {};
    states, acts := Go1(states, acts, Owner(Home(""), IN_THREAD, p2), OWNER, p2,
                        Then(InScan(ScanThread(SPEC, Record(""), {}))));
  }

  lemma WriteRecords() returns (states: seq<System>, acts: seq<Action>)
    ensures Reaches(states, acts, Owner(WithTurn(""), IN_THREAD, InWrite(WritePointer(SPEC, Record(""), Live()))))
  {
    states, acts := ScanIdle();
    var p0 := InScan(ScanThread(SPEC, Record(""), {}));
    var p1 := InWrite(WriteGeneration(SPEC, Record(""), "g", "tu"));
    var p2 := InWrite(WriteTurn(SPEC, Record(""), "g", "tu"));
    states, acts := Go1(states, acts, Owner(Home(""), IN_THREAD, p0), OWNER, p0, Then(p1));
    states, acts := Go1(states, acts, Owner(Home(""), IN_THREAD, p1), OWNER, p1,
                        Move(PutGeneration(Gen()), Keep, Some(p2), false));
    assert Store(Home(""), PutGeneration(Gen())) == WithGeneration();
    states, acts := Go1(states, acts, Owner(WithGeneration(), IN_THREAD, p2), OWNER, p2,
                        Move(PutNewTurn(Live()), Keep, Some(InWrite(WritePointer(SPEC, Record(""), Live()))), false));
    assert Store(WithGeneration(), PutNewTurn(Live())) == WithTurn("");
  }

  function OpenAt(locked: bool, open: OpenStage): Point { InWrite(Open(SPEC, Live(), locked, open)) }

  const WITH_FILE: map<Lock, Actor> := IN_THREAD[LiveLock("g") := OWNER]

  lemma TakeFile() returns (states: seq<System>, acts: seq<Action>)
    ensures Reaches(states, acts, Owner(WithTurn("tu"), WITH_FILE, OpenAt(true, ToMark)))
  {
    states, acts := WriteRecords();
    var p0 := InWrite(WritePointer(SPEC, Record(""), Live()));
    states, acts := Go1(states, acts, Owner(WithTurn(""), IN_THREAD, p0), OWNER, p0,
                        Move(PutThread(Record("tu")), Keep, Some(OpenAt(false, ToFile)), false));
    assert Store(WithTurn(""), PutThread(Record("tu"))) == WithTurn("tu");
    states, acts := Go1(states, acts, Owner(WithTurn("tu"), IN_THREAD, OpenAt(false, ToFile)), OWNER,
                        OpenAt(false, ToFile), Acquire(LiveLock("g"), OpenAt(true, ToMark)));
  }

  lemma MarkFile() returns (states: seq<System>, acts: seq<Action>)
    ensures Reaches(states, acts, Owner(WithTurn("tu"), WITH_FILE, OpenAt(true, ToKeep)))
  {
    states, acts := TakeFile();
    var d := WithTurn("tu");
    states, acts := Go1(states, acts, Owner(d, WITH_FILE, OpenAt(true, ToMark)), OWNER, OpenAt(true, ToMark),
                        Acquire(ProcessLock(1), OpenAt(true, InMark)));
    states, acts := Go1(states, acts, Owner(d, WITH_FILE[ProcessLock(1) := OWNER], OpenAt(true, InMark)), OWNER,
                        OpenAt(true, InMark), Release(ProcessLock(1), Some(OpenAt(true, ToKeep))));
    assert Relock(WITH_FILE[ProcessLock(1) := OWNER], OWNER, Free(ProcessLock(1))) == WITH_FILE;
  }

  lemma EnterTable() returns (states: seq<System>, acts: seq<Action>)
    ensures Reaches(states, acts, Owner(WithTurn("tu"), WITH_FILE[TableLock(1, 0) := OWNER], OpenAt(true, InKeep)))
  {
    states, acts := MarkFile();
    states, acts := Go1(states, acts, Owner(WithTurn("tu"), WITH_FILE, OpenAt(true, ToKeep)), OWNER,
                        OpenAt(true, ToKeep), Acquire(TableLock(1, 0), OpenAt(true, InKeep)));
  }

  lemma KeepFile() returns (states: seq<System>, acts: seq<Action>)
    ensures Reaches(states, acts, Kept(map[OWNER := On(OpenAt(true, OutOfKeep))], IN_THREAD[TableLock(1, 0) := OWNER]))
  {
    states, acts := EnterTable();
    var s := Owner(WithTurn("tu"), WITH_FILE[TableLock(1, 0) := OWNER], OpenAt(true, InKeep));
    var m := Move(OpenLive("g", Hold(1, 0, true)), Free(LiveLock("g")), Some(OpenAt(true, OutOfKeep)), false);
    assert Step(s, OWNER, OpenAt(true, InKeep), LUCK) == m;
    KeepingTheFile(m);
    states, acts := Do(states, acts, Go(OWNER, LUCK),
                       Kept(map[OWNER := On(OpenAt(true, OutOfKeep))], IN_THREAD[TableLock(1, 0) := OWNER]));
  }

  lemma KeepingTheFile(m: Move)
    requires m == Move(OpenLive("g", Hold(1, 0, true)), Free(LiveLock("g")), Some(OpenAt(true, OutOfKeep)), false)
    ensures After(Owner(WithTurn("tu"), WITH_FILE[TableLock(1, 0) := OWNER], OpenAt(true, InKeep)), OWNER, m) ==
            Kept(map[OWNER := On(OpenAt(true, OutOfKeep))], IN_THREAD[TableLock(1, 0) := OWNER])
  {
    assert WITH_FILE[TableLock(1, 0) := OWNER] - {LiveLock("g")} == IN_THREAD[TableLock(1, 0) := OWNER];
  }

  lemma LeaveTable() returns (states: seq<System>, acts: seq<Action>)
    ensures Reaches(states, acts, Kept(map[OWNER := On(InWrite(LeaveThread("th", Admitted(Live()))))], IN_THREAD))
  {
    states, acts := KeepFile();
    var p1 := InWrite(LeaveThread("th", Admitted(Live())));
    var s := Kept(map[OWNER := On(OpenAt(true, OutOfKeep))], IN_THREAD[TableLock(1, 0) := OWNER]);
    states, acts := Go1(states, acts, s, OWNER, OpenAt(true, OutOfKeep), Release(TableLock(1, 0), Some(p1)));
    assert Relock(IN_THREAD[TableLock(1, 0) := OWNER], OWNER, Free(TableLock(1, 0))) == IN_THREAD;
  }

  lemma Admit() returns (states: seq<System>, acts: seq<Action>)
    ensures Reaches(states, acts, Kept(map[], map[]))
  {
    states, acts := LeaveTable();
    var p1, p2 := InWrite(LeaveThread("th", Admitted(Live()))), InWrite(LeaveAdmit(Admitted(Live())));
    states, acts := Go1(states, acts, Kept(map[OWNER := On(p1)], IN_THREAD), OWNER, p1,
                        Release(ThreadLock("th"), Some(p2)));
    assert Relock(IN_THREAD, OWNER, Free(ThreadLock("th"))) == ADMITTING;
    states, acts := Return(states, acts, p2);
  }

  lemma Return(states: seq<System>, acts: seq<Action>, p: Point) returns (states': seq<System>, acts': seq<Action>)
    requires p == InWrite(LeaveAdmit(Admitted(Live())))
    requires Reaches(states, acts, Kept(map[OWNER := On(p)], ADMITTING))
    ensures Reaches(states', acts', Kept(map[], map[]))
  {
    var running: map<Actor, Place> := map[OWNER := On(p)];
    assert Relock(ADMITTING, OWNER, Free(AdmitLock)) == map[] && running - {OWNER} == map[];
    states', acts' := Do(states, acts, Go(OWNER, LUCK), Kept(map[], map[]));
  }

  // ---------------------------------------------------------------- the drop, and another process looking

  function Watching(p: Point, locks: map<Lock, Actor>): System { Orphaned(map[OBSERVER := On(p)], locks) }

  const OBSERVING: map<Lock, Actor> := map[ThreadLock("th") := OBSERVER]

  function TurnAt(): TurnPoint { GotTurn("tu", Observe, Direct, "th", Live()) }

  function ProbeAt(stage: ProbeStage): Point { InProbe(Subject("tu", Observe, Direct, "th", Live()), Gen(), stage) }

  lemma DropIt() returns (states: seq<System>, acts: seq<Action>, kept: nat)
    ensures Reaches(states, acts, Watching(InTurn(FirstRead("tu", Observe, Direct)), map[]))
    ensures kept < |acts| && states[kept] == Kept(map[], map[])
  {
    states, acts := Admit();
    kept := |acts|;
    states, acts := Do(states, acts, DropLedger(1, 0), Orphaned(map[], map[]));
    states, acts := Do(states, acts, Begin(OBSERVER, TurnTask("tu", Observe)),
                       Watching(InTurn(FirstRead("tu", Observe, Direct)), map[]));
  }

  lemma ReadTurn() returns (states: seq<System>, acts: seq<Action>, kept: nat)
    ensures Reaches(states, acts, Watching(InTurn(TurnAt()), OBSERVING))
    ensures kept < |acts| && states[kept] == Kept(map[], map[])
  {
    states, acts, kept := DropIt();
    var p1, p2 := InTurn(FirstRead("tu", Observe, Direct)), InTurn(WantThread("tu", Observe, Direct, "th"));
    var p3 := InTurn(Locked("tu", Observe, Direct, "th"));
    states, acts := Go1(states, acts, Watching(p1, map[]), OBSERVER, p1, Then(p2));
    states, acts := Go1(states, acts, Watching(p2, map[]), OBSERVER, p2, Acquire(ThreadLock("th"), p3));
    states, acts := Go1(states, acts, Watching(p3, OBSERVING), OBSERVER, p3, Then(InTurn(TurnAt())));
  }

  lemma LookHere() returns (states: seq<System>, acts: seq<Action>, kept: nat)
    ensures Reaches(states, acts, Watching(ProbeAt(TryFile), OBSERVING))
    ensures kept < |acts| && states[kept] == Kept(map[], map[])
  {
    states, acts, kept := ReadTurn();
    var l := OBSERVING[ProcessLock(2) := OBSERVER];
    states, acts := Go1(states, acts, Watching(InTurn(TurnAt()), OBSERVING), OBSERVER, InTurn(TurnAt()),
                        Then(ProbeAt(ToMine)));
    states, acts := Go1(states, acts, Watching(ProbeAt(ToMine), OBSERVING), OBSERVER, ProbeAt(ToMine),
                        Acquire(ProcessLock(2), ProbeAt(InMine)));
    states, acts := Go1(states, acts, Watching(ProbeAt(InMine), l), OBSERVER, ProbeAt(InMine),
                        Release(ProcessLock(2), Some(ProbeAt(TryFile))));
    assert Relock(l, OBSERVER, Free(ProcessLock(2))) == OBSERVING;
  }

  lemma ProbeFile() returns (states: seq<System>, acts: seq<Action>, kept: nat)
    ensures Reaches(states, acts, Watching(Verdict(Subject("tu", Observe, Direct, "th", Live()), true), OBSERVING))
    ensures kept < |acts| && states[kept] == Kept(map[], map[])
  {
    states, acts, kept := LookHere();
    var l := OBSERVING[LiveLock("g") := OBSERVER];
    states, acts := Go1(states, acts, Watching(ProbeAt(TryFile), OBSERVING), OBSERVER, ProbeAt(TryFile),
                        Acquire(LiveLock("g"), ProbeAt(InFile)));
    states, acts := Go1(states, acts, Watching(ProbeAt(InFile), l), OBSERVER, ProbeAt(InFile),
                        Release(LiveLock("g"), Some(Verdict(Subject("tu", Observe, Direct, "th", Live()), true))));
    assert Relock(l, OBSERVER, Free(LiveLock("g"))) == OBSERVING;
  }

  /** The owner process lives, no child was ever recorded, no end of file is marked, and the file lock had been taken:
      still the turn is failed as `worker_gone`. */
  lemma DroppedLedgerLooksDead() returns (states: seq<System>, acts: seq<Action>, kept: nat)
    ensures Run(states, acts) && kept < |acts|
    ensures states[kept].disk.holds == map["g" := Hold(1, 0, true)]
    ensures var s := states[|acts|];
            && s.crashed == {} && s.gone == {} && s.dropped == {(1, 0)}
            && s.disk.generations == map["g" := Gen()] && Gen().childPid == None && !Gen().childEof
            && s.disk.turns == map["tu" := Converged(Live())]
  {
    states, acts, kept := ProbeFile();
    var p := Verdict(Subject("tu", Observe, Direct, "th", Live()), true);
    var n := Converged(Live());
    var s := Watching(p, OBSERVING);
    var s' := s.(disk := s.disk.(turns := map["tu" := n]),
                 running := map[OBSERVER := On(InEnd(ClearPointer(Direct, "th", n)))]);
    states, acts := Do(states, acts, Go(OBSERVER, LUCK), s');
  }
}
