/** Parent exit against spawning: the gate counter, the shutdown flag and the pid table,
    one sequentially consistent atomic access per step. */
module Teardown {
  import opened Traces

  const MAX_LIVE: nat := 64

  /** Where one `run_turn` stands between opening the spawn gate and dropping its `ChildReap`. */
  datatype SpawnPoint =
    | Gated
    | Spawning
    | Registering(pid: nat, slot: nat)
    | Overflow(pid: nat)
    | Tracked(pid: nat)
    | Turned
    | Driving(pid: nat)
    | Unregistering(pid: nat, slot: nat)
  {
    /** The gate counter includes this spawner. */
    predicate HoldsGate() { Gated? || Spawning? || Registering? || Overflow? || Tracked? || Turned? }

    /** It read the shutdown flag as false and may still create or register a child. */
    predicate PassedGate() { Spawning? || Registering? || Overflow? || Tracked? }

    /** Its child exists and is in no slot yet. */
    predicate Carries(p: nat) { (Registering? || Overflow?) && pid == p }
  }

  datatype Sweep = Poll | Final(sawZero: bool)

  datatype ExitPoint =
    | Running
    | Sweeping(slot: nat, sweep: Sweep)
    | Killing(slot: nat, sweep: Sweep, pid: nat)
    | Deciding(sawZero: bool)
    | Exited(sawZero: bool)

  datatype System = System(
    shuttingDown: bool,
    spawnsOpen: nat,
    slots: seq<nat>,
    created: set<nat>,
    torn: set<nat>,
    spawners: map<nat, SpawnPoint>,
    exit: ExitPoint)

  datatype Action =
    | Arrive(k: nat)
    | Spawn(k: nat, pid: nat)
    | SpawnFails(k: nat)
    | Go(k: nat)
    | BeginExit
    | ExitStep(deadline: bool, hard: bool)

  predicate Initial(s: System) {
    s == System(false, 0, seq(MAX_LIVE, i => 0), {}, {}, map[], Running)
  }

  predicate Enabled(s: System, act: Action) {
    match act
    case Arrive(k) => k !in s.spawners
    case Spawn(k, pid) => k in s.spawners && s.spawners[k].Spawning? && pid != 0 && pid !in s.created
    case SpawnFails(k) => k in s.spawners && s.spawners[k].Spawning?
    case Go(k) => k in s.spawners && !s.spawners[k].Spawning?
    case BeginExit => s.exit.Running?
    case ExitStep(_, _) => !s.exit.Running? && !s.exit.Exited?
  }

  function At(s: System, k: nat, p: SpawnPoint): System { s.(spawners := s.spawners[k := p]) }

  function DropGate(s: System): System { s.(spawnsOpen := if s.spawnsOpen == 0 then 0 else s.spawnsOpen - 1) }

  /** One step of a spawner other than the creation of its child. */
  function SpawnerNext(s: System, k: nat): System
    requires k in s.spawners
  {
    match s.spawners[k]
    case Gated => At(s, k, if s.shuttingDown then Turned else Spawning)
    case Spawning => s
    case Registering(pid, i) =>
      if i >= |s.slots| then At(s, k, Overflow(pid))
      else if s.slots[i] == 0 then At(s.(slots := s.slots[i := pid]), k, Tracked(pid))
      else At(s, k, Registering(pid, i + 1))
    case Overflow(pid) => At(s.(torn := s.torn + {pid}), k, Turned)
    case Tracked(pid) => At(DropGate(s), k, Driving(pid))
    case Turned => DropGate(s).(spawners := s.spawners - {k})
    case Driving(pid) => At(s.(torn := s.torn + {pid}), k, Unregistering(pid, 0))
    case Unregistering(pid, i) =>
      if i >= |s.slots| then s.(spawners := s.spawners - {k})
      else At(if s.slots[i] == pid then s.(slots := s.slots[i := 0]) else s, k, Unregistering(pid, i + 1))
  }

  /** One step of `parent_exit_teardown` after it set the flag. */
  function ExitNext(s: System, deadline: bool, hard: bool): System {
    match s.exit
    case Running => s
    case Exited(_) => s
    case Sweeping(i, sweep) =>
      if i < |s.slots| then
        (if s.slots[i] == 0 then s.(exit := Sweeping(i + 1, sweep))
         else s.(slots := s.slots[i := 0], exit := Killing(i, sweep, s.slots[i])))
      else if sweep.Poll? then s.(exit := Deciding(s.spawnsOpen == 0))
      else s.(exit := Exited(sweep.sawZero))
    case Killing(i, sweep, pid) => s.(torn := s.torn + {pid}, exit := Sweeping(i + 1, sweep))
    case Deciding(sawZero) =>
      s.(exit := Sweeping(0, if hard || (deadline && sawZero) then Final(sawZero) else Poll))
  }

  function Next(s: System, act: Action): System
    requires Enabled(s, act)
  {
    match act
    case Arrive(k) => At(s.(spawnsOpen := s.spawnsOpen + 1), k, Gated)
    case Spawn(k, pid) => At(s.(created := s.created + {pid}), k, Registering(pid, 0))
    case SpawnFails(k) => At(s, k, Turned)
    case Go(k) => SpawnerNext(s, k)
    case BeginExit => s.(shuttingDown := true, exit := Sweeping(0, Poll))
    case ExitStep(deadline, hard) => ExitNext(s, deadline, hard)
  }

  // ---------------------------------------------------------------- invariant

  function Gate(s: System): set<nat> {
    set k | k in s.spawners && s.spawners[k].HoldsGate()
  }

  /** No spawner can still create or register a child. */
  ghost predicate Quiet(s: System) {
    forall k :: k in s.spawners ==> !s.spawners[k].PassedGate()
  }

  ghost predicate Carried(s: System, p: nat) {
    exists k :: k in s.spawners && s.spawners[k].Carries(p)
  }

  /** A created child is torn down, or sits in a slot, or is in somebody's hands. */
  ghost predicate Accounted(s: System, p: nat) {
    p in s.torn || p in s.slots || Carried(s, p) || (s.exit.Killing? && s.exit.pid == p)
  }

  ghost predicate PidsReal(s: System) {
    forall k :: k in s.spawners && (s.spawners[k].Registering? || s.spawners[k].Overflow?) ==> s.spawners[k].pid != 0
  }

  ghost predicate TornBeforeUnregister(s: System) {
    forall k :: k in s.spawners && s.spawners[k].Unregistering? ==> s.spawners[k].pid in s.torn
  }

  predicate Swept(s: System, n: nat) {
    forall i :: 0 <= i < n && i < |s.slots| ==> s.slots[i] == 0
  }

  ghost predicate ExitOk(s: System) {
    match s.exit
    case Running => true
    case Sweeping(i, sweep) => s.shuttingDown && (sweep == Final(true) ==> Quiet(s) && Swept(s, i))
    case Killing(i, sweep, _) => s.shuttingDown && (sweep == Final(true) ==> Quiet(s) && Swept(s, i + 1))
    case Deciding(sawZero) => s.shuttingDown && (sawZero ==> Quiet(s))
    case Exited(sawZero) => s.shuttingDown && (sawZero ==> Quiet(s) && Swept(s, |s.slots|))
  }

  ghost predicate Inv(s: System) {
    && |s.slots| == MAX_LIVE
    && s.spawnsOpen == |Gate(s)|
    && (forall p :: p in s.created ==> Accounted(s, p))
    && PidsReal(s)
    && TornBeforeUnregister(s)
    && 0 !in s.created
    && ExitOk(s)
  }

  // ---------------------------------------------------------------- the gate counter

  lemma GateMoves(s: System, s': System, k: nat)
    requires s.spawnsOpen == |Gate(s)|
    requires forall j :: j != k ==> (j in s.spawners <==> j in s'.spawners)
    requires forall j :: j != k && j in s.spawners ==> s'.spawners[j] == s.spawners[j]
    ensures k in Gate(s) && k in Gate(s') ==> |Gate(s')| == s.spawnsOpen
    ensures k !in Gate(s) && k !in Gate(s') ==> |Gate(s')| == s.spawnsOpen
    ensures k !in Gate(s) && k in Gate(s') ==> |Gate(s')| == s.spawnsOpen + 1
    ensures k in Gate(s) && k !in Gate(s') ==> s.spawnsOpen > 0 && |Gate(s')| == s.spawnsOpen - 1
  {
    if k in Gate(s) && k !in Gate(s') {
      assert Gate(s') == Gate(s) - {k};
    } else if k !in Gate(s) && k in Gate(s') {
      assert Gate(s') == Gate(s) + {k};
    } else {
      assert Gate(s') == Gate(s);
    }
  }

  /** The counter is the number of spawners inside the gate. */
  lemma CounterCounts(s: System, act: Action)
    requires Inv(s) && Enabled(s, act)
    ensures Next(s, act).spawnsOpen == |Gate(Next(s, act))|
  {
    var s' := Next(s, act);
    if act.BeginExit? || act.ExitStep? {
      ExitLeavesSpawners(s, act);
      assert Gate(s') == Gate(s);
    } else if act.Go? {
      StepMovesOne(s, act.k);
      GateMoves(s, s', act.k);
    } else {
      GateMoves(s, s', act.k);
    }
  }

  lemma ExitLeavesSpawners(s: System, act: Action)
    requires Enabled(s, act) && (act.BeginExit? || act.ExitStep?)
    ensures Next(s, act).spawners == s.spawners && Next(s, act).spawnsOpen == s.spawnsOpen
  {
  }

  /** A spawner's step moves that spawner only, and the counter falls exactly when it leaves the gate. */
  lemma StepMovesOne(s: System, k: nat)
    requires Enabled(s, Go(k))
    ensures var s' := SpawnerNext(s, k);
            && (forall j :: j != k ==> (j in s.spawners <==> j in s'.spawners))
            && (forall j :: j != k && j in s.spawners ==> s'.spawners[j] == s.spawners[j])
            && s'.spawnsOpen == (if s.spawners[k].HoldsGate() && !(k in s'.spawners && s'.spawners[k].HoldsGate())
                                 then (if s.spawnsOpen == 0 then 0 else s.spawnsOpen - 1) else s.spawnsOpen)
            && (!s.spawners[k].HoldsGate() ==> !(k in s'.spawners && s'.spawners[k].HoldsGate()))
  {
  }

  // ---------------------------------------------------------------- every child is accounted for

  lemma StillCarried(s: System, s': System, k: nat, p: nat)
    requires Carried(s, p) && !(k in s.spawners && s.spawners[k].Carries(p))
    requires forall j :: j != k && j in s.spawners ==> j in s'.spawners && s'.spawners[j] == s.spawners[j]
    ensures Carried(s', p)
  {
    var j :| j in s.spawners && s.spawners[j].Carries(p);
    assert s'.spawners[j].Carries(p);
  }

  lemma SlotKept(a: seq<nat>, i: nat, x: nat, p: nat)
    requires i < |a| && p in a && a[i] != p
    ensures p in a[i := x]
  {
    var j :| 0 <= j < |a| && a[j] == p;
    assert a[i := x][j] == p;
  }

  lemma SpawnerAccounts(s: System, k: nat, p: nat)
    requires Inv(s) && k in s.spawners && p in s.created
    ensures Accounted(SpawnerNext(s, k), p)
  {
    var s' := SpawnerNext(s, k);
    var q := s.spawners[k];
    assert Accounted(s, p);
    if q.Carries(p) {
      if q.Registering? && q.slot < |s.slots| && s.slots[q.slot] == 0 {
        assert s'.slots[q.slot] == p;
      } else if q.Registering? {
        assert s'.spawners[k].Carries(p);
      }
    } else if Carried(s, p) {
      StillCarried(s, s', k, p);
    } else if p in s.slots && p !in s.torn {
      if q.Registering? && q.slot < |s.slots| && s.slots[q.slot] == 0 { SlotKept(s.slots, q.slot, q.pid, p); }
      if q.Unregistering? && q.slot < |s.slots| && s.slots[q.slot] == q.pid { SlotKept(s.slots, q.slot, 0, p); }
    }
  }

  lemma ExitAccounts(s: System, deadline: bool, hard: bool, p: nat)
    requires Inv(s) && p in s.created
    ensures Accounted(ExitNext(s, deadline, hard), p)
  {
    var s' := ExitNext(s, deadline, hard);
    assert Accounted(s, p);
    if p in s.slots && s.exit.Sweeping? && s.exit.slot < |s.slots| && s.slots[s.exit.slot] != 0 {
      if s.slots[s.exit.slot] != p { SlotKept(s.slots, s.exit.slot, 0, p); }
    } else if Carried(s, p) {
      assert s'.spawners == s.spawners;
      var k :| k in s.spawners && s.spawners[k].Carries(p);
      assert s'.spawners[k].Carries(p);
    }
  }

  lemma EveryChildAccounted(s: System, act: Action)
    requires Inv(s) && Enabled(s, act)
    ensures forall p :: p in Next(s, act).created ==> Accounted(Next(s, act), p)
  {
    var s' := Next(s, act);
    forall p | p in s'.created ensures Accounted(s', p) {
      match act
      case Go(k) => SpawnerAccounts(s, k, p);
      case ExitStep(deadline, hard) => ExitAccounts(s, deadline, hard, p);
      case Spawn(k, pid) =>
        if p == pid { assert s'.spawners[k].Carries(p); }
        else { assert Accounted(s, p); if Carried(s, p) { StillCarried(s, s', k, p); } }
      case Arrive(k) => assert Accounted(s, p); if Carried(s, p) { StillCarried(s, s', k, p); }
      case SpawnFails(k) => assert Accounted(s, p); if Carried(s, p) { StillCarried(s, s', k, p); }
      case BeginExit =>
        assert Accounted(s, p);
        if Carried(s, p) {
          var k :| k in s.spawners && s.spawners[k].Carries(p);
          assert s'.spawners[k].Carries(p);
        }
    }
  }

  // ---------------------------------------------------------------- the exit loop

  /** Once the flag is set, a quiet table of spawners stays quiet and fills no slot. */
  lemma QuietStays(s: System, act: Action)
    requires Inv(s) && Enabled(s, act) && s.shuttingDown && Quiet(s)
    ensures Quiet(Next(s, act))
    ensures forall n :: Swept(s, n) ==> Swept(Next(s, act), n)
    ensures Next(s, act).created == s.created
  {
  }

  lemma ZeroMeansQuiet(s: System)
    requires s.spawnsOpen == |Gate(s)| && s.spawnsOpen == 0
    ensures Quiet(s)
  {
    forall k | k in s.spawners ensures !s.spawners[k].PassedGate() {
      assert k !in Gate(s);
    }
  }

  lemma ExitStays(s: System, act: Action)
    requires Inv(s) && Enabled(s, act)
    ensures ExitOk(Next(s, act))
  {
    if s.shuttingDown && Quiet(s) { QuietStays(s, act); }
    if s.spawnsOpen == 0 { ZeroMeansQuiet(s); }
  }

  lemma PidFacts(s: System, act: Action)
    requires Inv(s) && Enabled(s, act)
    ensures var s' := Next(s, act);
            |s'.slots| == MAX_LIVE && PidsReal(s') && TornBeforeUnregister(s') && 0 !in s'.created
  {
    if act.Go? { SpawnerPidFacts(s, act.k); }
    else if act.BeginExit? || act.ExitStep? { ExitLeavesSpawners(s, act); }
  }

  lemma SpawnerPidFacts(s: System, k: nat)
    requires |s.slots| == MAX_LIVE && PidsReal(s) && TornBeforeUnregister(s) && 0 !in s.created && Enabled(s, Go(k))
    ensures var s' := SpawnerNext(s, k);
            |s'.slots| == MAX_LIVE && PidsReal(s') && TornBeforeUnregister(s') && 0 !in s'.created
  {
  }

  lemma NextKeepsInv(s: System, act: Action)
    requires Inv(s) && Enabled(s, act)
    ensures Inv(Next(s, act))
  {
    PidFacts(s, act);
    CounterCounts(s, act);
    EveryChildAccounted(s, act);
    ExitStays(s, act);
  }

  // ---------------------------------------------------------------- whole runs

  predicate Follows(s: System, act: Action, s': System) { Enabled(s, act) && s' == Next(s, act) }

  ghost predicate Run(states: seq<System>, acts: seq<Action>) {
    Steps(states, acts, Follows) && Initial(states[0])
  }

  lemma {:induction false} RunInv(states: seq<System>, acts: seq<Action>, i: nat)
    requires Run(states, acts) && i <= |acts|
    ensures Inv(states[i])
  {
    if i == 0 { assert Gate(states[0]) == {}; }
    else {
      RunInv(states, acts, i - 1);
      NextKeepsInv(states[i - 1], acts[i - 1]);
    }
  }

  /** If parent exit leaves its loop after reading the gate counter as 0, every slot is empty, every child ever
      created has been torn down, and nobody is left who could create another. */
  lemma CleanExit(states: seq<System>, acts: seq<Action>, i: nat)
    requires Run(states, acts) && i <= |acts| && states[i].exit == Exited(true)
    ensures |states[i].slots| == MAX_LIVE && forall x :: x in states[i].slots ==> x == 0
    ensures states[i].created <= states[i].torn
    ensures Quiet(states[i]) && states[i].shuttingDown
  {
    RunInv(states, acts, i);
    var s := states[i];
    forall p | p in s.created ensures p in s.torn {
      assert Accounted(s, p);
      assert p !in s.slots;
    }
  }

  lemma ExitIsFinal(s: System, act: Action)
    requires Inv(s) && Enabled(s, act) && s.exit == Exited(true)
    ensures Next(s, act).exit == Exited(true) && Next(s, act).created == s.created
  {
    QuietStays(s, act);
  }

  /** After a clean exit no child is ever created again, however the remaining spawners run on. */
  lemma {:induction false} NoSpawnAfterCleanExit(states: seq<System>, acts: seq<Action>, i: nat, j: nat)
    requires Run(states, acts) && i <= j <= |acts| && states[i].exit == Exited(true)
    ensures states[j].exit == Exited(true) && states[j].created == states[i].created
    ensures states[j].created <= states[j].torn
  {
    if i < j {
      NoSpawnAfterCleanExit(states, acts, i, j - 1);
      RunInv(states, acts, j - 1);
      ExitIsFinal(states[j - 1], acts[j - 1]);
    }
    CleanExit(states, acts, j);
  }

  /** Exit may leave with spawners still inside only after the hard deadline. */
  predicate Overdue(s: System) {
    s.exit == Exited(false) || ((s.exit.Sweeping? || s.exit.Killing?) && s.exit.sweep == Final(false))
  }

  lemma OverdueStep(s: System, act: Action)
    requires Enabled(s, act) && Overdue(Next(s, act))
    ensures Overdue(s) || (act.ExitStep? && act.hard)
  {
    if act.Go? { SpawnerLeavesExit(s, act.k); }
  }

  lemma SpawnerLeavesExit(s: System, k: nat)
    requires Enabled(s, Go(k))
    ensures SpawnerNext(s, k).exit == s.exit
  {
  }

  /** So an exit that was not clean waited for the hard deadline: short of it the loop goes on until it has read the
      gate counter as 0. */
  lemma {:induction false} UncleanExitIsOverdue(states: seq<System>, acts: seq<Action>, i: nat) returns (j: nat)
    requires Run(states, acts) && i <= |acts| && Overdue(states[i])
    ensures j < i && acts[j].ExitStep? && acts[j].hard
    decreases i
  {
    OverdueStep(states[i - 1], acts[i - 1]);
    if acts[i - 1].ExitStep? && acts[i - 1].hard {
      j := i - 1;
    } else {
      j := UncleanExitIsOverdue(states, acts, i - 1);
    }
  }

  /** An arriving spawner creates its child unless shutdown has begun; then it leaves without a trace. */
  lemma GateLetsThrough(s: System, k: nat, pid: nat)
    requires Inv(s) && k !in s.spawners && pid != 0 && pid !in s.created
    ensures Enabled(s, Arrive(k)) && Enabled(Next(s, Arrive(k)), Go(k))
    ensures var s2 := Next(Next(s, Arrive(k)), Go(k));
            && (!s.shuttingDown ==>
                  && Enabled(s2, Spawn(k, pid)) && Next(s2, Spawn(k, pid)).created == s.created + {pid}
                  && Next(s2, Spawn(k, pid)).spawnsOpen == s.spawnsOpen + 1)
            && (s.shuttingDown ==> Enabled(s2, Go(k)) && Next(s2, Go(k)) == s)
  {
    if s.shuttingDown {
      var s3 := Next(Next(Next(s, Arrive(k)), Go(k)), Go(k));
      assert s3.spawners == s.spawners;
    }
  }

  // ---------------------------------------------------------------- the table loops, run alone

  /** The pid table of one process, as its loops see it when nothing interferes. */
  class LiveTable {
    const slots: array<nat>

    constructor ()
      ensures fresh(slots) && slots.Length == 64 && forall i :: 0 <= i < slots.Length ==> slots[i] == 0
    {
      slots := new nat[MAX_LIVE](i => 0);
    }

    /** Take the first free slot; false only when there is none. Pid 0 stands for no child and takes no slot. */
    method RegisterChildPid(pid: nat) returns (ok: bool)
      modifies slots
      ensures ok <==> pid == 0 || 0 in old(slots[..])
      ensures !ok || pid == 0 ==> slots[..] == old(slots[..])
      ensures ok && pid != 0 ==>
                exists i :: 0 <= i < slots.Length && 0 !in old(slots[..])[..i] && old(slots[i]) == 0 &&
                            slots[..] == old(slots[..])[i := pid]
    {
      if pid == 0 { return true; }
      for i := 0 to slots.Length
        invariant slots[..] == old(slots[..]) && 0 !in slots[..][..i]
      {
        if slots[i] == 0 {
          slots[i] := pid;
          assert slots[..] == old(slots[..])[i := pid];
          return true;
        }
        assert slots[..][..i + 1] == slots[..][..i] + [slots[i]];
      }
      assert slots[..][..slots.Length] == slots[..];
      ok := false;
    }

    /** Clear exactly the slots holding `pid`. */
    method UnregisterChildPid(pid: nat)
      modifies slots
      ensures forall i :: 0 <= i < slots.Length ==> slots[i] == if old(slots[i]) == pid then 0 else old(slots[i])
    {
      if pid == 0 { return; }
      for i := 0 to slots.Length
        invariant forall j :: 0 <= j < i ==> slots[j] == if old(slots[j]) == pid then 0 else old(slots[j])
        invariant forall j :: i <= j < slots.Length ==> slots[j] == old(slots[j])
      {
        if slots[i] == pid { slots[i] := 0; }
      }
    }

    /** Empty the table; every pid it held is torn down, in slot order. */
    method TeardownRegisteredChildren() returns (torn: seq<nat>)
      modifies slots
      ensures forall i :: 0 <= i < slots.Length ==> slots[i] == 0
      ensures torn == NonZero(old(slots[..]))
    {
      torn := [];
      for i := 0 to slots.Length
        invariant forall j :: 0 <= j < i ==> slots[j] == 0
        invariant forall j :: i <= j < slots.Length ==> slots[j] == old(slots[j])
        invariant torn == NonZero(old(slots[..])[..i])
      {
        assert old(slots[..])[..i + 1][..i] == old(slots[..])[..i];
        var pid := slots[i];
        slots[i] := 0;
        if pid != 0 { torn := torn + [pid]; }
      }
      assert old(slots[..])[..slots.Length] == old(slots[..]);
    }
  }

  function NonZero(a: seq<nat>): seq<nat> {
    if a == [] then [] else NonZero(a[..|a| - 1]) + (if a[|a| - 1] == 0 then [] else [a[|a| - 1]])
  }
}
