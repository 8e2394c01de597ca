/** Runs of the launch protocol that show its guarantees to be sharp. */
module LaunchRuns {
  import opened Records
  import opened Disk
  import opened Traces
  import opened Launch
  import LedgerObject

  /** Each of the causes is enough: from every fresh turn some run has this one cause only and ends in `worker_gone`,
      and for the causes in `OWN` the runner itself ends the generation before. */
  lemma EachCauseSuffices(s: System, c: Cause) returns (states: seq<System>, acts: seq<Action>)
    requires Initial(s)
    ensures IsRun(states, acts) && states[0] == s
    ensures var e := states[|acts|]; e.converged && e.causes == {c} && e.turn == Converged(s.turn)
    ensures c in OWN ==> exists k :: 0 <= k < |acts| && OwnEnd(states[k], acts[k])
  {
    states, acts := ReachLooksDead(s, c);
    ghost var before, did := states, acts;
    states, acts := Observed(states, acts);
    if c in OWN {
      var k :| 0 <= k < |did| && OwnEnd(before[k], did[k]);
      assert OwnEnd(states[k], acts[k]);
    }
  }

  /** The turn is live, nobody has looked yet, and its generation looks dead for this one cause. */
  predicate LooksDead(s: System, turn: Turn, c: Cause) {
    && s.turn == turn && !turn.IsTerminal() && s.visitors == map[] && GenerationDead(s)
    && s.causes == {c} && !s.converged
  }

  /** An observation of such a turn. */
  lemma Observed(states: seq<System>, acts: seq<Action>) returns (states': seq<System>, acts': seq<Action>)
    requires IsRun(states, acts)
    requires var e := states[|acts|]; !e.turn.IsTerminal() && e.visitors == map[] && GenerationDead(e)
    ensures IsRun(states', acts') && states <= states' && acts <= acts'
    ensures var e, e' := states[|acts|], states'[|acts'|];
            e'.converged && e'.causes == e.causes && e'.turn == Converged(e.turn)
  {
    states', acts' := Do(states, acts, Visit(0, false, true));
    states', acts' := Do(states', acts', Commit(0));
  }

  lemma Do(states: seq<System>, acts: seq<Action>, act: Action) returns (states': seq<System>, acts': seq<Action>)
    requires IsRun(states, acts) && Enabled(states[|acts|], act)
    ensures IsRun(states', acts') && states' == states + [Next(states[|acts|], act)] && acts' == acts + [act]
  {
    states', acts' := states + [Next(states[|acts|], act)], acts + [act];
    OneMore(states, acts, act, Next(states[|acts|], act), Follows);
  }

  const OK := Run(true, 0, Completed)
  const FAULT := Run(false, 0, Completed)

  /** An undisturbed launch after `n` steps of the runner. */
  function Launched(s: System, n: nat): System
    requires n <= 7
  {
    if n < 3 then At(s, [Check, Gate, Spawn][n])
    else if n < 5 then At(s.(child := Live), [Track, Record][n - 3])
    else At(s.(child := Live,
               generation := s.generation.(childPid := Some(s.pid), childStartedEpoch := Some(0))),
            [Recheck, Drive, PublishStop][n - 5])
  }

  lemma ReachLaunched(s: System, n: nat) returns (states: seq<System>, acts: seq<Action>)
    requires Initial(s) && n <= 7
    ensures IsRun(states, acts) && states[0] == s && states[|acts|] == Launched(s, n)
  {
    states, acts := [s], [];
    for i := 0 to n
      invariant IsRun(states, acts) && |acts| == i && states[0] == s && states[i] == Launched(s, i)
    {
      states, acts := Do(states, acts, OK);
    }
  }

  lemma ReachLooksDead(s: System, c: Cause) returns (states: seq<System>, acts: seq<Action>)
    requires Initial(s)
    ensures IsRun(states, acts) && states[0] == s && LooksDead(states[|acts|], s.turn, c)
    ensures c in OWN ==> exists k :: 0 <= k < |acts| && OwnEnd(states[k], acts[k])
  {
    match c
    case ChildDied => states, acts := ChildDiesAlone(s);
    case OwnerGone => states, acts := OwnerDiesAlone(s);
    case ShutDown => states, acts := ShutDownAlone(s);
    case PromptFailed => states, acts := FaultAt(s, 6, c);
    case PublishFailed => states, acts := FaultAt(s, 7, c);
    case RecheckFailed => states, acts := FaultAt(s, 5, c);
    case FailFailed => states, acts := GiveUpAlone(s);
  }

  lemma ChildDiesAlone(s: System) returns (states: seq<System>, acts: seq<Action>)
    requires Initial(s)
    ensures IsRun(states, acts) && states[0] == s && LooksDead(states[|acts|], s.turn, ChildDied)
  {
    states, acts := ReachLaunched(s, 6);
    states, acts := Do(states, acts, ChildExits);
  }

  lemma OwnerDiesAlone(s: System) returns (states: seq<System>, acts: seq<Action>)
    requires Initial(s)
    ensures IsRun(states, acts) && states[0] == s && LooksDead(states[|acts|], s.turn, OwnerGone)
  {
    states, acts := ReachLaunched(s, 0);
    states, acts := Do(states, acts, OwnerDies);
  }

  lemma ShutDownAlone(s: System) returns (states: seq<System>, acts: seq<Action>)
    requires Initial(s)
    ensures IsRun(states, acts) && states[0] == s && LooksDead(states[|acts|], s.turn, ShutDown)
    ensures exists k :: 0 <= k < |acts| && OwnEnd(states[k], acts[k])
  {
    states, acts := ReachLaunched(s, 5);
    ShutDownSteps(s);
    states, acts := Do(states, acts, BeginShutdown);
    states, acts := Do(states, acts, OK);
    states, acts := EndsIt(states, acts, OK);
  }

  lemma ShutDownSteps(s: System)
    requires Initial(s)
    ensures Enabled(Launched(s, 5), BeginShutdown)
    ensures var e := Next(Launched(s, 5), BeginShutdown);
            && Enabled(e, OK)
            && var f := Next(e, OK); Enabled(f, OK) && OwnEnd(f, OK) && LooksDead(Next(f, OK), s.turn, ShutDown)
  {
  }

  lemma GiveUpAlone(s: System) returns (states: seq<System>, acts: seq<Action>)
    requires Initial(s)
    ensures IsRun(states, acts) && states[0] == s && LooksDead(states[|acts|], s.turn, FailFailed)
    ensures exists k :: 0 <= k < |acts| && OwnEnd(states[k], acts[k])
  {
    states, acts := ReachLaunched(s, 0);
    states, acts := Do(states, acts, FAULT);
    states, acts := Do(states, acts, FAULT);
    states, acts := Do(states, acts, OK);
    states, acts := EndsIt(states, acts, DropLedger);
  }

  lemma EndsIt(states: seq<System>, acts: seq<Action>, act: Action) returns (states': seq<System>, acts': seq<Action>)
    requires IsRun(states, acts) && Enabled(states[|acts|], act) && OwnEnd(states[|acts|], act)
    ensures IsRun(states', acts') && states'[0] == states[0] && states'[|acts'|] == Next(states[|acts|], act)
    ensures exists k :: 0 <= k < |acts'| && OwnEnd(states'[k], acts'[k])
  {
    states', acts' := Do(states, acts, act);
    assert OwnEnd(states'[|acts|], acts'[|acts|]);
  }

  /** The runner's step after `n` undisturbed ones fails, and its next one tears down the child. */
  lemma FaultAt(s: System, n: nat, c: Cause) returns (states: seq<System>, acts: seq<Action>)
    requires Initial(s) && 5 <= n <= 7 && c == [RecheckFailed, PromptFailed, PublishFailed][n - 5]
    ensures IsRun(states, acts) && states[0] == s && LooksDead(states[|acts|], s.turn, c)
    ensures exists k :: 0 <= k < |acts| && OwnEnd(states[k], acts[k])
  {
    states, acts := ReachLaunched(s, n);
    FaultyStep(s, n, c);
    states, acts := Do(states, acts, FAULT);
    states, acts := EndsIt(states, acts, OK);
  }

  lemma FaultyStep(s: System, n: nat, c: Cause)
    requires Initial(s) && 5 <= n <= 7 && c == [RecheckFailed, PromptFailed, PublishFailed][n - 5]
    ensures var e := Next(Launched(s, n), FAULT);
            && Enabled(e, OK) && OwnEnd(e, OK) && LooksDead(Next(e, OK), s.turn, c)
  {
  }

  predicate Spared(s: System, i: nat) {
    && s.turn.status == Interrupted && i in s.visitors && s.visitors[i] == Done(GaveUp)
    && s.child.Live? && s.runner == Drive && s.causes == {}
  }

  /** When the read of the generation fails, the canceller returns without a signal and the driven child lives on:
      the guarantee is for cancels whose read succeeded, and only for them. */
  lemma FailedLookSparesTheChild(s: System)
    requires Initial(s)
    ensures exists states: seq<System>, acts: seq<Action> ::
              IsRun(states, acts) && states[0] == s && Spared(states[|states| - 1], 0)
  {
    var states, acts := ReachLaunched(s, 6);
    states, acts := Do(states, acts, Visit(0, true, false));
    states, acts := Do(states, acts, Commit(0));
    states, acts := Do(states, acts, GiveUp(0));
    assert Spared(states[|states| - 1], 0);
  }

  // ---------------------------------------------------------------- the verdict is the ledger's

  /** The live holds, and the dead children, as the ledger sees them: the owner's file is locked while it is held. */
  function HoldsOf(s: System, owner: nat): map<string, Hold> {
    if s.held then map[s.generation.id := Hold(owner, 0, true)] else map[]
  }

  function GoneOf(s: System): set<nat> {
    if s.child.Live? then {} else {s.pid}
  }

  /** What this protocol calls a dead generation is what the ledger's observation in another process finds dead. */
  lemma DeadAsTheLedgerSees(s: System, owner: nat, observer: nat, crashed: set<nat>)
    requires Launch.Inv(s) && owner != observer
    requires s.generation.childPid.Some? ==> s.generation.childPid.value == s.pid
    ensures GenerationDead(s) <==>
            LedgerObject.Gone(HoldsOf(s, owner), observer, s.generation,
                              LedgerObject.World(crashed, GoneOf(s), false, true, true, true))
  {
  }
}
