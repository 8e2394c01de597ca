/** Cancelling a turn against launching its child.
    One runner, any number of cancellers and observers, one ledger access or one signal per step.
    The ledger accesses are the atomic operations of `Disk`. */
module Launch {
  import opened Records
  import opened Disk
  import opened Traces

  /** Where the runner stands; `prompted` tells whether the prompt returned a stop reason. */
  datatype Runner =
    | Check
    | Gate
    | Spawn
    | Track
    | Record
    | Recheck
    | Drive
    | PublishStop
    | Reap(prompted: bool)
    | MarkEof
    | Close
    | FailAdmitted
    | Leave
    | Finished
  {
    /** It has decided to talk to the child and will not look at the turn again before the prompt returns. */
    predicate Committed() { Drive? || PublishStop? }

    /** The child may exist and the runner has not decided to keep it. */
    predicate Undecided() { Track? || Record? || Recheck? || FailAdmitted? || Leave? || Reap? }

    /** It is on its way out, or gone. */
    predicate Ending() { Reap? || MarkEof? || Leave? || Close? || Finished? }

    /** No child has been created yet. */
    predicate Early() { Check? || Gate? || Spawn? }
  }

  datatype Child = NotYet | Live | Dead

  datatype Outcome = Handled | NotInterrupted | GaveUp

  /** A canceller or an observer. A verdict may be out of date when it is used. */
  datatype Visitor =
    | Probed(cancels: bool, dead: bool)
    | Saw
    | Looked(generation: Generation)
    | Killing
    | Done(outcome: Outcome)
  {
    /** It knows that the turn is interrupted. */
    predicate Knows() { Saw? || Looked? || Killing? || this == Done(Handled) }
  }

  /** Everything that can make a generation look dead other than the runner's orderly end. */
  datatype Cause = ChildDied | OwnerGone | ShutDown | PromptFailed | PublishFailed | RecheckFailed | FailFailed

  /** The causes that make the runner itself tear down its child, mark its end, or let go of its live file, with the
      turn still in progress. */
  const OWN: set<Cause> := {ShutDown, PromptFailed, PublishFailed, RecheckFailed, FailFailed}

  datatype System = System(
    turn: Turn,
    generation: Generation,
    pid: nat,
    child: Child,
    runner: Runner,
    ownerAlive: bool,
    held: bool,
    shuttingDown: bool,
    visitors: map<nat, Visitor>,
    converged: bool,
    causes: set<Cause>)

  datatype Action =
    | Run(ok: bool, epoch: nat, status: TurnStatus)
    | Visit(i: nat, cancels: bool, dead: bool)
    | Commit(i: nat)
    | Look(i: nat)
    | Act(i: nat)
    | Kill(i: nat)
    | GiveUp(i: nat)
    | Edit(op: TurnOp, minted: string)
    | ChildExits
    | OwnerDies
    | DropLedger
    | BeginShutdown
    | ShutdownKills

  predicate GenerationDead(s: System) {
    || !s.held
    || s.generation.childEof
    || (s.generation.childPid.Some? && !s.child.Live?)
  }

  predicate Initial(s: System) {
    && s.turn.status == InProgress
    && s.generation.childPid == None && !s.generation.childEof
    && s.child == NotYet && s.runner == Check
    && s.ownerAlive && s.held && !s.shuttingDown
    && s.visitors == map[] && !s.converged && s.causes == {}
  }

  predicate Enabled(s: System, act: Action) {
    match act
    case Run(_, _, status) => s.ownerAlive && !s.runner.Finished? && status.IsTerminal()
    case Visit(i, _, dead) => i !in s.visitors && (dead ==> GenerationDead(s))
    case Commit(i) => i in s.visitors && s.visitors[i].Probed?
    case Look(i) => i in s.visitors && s.visitors[i].Saw?
    case Act(i) => i in s.visitors && s.visitors[i].Looked?
    case Kill(i) => i in s.visitors && s.visitors[i].Killing?
    case GiveUp(i) => i in s.visitors && !s.visitors[i].Done?
    case Edit(op, _) => op.Park? || op.Respond? || op.Clear? || op.Upsert?
    case ChildExits => s.child.Live?
    case OwnerDies => s.ownerAlive
    case DropLedger => s.ownerAlive && s.runner.Finished?
    case BeginShutdown => s.ownerAlive
    case ShutdownKills => s.shuttingDown && s.child.Live?
  }

  /** The record after an operation, which may have nothing to write. */
  function Rewritten(op: TurnOp, v: Turn, dead: bool, minted: string): Turn {
    var w := Rewrite(op, v, dead, minted);
    if w.Some? then w.value else v
  }

  /** `publish_terminal`: an already terminal record is an error and stays as it is. */
  function Publishes(s: System, status: TurnStatus): System {
    s.(turn := Rewritten(Publish(status, "", ""), s.turn, false, ""))
  }

  function At(s: System, r: Runner): System { s.(runner := r) }

  function Blame(s: System, c: Cause): System { s.(causes := s.causes + {c}) }

  function Torn(s: System): System { if s.child.Live? then s.(child := Dead) else s }

  /** One step of `run_turn` after the admission. */
  function RunnerNext(s: System, ok: bool, epoch: nat, status: TurnStatus): System {
    match s.runner
    case Check =>
      if !ok then At(s, FailAdmitted)
      else if s.turn.IsTerminal() then At(s, Leave)
      else At(s, Gate)
    case Gate => At(s, if s.shuttingDown then Leave else Spawn)
    case Spawn => if ok then At(s.(child := Live), Track) else At(s, FailAdmitted)
    case Track => if ok then At(s, Record) else At(Torn(s), FailAdmitted)
    case Record =>
      if ok then
        At(s.(generation := s.generation.(
                childPid := Some(s.pid), childStartedEpoch := Some(epoch), childEof := false)), Recheck)
      else At(s, FailAdmitted)
    case Recheck =>
      if !ok then At(Blame(s, RecheckFailed), Leave)
      else if s.turn.IsTerminal() || s.shuttingDown then At(s, Leave)
      else At(s, Drive)
    case Drive => if ok then At(s, PublishStop) else At(Blame(s, PromptFailed), Reap(false))
    case PublishStop =>
      if ok then At(Publishes(s, status), Reap(true)) else At(Blame(s, PublishFailed), Reap(true))
    case Reap(_) => At(Torn(s), MarkEof)
    case MarkEof =>
      if ok then At(s.(generation := s.generation.(childEof := true)), Close) else At(s, Close)
    case Close => At(if ok then Publishes(s, status) else s, Finished)
    case FailAdmitted =>
      if ok then At(Publishes(s, Failed), Leave) else At(Blame(s, FailFailed), Leave)
    case Leave => At(Torn(s), Finished)
    case Finished => s
  }

  function Put(s: System, i: nat, v: Visitor): System { s.(visitors := s.visitors[i := v]) }

  /** What a visitor does with a record it finds or makes terminal. */
  function Verdict(cancels: bool, v: Turn): Visitor {
    if cancels && v.status == Interrupted then Saw else Done(NotInterrupted)
  }

  function CommitNext(s: System, i: nat, cancels: bool, dead: bool): System {
    var op := if cancels then CancelTurn else Observe;
    var w := Rewrite(op, s.turn, dead, "");
    var n := Rewritten(op, s.turn, dead, "");
    Put(s.(turn := n, converged := s.converged || (w.Some? && dead)), i, Verdict(cancels, n))
  }

  function Next(s: System, act: Action): System
    requires Enabled(s, act)
  {
    match act
    case Run(ok, epoch, status) => RunnerNext(s, ok, epoch, status)
    case Visit(i, cancels, dead) =>
      Put(s, i, if s.turn.IsTerminal() then Verdict(cancels, s.turn) else Probed(cancels, dead))
    case Commit(i) => CommitNext(s, i, s.visitors[i].cancels, s.visitors[i].dead)
    case Look(i) => Put(s, i, Looked(s.generation))
    case Act(i) =>
      Put(s, i, if s.visitors[i].generation.childPid.Some? && s.child.Live? then Killing else Done(Handled))
    case Kill(i) => Put(Torn(s), i, Done(Handled))
    case GiveUp(i) => Put(s, i, Done(GaveUp))
    case Edit(op, minted) => s.(turn := Rewritten(op, s.turn, false, minted))
    case ChildExits => Blame(Torn(s), ChildDied)
    case OwnerDies => Blame(s.(ownerAlive := false, held := false), OwnerGone)
    case DropLedger => s.(held := false)
    case BeginShutdown => Blame(s.(shuttingDown := true), ShutDown)
    case ShutdownKills => Torn(s)
  }

  // ---------------------------------------------------------------- invariant

  /** What the runner's position says about the child and the record of its pid. */
  predicate RunnerOk(s: System) {
    && (s.runner.Early() ==> s.child.NotYet?)
    && (s.runner.Track? || s.runner.Record? ==> !s.child.NotYet?)
    && (s.runner.Early() || s.runner.Track? || s.runner.Record? ==> s.generation.childPid == None)
    && (s.runner.Recheck? || s.runner.Committed() ==> s.generation.childPid == Some(s.pid))
    && (s.runner.MarkEof? || s.runner.Close? || s.runner.Finished? ==> !s.child.Live?)
  }

  predicate VisitorOk(s: System, v: Visitor) {
    && (v.Knows() ==> s.turn.status == Interrupted)
    && (v.Looked? && v.generation.childPid == None ==> !s.runner.Committed())
    && (v == Done(Handled) && s.child.Live? ==> s.runner.Undecided())
    && (v.Probed? && v.dead ==> s.causes != {} || s.turn.IsTerminal())
  }

  predicate VisitorsOk(s: System) {
    forall i :: i in s.visitors ==> VisitorOk(s, s.visitors[i])
  }

  /** One of the runner's own causes has occurred. */
  predicate OwnFault(s: System) {
    || ShutDown in s.causes || PromptFailed in s.causes || PublishFailed in s.causes
    || RecheckFailed in s.causes || FailFailed in s.causes
  }

  /** Nothing looks dead while the turn is live unless one of the causes has occurred. */
  predicate CausesOk(s: System) {
    && (s.converged ==> s.causes != {})
    && (s.shuttingDown ==> ShutDown in s.causes)
    && (GenerationDead(s) ==> s.causes != {} || s.turn.IsTerminal())
    && ((s.runner.Track? || s.runner.Record?) && s.child.Dead? ==> s.causes != {} || s.turn.IsTerminal())
    && (s.runner.Ending() ==> OwnFault(s) || s.turn.IsTerminal())
    && (s.generation.childPid.Some? ==> !s.child.NotYet?)
  }

  predicate Inv(s: System) { RunnerOk(s) && VisitorsOk(s) && CausesOk(s) }

  /** How a step may treat the parts of the state that visitors rely on. */
  predicate Advances(s: System, s': System) {
    && (s.turn.IsTerminal() ==> s'.turn.status == s.turn.status)
    && s.causes <= s'.causes
    && (s'.child.Live? ==> s.child.Live? || s'.runner.Undecided())
    && (s'.runner.Committed() && s.turn.IsTerminal() ==> s.runner.Committed())
    && (s'.child.Live? && s.runner.Undecided() && s.turn.IsTerminal() ==> s'.runner.Undecided())
  }

  lemma VisitorAdvances(s: System, s': System, v: Visitor)
    requires VisitorOk(s, v) && Advances(s, s')
    ensures VisitorOk(s', v)
  {
  }

  /** What one step of the runner owes the rest of the system. */
  predicate RunnerKeeps(s: System, s': System) {
    Advances(s, s') && RunnerOk(s') && CausesOk(s') && s'.visitors == s.visitors
  }

  lemma CheckAdvances(s: System, ok: bool, epoch: nat, status: TurnStatus)
    requires RunnerOk(s) && CausesOk(s) && s.ownerAlive && (s.runner.Check? || s.runner.Gate?)
    ensures RunnerKeeps(s, RunnerNext(s, ok, epoch, status))
  {
  }

  lemma EarlyAdvances(s: System, ok: bool, epoch: nat, status: TurnStatus)
    requires RunnerOk(s) && CausesOk(s) && s.ownerAlive && (s.runner.Spawn? || s.runner.Track?)
    ensures RunnerKeeps(s, RunnerNext(s, ok, epoch, status))
  {
  }

  lemma LaunchingAdvances(s: System, ok: bool, epoch: nat, status: TurnStatus)
    requires RunnerOk(s) && CausesOk(s) && s.ownerAlive && (s.runner.Record? || s.runner.Recheck?)
    ensures RunnerKeeps(s, RunnerNext(s, ok, epoch, status))
  {
  }

  lemma DrivingAdvances(s: System, ok: bool, epoch: nat, status: TurnStatus)
    requires RunnerOk(s) && CausesOk(s) && s.ownerAlive && s.runner.Drive?
    ensures RunnerKeeps(s, RunnerNext(s, ok, epoch, status))
  {
  }

  lemma PublishingAdvances(s: System, ok: bool, epoch: nat, status: TurnStatus)
    requires RunnerOk(s) && CausesOk(s) && s.ownerAlive && status.IsTerminal() && s.runner.PublishStop?
    ensures RunnerKeeps(s, RunnerNext(s, ok, epoch, status))
  {
  }

  lemma EndingAdvances(s: System, ok: bool, epoch: nat, status: TurnStatus)
    requires RunnerOk(s) && CausesOk(s) && s.ownerAlive && status.IsTerminal()
    requires s.runner.Reap? || s.runner.MarkEof? || s.runner.Close?
    ensures RunnerKeeps(s, RunnerNext(s, ok, epoch, status))
  {
  }

  lemma LeavingAdvances(s: System, ok: bool, epoch: nat, status: TurnStatus)
    requires RunnerOk(s) && CausesOk(s) && s.ownerAlive
    requires s.runner.FailAdmitted? || s.runner.Leave?
    ensures RunnerKeeps(s, RunnerNext(s, ok, epoch, status))
  {
  }

  lemma RunnerAdvances(s: System, ok: bool, epoch: nat, status: TurnStatus)
    requires RunnerOk(s) && CausesOk(s) && !s.runner.Finished? && status.IsTerminal() && s.ownerAlive
    ensures RunnerKeeps(s, RunnerNext(s, ok, epoch, status))
  {
    if s.runner.FailAdmitted? || s.runner.Leave? {
      LeavingAdvances(s, ok, epoch, status);
    } else if s.runner.PublishStop? {
      PublishingAdvances(s, ok, epoch, status);
    } else if s.runner.Drive? {
      DrivingAdvances(s, ok, epoch, status);
    } else if s.runner.Reap? || s.runner.MarkEof? || s.runner.Close? {
      EndingAdvances(s, ok, epoch, status);
    } else if s.runner.Record? || s.runner.Recheck? {
      LaunchingAdvances(s, ok, epoch, status);
    } else if s.runner.Spawn? || s.runner.Track? {
      EarlyAdvances(s, ok, epoch, status);
    } else {
      CheckAdvances(s, ok, epoch, status);
    }
  }

  /** Only the listed visitor changed its place. */
  predicate Moved(s: System, s': System, i: nat) {
    && i in s'.visitors
    && s'.visitors == s.visitors[i := s'.visitors[i]]
  }

  lemma OneMoves(s: System, s': System, i: nat)
    requires VisitorsOk(s) && Advances(s, s') && Moved(s, s', i) && VisitorOk(s', s'.visitors[i])
    ensures VisitorsOk(s')
  {
    forall j | j in s'.visitors ensures VisitorOk(s', s'.visitors[j]) {
      if j != i { VisitorAdvances(s, s', s.visitors[j]); }
    }
  }

  lemma NoneMoves(s: System, s': System)
    requires VisitorsOk(s) && Advances(s, s') && s'.visitors == s.visitors
    ensures VisitorsOk(s')
  {
    forall j | j in s'.visitors ensures VisitorOk(s', s'.visitors[j]) {
      VisitorAdvances(s, s', s.visitors[j]);
    }
  }

  lemma VisitorStep(s: System, act: Action, i: nat)
    requires Inv(s) && Enabled(s, act)
    requires act.Look? || act.Act? || act.Kill? || act.GiveUp?
    requires act.i == i
    ensures Inv(Next(s, act)) && Advances(s, Next(s, act))
  {
    var s' := Next(s, act);
    assert VisitorOk(s, s.visitors[i]);
    OneMoves(s, s', i);
  }

  lemma CommitKeepsInv(s: System, i: nat)
    requires Inv(s) && Enabled(s, Commit(i))
    ensures Inv(Next(s, Commit(i))) && Advances(s, Next(s, Commit(i)))
  {
    var s' := Next(s, Commit(i));
    assert VisitorOk(s, s.visitors[i]);
    OneMoves(s, s', i);
  }

  lemma EditAdvances(s: System, op: TurnOp, minted: string)
    requires op.Park? || op.Respond? || op.Clear? || op.Upsert?
    ensures Rewritten(op, s.turn, false, minted).status == s.turn.status
  {
  }

  lemma NextKeepsInv(s: System, act: Action)
    requires Inv(s) && Enabled(s, act)
    ensures Inv(Next(s, act)) && Advances(s, Next(s, act))
  {
    var s' := Next(s, act);
    match act
    case Run(ok, epoch, status) => RunnerAdvances(s, ok, epoch, status); NoneMoves(s, s');
    case Visit(i, cancels, dead) => OneMoves(s, s', i);
    case Commit(i) => CommitKeepsInv(s, i);
    case Look(i) => VisitorStep(s, act, i);
    case Act(i) => VisitorStep(s, act, i);
    case Kill(i) => VisitorStep(s, act, i);
    case GiveUp(i) => VisitorStep(s, act, i);
    case Edit(op, minted) => EditAdvances(s, op, minted); NoneMoves(s, s');
    case ChildExits => NoneMoves(s, s');
    case OwnerDies => NoneMoves(s, s');
    case DropLedger => NoneMoves(s, s');
    case BeginShutdown => NoneMoves(s, s');
    case ShutdownKills => NoneMoves(s, s');
  }

  // ---------------------------------------------------------------- whole runs

  predicate Follows(s: System, act: Action, s': System) { Enabled(s, act) && s' == Next(s, act) }

  ghost predicate IsRun(states: seq<System>, acts: seq<Action>) {
    Steps(states, acts, Follows) && Initial(states[0])
  }

  lemma {:induction false} RunInv(states: seq<System>, acts: seq<Action>, k: nat)
    requires IsRun(states, acts) && k < |states|
    ensures Inv(states[k])
  {
    if k > 0 {
      RunInv(states, acts, k - 1);
      assert Enabled(states[k - 1], acts[k - 1]);
      NextKeepsInv(states[k - 1], acts[k - 1]);
    }
  }

  /** Once a cancel that made or found the turn `interrupted` has returned, a live child is one whose
      runner has not yet decided to keep it; in particular a runner that talks to its child, or has
      finished, has no live child left. */
  lemma CancelLeavesNoChild(states: seq<System>, acts: seq<Action>, k: nat, i: nat)
    requires IsRun(states, acts) && k < |states|
    requires i in states[k].visitors && states[k].visitors[i] == Done(Handled)
    ensures states[k].turn.status == Interrupted
    ensures states[k].child.Live? ==> states[k].runner.Undecided()
    ensures states[k].runner.Committed() || states[k].runner.Finished? ==> !states[k].child.Live?
  {
    RunInv(states, acts, k);
    assert VisitorOk(states[k], states[k].visitors[i]);
  }

  /** How many of its own steps an undecided runner of a terminal turn may still take before its child is gone. */
  function StepsToReap(r: Runner): nat {
    match r
    case Track => 5
    case Record => 4
    case Recheck => 2
    case FailAdmitted => 2
    case Leave => 1
    case Reap(_) => 1
    case _ => 0
  }

  /** Such a runner reaches its teardown by its own steps alone: each one lowers the count and
      none of them waits for the child. */
  lemma UndecidedRunnerReaps(s: System, ok: bool, epoch: nat, status: TurnStatus)
    requires Inv(s) && s.turn.IsTerminal() && s.ownerAlive && status.IsTerminal()
    requires s.child.Live? && s.runner.Undecided()
    ensures var s' := RunnerNext(s, ok, epoch, status);
            && StepsToReap(s'.runner) < StepsToReap(s.runner)
            && (s'.child.Live? ==> s'.runner.Undecided() && StepsToReap(s'.runner) > 0)
  {
  }

  /** A visitor never takes the turn back: what it knows stays true for the rest of the run. */
  lemma {:induction false} InterruptedStays(states: seq<System>, acts: seq<Action>, j: nat, k: nat)
    requires IsRun(states, acts) && j <= k < |states|
    requires states[j].turn.IsTerminal()
    ensures states[k].turn.status == states[j].turn.status
    decreases k
  {
    if j < k {
      InterruptedStays(states, acts, j, k - 1);
      RunInv(states, acts, k - 1);
      assert Enabled(states[k - 1], acts[k - 1]);
      NextKeepsInv(states[k - 1], acts[k - 1]);
    }
  }

  // ---------------------------------------------------------------- what can precede `worker_gone`

  /** The step brings about this cause. */
  predicate Brings(s: System, act: Action, c: Cause) {
    match c
    case ChildDied => act.ChildExits?
    case OwnerGone => act.OwnerDies?
    case ShutDown => act.BeginShutdown?
    case PromptFailed => act.Run? && !act.ok && s.runner.Drive?
    case PublishFailed => act.Run? && !act.ok && s.runner.PublishStop?
    case RecheckFailed => act.Run? && !act.ok && s.runner.Recheck?
    case FailFailed => act.Run? && !act.ok && s.runner.FailAdmitted?
  }

  lemma CauseStep(s: System, act: Action, c: Cause)
    requires Enabled(s, act) && c in Next(s, act).causes
    ensures c in s.causes || Brings(s, act, c)
  {
    if act.Run? { RunnerCause(s, act, c); }
  }

  /** What a failed step of the runner is blamed on. */
  function Blamed(r: Runner, ok: bool): set<Cause> {
    if ok then {}
    else match r
         case Recheck => {RecheckFailed}
         case Drive => {PromptFailed}
         case PublishStop => {PublishFailed}
         case FailAdmitted => {FailFailed}
         case _ => {}
  }

  lemma RunnerBlames(s: System, ok: bool, epoch: nat, status: TurnStatus)
    ensures RunnerNext(s, ok, epoch, status).causes == s.causes + Blamed(s.runner, ok)
  {
    assert s.causes + {} == s.causes;
    match s.runner
    case Recheck =>
    case Drive =>
    case PublishStop =>
    case FailAdmitted =>
    case _ => RunnerBlamesNothing(s, ok, epoch, status);
  }

  lemma RunnerBlamesNothing(s: System, ok: bool, epoch: nat, status: TurnStatus)
    requires !s.runner.Recheck? && !s.runner.Committed() && !s.runner.FailAdmitted?
    ensures RunnerNext(s, ok, epoch, status).causes == s.causes
  {
    if s.runner.Ending() { EndBlamesNothing(s, ok, epoch, status); }
  }

  lemma EndBlamesNothing(s: System, ok: bool, epoch: nat, status: TurnStatus)
    requires s.runner.Ending()
    ensures RunnerNext(s, ok, epoch, status).causes == s.causes
  {
  }

  lemma RunnerCause(s: System, act: Action, c: Cause)
    requires act.Run? && c in RunnerNext(s, act.ok, act.epoch, act.status).causes
    ensures c in s.causes || Brings(s, act, c)
  {
    RunnerBlames(s, act.ok, act.epoch, act.status);
  }

  lemma {:induction false} CauseHasStep(states: seq<System>, acts: seq<Action>, k: nat, c: Cause) returns (j: nat)
    requires IsRun(states, acts) && k < |states| && c in states[k].causes
    ensures j < k && Brings(states[j], acts[j], c)
  {
    CauseStep(states[k - 1], acts[k - 1], c);
    if c in states[k - 1].causes {
      j := CauseHasStep(states, acts, k - 1, c);
    } else {
      j := k - 1;
    }
  }

  /** `worker_gone` needs a cause: the child died by itself, the owner is gone or shutting down, the prompt failed, or
      the runner's access to the ledger failed while publishing, rechecking or giving up. */
  lemma WorkerGoneHasACause(states: seq<System>, acts: seq<Action>, k: nat) returns (j: nat, c: Cause)
    requires IsRun(states, acts) && k < |states| && states[k].converged
    ensures j < k && Brings(states[j], acts[j], c)
  {
    RunInv(states, acts, k);
    c :| c in states[k].causes;
    j := CauseHasStep(states, acts, k, c);
  }

  /** The runner publishes what its operation asks for on a turn that is still in progress: the mapped stop reason after
      the prompt and at the end, a failure when it gives up; and never on another. */
  lemma RunnerPublishes(s: System, epoch: nat, status: TurnStatus)
    requires status.IsTerminal()
    ensures var n := RunnerNext(s, true, epoch, status).turn;
            && (s.turn.status != InProgress ==> n == s.turn)
            && (s.turn.status == InProgress && (s.runner.PublishStop? || s.runner.Close?) ==> n.status == status)
            && (s.turn.status == InProgress && s.runner.FailAdmitted? ==> n.status == Failed)
            && (s.turn.status == InProgress && !s.runner.PublishStop? && !s.runner.Close? && !s.runner.FailAdmitted? ==>
                  n == s.turn)
  {
    match s.runner
    case PublishStop => PublishesOnce(s, status);
    case Close => PublishesOnce(s, status);
    case FailAdmitted => PublishesOnce(s, Failed);
    case _ => OthersLeaveTheTurn(s, true, epoch, status);
  }

  lemma PublishesOnce(s: System, status: TurnStatus)
    requires status.IsTerminal()
    ensures s.turn.status != InProgress ==> Publishes(s, status).turn == s.turn
    ensures s.turn.status == InProgress ==> Publishes(s, status).turn.status == status
  {
  }

  lemma OthersLeaveTheTurn(s: System, ok: bool, epoch: nat, status: TurnStatus)
    requires !s.runner.PublishStop? && !s.runner.Close? && !s.runner.FailAdmitted?
    ensures RunnerNext(s, ok, epoch, status).turn == s.turn
  {
    if s.runner.Ending() { EndLeavesTheTurn(s, ok, epoch, status); }
  }

  lemma EndLeavesTheTurn(s: System, ok: bool, epoch: nat, status: TurnStatus)
    requires s.runner.Ending() && !s.runner.Close?
    ensures RunnerNext(s, ok, epoch, status).turn == s.turn
  {
  }

  /** In this step the runner itself makes the generation of a live turn look dead: it tears down its recorded child,
      marks the end of file, or its ledger value is dropped after it returned. */
  predicate OwnEnd(s: System, act: Action) {
    && !s.turn.IsTerminal()
    && ((act.Run? && (s.runner.Reap? || s.runner.Leave?) && s.child.Live? && s.generation.childPid.Some?) ||
        (act.Run? && s.runner.MarkEof? && act.ok) ||
        act.DropLedger?)
  }

  /** The runner ends a live turn's generation itself only after the prompt failed, publishing failed, the recheck
      failed, giving up failed, or shutdown began; in every other run it publishes first. */
  lemma OwnEndNeedsAFault(states: seq<System>, acts: seq<Action>, k: nat) returns (j: nat, c: Cause)
    requires IsRun(states, acts) && k < |acts| && OwnEnd(states[k], acts[k])
    ensures j < k && c in OWN && Brings(states[j], acts[j], c)
  {
    RunInv(states, acts, k);
    assert Enabled(states[k], acts[k]);
    c :| c in states[k].causes && c in OWN;
    j := CauseHasStep(states, acts, k, c);
  }

  // ---------------------------------------------------------------- what is not started, and what stays

  /** The turn is over or the owner is leaving. */
  predicate CalledOff(s: System) { s.turn.status != InProgress || s.shuttingDown }

  /** There is no child, and the runner is past creating one or looks once more before it would. */
  predicate Childless(s: System) {
    && s.child.NotYet?
    && (s.runner.FailAdmitted? || s.runner.Leave? || s.runner.Finished? || (s.runner.Gate? && s.shuttingDown) ||
        (s.runner.Check? && CalledOff(s)))
  }

  lemma CalledOffStays(s: System, act: Action)
    requires Inv(s) && Enabled(s, act)
    ensures CalledOff(s) ==> CalledOff(Next(s, act))
    ensures s.shuttingDown ==> Next(s, act).shuttingDown
  {
    NextKeepsInv(s, act);
    if act.Run? { RunnerKeepsOthers(s, act.ok, act.epoch, act.status); }
  }

  predicate SameOthers(s: System, s': System) { s'.shuttingDown == s.shuttingDown && s'.visitors == s.visitors }

  /** The runner moves neither the visitors nor the shutdown flag. */
  lemma RunnerKeepsOthers(s: System, ok: bool, epoch: nat, status: TurnStatus)
    ensures SameOthers(s, RunnerNext(s, ok, epoch, status))
  {
    if s.runner.Ending() { EndKeepsOthers(s, ok, epoch, status); }
    else if s.runner.Early() || s.runner.Track? || s.runner.Record? { StartKeepsOthers(s, ok, epoch, status); }
    else { MiddleKeepsOthers(s, ok, epoch, status); }
  }

  lemma StartKeepsOthers(s: System, ok: bool, epoch: nat, status: TurnStatus)
    requires s.runner.Early() || s.runner.Track? || s.runner.Record?
    ensures SameOthers(s, RunnerNext(s, ok, epoch, status))
  {
  }

  lemma MiddleKeepsOthers(s: System, ok: bool, epoch: nat, status: TurnStatus)
    requires s.runner.Recheck? || s.runner.Committed() || s.runner.FailAdmitted?
    ensures SameOthers(s, RunnerNext(s, ok, epoch, status))
  {
  }

  lemma EndKeepsOthers(s: System, ok: bool, epoch: nat, status: TurnStatus)
    requires s.runner.Ending()
    ensures SameOthers(s, RunnerNext(s, ok, epoch, status))
  {
  }

  lemma ChildlessStays(s: System, act: Action)
    requires Inv(s) && Enabled(s, act) && Childless(s)
    ensures Childless(Next(s, act))
  {
    CalledOffStays(s, act);
    if act.Run? { ChildlessRunner(s, act.ok, act.epoch, act.status); }
  }

  lemma ChildlessRunner(s: System, ok: bool, epoch: nat, status: TurnStatus)
    requires Childless(s)
    ensures Childless(RunnerNext(s, ok, epoch, status))
  {
  }

  /** A turn that is terminal when the runner first looks, or a shutdown that has begun when it stands at the spawn
      gate, means that no child is ever created. */
  lemma {:induction false} NothingIsSpawned(states: seq<System>, acts: seq<Action>, j: nat, k: nat)
    requires IsRun(states, acts) && j <= k < |states|
    requires (states[j].runner.Check? && CalledOff(states[j])) || (states[j].runner.Gate? && states[j].shuttingDown)
    ensures states[k].child == NotYet && Childless(states[k])
    decreases k
  {
    RunInv(states, acts, j);
    if j < k {
      NothingIsSpawned(states, acts, j, k - 1);
      RunInv(states, acts, k - 1);
      assert Enabled(states[k - 1], acts[k - 1]);
      ChildlessStays(states[k - 1], acts[k - 1]);
    }
  }

  lemma UncommittedRunner(s: System, ok: bool, epoch: nat, status: TurnStatus)
    requires CalledOff(s) && !s.runner.Committed()
    ensures !RunnerNext(s, ok, epoch, status).runner.Committed()
  {
    if s.runner.Ending() { EndIsUncommitted(s, ok, epoch, status); }
  }

  lemma EndIsUncommitted(s: System, ok: bool, epoch: nat, status: TurnStatus)
    requires s.runner.Ending()
    ensures !RunnerNext(s, ok, epoch, status).runner.Committed()
  {
  }

  /** And a runner that has not begun to talk to its child when the turn is over or shutdown begins never does. */
  lemma {:induction false} NothingIsPrompted(states: seq<System>, acts: seq<Action>, j: nat, k: nat)
    requires IsRun(states, acts) && j <= k < |states| && CalledOff(states[j]) && !states[j].runner.Committed()
    ensures CalledOff(states[k]) && !states[k].runner.Committed()
    decreases k
  {
    if j < k {
      NothingIsPrompted(states, acts, j, k - 1);
      RunInv(states, acts, k - 1);
      var s, act := states[k - 1], acts[k - 1];
      assert Enabled(s, act);
      CalledOffStays(s, act);
      if act.Run? { UncommittedRunner(s, act.ok, act.epoch, act.status); }
    }
  }

  predicate EofStands(s: System) { s.generation.childEof && (s.runner.Close? || s.runner.Finished?) }

  lemma EofStays(s: System, act: Action)
    requires Enabled(s, act)
    requires EofStands(s) || (act.Run? && act.ok && s.runner.MarkEof?)
    ensures EofStands(Next(s, act))
  {
  }

  /** Once the runner has marked its child's end of file the mark stays. */
  lemma {:induction false} EofIsLasting(states: seq<System>, acts: seq<Action>, j: nat, k: nat)
    requires IsRun(states, acts) && j < k < |states|
    requires acts[j].Run? && acts[j].ok && states[j].runner.MarkEof?
    ensures states[k].generation.childEof && (states[k].runner.Close? || states[k].runner.Finished?)
    decreases k
  {
    if j < k - 1 { EofIsLasting(states, acts, j, k - 1); }
    assert Enabled(states[k - 1], acts[k - 1]);
    EofStays(states[k - 1], acts[k - 1]);
  }

  predicate Cancels(v: Visitor) { v.Knows() || (v.Probed? && v.cancels) }

  lemma CancelsBack(s: System, act: Action, i: nat)
    requires Enabled(s, act) && i in Next(s, act).visitors && Cancels(Next(s, act).visitors[i])
    ensures (i in s.visitors && Cancels(s.visitors[i])) || (act.Visit? && act.i == i && act.cancels)
  {
    if act.Run? { RunnerKeepsOthers(s, act.ok, act.epoch, act.status); }
  }

  /** Only a canceller goes after the child: an observer never does. */
  lemma {:induction false} OnlyCancellersKill(states: seq<System>, acts: seq<Action>, k: nat, i: nat) returns (j: nat)
    requires IsRun(states, acts) && k < |states| && i in states[k].visitors && Cancels(states[k].visitors[i])
    ensures j < k && acts[j].Visit? && acts[j].i == i && acts[j].cancels
    decreases k
  {
    var s, act := states[k - 1], acts[k - 1];
    assert Enabled(s, act);
    CancelsBack(s, act, i);
    if i in s.visitors && Cancels(s.visitors[i]) {
      j := OnlyCancellersKill(states, acts, k - 1, i);
    } else {
      j := k - 1;
    }
  }

  /** And a canceller that interrupts the turn, or finds it interrupted, does go: by its own steps a recorded child is
      dead. */
  lemma CancellerKills(s: System, i: nat)
    requires Inv(s) && i in s.visitors && s.visitors[i].Probed? && s.visitors[i].cancels
    requires s.turn.status == Interrupted || (s.turn.status == InProgress && !s.visitors[i].dead)
    ensures var s1 := Next(s, Commit(i));
            && s1.turn.status == Interrupted && Enabled(s1, Look(i))
            && var s2 := Next(s1, Look(i));
               && Enabled(s2, Act(i))
               && var s3 := Next(s2, Act(i));
                  if s.generation.childPid.Some? && s.child.Live?
                  then Enabled(s3, Kill(i)) && Next(s3, Kill(i)).child == Dead
                  else s3.visitors[i] == Done(Handled) && s3.child == s.child
  {
    InterruptedByCommit(s, i);
  }

  lemma InterruptedByCommit(s: System, i: nat)
    requires i in s.visitors && s.visitors[i].Probed? && s.visitors[i].cancels
    requires s.turn.status == Interrupted || (s.turn.status == InProgress && !s.visitors[i].dead)
    ensures var s1 := Next(s, Commit(i));
            && s1.turn.status == Interrupted && s1.visitors == s.visitors[i := Saw]
            && s1.generation == s.generation && s1.child == s.child
  {
  }
}
