/** What the interleaved ledger guarantees over whole runs. */
module ProtocolTheorems {
  import opened Records
  import opened Disk
  import opened Protocol
  import opened ProtocolInvariant
  import opened ProtocolLocks
  import opened Traces

  predicate Follows(s: System, act: Action, s': System) { Enabled(s, act) && s' == Next(s, act) }

  /** A run from the empty home: any actors, any interleaving, any errors and crashes. */
  ghost predicate Run(states: seq<System>, acts: seq<Action>) {
    Steps(states, acts, Follows) && Initial(states[0])
  }

  lemma InitialInv(s: System)
    requires Initial(s)
    ensures ProtocolLocks.Inv(s)
  {
    assert HeldAll(s.running) == map[];
  }

  lemma {:induction false} RunInv(states: seq<System>, acts: seq<Action>, i: nat)
    requires Run(states, acts) && i <= |acts|
    ensures ProtocolLocks.Inv(states[i])
  {
    if i == 0 { InitialInv(states[0]); }
    else {
      RunInv(states, acts, i - 1);
      NextKeepsInv(states[i - 1], acts[i - 1]);
    }
  }

  // ---------------------------------------------------------------- no lost updates

  ghost function OpAt(s: System, act: Action): AtomicOp {
    match act
    case Go(a, ch) =>
      if a in s.running && s.running[a].On? then
        AtomicOf(s.disk, s.running[a].point, Step(s, a, s.running[a].point, ch).write)
      else Stutter
    case Crash(proc) => ProcessDies(proc)
    case DropLedger(proc, ledger) => LedgerDropped(proc, ledger)
    case _ => Stutter
  }

  lemma FaithfulIsAtomic(s: System, a: Actor, p: Point, w: Write)
    requires LocksOk(s) && a in s.running && s.running[a] == On(p) && Faithful(s, a, p, w)
    ensures var op := AtomicOf(s.disk, p, w);
            && Legal(s.disk, op) && Store(s.disk, w) == Apply(s.disk, op)
            && forall l :: l in Guards(s.disk, op) ==> l in s.locks && s.locks[l] == a
  {
    forall l | l in Guards(s.disk, AtomicOf(s.disk, p, w)) ensures l in s.locks && s.locks[l] == a {
      assert l in HeldAll(s.running)[a];
    }
  }

  lemma PointStepIsAtomic(s: System, a: Actor, p: Point, ch: Choice)
    requires ProtocolLocks.Inv(s) && a in s.running && s.running[a] == On(p) && Ready(s, a, On(p), ch)
    ensures var op := AtomicOf(s.disk, p, Step(s, a, p, ch).write);
            && Legal(s.disk, op) && Store(s.disk, Step(s, a, p, ch).write) == Apply(s.disk, op)
            && forall l :: l in Guards(s.disk, op) ==> l in s.locks && s.locks[l] == a
  {
    assert PlaceOk(s.disk, a, s.running[a]);
    StepFaithful(s, a, p, ch);
    FaithfulIsAtomic(s, a, p, Step(s, a, p, ch).write);
  }

  /** Every step of every run changes the disk exactly as one legal atomic operation on the values committed
      just before it, and the acting actor holds the locks of the record it changes. */
  lemma EveryStepIsAtomic(states: seq<System>, acts: seq<Action>, i: nat)
    requires Run(states, acts) && i < |acts|
    ensures var op := OpAt(states[i], acts[i]);
            && Legal(states[i].disk, op)
            && states[i + 1].disk == Apply(states[i].disk, op)
            && (acts[i].Go? ==> forall l :: l in Guards(states[i].disk, op) ==>
                                  l in states[i].locks && states[i].locks[l] == acts[i].a)
  {
    RunInv(states, acts, i);
    var s, act := states[i], acts[i];
    if act.Go? && s.running[act.a].On? { PointStepIsAtomic(s, act.a, s.running[act.a].point, act.choice); }
  }

  lemma StepGrows(states: seq<System>, acts: seq<Action>, i: nat)
    requires Run(states, acts) && i < |acts|
    ensures Grows(states[i].disk, states[i + 1].disk)
  {
    RunInv(states, acts, i);
    EveryStepIsAtomic(states, acts, i);
    ApplyGrows(states[i].disk, OpAt(states[i], acts[i]));
  }

  lemma {:induction false} HistoryGrows(states: seq<System>, acts: seq<Action>, i: nat, j: nat)
    requires Run(states, acts) && i <= j <= |acts|
    ensures Grows(states[i].disk, states[j].disk)
  {
    if i == j {
      GrowsReflexive(states[i].disk);
    } else {
      HistoryGrows(states, acts, i, j - 1);
      StepGrows(states, acts, j - 1);
      GrowsTransitive(states[i].disk, states[j - 1].disk, states[j].disk);
    }
  }

  // ---------------------------------------------------------------- one live turn

  /** At most one live turn per thread and per non-empty client key, at every moment of every run. */
  lemma LiveTurnsAreUnique(states: seq<System>, acts: seq<Action>, i: nat, t: string, u: string)
    requires Run(states, acts) && i <= |acts|
    requires var d := states[i].disk;
             && t in d.turns && u in d.turns && !d.turns[t].IsTerminal() && !d.turns[u].IsTerminal()
             && (d.turns[t].threadId == d.turns[u].threadId ||
                 (d.turns[t].clientRequestId == d.turns[u].clientRequestId != []))
    ensures t == u
  {
    RunInv(states, acts, i);
  }

  /** The thread pointer is only a hint. Whatever it holds, an admission that goes on to create a turn has found
      every turn of the thread terminal, and one that reports a busy thread names its one live turn. */
  lemma PointerIsOnlyAHint(states: seq<System>, acts: seq<Action>, i: nat, a: Actor, q: WritePoint)
    requires Run(states, acts) && i <= |acts|
    requires a in states[i].running && states[i].running[a] == On(InWrite(q))
    ensures q.WriteGeneration? || q.WriteTurn? ==> ThreadIdle(states[i].disk, q.spec.threadId)
    ensures q.LeaveThread? && q.result.Busy? ==>
              var d := states[i].disk;
              && q.result.turn.id in d.turns && d.turns[q.result.turn.id] == q.result.turn
              && q.result.turn.threadId == q.th && !q.result.turn.IsTerminal()
              && forall u :: u in d.turns && d.turns[u].threadId == q.th && !d.turns[u].IsTerminal() ==>
                               u == q.result.turn.id
  {
    RunInv(states, acts, i);
    assert PlaceOk(states[i].disk, a, states[i].running[a]);
  }

  /** The client index is only a hint. Whatever its file holds, an admission past its key check has found every
      turn with its key terminal. */
  lemma IndexIsOnlyAHint(states: seq<System>, acts: seq<Action>, i: nat, a: Actor, q: ScanPoint)
    requires Run(states, acts) && i <= |acts|
    requires a in states[i].running && states[i].running[a] == On(InScan(q))
    requires !q.WantAdmit? && !q.LookupKey? && !q.ListKey? && !q.ScanKey?
    ensures KeyIdle(states[i].disk, q.spec.clientRequestId)
  {
    RunInv(states, acts, i);
    assert PlaceOk(states[i].disk, a, states[i].running[a]);
  }

  /** An admission that deduplicates hands out a turn that is live on disk at that step and carries the key. */
  lemma DeduplicatedTurnIsLive(
      states: seq<System>, acts: seq<Action>, i: nat, a: Actor, ch: Choice, q: EndPoint, w: Turn)
    requires Run(states, acts) && i < |acts| && acts[i] == Go(a, ch)
    requires states[i].running[a] == On(InEnd(q))
    requires a in states[i + 1].running && states[i + 1].running[a] == On(InWrite(LeaveAdmit(Deduplicated(w))))
    ensures var d := states[i + 1].disk;
            && (q.c.KeyIndex? || q.c.KeyScan?)
            && w.id in d.turns && d.turns[w.id] == w && !w.IsTerminal()
            && w.clientRequestId == q.c.spec.clientRequestId
  {
    RunInv(states, acts, i);
    assert PlaceOk(states[i].disk, a, states[i].running[a]);
    OnlyFinishDeduplicates(states[i], a, q, ch, w);
  }

  lemma OnlyFinishDeduplicates(s: System, a: Actor, q: EndPoint, ch: Choice, w: Turn)
    requires EndPointOk(s.disk, q) && StepEnd(s, a, q, ch).next == Some(InWrite(LeaveAdmit(Deduplicated(w))))
    ensures q.Finish? && q.v == w && StepEnd(s, a, q, ch).write.NoWrite?
    ensures (q.c.KeyIndex? || q.c.KeyScan?) && !w.IsTerminal() && w.clientRequestId == q.c.spec.clientRequestId
  {
  }

  // ---------------------------------------------------------------- first terminal wins

  /** A terminal turn keeps its status, reasons and items for ever; only its pending fields may be cleared. */
  lemma FirstTerminalWins(states: seq<System>, acts: seq<Action>, i: nat, j: nat, t: string)
    requires Run(states, acts) && i <= j <= |acts|
    requires t in states[i].disk.turns && states[i].disk.turns[t].IsTerminal()
    ensures t in states[j].disk.turns && Frozen(states[i].disk.turns[t], states[j].disk.turns[t])
  {
    HistoryGrows(states, acts, i, j);
  }

  // ---------------------------------------------------------------- approvals

  ghost predicate Answers(s: System, act: Action, r: string) {
    var op := OpAt(s, act);
    op.CommitTurn? && op.op.Respond? && op.op.request == r
  }

  /** A request id receives at most one successful respond in a whole run. */
  lemma RespondAtMostOnce(states: seq<System>, acts: seq<Action>, i: nat, j: nat, r: string)
    requires Run(states, acts) && i < j < |acts|
    requires Answers(states[i], acts[i], r)
    ensures !Answers(states[j], acts[j], r)
  {
    AnswerIsKept(states, acts, i, r);
    AnswersStay(states, acts, i + 1, j, r);
    if Answers(states[j], acts[j], r) { AnsweringIsFirst(states, acts, j, r); }
  }

  lemma AnswersStay(states: seq<System>, acts: seq<Action>, i: nat, j: nat, r: string)
    requires Run(states, acts) && i <= j <= |acts| && r in states[i].disk.answers
    ensures r in states[j].disk.answers
  {
    HistoryGrows(states, acts, i, j);
  }

  lemma AnswerIsKept(states: seq<System>, acts: seq<Action>, i: nat, r: string)
    requires Run(states, acts) && i < |acts| && Answers(states[i], acts[i], r)
    ensures r in states[i + 1].disk.answers
  {
    EveryStepIsAtomic(states, acts, i);
  }

  lemma AnsweringIsFirst(states: seq<System>, acts: seq<Action>, i: nat, r: string)
    requires Run(states, acts) && i < |acts| && Answers(states[i], acts[i], r)
    ensures r !in states[i].disk.answers
  {
    RunInv(states, acts, i);
    EveryStepIsAtomic(states, acts, i);
    RespondIsFirst(states[i].disk, OpAt(states[i], acts[i]));
  }

  /** A respond can succeed only for a request that has no answer yet. */
  lemma RespondIsFirst(d: State, op: AtomicOp)
    requires ApprovalsAgree(d) && Legal(d, op) && op.CommitTurn? && op.op.Respond?
    ensures op.op.request !in d.answers
  {
    assert ApprovalOk(d, d.turns[op.id]);
  }

  lemma AnswersOnlyByRespond(d: State, op: AtomicOp, r: string)
    requires Legal(d, op) && r in Apply(d, op).answers && r !in d.answers
    ensures op.CommitTurn? && op.op.Respond? && op.op.request == r
    ensures Apply(d, op).answers[r] == op.op.decision.AsString()
  {
  }

  /** The step records this answer to this request. */
  ghost predicate AnswersWith(s: System, act: Action, r: string, answer: string) {
    Answers(s, act, r) && OpAt(s, act).op.decision.AsString() == answer
  }

  lemma AnswerStep(states: seq<System>, acts: seq<Action>, i: nat, r: string)
    requires Run(states, acts) && i < |acts| && r in states[i + 1].disk.answers
    ensures (r in states[i].disk.answers && states[i].disk.answers[r] == states[i + 1].disk.answers[r]) ||
            AnswersWith(states[i], acts[i], r, states[i + 1].disk.answers[r])
  {
    EveryStepIsAtomic(states, acts, i);
    if r in states[i].disk.answers {
      StepGrows(states, acts, i);
    } else {
      AnswersOnlyByRespond(states[i].disk, OpAt(states[i], acts[i]), r);
    }
  }

  /** What `answers` holds for a request was put there by the one respond that succeeded for it. */
  lemma {:induction false} AnswerHasSource(states: seq<System>, acts: seq<Action>, i: nat, r: string) returns (k: nat)
    requires Run(states, acts) && i <= |acts| && r in states[i].disk.answers
    ensures k < i && AnswersWith(states[k], acts[k], r, states[i].disk.answers[r])
  {
    AnswerStep(states, acts, i - 1, r);
    if AnswersWith(states[i - 1], acts[i - 1], r, states[i].disk.answers[r]) {
      k := i - 1;
    } else {
      k := AnswerHasSource(states, acts, i - 1, r);
    }
  }

  /** The actor is about to return the record `v` of its finish point. */
  predicate Returning(place: Place) { place.On? && place.point.InEnd? && place.point.end.Finish? }

  /** A waiter that sees a decision for its request sees the decision some respond recorded for that request. */
  lemma WaiterSeesRecordedDecision(states: seq<System>, acts: seq<Action>, i: nat, a: Actor) returns (k: nat)
    requires Run(states, acts) && i <= |acts| && a in states[i].running
    requires Returning(states[i].running[a]) && states[i].running[a].point.end.v.pendingDecision != ""
    ensures var v := states[i].running[a].point.end.v;
            && k < i && Answers(states[k], acts[k], v.pendingRequestId)
            && OpAt(states[k], acts[k]).op.decision.AsString() == v.pendingDecision
            && ParseApprovalDecision(v.pendingDecision) == Some(OpAt(states[k], acts[k]).op.decision)
  {
    RunInv(states, acts, i);
    var v := states[i].running[a].point.end.v;
    assert PlaceOk(states[i].disk, a, states[i].running[a]);
    assert ApprovalOk(states[i].disk, states[i].disk.turns[v.id]);
    k := AnswerHasSource(states, acts, i, v.pendingRequestId);
    ParsePrintDecision(OpAt(states[k], acts[k]).op.decision, v.pendingDecision);
  }

  // ---------------------------------------------------------------- worker_gone is never a false verdict

  /** The actor is probing this generation for this turn. */
  predicate Probing(place: Place, k: Subject, g: Generation) {
    place.On? && place.point.InProbe? && place.point.k == k && place.point.g == g
  }

  /** Step `i` is a step of this actor's probe at this stage. */
  ghost predicate AtProbe(
      states: seq<System>, acts: seq<Action>, i: nat, a: Actor, k: Subject, g: Generation, stage: ProbeStage)
    requires i < |acts| < |states|
  {
    acts[i].Go? && acts[i].a == a && a in states[i].running && states[i].running[a] == On(InProbe(k, g, stage))
  }

  /** Step `j` read this very record from disk. */
  ghost predicate ReadAt(states: seq<System>, acts: seq<Action>, j: nat, a: Actor, g: Generation)
    requires j < |acts| < |states|
  {
    && acts[j].Go? && acts[j].a == a
    && g.id in states[j].disk.generations && states[j].disk.generations[g.id] == g
  }

  /** The two stages that can find a generation dead, and what they see. */
  predicate FoundDead(s: System, g: Generation, stage: ProbeStage, probeFails: bool) {
    (stage.TryFile? && FileLooksDead(s, g, probeFails)) || (stage.LookChild? && ChildLooksDead(s, g))
  }

  /** The two stages that can find the owner alive, and what they see. */
  predicate OwnerFoundAlive(s: System, a: Actor, g: Generation, stage: ProbeStage, probeFails: bool) {
    (stage.InMine? && KeptHere(s, a, g)) || (stage.TryFile? && !FileLooksDead(s, g, probeFails))
  }

  // One step back.

  lemma WhoMoved(s: System, act: Action, a: Actor)
    requires Enabled(s, act) && a in Next(s, act).running
    ensures || (a in s.running && Next(s, act).running[a] == s.running[a])
            || (act.Go? && act.a == a && a in s.running)
            || (act.Begin? && act.a == a && Next(s, act).running[a] == Start(act.task))
            || (act.Abort? && act.a == a && a in s.running && s.running[a].On? && MayFail(s.running[a].point)
                && Placed(ErrorExit(s.running[a].point), false) == Some(Next(s, act).running[a]))
  {
  }

  /** Points that only a step of a point leads to: probing, or having judged. */
  predicate Inner(place: Place) {
    place.On? && (place.point.InProbe? || (place.point.InTurn? && place.point.turn.Judged?))
  }

  lemma OnlyStepsLeadInside(s: System, act: Action, a: Actor)
    requires Enabled(s, act) && a in Next(s, act).running && Inner(Next(s, act).running[a])
    requires a in s.running && s.running[a].Aside? ==> PlaceOk(s.disk, a, s.running[a])
    ensures a in s.running
    ensures Next(s, act).running[a] == s.running[a] || (act.Go? && act.a == a && s.running[a].On?)
  {
    WhoMoved(s, act, a);
  }

  lemma StepPlaces(s: System, a: Actor, p: Point, ch: Choice)
    requires a in s.running && s.running[a] == On(p) && Enabled(s, Go(a, ch))
    requires a in Next(s, Go(a, ch)).running && Inner(Next(s, Go(a, ch)).running[a])
    ensures Step(s, a, p, ch).next == Some(Next(s, Go(a, ch)).running[a].point)
  {
  }

  lemma OthersStayOutside(s: System, a: Actor, p: Point, ch: Choice)
    requires !p.InTurn? && !p.InProbe? && Step(s, a, p, ch).next.Some?
    requires p.InScan? || p.InEnd? || p.InWrite? || p.InField?
    ensures !Inner(On(Step(s, a, p, ch).next.value))
  {
  }

  lemma TurnStepInside(s: System, a: Actor, q: TurnPoint, ch: Choice)
    requires StepTurn(s, a, q, ch).next.Some? && Inner(On(StepTurn(s, a, q, ch).next.value))
    ensures q.GotTurn?
    ensures var n := StepTurn(s, a, q, ch).next.value;
            if n.InProbe? then
              && n.probe.ToMine? && n.k == Subject(q.t, q.op, q.c, q.th, q.v)
              && q.v.generationId in s.disk.generations && n.g == s.disk.generations[q.v.generationId]
            else !q.op.Probes() || q.v.IsTerminal()
  {
  }

  /** Where a probing actor comes from: its own probe, or its read of the generation. */
  lemma ProbeBack(s: System, act: Action, a: Actor, k: Subject, g: Generation, stage: ProbeStage)
    requires Linked(s.disk) && Enabled(s, act) && a in Next(s, act).running
    requires Next(s, act).running[a] == On(InProbe(k, g, stage))
    requires a in s.running && s.running[a].Aside? ==> PlaceOk(s.disk, a, s.running[a])
    ensures a in s.running
    ensures Probing(s.running[a], k, g) ||
            (stage.ToMine? && act.Go? && act.a == a && g.id in s.disk.generations && s.disk.generations[g.id] == g)
    ensures s.running[a] != On(InProbe(k, g, stage)) && !stage.ToMine? ==>
              && act.Go? && act.a == a && Probing(s.running[a], k, g)
              && StepProbe(s, a, k, g, s.running[a].point.probe, act.choice).next == Some(InProbe(k, g, stage))
  {
    OnlyStepsLeadInside(s, act, a);
    if Next(s, act).running[a] != s.running[a] {
      var p := s.running[a].point;
      StepPlaces(s, a, p, act.choice);
      if p.InTurn? { TurnStepInside(s, a, p.turn, act.choice); }
      else if !p.InProbe? { OthersStayOutside(s, a, p, act.choice); }
    }
  }

  function SubjectOf(q: TurnPoint): Subject
    requires q.Judged?
  {
    Subject(q.t, q.op, q.c, q.th, q.v)
  }

  /** Where a verdict that needed a probe comes from. */
  lemma VerdictBack(s: System, act: Action, a: Actor, q: TurnPoint)
    requires Enabled(s, act) && q.Judged? && q.op.Probes() && !q.v.IsTerminal()
    requires a in Next(s, act).running && Next(s, act).running[a] == On(InTurn(q))
    requires a in s.running && s.running[a].Aside? ==> PlaceOk(s.disk, a, s.running[a])
    ensures a in s.running
    ensures s.running[a] != On(InTurn(q)) ==>
              && act.Go? && act.a == a && s.running[a].On? && s.running[a].point.InProbe?
              && s.running[a].point.k == SubjectOf(q)
              && StepProbe(s, a, SubjectOf(q), s.running[a].point.g, s.running[a].point.probe, act.choice).next ==
                 Some(InTurn(q))
  {
    OnlyStepsLeadInside(s, act, a);
    if s.running[a] != On(InTurn(q)) {
      var p := s.running[a].point;
      StepPlaces(s, a, p, act.choice);
      if p.InTurn? { TurnStepInside(s, a, p.turn, act.choice); }
      else if !p.InProbe? { OthersStayOutside(s, a, p, act.choice); }
    }
  }

  // Whole traces.

  /** An actor that runs at some state has a previous state, with everything the steps back need. */
  lemma PreviousState(states: seq<System>, acts: seq<Action>, i: nat, a: Actor)
    requires Run(states, acts) && i <= |acts| && a in states[i].running
    ensures i > 0
    ensures var s := states[i - 1];
            && Enabled(s, acts[i - 1]) && states[i] == Next(s, acts[i - 1]) && Linked(s.disk)
            && (a in s.running ==> PlaceOk(s.disk, a, s.running[a]))
  {
    RunInv(states, acts, i - 1);
  }

  lemma ProbeStepBack(
      states: seq<System>, acts: seq<Action>, i: nat, a: Actor, k: Subject, g: Generation, stage: ProbeStage)
    requires Run(states, acts) && i <= |acts| && a in states[i].running
    requires states[i].running[a] == On(InProbe(k, g, stage))
    ensures i > 0 && a in states[i - 1].running
    ensures Probing(states[i - 1].running[a], k, g) || (stage.ToMine? && ReadAt(states, acts, i - 1, a, g))
    ensures states[i - 1].running[a] != On(InProbe(k, g, stage)) && !stage.ToMine? ==>
              var before := states[i - 1].running[a].point.probe;
              && AtProbe(states, acts, i - 1, a, k, g, before)
              && StepProbe(states[i - 1], a, k, g, before, acts[i - 1].choice).next == Some(InProbe(k, g, stage))
  {
    PreviousState(states, acts, i, a);
    ProbeBack(states[i - 1], acts[i - 1], a, k, g, stage);
  }

  lemma VerdictStepBack(states: seq<System>, acts: seq<Action>, i: nat, a: Actor, q: TurnPoint)
    requires Run(states, acts) && i <= |acts| && a in states[i].running && states[i].running[a] == On(InTurn(q))
    requires q.Judged? && q.op.Probes() && !q.v.IsTerminal()
    ensures i > 0 && a in states[i - 1].running
    ensures states[i - 1].running[a] != On(InTurn(q)) ==>
              && states[i - 1].running[a].On? && states[i - 1].running[a].point.InProbe?
              && var p := states[i - 1].running[a].point;
                 && AtProbe(states, acts, i - 1, a, SubjectOf(q), p.g, p.probe)
                 && StepProbe(states[i - 1], a, SubjectOf(q), p.g, p.probe, acts[i - 1].choice).next == Some(InTurn(q))
  {
    PreviousState(states, acts, i, a);
    VerdictBack(states[i - 1], acts[i - 1], a, q);
  }

  lemma {:induction false} ProbeBegan(
      states: seq<System>, acts: seq<Action>, i: nat, a: Actor, k: Subject, g: Generation) returns (j: nat)
    requires Run(states, acts) && i <= |acts| && a in states[i].running && Probing(states[i].running[a], k, g)
    ensures j < i && ReadAt(states, acts, j, a, g)
    ensures forall m :: j < m <= i ==> a in states[m].running && Probing(states[m].running[a], k, g)
    decreases i
  {
    ProbeStepBack(states, acts, i, a, k, g, states[i].running[a].point.probe);
    if Probing(states[i - 1].running[a], k, g) {
      j := ProbeBegan(states, acts, i - 1, a, k, g);
    } else {
      j := i - 1;
    }
  }

  /** The step that brought the actor to this stage of its probe. */
  lemma {:induction false} StageEntered(
      states: seq<System>, acts: seq<Action>, i: nat, a: Actor, k: Subject, g: Generation, stage: ProbeStage)
    returns (m: nat, before: ProbeStage)
    requires Run(states, acts) && i <= |acts| && a in states[i].running && !stage.ToMine?
    requires states[i].running[a] == On(InProbe(k, g, stage))
    ensures m < i && AtProbe(states, acts, m, a, k, g, before)
    ensures StepProbe(states[m], a, k, g, before, acts[m].choice).next == Some(InProbe(k, g, stage))
    ensures forall x :: m < x <= i ==> a in states[x].running && Probing(states[x].running[a], k, g)
    decreases i
  {
    ProbeStepBack(states, acts, i, a, k, g, stage);
    if states[i - 1].running[a] == On(InProbe(k, g, stage)) {
      m, before := StageEntered(states, acts, i - 1, a, k, g, stage);
    } else {
      m, before := i - 1, states[i - 1].running[a].point.probe;
    }
  }

  lemma {:induction false} VerdictReached(states: seq<System>, acts: seq<Action>, i: nat, a: Actor, q: TurnPoint)
    returns (m: nat, g: Generation, stage: ProbeStage)
    requires Run(states, acts) && i <= |acts| && a in states[i].running && states[i].running[a] == On(InTurn(q))
    requires q.Judged? && q.op.Probes() && !q.v.IsTerminal()
    ensures m < i && AtProbe(states, acts, m, a, SubjectOf(q), g, stage)
    ensures StepProbe(states[m], a, SubjectOf(q), g, stage, acts[m].choice).next == Some(InTurn(q))
    ensures forall x :: m < x <= i ==> a in states[x].running && states[x].running[a] == On(InTurn(q))
    decreases i
  {
    VerdictStepBack(states, acts, i, a, q);
    if states[i - 1].running[a] == On(InTurn(q)) {
      m, g, stage := VerdictReached(states, acts, i - 1, a, q);
    } else {
      m, g, stage := i - 1, states[i - 1].running[a].point.g, states[i - 1].running[a].point.probe;
    }
  }

  /** From its probe to its verdict the actor probes this generation for this turn, or has judged it. */
  predicate OnCase(place: Place, q: TurnPoint, g: Generation)
    requires q.Judged?
  {
    Probing(place, SubjectOf(q), g) || place == On(InTurn(q))
  }

  /** The step that decided the verdict: what it saw is exactly what the verdict says. */
  lemma VerdictDecided(states: seq<System>, acts: seq<Action>, i: nat, a: Actor, q: TurnPoint)
    returns (m: nat, g: Generation, stage: ProbeStage)
    requires Run(states, acts) && i <= |acts| && a in states[i].running && states[i].running[a] == On(InTurn(q))
    requires q.Judged? && q.op.Probes() && !q.v.IsTerminal()
    ensures m < i && AtProbe(states, acts, m, a, SubjectOf(q), g, stage) && (stage.TryFile? || stage.LookChild?)
    ensures q.dead <==> FoundDead(states[m], g, stage, acts[m].choice.probeFails)
    ensures stage.TryFile? ==> q.dead
    ensures forall x :: m < x <= i ==> a in states[x].running && OnCase(states[x].running[a], q, g)
  {
    m, g, stage := VerdictReached(states, acts, i, a, q);
    if stage.InFile? {
      var n, before := StageEntered(states, acts, m, a, SubjectOf(q), g, stage);
      forall x | n < x <= i ensures a in states[x].running && OnCase(states[x].running[a], q, g) {
        if x <= m { assert Probing(states[x].running[a], SubjectOf(q), g); }
      }
      m, stage := n, before;
    }
  }

  /** Why a generation may be called dead. */
  predicate Justified(s: System, a: Actor, g: Generation) {
    || g.ownerPid in s.crashed
    || KeeperDropped(s, g.id)
    || g.childEof
    || (g.childPid.Some? && g.childPid.value in s.gone)
    || (g.id in s.disk.holds && !s.disk.holds[g.id].locked && s.disk.holds[g.id].proc != a.proc)
  }

  /** What excuses a free live file. */
  predicate Excused(s: System, g: Generation) {
    || g.ownerPid in s.crashed
    || KeeperDropped(s, g.id)
    || (g.id in s.disk.holds && !s.disk.holds[g.id].locked)
  }

  lemma FreeFileIsExcused(s: System, a: Actor, k: Subject, g: Generation)
    requires ProtocolLocks.Inv(s) && a in s.running && s.running[a] == On(InProbe(k, g, TryFile))
    requires Available(s, LiveLock(g.id))
    ensures Excused(s, g)
  {
    assert PlaceOk(s.disk, a, s.running[a]);
    assert Guarded(s, k.t);
    assert ThreadLock(k.th) in HeldAll(s.running)[a];
  }

  /** A probe made by the protocol finds a generation dead only if its owner process crashed, or the ledger value that
      kept its live file was dropped, or its child's end of file is recorded, or its recorded child is dead, or its
      `.live` lock could not be taken at admission and the prober is another process. In particular a fresh turn
      cannot be misjudged before its hold is taken. */
  lemma DeadVerdictIsHonest(s: System, a: Actor, k: Subject, g: Generation, stage: ProbeStage, probeFails: bool)
    requires ProtocolLocks.Inv(s) && a in s.running && s.running[a] == On(InProbe(k, g, stage))
    requires FoundDead(s, g, stage, probeFails)
    ensures Justified(s, a, g) && g.id == k.v.generationId
  {
    assert PlaceOk(s.disk, a, s.running[a]);
    if stage.TryFile? && !probeFails { FreeFileIsExcused(s, a, k, g); }
  }

  /** At that stage the test of the file lock is exact: unless the test itself errs, it finds the file free if and only
      if the owner process crashed, or the ledger value that kept the file was dropped, or the file was never locked. */
  lemma FileTestIsExact(s: System, a: Actor, k: Subject, g: Generation)
    requires ProtocolLocks.Inv(s) && a in s.running && s.running[a] == On(InProbe(k, g, TryFile))
    ensures FileLooksDead(s, g, false) <==> Excused(s, g)
  {
    if FileLooksDead(s, g, false) { FreeFileIsExcused(s, a, k, g); }
    if Excused(s, g) { ExcusedFileIsFree(s, a, k, g); }
  }

  lemma ExcusedFileIsFree(s: System, a: Actor, k: Subject, g: Generation)
    requires ProtocolLocks.Inv(s) && a in s.running && s.running[a] == On(InProbe(k, g, TryFile)) && Excused(s, g)
    ensures Available(s, LiveLock(g.id))
  {
    assert PlaceOk(s.disk, a, s.running[a]);
    NobodyElseProbes(s, a, k, g);
  }

  lemma NobodyElseProbes(s: System, a: Actor, k: Subject, g: Generation)
    requires Linked(s.disk) && LocksOk(s) && PlacesOk(s)
    requires a in s.running && s.running[a] == On(InProbe(k, g, TryFile))
    ensures LiveLock(g.id) !in s.locks
  {
    if LiveLock(g.id) in s.locks {
      assert LiveLock(g.id) in HeldAll(s.running)[s.locks[LiveLock(g.id)]];
      ProbedFileHasOneUser(s, a, s.locks[LiveLock(g.id)]);
    }
  }

  /** Only the prober itself can have the live file of the turn it probes. */
  lemma ProbedFileHasOneUser(s: System, a: Actor, b: Actor)
    requires Linked(s.disk) && LocksOk(s) && PlacesOk(s)
    requires a in s.running && s.running[a].On? && s.running[a].point.InProbe?
    requires b in s.running && LiveLock(s.running[a].point.g.id) in HeldAt(b, s.running[b])
    ensures b == a
  {
    assert PlaceOk(s.disk, a, s.running[a]) && PlaceOk(s.disk, b, s.running[b]);
    var k := s.running[a].point.k;
    var t := LiveHolder(s.disk, b, s.running[b], k.v.generationId);
    OneTurnPerGeneration(s.disk, t, k.t);
    OneHolder(s, a, b, ThreadLock(k.th));
  }

  lemma CommitIsAtJudged(s: System, act: Action)
    requires Enabled(s, act) && OpAt(s, act).CommitTurn?
    ensures act.Go? && s.running[act.a].On? && s.running[act.a].point.InTurn? && s.running[act.a].point.turn.Judged?
    ensures var q := s.running[act.a].point.turn; var op := OpAt(s, act);
            op.id == q.t && op.op == q.op && op.dead == q.dead
  {
  }

  lemma OnCaseHoldsThread(a: Actor, place: Place, q: TurnPoint, g: Generation)
    requires q.Judged? && OnCase(place, q, g)
    ensures ThreadLock(q.th) in HeldAt(a, place)
  {
  }

  /** The case an actor's verdict rests on: step `j` read the generation record `g`, step `m` decided on it, and from
      the read to state `i` the actor stayed on the case under the turn's thread lock. */
  ghost predicate Case(states: seq<System>, acts: seq<Action>, j: nat, m: nat, i: nat, a: Actor, q: TurnPoint,
                       g: Generation, stage: ProbeStage)
    requires |states| == |acts| + 1 && i <= |acts| && q.Judged?
  {
    && j < m < i && ReadAt(states, acts, j, a, g) && g.id == q.v.generationId
    && AtProbe(states, acts, m, a, SubjectOf(q), g, stage) && (stage.TryFile? || stage.LookChild?)
    && forall x :: j < x <= i ==>
         && a in states[x].running && OnCase(states[x].running[a], q, g)
         && ThreadLock(q.th) in HeldAt(a, states[x].running[a])
  }

  /** What a look must have seen to find the generation dead, fact by fact: the child's end of file or a dead child;
      or, at the file, a dead owner process when the test erred, and otherwise that no ledger keeps the file locked. */
  predicate SawDead(s: System, g: Generation, stage: ProbeStage, probeFails: bool) {
    || (stage == LookChild && g.childEof)
    || (stage == LookChild && g.childPid.Some? && g.childPid.value in s.gone)
    || (stage == TryFile && probeFails && g.ownerPid in s.crashed)
    || (stage == TryFile && !probeFails && g.id !in s.disk.holds)
    || (stage == TryFile && !probeFails && g.id in s.disk.holds && !s.disk.holds[g.id].locked)
  }

  /** What a look must have seen to find the owner alive: a hold of this process, a locked hold of another, or, when the
      test of the file erred, a living owner process. */
  predicate SawOwner(s: System, a: Actor, g: Generation, stage: ProbeStage, probeFails: bool) {
    || (stage == InMine && g.id in s.disk.holds && s.disk.holds[g.id].proc == a.proc)
    || (stage == TryFile && !probeFails && g.id in s.disk.holds && s.disk.holds[g.id].locked)
    || (stage == TryFile && probeFails && g.ownerPid !in s.crashed)
  }

  lemma LookMeaning(s: System, a: Actor, k: Subject, g: Generation, stage: ProbeStage, probeFails: bool)
    requires ProtocolLocks.Inv(s) && a in s.running && s.running[a] == On(InProbe(k, g, stage))
    ensures FoundDead(s, g, stage, probeFails) <==> SawDead(s, g, stage, probeFails)
    ensures OwnerFoundAlive(s, a, g, stage, probeFails) <==> SawOwner(s, a, g, stage, probeFails)
  {
    if stage.TryFile? { NobodyElseProbes(s, a, k, g); }
  }

  /** Every verdict of every run has its case, and says exactly what the deciding step of that case saw. */
  lemma VerdictHasCase(states: seq<System>, acts: seq<Action>, i: nat, a: Actor, q: TurnPoint)
    returns (j: nat, m: nat, g: Generation, stage: ProbeStage)
    requires Run(states, acts) && i <= |acts| && a in states[i].running && states[i].running[a] == On(InTurn(q))
    requires q.Judged? && q.op.Probes() && !q.v.IsTerminal()
    ensures Case(states, acts, j, m, i, a, q, g, stage)
    ensures q.dead <==> SawDead(states[m], g, stage, acts[m].choice.probeFails)
    ensures q.dead ==> Justified(states[m], a, g)
    ensures !q.dead ==> stage.LookChild?
  {
    m, g, stage := VerdictDecided(states, acts, i, a, q);
    j := ProbeBegan(states, acts, m, a, SubjectOf(q), g);
    forall x | j < x <= i ensures a in states[x].running && OnCase(states[x].running[a], q, g)
                                  && ThreadLock(q.th) in HeldAt(a, states[x].running[a]) {
      OnCaseHoldsThread(a, states[x].running[a], q, g);
    }
    RunInv(states, acts, m);
    assert PlaceOk(states[m].disk, a, states[m].running[a]);
    LookMeaning(states[m], a, SubjectOf(q), g, stage, acts[m].choice.probeFails);
    if q.dead { DeadVerdictIsHonest(states[m], a, SubjectOf(q), g, stage, acts[m].choice.probeFails); }
  }

  /** When the child was looked at, an earlier stage of the same probe had found the owner alive. */
  lemma OwnerWasAlive(states: seq<System>, acts: seq<Action>, m: nat, a: Actor, k: Subject, g: Generation)
    returns (n: nat, stage: ProbeStage)
    requires Run(states, acts) && m < |acts| && AtProbe(states, acts, m, a, k, g, LookChild)
    ensures n < m && AtProbe(states, acts, n, a, k, g, stage)
    ensures SawOwner(states[n], a, g, stage, acts[n].choice.probeFails)
  {
    n, stage := StageEntered(states, acts, m, a, k, g, LookChild);
    RunInv(states, acts, n);
    LookMeaning(states[n], a, k, g, stage, acts[n].choice.probeFails);
  }

  lemma CommitByVerdict(op: TurnOp, v: Turn, dead: bool, minted: string)
    requires op.Probes() && Rewrite(op, v, dead, minted).Some?
    ensures !v.IsTerminal()
    ensures dead ==> Rewrite(op, v, dead, minted).value == Converged(v)
    ensures !dead ==> op.CancelTurn? && Rewrite(op, v, dead, minted).value.status == Interrupted
    ensures Converged(v).status != Interrupted
  {
  }

  /** The judged point behind a commit. */
  ghost function JudgedAt(s: System, act: Action): TurnPoint
    requires Enabled(s, act) && OpAt(s, act).CommitTurn?
    ensures JudgedAt(s, act).Judged?
  {
    CommitIsAtJudged(s, act);
    s.running[act.a].point.turn
  }

  lemma CommitOutcome(states: seq<System>, acts: seq<Action>, i: nat)
    requires Run(states, acts) && i < |acts| && OpAt(states[i], acts[i]).CommitTurn?
    requires OpAt(states[i], acts[i]).op.Probes()
    ensures var q := JudgedAt(states[i], acts[i]); var d' := states[i + 1].disk;
            && acts[i].Go? && states[i].running[acts[i].a] == On(InTurn(q)) && q.op == OpAt(states[i], acts[i]).op
            && q.t in states[i].disk.turns && states[i].disk.turns[q.t] == q.v && q.v.threadId == q.th
            && !q.v.IsTerminal() && q.t in d'.turns
            && (q.dead ==> d'.turns[q.t] == Converged(q.v))
            && (!q.dead ==> q.op.CancelTurn? && d'.turns[q.t].status == Interrupted)
  {
    CommitIsAtJudged(states[i], acts[i]);
    EveryStepIsAtomic(states, acts, i);
    RunInv(states, acts, i);
    var a, op := acts[i].a, OpAt(states[i], acts[i]);
    assert PlaceOk(states[i].disk, a, states[i].running[a]);
    CommitByVerdict(op.op, states[i].disk.turns[op.id], op.dead, op.minted);
  }

  /** In every run: a turn converges to failed/worker_gone only on a case of its observer, read from disk and decided
      under the turn's thread lock, whose deciding step found the generation dead, and was justified in that. */
  lemma ConvergenceIsJustified(states: seq<System>, acts: seq<Action>, i: nat)
    returns (j: nat, m: nat, g: Generation, stage: ProbeStage)
    requires Run(states, acts) && i < |acts|
    requires OpAt(states[i], acts[i]).CommitTurn? && OpAt(states[i], acts[i]).op.Probes()
    requires var t := OpAt(states[i], acts[i]).id;
             t in states[i + 1].disk.turns && states[i + 1].disk.turns[t].failureReason == "worker_gone"
    ensures Case(states, acts, j, m, i, acts[i].a, JudgedAt(states[i], acts[i]), g, stage)
    ensures SawDead(states[m], g, stage, acts[m].choice.probeFails)
    ensures Justified(states[m], acts[i].a, g)
  {
    CommitOutcome(states, acts, i);
    var q := JudgedAt(states[i], acts[i]);
    CommitIsAtJudged(states[i], acts[i]);
    j, m, g, stage := VerdictHasCase(states, acts, i, acts[i].a, q);
    if !q.dead { InterruptedHasNoReason(states, acts, i); }
  }

  lemma InterruptedHasNoReason(states: seq<System>, acts: seq<Action>, i: nat)
    requires Run(states, acts) && i < |acts| && OpAt(states[i], acts[i]).CommitTurn?
    requires OpAt(states[i], acts[i]).op.Probes() && !OpAt(states[i], acts[i]).dead
    ensures var t := OpAt(states[i], acts[i]).id;
            t in states[i + 1].disk.turns && states[i + 1].disk.turns[t].failureReason != "worker_gone"
  {
    EveryStepIsAtomic(states, acts, i);
  }

  /** A cancel does what its own probe found: it converges the turn when the deciding step found the generation dead,
      and interrupts it only when that step, and an earlier look at the owner, found everything alive. */
  lemma CancelOfDeadIsNotInterrupted(states: seq<System>, acts: seq<Action>, i: nat)
    returns (j: nat, m: nat, g: Generation, stage: ProbeStage, n: nat, ownerStage: ProbeStage)
    requires Run(states, acts) && i < |acts|
    requires OpAt(states[i], acts[i]).CommitTurn? && OpAt(states[i], acts[i]).op.CancelTurn?
    ensures var q := JudgedAt(states[i], acts[i]); var d' := states[i + 1].disk; var a := acts[i].a;
            && Case(states, acts, j, m, i, a, q, g, stage) && q.t in d'.turns
            && var dead := SawDead(states[m], g, stage, acts[m].choice.probeFails);
               && (dead <==> d'.turns[q.t].status == Failed && d'.turns[q.t].failureReason == "worker_gone")
               && (!dead <==> d'.turns[q.t].status == Interrupted)
               && (!dead ==>
                     && stage == LookChild && !g.childEof && (g.childPid.Some? ==> g.childPid.value !in states[m].gone)
                     && n < m && AtProbe(states, acts, n, a, SubjectOf(q), g, ownerStage)
                     && SawOwner(states[n], a, g, ownerStage, acts[n].choice.probeFails))
  {
    CommitOutcome(states, acts, i);
    var q := JudgedAt(states[i], acts[i]);
    CommitIsAtJudged(states[i], acts[i]);
    j, m, g, stage := VerdictHasCase(states, acts, i, acts[i].a, q);
    n, ownerStage := 0, stage;
    if !q.dead { n, ownerStage := OwnerWasAlive(states, acts, m, acts[i].a, SubjectOf(q), g); }
  }

  // ---------------------------------------------------------------- deadlock freedom

  function Rank(l: Lock): nat {
    match l
    case AdmitLock => 0
    case ThreadLock(_) => 1
    case GenerationLock(_) => 2
    case LiveLock(_) => 3
    case TableLock(_, _) => 4
    case ProcessLock(_) => 5
    case PairLock(_) => 6
  }

  /** Every held lock ranks below `top`, and no two held locks share a rank. */
  ghost predicate Rising(held: set<Lock>, top: nat) {
    && (forall l :: l in held ==> Rank(l) < top)
    && (forall x, y :: x in held && y in held && Rank(x) == Rank(y) ==> x == y)
  }

  /** How far up the ranks an actor's request is; an actor without one is at the top. */
  function Height(want: Option<Lock>): nat {
    if want.Some? then Rank(want.value) else 7
  }

  lemma TurnRises(d: State, a: Actor, q: TurnPoint)
    requires TurnPointOk(d, q)
    ensures Rising(HeldInTurn(q), Height(Wants(a, InTurn(q))))
  {
  }

  lemma ProbeRises(d: State, a: Actor, k: Subject, g: Generation, probe: ProbeStage)
    requires ProbeOk(d, a, k, g, probe)
    ensures Rising(HeldInProbe(a, k, g, probe), Height(Wants(a, InProbe(k, g, probe))))
  {
  }

  lemma EndRises(d: State, a: Actor, q: EndPoint)
    requires EndPointOk(d, q)
    ensures Rising(HeldInEnd(a, q), Height(Wants(a, InEnd(q))))
  {
  }

  lemma WriteRises(d: State, a: Actor, q: WritePoint)
    ensures Rising(HeldInWrite(a, q), Height(Wants(a, InWrite(q))))
  {
  }

  lemma PointRises(d: State, a: Actor, p: Point)
    requires PointOk(d, a, p)
    ensures Rising(Held(a, p), Height(Wants(a, p)))
  {
    match p
    case InTurn(q) => TurnRises(d, a, q);
    case InProbe(k, g, probe) => ProbeRises(d, a, k, g, probe);
    case InEnd(q) => EndRises(d, a, q);
    case InScan(q) =>
    case InWrite(q) => WriteRises(d, a, q);
    case InField(q) =>
  }

  lemma ResumableIsLow(d: State, a: Actor, p: Point)
    requires Resumable(p) && PointOk(d, a, p)
    ensures Rising(Held(a, p), 3)
  {
  }

  lemma AsideRises(a: Actor, back: set<Lock>, stage: Stage)
    requires Rising(back, 3)
    ensures Rising(back + HeldAside(a, stage), Height(WantsAside(a, stage)))
  {
  }

  /** File locks and mutexes are requested in strictly rising rank, and no two of one rank are ever held together:
      in particular no two thread locks, and nothing already held. */
  lemma LocksRise(d: State, a: Actor, place: Place)
    requires PlaceOk(d, a, place)
    ensures Rising(HeldAt(a, place), Height(WantsAt(a, place)))
  {
    match place
    case On(p) => PointRises(d, a, p);
    case Aside(stage, back) =>
      if back.Some? { ResumableIsLow(d, a, back.value); }
      AsideRises(a, HeldBack(a, back), stage);
  }

  /** Whoever holds a live file without keeping it works on that turn under its thread lock. */
  lemma LiveHolder(d: State, b: Actor, place: Place, g: string) returns (t: string)
    requires PlaceOk(d, b, place) && LiveLock(g) in HeldAt(b, place)
    ensures t in d.turns && d.turns[t].generationId == g && ThreadLock(d.turns[t].threadId) in HeldAt(b, place)
  {
    t := if place.point.InProbe? then place.point.k.t else place.point.write.n.id;
  }

  /** Only the admission that opens a live file can have it locked. */
  lemma NewFileHasOneUser(s: System, a: Actor, q: WritePoint, b: Actor)
    requires Linked(s.disk) && LocksOk(s) && PlacesOk(s)
    requires a in s.running && s.running[a] == On(InWrite(q)) && q.Open?
    requires b in s.running && LiveLock(q.n.generationId) in HeldAt(b, s.running[b])
    ensures b == a
  {
    assert PlaceOk(s.disk, a, s.running[a]) && PlaceOk(s.disk, b, s.running[b]);
    var t := LiveHolder(s.disk, b, s.running[b], q.n.generationId);
    OneTurnPerGeneration(s.disk, t, q.n.id);
    OneHolder(s, a, b, ThreadLock(q.spec.threadId));
  }

  lemma OneTurnPerGeneration(d: State, t: string, u: string)
    requires Linked(d) && t in d.turns && u in d.turns && d.turns[t].generationId == d.turns[u].generationId
    ensures t == u
  {
  }

  lemma OneHolder(s: System, a: Actor, b: Actor, l: Lock)
    requires LocksOk(s) && a in s.running && b in s.running
    requires l in HeldAt(a, s.running[a]) && l in HeldAt(b, s.running[b])
    ensures a == b
  {
    assert l in HeldAll(s.running)[a] && l in HeldAll(s.running)[b];
    assert s.locks[l] == a && s.locks[l] == b;
  }

  /** The blocking request for a new live file never blocks. */
  lemma OpeningNeverBlocks(s: System, a: Actor, q: WritePoint)
    requires Linked(s.disk) && LocksOk(s) && PlacesOk(s)
    requires a in s.running && s.running[a] == On(InWrite(q)) && q.Open? && q.open.ToFile?
    ensures Available(s, LiveLock(q.n.generationId))
  {
    assert PlaceOk(s.disk, a, s.running[a]);
    var l := LiveLock(q.n.generationId);
    if l in s.locks {
      assert l in HeldAll(s.running)[s.locks[l]];
      NewFileHasOneUser(s, a, q, s.locks[l]);
    }
  }

  ghost predicate Waits(s: System, a: Actor, b: Actor)
    requires a in s.running
  {
    var w := WantsAt(a, s.running[a]);
    w.Some? && w.value in s.locks && s.locks[w.value] == b
  }

  /** What a blocked actor waits for is held by a running actor. */
  lemma BlockedHasHolder(s: System, a: Actor)
    requires ProtocolLocks.Inv(s) && a in s.running && !FreeToTake(s, a, s.running[a])
    ensures var l := WantsAt(a, s.running[a]).value; l in s.locks && s.locks[l] in s.running && Waits(s, a, s.locks[l])
  {
    if WantsAt(a, s.running[a]).value.LiveLock? { OpeningNeverBlocks(s, a, s.running[a].point.write); }
  }

  /** Each actor of the chain waits for a lock that the next one holds. */
  ghost predicate WaitChain(s: System, chain: seq<Actor>) {
    && |chain| > 0
    && (forall i :: 0 <= i < |chain| ==> chain[i] in s.running)
    && (forall i, j :: 0 <= i < j < |chain| && j == i + 1 ==> Waits(s, chain[i], chain[j]))
  }

  function HeightIn(s: System, a: Actor): nat
    requires a in s.running
  {
    Height(WantsAt(a, s.running[a]))
  }

  /** Whoever holds what another waits for waits for something higher, if at all. */
  lemma HeightsRise(s: System, a: Actor, b: Actor)
    requires LocksOk(s) && PlacesOk(s) && a in s.running && b in s.running && Waits(s, a, b)
    ensures HeightIn(s, a) < HeightIn(s, b)
  {
    assert WantsAt(a, s.running[a]).value in HeldAll(s.running)[b];
    LocksRise(s.disk, b, s.running[b]);
  }

  lemma {:induction false} Increasing(h: seq<nat>, i: nat, j: nat)
    requires forall x, y :: 0 <= x < y < |h| && y == x + 1 ==> h[x] < h[y]
    requires i < j < |h|
    ensures h[i] < h[j]
    decreases j
  {
    assert h[j - 1] < h[j];
    if i < j - 1 { Increasing(h, i, j - 1); }
  }

  lemma ChainRises(s: System, chain: seq<Actor>, i: nat, j: nat)
    requires LocksOk(s) && PlacesOk(s) && WaitChain(s, chain) && i < j < |chain|
    ensures HeightIn(s, chain[i]) < HeightIn(s, chain[j])
  {
    var h: seq<nat> := seq(|chain|, x requires 0 <= x < |chain| => HeightIn(s, chain[x]));
    forall x, y | 0 <= x < y < |h| && y == x + 1 ensures h[x] < h[y] {
      assert Waits(s, chain[x], chain[y]);
      HeightsRise(s, chain[x], chain[y]);
    }
    Increasing(h, i, j);
  }

  /** No chain of waiting actors, however long, ever closes. */
  lemma NoWaitCycle(states: seq<System>, acts: seq<Action>, i: nat, chain: seq<Actor>, x: nat, y: nat)
    requires Run(states, acts) && i <= |acts| && WaitChain(states[i], chain) && x < y < |chain|
    ensures chain[x] != chain[y]
  {
    RunInv(states, acts, i);
    ChainRises(states[i], chain, x, y);
  }

  lemma {:induction false} ChainFrom(s: System, a: Actor) returns (chain: seq<Actor>)
    requires ProtocolLocks.Inv(s) && a in s.running
    ensures WaitChain(s, chain) && chain[0] == a
    ensures var b := chain[|chain| - 1]; FreeToTake(s, b, s.running[b])
    decreases 7 - HeightIn(s, a)
  {
    if FreeToTake(s, a, s.running[a]) {
      chain := [a];
    } else {
      BlockedHasHolder(s, a);
      var b := s.locks[WantsAt(a, s.running[a]).value];
      HeightsRise(s, a, b);
      var rest := ChainFrom(s, b);
      chain := [a] + rest;
      forall i, j | 0 <= i < j < |chain| && j == i + 1 ensures Waits(s, chain[i], chain[j]) {
        if i > 0 { assert Waits(s, rest[i - 1], rest[j - 1]); }
      }
    }
  }

  ghost function Longest(ids: set<string>): (n: nat)
    ensures forall x :: x in ids ==> |x| <= n
  {
    if ids == {} then 0
    else
      var x :| x in ids;
      var n := Longest(ids - {x});
      assert forall y :: y in ids ==> y == x || y in ids - {x};
      if |x| > n then |x| else n
  }

  ghost function FreshId(ids: set<string>): (x: string)
    ensures x !in ids && x != ""
  {
    var x := seq(Longest(ids) + 1, i => 'x');
    assert |x| > Longest(ids);
    x
  }

  /** An actor that is not blocked on a lock can always step. */
  lemma UnblockedCanStep(s: System, a: Actor) returns (ch: Choice)
    requires a in s.running && FreeToTake(s, a, s.running[a])
    ensures Enabled(s, Go(a, ch))
  {
    var pick := "";
    if s.running[a].On? && s.running[a].point.InScan? {
      var q := s.running[a].point.scan;
      if (q.ScanKey? || q.ScanThread?) && q.rest != {} { pick :| pick in q.rest; }
    }
    ch := Choice(true, false, 0, None, pick, None,
                 FreshId(s.disk.threads.Keys), FreshId(s.disk.generations.Keys),
                 FreshId(s.disk.turns.Keys), FreshId(s.disk.issued));
    if s.running[a].On? {
      var p := s.running[a].point;
      assert p.InTurn? ==> ReadyTurn(s.disk, p.turn, ch);
      assert p.InScan? ==> ReadyScan(s.disk, p.scan, ch);
    }
  }

  /** In every reachable state, following from any actor what it waits for and who holds that leads to an actor that
      can step. */
  lemma NoDeadlock(states: seq<System>, acts: seq<Action>, i: nat, a: Actor) returns (chain: seq<Actor>, ch: Choice)
    requires Run(states, acts) && i <= |acts| && a in states[i].running
    ensures WaitChain(states[i], chain) && chain[0] == a
    ensures Enabled(states[i], Go(chain[|chain| - 1], ch))
  {
    RunInv(states, acts, i);
    chain := ChainFrom(states[i], a);
    ch := UnblockedCanStep(states[i], chain[|chain| - 1]);
  }
}
