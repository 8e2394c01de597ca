/** The ledger as a set of atomic record operations.
    Every operation is applied to the record as it currently is on disk. */
module Disk {
  import opened Records

  // ---------------------------------------------------------------- turn operations

  /** The operations that rewrite one turn record under its thread lock. */
  datatype TurnOp =
    | Observe
    | CancelTurn
    | Park
    | Respond(request: string, decision: ApprovalDecision)
    | Clear(request: string)
    | Publish(status: TurnStatus, stopReason: string, failureReason: string)
    | Upsert(item: Item)
  {
    /** Only these two look at the liveness of the generation. */
    predicate Probes() { Observe? || CancelTurn? }

    predicate WellFormed() { Publish? ==> status.IsTerminal() }
  }

  function Terminated(v: Turn, status: TurnStatus, stop: string, failure: string): Turn {
    v.(status := status, stopReason := stop, failureReason := failure)
  }

  function Converged(v: Turn): Turn {
    Terminated(v, Failed, "", FAILURE_WORKER_GONE)
  }

  /** Replace the first item with the same id in place, else append. */
  function UpsertItem(items: seq<Item>, item: Item): seq<Item> {
    if items == [] then [item]
    else if items[0].id == item.id then [item] + items[1..]
    else [items[0]] + UpsertItem(items[1..], item)
  }

  lemma {:induction false} UpsertPresent(items: seq<Item>, item: Item, i: nat)
    requires i < |items| && items[i].id == item.id && forall j :: 0 <= j < i ==> items[j].id != item.id
    ensures UpsertItem(items, item) == items[i := item]
  {
    if i > 0 { UpsertPresent(items[1..], item, i - 1); }
  }

  lemma {:induction false} UpsertAbsent(items: seq<Item>, item: Item)
    requires forall i :: 0 <= i < |items| ==> items[i].id != item.id
    ensures UpsertItem(items, item) == items + [item]
  {
    if items != [] { UpsertAbsent(items[1..], item); }
  }

  /** The record written by `op` on `v`; None when the operation writes nothing.
      `dead` is the liveness verdict on the generation, `minted` the id minted by a park. */
  function Rewrite(op: TurnOp, v: Turn, dead: bool, minted: string): Option<Turn> {
    match op
    case Observe =>
      if v.IsTerminal() || !dead then None else Some(Converged(v))
    case CancelTurn =>
      if v.IsTerminal() then None
      else if dead then Some(Converged(v))
      else Some(Terminated(v, Interrupted, "cancelled", ""))
    case Park =>
      if v.IsTerminal() || v.PendingApproval() then None
      else Some(v.(pendingRequestId := minted, pendingDecision := ""))
    case Respond(request, decision) =>
      if v.IsTerminal() || v.pendingRequestId != request || v.pendingDecision != "" then None
      else Some(v.(pendingDecision := decision.AsString()))
    case Clear(request) =>
      if v.pendingRequestId != request then None
      else Some(v.(pendingRequestId := "", pendingDecision := ""))
    case Publish(status, stop, failure) =>
      if v.IsTerminal() then None else Some(Terminated(v, status, stop, failure))
    case Upsert(item) =>
      if v.IsTerminal() then None else Some(v.(items := UpsertItem(v.items, item)))
  }

  /** What each operation writes, in the record's own fields, and when it writes nothing. */
  lemma RewriteWords(op: TurnOp, v: Turn, dead: bool, minted: string)
    ensures var w := Rewrite(op, v, dead, minted); var live := v.status == InProgress;
            var open := v.pendingRequestId != "" && v.pendingDecision == "";
            match op
            case Observe =>
              && (w.Some? <==> live && dead)
              && (w.Some? ==> w.value == v.(status := Failed, stopReason := "", failureReason := "worker_gone"))
            case CancelTurn =>
              && (w.Some? <==> live)
              && (live && dead ==> w.value == v.(status := Failed, stopReason := "", failureReason := "worker_gone"))
              && (live && !dead ==>
                    w.value == v.(status := Interrupted, stopReason := "cancelled", failureReason := ""))
            case Park =>
              && (w.Some? <==> live && !open)
              && (w.Some? ==> w.value == v.(pendingRequestId := minted, pendingDecision := ""))
            case Respond(request, decision) =>
              && (w.Some? <==> live && v.pendingRequestId == request && v.pendingDecision == "")
              && (w.Some? ==> w.value == v.(pendingDecision := w.value.pendingDecision))
              && (w.Some? ==> ParseApprovalDecision(w.value.pendingDecision) == Some(decision))
            case Clear(request) =>
              && (w.Some? <==> v.pendingRequestId == request)
              && (w.Some? ==> w.value == v.(pendingRequestId := "", pendingDecision := ""))
            case Publish(status, stop, failure) =>
              && (w.Some? <==> live)
              && (w.Some? ==>
                    w.value.status == status && w.value.stopReason == stop && w.value.failureReason == failure)
              && (w.Some? ==> w.value == v.(status := w.value.status, stopReason := w.value.stopReason,
                                            failureReason := w.value.failureReason))
            case Upsert(item) =>
              && (w.Some? <==> live)
              && (w.Some? ==> w.value == v.(items := w.value.items) && item in w.value.items)
  {
    if op.Respond? { ParsePrintDecision(op.decision, ""); }
    if op.Upsert? { UpsertStores(v.items, op.item); }
  }

  lemma {:induction false} UpsertStores(items: seq<Item>, item: Item)
    ensures item in UpsertItem(items, item)
  {
    if items != [] && items[0].id != item.id {
      UpsertStores(items[1..], item);
      assert UpsertItem(items, item)[1..] == UpsertItem(items[1..], item);
    }
  }

  // ---------------------------------------------------------------- disk state

  /** Who keeps the `.live` file of a generation open; `locked` is false when taking the file lock failed. */
  datatype Hold = Hold(proc: nat, ledger: nat, locked: bool)

  /** Files under the home directory, the `.live` holds, and two history variables:
      `issued` are the ids ever minted, `answers` the decisions recorded so far by request id. */
  datatype State = State(
    threads: map<string, Thread>,
    turns: map<string, Turn>,
    generations: map<string, Generation>,
    holds: map<string, Hold>,
    issued: set<string>,
    answers: map<string, string>)

  function Empty(): State {
    State(map[], map[], map[], map[], {}, map[])
  }

  datatype AtomicOp =
    | Stutter
    | CreateThread(thread: Thread)
    | CreateGeneration(generation: Generation)
    | CreateTurn(turn: Turn)
    | CommitTurn(id: string, op: TurnOp, dead: bool, minted: string)
    | SetPointer(threadId: string, turnId: string)
    | SetSession(threadId: string, session: string)
    | SetChild(id: string, pid: nat, epoch: nat)
    | SetEof(id: string)
    | TakeHold(id: string, hold: Hold)
    | ReleaseHold(id: string)
    | ProcessDies(proc: nat)
    | LedgerDropped(proc: nat, ledger: nat)

  ghost predicate ThreadIdle(s: State, threadId: string) {
    forall t :: t in s.turns && s.turns[t].threadId == threadId ==> s.turns[t].IsTerminal()
  }

  ghost predicate KeyIdle(s: State, key: seq<Byte>) {
    key != [] ==> forall t :: t in s.turns && s.turns[t].clientRequestId == key ==> s.turns[t].IsTerminal()
  }

  /** The record an admission writes. */
  function FreshRecord(spec: NewTurn, gid: string, tid: string): Turn {
    Turn(tid, spec.threadId, gid, InProgress, spec.input, spec.model, spec.effort, "", "",
         spec.clientRequestId, "", "", [])
  }

  /** The record is the request's, field by field, and says nothing else. */
  predicate Carries(n: Turn, spec: NewTurn) {
    && n.threadId == spec.threadId && n.clientRequestId == spec.clientRequestId
    && n.input == spec.input && n.model == spec.model && n.effort == spec.effort
  }

  predicate Blank(n: Turn) {
    && n.status == InProgress && n.stopReason == "" && n.failureReason == ""
    && n.pendingRequestId == "" && n.pendingDecision == "" && n.items == []
  }

  lemma FreshRecordCarries(spec: NewTurn, gid: string, tid: string)
    ensures var n := FreshRecord(spec, gid, tid);
            n.id == tid && n.generationId == gid && Carries(n, spec) && Blank(n)
  {
  }

  predicate FreshTurn(n: Turn) {
    && n.status == InProgress
    && n.pendingRequestId == "" && n.pendingDecision == ""
    && n.stopReason == "" && n.failureReason == "" && n.items == []
  }

  ghost predicate Legal(s: State, op: AtomicOp) {
    match op
    case Stutter => true
    case CreateThread(r) => r.id !in s.threads && r.inProgressTurnId == ""
    case CreateGeneration(r) => r.id !in s.generations
    case CreateTurn(n) =>
      && n.id !in s.turns && n.id != "" && FreshTurn(n)
      && n.threadId in s.threads
      && n.generationId in s.generations && s.generations[n.generationId].turnId == n.id
      && ThreadIdle(s, n.threadId) && KeyIdle(s, n.clientRequestId)
    case CommitTurn(t, op, dead, minted) =>
      && t in s.turns && op.WellFormed()
      && Rewrite(op, s.turns[t], dead, minted).Some?
      && (op.Park? ==> minted != "" && minted !in s.issued)
      && (op.Respond? ==> op.request != "")
    case SetPointer(th, t) =>
      th in s.threads && (t == "" || (t in s.turns && s.turns[t].threadId == th))
    case SetSession(th, _) => th in s.threads
    case SetChild(g, _, _) => g in s.generations
    case SetEof(g) => g in s.generations
    case TakeHold(g, h) => g in s.generations && h.proc == s.generations[g].ownerPid
    case ReleaseHold(g) =>
      && g in s.generations && s.generations[g].turnId in s.turns
      && s.turns[s.generations[g].turnId].IsTerminal()
    case ProcessDies(_) => true
    case LedgerDropped(_, _) => true
  }

  function WithAnswer(answers: map<string, string>, op: TurnOp): map<string, string> {
    if op.Respond? then answers[op.request := op.decision.AsString()] else answers
  }

  function WithIssued(issued: set<string>, op: TurnOp, minted: string): set<string> {
    if op.Park? then issued + {minted} else issued
  }

  /** What is left of the live holds when one process, or one `Ledger` value of it, is gone. */
  function WithoutProcess(holds: map<string, Hold>, p: nat): map<string, Hold> {
    map g | g in holds && holds[g].proc != p :: holds[g]
  }

  function WithoutLedger(holds: map<string, Hold>, p: nat, l: nat): map<string, Hold> {
    map g | g in holds && (holds[g].proc != p || holds[g].ledger != l) :: holds[g]
  }

  ghost function Apply(s: State, op: AtomicOp): State
    requires Legal(s, op)
  {
    match op
    case Stutter => s
    case CreateThread(r) => s.(threads := s.threads[r.id := r])
    case CreateGeneration(r) => s.(generations := s.generations[r.id := r])
    case CreateTurn(n) => s.(turns := s.turns[n.id := n])
    case CommitTurn(t, op, dead, minted) =>
      s.(turns := s.turns[t := Rewrite(op, s.turns[t], dead, minted).value],
         answers := WithAnswer(s.answers, op),
         issued := WithIssued(s.issued, op, minted))
    case SetPointer(th, t) => s.(threads := s.threads[th := s.threads[th].(inProgressTurnId := t)])
    case SetSession(th, sid) => s.(threads := s.threads[th := s.threads[th].(acpSessionId := sid)])
    case SetChild(g, pid, epoch) =>
      s.(generations := s.generations[g := s.generations[g].(
           childPid := Some(pid), childStartedEpoch := Some(epoch), childEof := false)])
    case SetEof(g) => s.(generations := s.generations[g := s.generations[g].(childEof := true)])
    case TakeHold(g, h) => s.(holds := s.holds[g := h])
    case ReleaseHold(g) => s.(holds := s.holds - {g})
    case ProcessDies(p) => s.(holds := WithoutProcess(s.holds, p))
    case LedgerDropped(p, l) => s.(holds := WithoutLedger(s.holds, p, l))
  }

  // ---------------------------------------------------------------- invariant

  ghost predicate Linked(s: State) {
    && (forall th :: th in s.threads ==> s.threads[th].id == th)
    && (forall g :: g in s.generations ==> s.generations[g].id == g)
    && (forall t :: t in s.turns ==>
          && s.turns[t].id == t && t != ""
          && s.turns[t].threadId in s.threads
          && s.turns[t].generationId in s.generations
          && s.generations[s.turns[t].generationId].turnId == t)
  }

  ghost predicate OneLivePerThread(s: State) {
    forall t, u ::
      (t in s.turns && u in s.turns && !s.turns[t].IsTerminal() && !s.turns[u].IsTerminal() &&
      s.turns[t].threadId == s.turns[u].threadId) ==> t == u
  }

  ghost predicate OneLivePerKey(s: State) {
    forall t, u ::
      (t in s.turns && u in s.turns && !s.turns[t].IsTerminal() && !s.turns[u].IsTerminal() &&
      s.turns[t].clientRequestId != [] &&
      s.turns[t].clientRequestId == s.turns[u].clientRequestId) ==> t == u
  }

  ghost predicate PointersOwn(s: State) {
    forall th :: th in s.threads ==>
      var p := s.threads[th].inProgressTurnId;
      p != "" ==> p in s.turns && s.turns[p].threadId == th
  }

  ghost predicate HoldsOwned(s: State) {
    forall g :: g in s.holds ==> g in s.generations && s.holds[g].proc == s.generations[g].ownerPid
  }

  /** A parked request is unanswered exactly while its decision field is empty, and no two turns share one. */
  ghost predicate ApprovalsAgree(s: State) {
    && s.answers.Keys <= s.issued && "" !in s.answers
    && (forall t :: t in s.turns ==> ApprovalOk(s, s.turns[t]))
    && (forall t, u ::
          (t in s.turns && u in s.turns && s.turns[t].pendingRequestId != "" &&
          s.turns[t].pendingRequestId == s.turns[u].pendingRequestId) ==> t == u)
  }

  ghost predicate ApprovalOk(s: State, v: Turn) {
    var r := v.pendingRequestId;
    && (r == "" ==> v.pendingDecision == "")
    && (r != "" ==> r in s.issued)
    && (r != "" && v.pendingDecision == "" ==> r !in s.answers)
    && (v.pendingDecision != "" ==> r in s.answers && s.answers[r] == v.pendingDecision)
  }

  ghost predicate Inv(s: State) {
    && Linked(s) && OneLivePerThread(s) && OneLivePerKey(s)
    && PointersOwn(s) && HoldsOwned(s) && ApprovalsAgree(s)
  }

  /** A request is pending on its turn exactly while the turn is live and nobody has answered it. */
  lemma PendingMeansUnanswered(s: State, t: string)
    requires ApprovalsAgree(s) && t in s.turns
    ensures var v := s.turns[t];
            v.PendingApproval() <==>
            v.status == InProgress && v.pendingRequestId != "" && v.pendingRequestId !in s.answers
  {
    assert ApprovalOk(s, s.turns[t]);
  }

  // ---------------------------------------------------------------- preservation

  /** Fields that no turn operation ever touches. */
  predicate SameIdentity(v: Turn, n: Turn) {
    && n.id == v.id && n.threadId == v.threadId && n.generationId == v.generationId
    && n.input == v.input && n.model == v.model && n.effort == v.effort
    && n.clientRequestId == v.clientRequestId
  }

  /** Once terminal, a record stays as it is, except that its pending fields may be cleared. */
  predicate Frozen(v: Turn, n: Turn) {
    n == v || n == v.(pendingRequestId := "", pendingDecision := "")
  }

  lemma RewriteFacts(op: TurnOp, v: Turn, dead: bool, minted: string)
    requires op.WellFormed() && Rewrite(op, v, dead, minted).Some?
    ensures var n := Rewrite(op, v, dead, minted).value;
            && SameIdentity(v, n)
            && (v.IsTerminal() ==> n.IsTerminal() && Frozen(v, n))
  {
  }

  ghost predicate Grows(s: State, s': State) {
    && (forall t :: t in s.turns ==>
          && t in s'.turns && SameIdentity(s.turns[t], s'.turns[t])
          && (s.turns[t].IsTerminal() ==> s'.turns[t].IsTerminal() && Frozen(s.turns[t], s'.turns[t])))
    && (forall th :: th in s.threads ==>
          && th in s'.threads
          && s'.threads[th] == s.threads[th].(acpSessionId := s'.threads[th].acpSessionId,
                                              inProgressTurnId := s'.threads[th].inProgressTurnId))
    && (forall g :: g in s.generations ==>
          && g in s'.generations
          && s'.generations[g].ownerPid == s.generations[g].ownerPid
          && s'.generations[g].turnId == s.generations[g].turnId
          && s'.generations[g].startedEpoch == s.generations[g].startedEpoch)
    && (forall r :: r in s.answers ==> r in s'.answers && s'.answers[r] == s.answers[r])
  }

  /** A turn record is replaced by a later version of itself. */
  ghost predicate Succeeds(s: State, t: string, n: Turn) {
    && t in s.turns && SameIdentity(s.turns[t], n)
    && (s.turns[t].IsTerminal() ==> n.IsTerminal() && Frozen(s.turns[t], n))
  }

  lemma ReplaceGrows(s: State, s': State, t: string, n: Turn)
    requires Succeeds(s, t, n)
    requires s'.turns == s.turns[t := n] && s'.threads == s.threads && s'.generations == s.generations
    requires forall r :: r in s.answers ==> r in s'.answers && s'.answers[r] == s.answers[r]
    ensures Grows(s, s')
  {
  }

  lemma ReplaceKeepsOneLive(s: State, s': State, t: string, n: Turn)
    requires OneLivePerThread(s) && OneLivePerKey(s)
    requires Succeeds(s, t, n) && s'.turns == s.turns[t := n]
    ensures OneLivePerThread(s') && OneLivePerKey(s')
  {
  }

  lemma ReplaceKeepsLinks(s: State, s': State, t: string, n: Turn)
    requires Linked(s) && PointersOwn(s) && HoldsOwned(s)
    requires Succeeds(s, t, n) && s'.turns == s.turns[t := n]
    requires s'.threads == s.threads && s'.generations == s.generations && s'.holds == s.holds
    ensures Linked(s') && PointersOwn(s') && HoldsOwned(s')
  {
  }

  /** Which pending fields a rewrite may leave behind. */
  lemma RewritePending(op: TurnOp, v: Turn, dead: bool, minted: string)
    requires Rewrite(op, v, dead, minted).Some? && (op.Respond? ==> op.request != "")
    ensures var n := Rewrite(op, v, dead, minted).value;
            match op
            case Park => n.pendingRequestId == minted && n.pendingDecision == ""
            case Respond(r, d) =>
              && v.pendingRequestId == r == n.pendingRequestId
              && v.pendingDecision == "" && n.pendingDecision == d.AsString() && n.pendingDecision != ""
            case Clear(_) => n.pendingRequestId == "" && n.pendingDecision == ""
            case _ => n.pendingRequestId == v.pendingRequestId && n.pendingDecision == v.pendingDecision
  {
    if op.Respond? { ParsePrintDecision(op.decision, ""); }
  }

  lemma ReplaceKeepsApprovals(s: State, s': State, t: string, n: Turn)
    requires ApprovalsAgree(s) && t in s.turns
    requires s'.turns == s.turns[t := n] && s'.issued == s.issued && s'.answers == s.answers
    requires (n.pendingRequestId == "" && n.pendingDecision == "") ||
             (n.pendingRequestId == s.turns[t].pendingRequestId && n.pendingDecision == s.turns[t].pendingDecision)
    ensures ApprovalsAgree(s')
  {
    assert ApprovalOk(s, s.turns[t]);
    forall u | u in s'.turns ensures ApprovalOk(s', s'.turns[u]) {
      if u != t { assert ApprovalOk(s, s.turns[u]); }
    }
  }

  lemma ParkKeepsApprovals(s: State, s': State, t: string, n: Turn)
    requires ApprovalsAgree(s) && t in s.turns
    requires n.pendingRequestId != "" && n.pendingRequestId !in s.issued && n.pendingDecision == ""
    requires s'.turns == s.turns[t := n] && s'.issued == s.issued + {n.pendingRequestId} && s'.answers == s.answers
    ensures ApprovalsAgree(s')
  {
    forall u | u in s.turns ensures ApprovalOk(s', s'.turns[u]) && s.turns[u].pendingRequestId != n.pendingRequestId {
      assert ApprovalOk(s, s.turns[u]);
    }
  }

  lemma RespondKeepsApprovals(s: State, s': State, t: string, n: Turn)
    requires ApprovalsAgree(s) && t in s.turns
    requires s.turns[t].pendingRequestId == n.pendingRequestId != "" && s.turns[t].pendingDecision == ""
    requires n.pendingDecision != ""
    requires s'.turns == s.turns[t := n] && s'.issued == s.issued
    requires s'.answers == s.answers[n.pendingRequestId := n.pendingDecision]
    ensures ApprovalsAgree(s')
  {
    assert ApprovalOk(s, s.turns[t]);
    forall u | u in s.turns ensures ApprovalOk(s', s'.turns[u]) {
      assert ApprovalOk(s, s.turns[u]);
    }
  }

  lemma CommitKeepsApprovals(s: State, op: AtomicOp)
    requires Linked(s) && ApprovalsAgree(s) && op.CommitTurn? && Legal(s, op)
    ensures ApprovalsAgree(Apply(s, op))
  {
    var n := Rewrite(op.op, s.turns[op.id], op.dead, op.minted).value;
    RewritePending(op.op, s.turns[op.id], op.dead, op.minted);
    if op.op.Park? {
      ParkKeepsApprovals(s, Apply(s, op), op.id, n);
    } else if op.op.Respond? {
      RespondKeepsApprovals(s, Apply(s, op), op.id, n);
    } else {
      ReplaceKeepsApprovals(s, Apply(s, op), op.id, n);
    }
  }

  lemma CommitSucceeds(s: State, op: AtomicOp)
    requires op.CommitTurn? && Legal(s, op)
    ensures Succeeds(s, op.id, Rewrite(op.op, s.turns[op.id], op.dead, op.minted).value)
  {
    RewriteFacts(op.op, s.turns[op.id], op.dead, op.minted);
  }

  lemma CommitKeepsInv(s: State, op: AtomicOp)
    requires Inv(s) && op.CommitTurn? && Legal(s, op)
    ensures Inv(Apply(s, op))
  {
    var n := Rewrite(op.op, s.turns[op.id], op.dead, op.minted).value;
    CommitSucceeds(s, op);
    ReplaceKeepsOneLive(s, Apply(s, op), op.id, n);
    ReplaceKeepsLinks(s, Apply(s, op), op.id, n);
    CommitKeepsApprovals(s, op);
  }

  lemma CreateTurnKeepsOneLive(s: State, s': State, n: Turn)
    requires OneLivePerThread(s) && OneLivePerKey(s)
    requires n.id !in s.turns && ThreadIdle(s, n.threadId) && KeyIdle(s, n.clientRequestId)
    requires s'.turns == s.turns[n.id := n]
    ensures OneLivePerThread(s') && OneLivePerKey(s')
  {
  }

  lemma CreateTurnKeepsInv(s: State, n: Turn)
    requires Inv(s) && Legal(s, CreateTurn(n))
    ensures Inv(Apply(s, CreateTurn(n)))
  {
    var s' := Apply(s, CreateTurn(n));
    CreateTurnKeepsOneLive(s, s', n);
    CreateTurnKeepsLinks(s, n);
    CreateTurnKeepsApprovals(s, n);
  }

  lemma CreateTurnKeepsLinks(s: State, n: Turn)
    requires Linked(s) && PointersOwn(s) && HoldsOwned(s) && Legal(s, CreateTurn(n))
    ensures var s' := Apply(s, CreateTurn(n)); Linked(s') && PointersOwn(s') && HoldsOwned(s')
  {
  }

  lemma CreateTurnKeepsApprovals(s: State, n: Turn)
    requires ApprovalsAgree(s) && Legal(s, CreateTurn(n))
    ensures ApprovalsAgree(Apply(s, CreateTurn(n)))
  {
    var s' := Apply(s, CreateTurn(n));
    forall u | u in s'.turns ensures ApprovalOk(s', s'.turns[u]) {
      if u != n.id { assert ApprovalOk(s, s.turns[u]); }
    }
  }

  /** Operations that leave every turn record alone. */
  lemma OtherKeepsApprovals(s: State, s': State)
    requires ApprovalsAgree(s) && s'.turns == s.turns && s'.answers == s.answers && s.issued <= s'.issued
    ensures ApprovalsAgree(s')
  {
    forall u | u in s'.turns ensures ApprovalOk(s', s'.turns[u]) {
      assert ApprovalOk(s, s.turns[u]);
    }
  }

  lemma ThreadOpKeepsLinks(s: State, op: AtomicOp)
    requires Linked(s) && PointersOwn(s) && HoldsOwned(s) && Legal(s, op)
    requires op.CreateThread? || op.SetPointer? || op.SetSession?
    ensures var s' := Apply(s, op); Linked(s') && PointersOwn(s') && HoldsOwned(s')
  {
  }

  lemma GenerationOpKeepsLinks(s: State, op: AtomicOp)
    requires Linked(s) && PointersOwn(s) && HoldsOwned(s) && Legal(s, op)
    requires op.CreateGeneration? || op.SetChild? || op.SetEof?
    ensures var s' := Apply(s, op); Linked(s') && PointersOwn(s') && HoldsOwned(s')
  {
  }

  lemma HoldOpKeepsLinks(s: State, op: AtomicOp)
    requires Linked(s) && PointersOwn(s) && HoldsOwned(s) && Legal(s, op)
    requires op.Stutter? || op.TakeHold? || op.ReleaseHold? || op.ProcessDies? || op.LedgerDropped?
    ensures var s' := Apply(s, op); Linked(s') && PointersOwn(s') && HoldsOwned(s')
  {
  }

  lemma OtherKeepsLinks(s: State, op: AtomicOp)
    requires Linked(s) && PointersOwn(s) && HoldsOwned(s) && Legal(s, op) && !op.CommitTurn? && !op.CreateTurn?
    ensures var s' := Apply(s, op); Linked(s') && PointersOwn(s') && HoldsOwned(s')
  {
    if op.CreateThread? || op.SetPointer? || op.SetSession? { ThreadOpKeepsLinks(s, op); }
    else if op.CreateGeneration? || op.SetChild? || op.SetEof? { GenerationOpKeepsLinks(s, op); }
    else { HoldOpKeepsLinks(s, op); }
  }

  lemma OtherKeepsTurns(s: State, op: AtomicOp)
    requires Legal(s, op) && !op.CommitTurn? && !op.CreateTurn?
    ensures var s' := Apply(s, op);
            s'.turns == s.turns && s'.answers == s.answers && s.issued <= s'.issued
  {
  }

  lemma SameTurnsOneLive(s: State, s': State)
    requires OneLivePerThread(s) && OneLivePerKey(s) && s'.turns == s.turns
    ensures OneLivePerThread(s') && OneLivePerKey(s')
  {
  }

  lemma OtherKeepsInv(s: State, op: AtomicOp)
    requires Inv(s) && Legal(s, op) && !op.CommitTurn? && !op.CreateTurn?
    ensures Inv(Apply(s, op))
  {
    var s' := Apply(s, op);
    OtherKeepsTurns(s, op);
    OtherKeepsLinks(s, op);
    SameTurnsOneLive(s, s');
    OtherKeepsApprovals(s, s');
  }

  /** Every atomic operation keeps the whole ledger invariant. */
  lemma ApplyKeepsInv(s: State, op: AtomicOp)
    requires Inv(s) && Legal(s, op)
    ensures Inv(Apply(s, op))
  {
    match op
    case CommitTurn(_, _, _, _) => CommitKeepsInv(s, op);
    case CreateTurn(n) => CreateTurnKeepsInv(s, n);
    case _ => OtherKeepsInv(s, op);
  }

  lemma CommitGrows(s: State, op: AtomicOp)
    requires Inv(s) && op.CommitTurn? && Legal(s, op)
    ensures Grows(s, Apply(s, op))
  {
    CommitSucceeds(s, op);
    assert ApprovalOk(s, s.turns[op.id]);
    RewritePending(op.op, s.turns[op.id], op.dead, op.minted);
    ReplaceGrows(s, Apply(s, op), op.id, Rewrite(op.op, s.turns[op.id], op.dead, op.minted).value);
  }

  lemma OtherGrows(s: State, op: AtomicOp)
    requires Legal(s, op) && !op.CommitTurn?
    ensures Grows(s, Apply(s, op))
  {
  }

  /** Every atomic operation only extends history. */
  lemma ApplyGrows(s: State, op: AtomicOp)
    requires Inv(s) && Legal(s, op)
    ensures Grows(s, Apply(s, op))
  {
    if op.CommitTurn? { CommitGrows(s, op); } else { OtherGrows(s, op); }
  }

  lemma GrowsReflexive(s: State)
    ensures Grows(s, s)
  {
  }

  lemma GrowsTransitive(s: State, s1: State, s2: State)
    requires Grows(s, s1) && Grows(s1, s2)
    ensures Grows(s, s2)
  {
  }
}
