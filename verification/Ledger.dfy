/** The ledger as an object: each method is one operation of the source, run to completion. */
module LedgerObject {
  import opened Records
  import opened Ids
  import opened Disk

  datatype LedgerError =
    | NotFound(kind: string, id: string)
    | TurnInProgress(threadId: string, turnId: string)
    | AlreadyTerminal(turnId: string, status: TurnStatus)
    | InvalidId(id: string)
    | InvalidStatus(reason: string)

  datatype Result<+T> = Ok(value: T) | Err(error: LedgerError)

  /** The outside: which processes and children are dead, and whether probing and the ignored writes work. */
  datatype World = World(
    crashed: set<nat>, gone: set<nat>, probeFails: bool, pointerWritten: bool, indexWritten: bool, liveLocked: bool)

  /** The liveness verdict of one process on one generation. */
  predicate Dead(holds: map<string, Hold>, proc: nat, g: Generation, w: World) {
    var ownerAlive :=
      if g.id in holds && holds[g.id].proc == proc then true
      else if w.probeFails then g.ownerPid !in w.crashed
      else g.id in holds && holds[g.id].locked;
    !ownerAlive || g.childEof || (g.childPid.Some? && g.childPid.value in w.gone)
  }

  /** The facts that end a generation, one by one: the child's end of file, a dead child, or an owner that can be
      found neither in this process nor, depending on whether the file can be tested, by its file or by its pid. */
  predicate Gone(holds: map<string, Hold>, proc: nat, g: Generation, w: World) {
    || g.childEof
    || (g.childPid.Some? && g.childPid.value in w.gone)
    || (g.id !in holds && !w.probeFails)
    || (g.id !in holds && w.probeFails && g.ownerPid in w.crashed)
    || (g.id in holds && holds[g.id].proc != proc && !w.probeFails && !holds[g.id].locked)
    || (g.id in holds && holds[g.id].proc != proc && w.probeFails && g.ownerPid in w.crashed)
  }

  predicate WorkerGone(v: Turn, n: Turn) {
    n == v.(status := Failed, stopReason := "", failureReason := "worker_gone")
  }

  predicate Interrupts(v: Turn, n: Turn) {
    n == v.(status := Interrupted, stopReason := "cancelled", failureReason := "")
  }

  /** The verdict is true of exactly these facts, and so is what observing and cancelling make of a live turn. */
  lemma VerdictMeaning(s: State, t: string, proc: nat, w: World)
    requires t in s.turns && s.turns[t].generationId in s.generations && s.turns[t].status == InProgress
    ensures var v := s.turns[t];
            var cancelled := Rewrite(CancelTurn, v, DeadIn(s, t, proc, w), "");
            && cancelled.Some?
            && if Gone(s.holds, proc, s.generations[v.generationId], w)
               then WorkerGone(v, ObservedTurn(s, t, proc, w)) && WorkerGone(v, cancelled.value)
               else ObservedTurn(s, t, proc, w) == v && Interrupts(v, cancelled.value)
  {
  }

  function PointerCleared(threads: map<string, Thread>, n: Turn, w: World): map<string, Thread> {
    if w.pointerWritten && n.threadId in threads && threads[n.threadId].inProgressTurnId == n.id
    then threads[n.threadId := threads[n.threadId].(inProgressTurnId := "")] else threads
  }

  function HoldReleased(holds: map<string, Hold>, n: Turn, proc: nat, ledger: nat): map<string, Hold> {
    if n.generationId in holds && holds[n.generationId].proc == proc && holds[n.generationId].ledger == ledger
    then holds - {n.generationId} else holds
  }

  /** The whole effect of publishing the terminal record `n`. */
  function Published(s: State, n: Turn, proc: nat, ledger: nat, w: World): State {
    s.(turns := s.turns[n.id := n],
       threads := PointerCleared(s.threads, n, w),
       holds := HoldReleased(s.holds, n, proc, ledger))
  }

  /** Publishing replaces this one turn, empties the pointer of its thread if it names this turn and can be written,
      and takes away this ledger's hold of its generation; everything else stays. */
  lemma PublishedMeaning(s: State, n: Turn, proc: nat, ledger: nat, w: World)
    ensures var p := Published(s, n, proc, ledger, w);
            && n.id in p.turns && p.turns[n.id] == n && p.turns.Keys == s.turns.Keys + {n.id}
            && (forall u :: u in s.turns && u != n.id ==> p.turns[u] == s.turns[u])
            && p.generations == s.generations && p.issued == s.issued && p.answers == s.answers
            && p.threads.Keys == s.threads.Keys
            && (forall th :: th in s.threads ==>
                  var names := th == n.threadId && s.threads[th].inProgressTurnId == n.id;
                  && (names && w.pointerWritten ==> p.threads[th] == s.threads[th].(inProgressTurnId := ""))
                  && (!(names && w.pointerWritten) ==> p.threads[th] == s.threads[th]))
            && (forall g :: g in p.holds ==> g in s.holds && p.holds[g] == s.holds[g])
            && (forall g :: g in s.holds ==>
                  (g !in p.holds <==>
                   g == n.generationId && s.holds[g].proc == proc && s.holds[g].ledger == ledger))
  {
  }

  lemma PointerClearedKeepsInv(s: State, n: Turn, w: World)
    requires Disk.Inv(s)
    ensures var s' := s.(threads := PointerCleared(s.threads, n, w)); Disk.Inv(s') && Grows(s, s')
  {
    var op := if w.pointerWritten && n.threadId in s.threads && s.threads[n.threadId].inProgressTurnId == n.id
              then SetPointer(n.threadId, "") else Stutter;
    ApplyKeepsInv(s, op);
    ApplyGrows(s, op);
    assert Apply(s, op) == s.(threads := PointerCleared(s.threads, n, w));
  }

  lemma HoldReleasedKeepsInv(s: State, n: Turn, proc: nat, ledger: nat)
    requires Disk.Inv(s) && n.id in s.turns && s.turns[n.id] == n && n.IsTerminal()
    ensures var s' := s.(holds := HoldReleased(s.holds, n, proc, ledger)); Disk.Inv(s') && Grows(s, s')
  {
    var op := if n.generationId in s.holds && s.holds[n.generationId].proc == proc &&
                 s.holds[n.generationId].ledger == ledger
              then ReleaseHold(n.generationId) else Stutter;
    ApplyKeepsInv(s, op);
    ApplyGrows(s, op);
    assert Apply(s, op) == s.(holds := HoldReleased(s.holds, n, proc, ledger));
  }

  /** Publishing is three atomic operations in a row. */
  lemma PublishedKeepsInv(s: State, t: string, op: TurnOp, dead: bool, n: Turn, proc: nat, ledger: nat, w: World)
    requires Disk.Inv(s) && t in s.turns && op.WellFormed() && (op.Probes() || op.Publish?)
    requires Rewrite(op, s.turns[t], dead, "") == Some(n) && n.IsTerminal()
    ensures Disk.Inv(Published(s, n, proc, ledger, w)) && Grows(s, Published(s, n, proc, ledger, w))
  {
    var c := CommitTurn(t, op, dead, "");
    RewriteFacts(op, s.turns[t], dead, "");
    ApplyKeepsInv(s, c);
    ApplyGrows(s, c);
    var s1 := s.(turns := s.turns[n.id := n]);
    assert s1 == Apply(s, c);
    PointerClearedKeepsInv(s1, n, w);
    var s2 := s1.(threads := PointerCleared(s1.threads, n, w));
    HoldReleasedKeepsInv(s2, n, proc, ledger);
    GrowsTransitive(s, s1, s2);
    GrowsTransitive(s, s2, Published(s, n, proc, ledger, w));
  }

  // ---------------------------------------------------------------- observing, as functions

  predicate DeadIn(s: State, t: string, proc: nat, w: World)
    requires t in s.turns && s.turns[t].generationId in s.generations
  {
    Dead(s.holds, proc, s.generations[s.turns[t].generationId], w)
  }

  /** The record an observation returns. */
  function ObservedTurn(s: State, t: string, proc: nat, w: World): Turn
    requires t in s.turns && s.turns[t].generationId in s.generations
  {
    if s.turns[t].IsTerminal() || !DeadIn(s, t, proc, w) then s.turns[t] else Converged(s.turns[t])
  }

  /** The state an observation leaves. */
  function ObservedState(s: State, t: string, proc: nat, ledger: nat, w: World): State
    requires t in s.turns && s.turns[t].generationId in s.generations
  {
    if s.turns[t].IsTerminal() || !DeadIn(s, t, proc, w) then s
    else Published(s, Converged(s.turns[t]), proc, ledger, w)
  }

  /** A turn that observing does not end. */
  ghost predicate Alive(s: State, t: string, proc: nat, w: World) {
    && t in s.turns && !s.turns[t].IsTerminal()
    && s.turns[t].generationId in s.generations && !DeadIn(s, t, proc, w)
  }

  /** `s` is `s0` after observing some of its turns. */
  ghost predicate Converging(s0: State, s: State, proc: nat, w: World) {
    && Grows(s0, s) && s.turns.Keys == s0.turns.Keys && s.generations == s0.generations
    && s.issued == s0.issued && s.answers == s0.answers && s.threads.Keys == s0.threads.Keys
    && (forall th :: th in s0.threads ==>
          s.threads[th] == s0.threads[th].(inProgressTurnId := s.threads[th].inProgressTurnId))
    && (forall t :: t in s0.turns && s.turns[t] != s0.turns[t] ==>
          && !s0.turns[t].IsTerminal() && !Alive(s0, t, proc, w) && s.turns[t] == Converged(s0.turns[t]))
    && (forall t :: Alive(s, t, proc, w) <==> Alive(s0, t, proc, w))
  }

  lemma ObserveKeepsInv(s: State, t: string, proc: nat, ledger: nat, w: World)
    requires Disk.Inv(s) && t in s.turns
    ensures Disk.Inv(ObservedState(s, t, proc, ledger, w)) && Grows(s, ObservedState(s, t, proc, ledger, w))
  {
    if !s.turns[t].IsTerminal() && DeadIn(s, t, proc, w) {
      PublishedKeepsInv(s, t, Observe, true, Converged(s.turns[t]), proc, ledger, w);
    }
  }

  /** Ending one turn releases only its own hold, so every verdict on the others stands. */
  lemma PublishedKeepsVerdicts(s: State, t: string, n: Turn, proc: nat, ledger: nat, w: World)
    requires Linked(s) && t in s.turns && !Alive(s, t, proc, w) && SameIdentity(s.turns[t], n) && n.IsTerminal()
    ensures forall u :: Alive(Published(s, n, proc, ledger, w), u, proc, w) <==> Alive(s, u, proc, w)
  {
    var s' := Published(s, n, proc, ledger, w);
    forall u ensures Alive(s', u, proc, w) <==> Alive(s, u, proc, w) {
      if u in s.turns && u != t {
        assert s.turns[u].generationId != n.generationId;
      }
    }
  }

  lemma PublishedConverges(s: State, t: string, proc: nat, ledger: nat, w: World)
    requires Linked(s) && t in s.turns && !s.turns[t].IsTerminal() && !Alive(s, t, proc, w)
    requires Grows(s, Published(s, Converged(s.turns[t]), proc, ledger, w))
    ensures Converging(s, Published(s, Converged(s.turns[t]), proc, ledger, w), proc, w)
  {
    var s' := Published(s, Converged(s.turns[t]), proc, ledger, w);
    PublishedKeepsVerdicts(s, t, Converged(s.turns[t]), proc, ledger, w);
    PointerClearedChangesPointers(s.threads, Converged(s.turns[t]), w);
    assert s'.turns == s.turns[t := Converged(s.turns[t])];
  }

  lemma PointerClearedChangesPointers(threads: map<string, Thread>, n: Turn, w: World)
    ensures var after := PointerCleared(threads, n, w);
            && after.Keys == threads.Keys
            && forall th :: th in threads ==>
                 after[th] == threads[th].(inProgressTurnId := after[th].inProgressTurnId)
  {
  }

  lemma ConvergingReflexive(s: State, proc: nat, w: World)
    ensures Converging(s, s, proc, w)
  {
  }

  lemma ObserveConverges(s: State, t: string, proc: nat, ledger: nat, w: World)
    requires Disk.Inv(s) && t in s.turns
    ensures Converging(s, ObservedState(s, t, proc, ledger, w), proc, w)
    ensures ObservedState(s, t, proc, ledger, w).turns[t] == ObservedTurn(s, t, proc, w)
    ensures ObservedTurn(s, t, proc, w).IsTerminal() <==> !Alive(s, t, proc, w)
  {
    ObserveKeepsInv(s, t, proc, ledger, w);
    if !s.turns[t].IsTerminal() && DeadIn(s, t, proc, w) {
      PublishedConverges(s, t, proc, ledger, w);
    } else {
      ConvergingReflexive(s, proc, w);
    }
  }

  lemma ConvergingTransitive(s0: State, s1: State, s2: State, proc: nat, w: World)
    requires Converging(s0, s1, proc, w) && Converging(s1, s2, proc, w)
    ensures Converging(s0, s2, proc, w)
  {
    GrowsTransitive(s0, s1, s2);
  }

  /** Observing a list of turns, oldest first. */
  function ObserveAll(s: State, ts: seq<string>, proc: nat, ledger: nat, w: World): State {
    if ts == [] then s
    else
      var s1 := ObserveAll(s, ts[..|ts| - 1], proc, ledger, w);
      var t := ts[|ts| - 1];
      if t in s1.turns && s1.turns[t].generationId in s1.generations then ObservedState(s1, t, proc, ledger, w) else s1
  }

  lemma {:induction false} ObserveAllConverges(s: State, ts: seq<string>, proc: nat, ledger: nat, w: World)
    requires Disk.Inv(s)
    ensures Disk.Inv(ObserveAll(s, ts, proc, ledger, w))
    ensures Converging(s, ObserveAll(s, ts, proc, ledger, w), proc, w)
  {
    if ts == [] {
      ConvergingReflexive(s, proc, w);
    } else {
      var s1 := ObserveAll(s, ts[..|ts| - 1], proc, ledger, w);
      var t := ts[|ts| - 1];
      ObserveAllConverges(s, ts[..|ts| - 1], proc, ledger, w);
      if t in s1.turns && s1.turns[t].generationId in s1.generations {
        ObserveKeepsInv(s1, t, proc, ledger, w);
        ObserveConverges(s1, t, proc, ledger, w);
        ConvergingTransitive(s, s1, ObservedState(s1, t, proc, ledger, w), proc, w);
      }
    }
  }

  lemma ObserveAllPush(s: State, ts: seq<string>, t: string, proc: nat, ledger: nat, w: World)
    requires var s1 := ObserveAll(s, ts, proc, ledger, w);
             t in s1.turns && s1.turns[t].generationId in s1.generations
    ensures ObserveAll(s, ts + [t], proc, ledger, w) ==
            ObservedState(ObserveAll(s, ts, proc, ledger, w), t, proc, ledger, w)
  {
    assert (ts + [t])[..|ts + [t]| - 1] == ts;
  }

  lemma {:induction false} ObserveAllAppend(
      s: State, xs: seq<string>, ys: seq<string>, proc: nat, ledger: nat, w: World)
    ensures ObserveAll(s, xs + ys, proc, ledger, w) ==
            ObserveAll(ObserveAll(s, xs, proc, ledger, w), ys, proc, ledger, w)
    decreases |ys|
  {
    if ys == [] {
      assert xs + ys == xs;
    } else {
      assert (xs + ys)[..|xs + ys| - 1] == xs + ys[..|ys| - 1];
      ObserveAllAppend(s, xs, ys[..|ys| - 1], proc, ledger, w);
    }
  }

  /** What a scan that stopped at `v`, the last turn observed, has found. */
  lemma StoppedAtLive(s: State, ts: seq<string>, t: string, proc: nat, ledger: nat, w: World)
    requires Disk.Inv(s) && t in ObserveAll(s, ts, proc, ledger, w).turns
    requires !ObserveAll(s, ts, proc, ledger, w).turns[t].IsTerminal()
    requires ts != [] && ts[|ts| - 1] == t
    ensures t in s.turns && Alive(s, t, proc, w)
    ensures ObserveAll(s, ts, proc, ledger, w).turns[t] == s.turns[t]
  {
    var s1 := ObserveAll(s, ts[..|ts| - 1], proc, ledger, w);
    ObserveAllConverges(s, ts[..|ts| - 1], proc, ledger, w);
    ObserveAllConverges(s, ts, proc, ledger, w);
    ObserveConverges(s1, t, proc, ledger, w);
  }

  /** A live turn of the thread, as a full scan of the untouched state would find it. */
  ghost predicate ThreadBusy(s: State, th: string, proc: nat, w: World) {
    exists t :: Alive(s, t, proc, w) && s.turns[t].threadId == th
  }

  ghost predicate KeyBusy(s: State, key: seq<Byte>, proc: nat, w: World) {
    exists t :: Alive(s, t, proc, w) && s.turns[t].clientRequestId == key
  }

  /** The pointer of this thread record names a live turn of another thread. */
  ghost predicate Foreign(s: State, thread: Thread, proc: nat, w: World) {
    Alive(s, thread.inProgressTurnId, proc, w) && s.turns[thread.inProgressTurnId].threadId != thread.id
  }

  lemma PointerMeaning(s: State, thread: Thread, proc: nat, ledger: nat, w: World)
    requires Disk.Inv(s)
    ensures Foreign(s, thread, proc, w) ==>
              var p := thread.inProgressTurnId;
              p != "" && p in s.turns && ObservedTurn(s, p, proc, w) == s.turns[p] && !s.turns[p].IsTerminal()
    ensures thread.id in s.threads && s.threads[thread.id] == thread ==> !Foreign(s, thread, proc, w)
  {
  }

  lemma IdleMeansNotBusy(s0: State, s: State, proc: nat, w: World)
    requires Converging(s0, s, proc, w)
    ensures forall th :: ThreadIdle(s, th) ==> !ThreadBusy(s0, th, proc, w)
    ensures forall key :: key != [] && KeyIdle(s, key) ==> !KeyBusy(s0, key, proc, w)
  {
  }

  lemma ConvergingKeepsBusy(s0: State, s: State, proc: nat, w: World)
    requires Converging(s0, s, proc, w)
    ensures forall th :: ThreadBusy(s, th, proc, w) <==> ThreadBusy(s0, th, proc, w)
  {
    forall t | Alive(s, t, proc, w) ensures s.turns[t] == s0.turns[t] {
      assert Alive(s0, t, proc, w);
    }
    forall th ensures ThreadBusy(s, th, proc, w) <==> ThreadBusy(s0, th, proc, w) {
      if ThreadBusy(s, th, proc, w) {
        var t :| Alive(s, t, proc, w) && s.turns[t].threadId == th;
        assert Alive(s0, t, proc, w);
      }
      if ThreadBusy(s0, th, proc, w) {
        var t :| Alive(s0, t, proc, w) && s0.turns[t].threadId == th;
        assert Alive(s, t, proc, w);
      }
    }
  }

  /** Everything an admission writes: generation, turn, perhaps the pointer, and the live hold. */
  function Created(
      s: State, spec: NewTurn, gid: string, tid: string, epoch: nat, hold: Hold, pointerWritten: bool): State
    requires spec.threadId in s.threads
  {
    s.(generations := s.generations[gid := Generation(gid, tid, hold.proc, epoch, None, None, false)],
       turns := s.turns[tid := FreshRecord(spec, gid, tid)],
       threads := if pointerWritten
                  then s.threads[spec.threadId := s.threads[spec.threadId].(inProgressTurnId := tid)] else s.threads,
       holds := s.holds[gid := hold])
  }

  /** The client index after an admission; its write may fail and is then ignored. */
  function Indexed(index: map<string, string>, spec: NewTurn, tid: string, w: World): map<string, string> {
    if spec.clientRequestId != [] && w.indexWritten then index[ClientFilename(spec.clientRequestId) := tid] else index
  }

  /** What an admission leaves on disk: the request's fields in the turn, a young generation owned by this process, the
      hold, the pointer if it could be written, and everything else as it was. */
  predicate Admits(s: State, after: State, spec: NewTurn, gid: string, tid: string, epoch: nat, hold: Hold, w: World) {
    && tid in after.turns && after.turns[tid].id == tid && after.turns[tid].generationId == gid
    && Carries(after.turns[tid], spec) && Blank(after.turns[tid])
    && gid in after.generations
    && after.generations[gid].id == gid && after.generations[gid].turnId == tid
    && after.generations[gid].ownerPid == hold.proc && after.generations[gid].startedEpoch == epoch
    && after.generations[gid].childPid == None && after.generations[gid].childStartedEpoch == None
    && !after.generations[gid].childEof
    && gid in after.holds && after.holds[gid] == hold && hold.locked == w.liveLocked
    && spec.threadId in after.threads
    && (w.pointerWritten ==> after.threads[spec.threadId].inProgressTurnId == tid)
    && (!w.pointerWritten ==> after.threads == s.threads)
    && after.turns - {tid} == s.turns - {tid} && after.generations - {gid} == s.generations - {gid}
    && after.holds - {gid} == s.holds - {gid} && after.threads - {spec.threadId} == s.threads - {spec.threadId}
    && after.issued == s.issued && after.answers == s.answers
  }

  lemma CreatedMeaning(s: State, spec: NewTurn, gid: string, tid: string, epoch: nat, hold: Hold, w: World)
    requires spec.threadId in s.threads && hold.locked == w.liveLocked
    ensures Admits(s, Created(s, spec, gid, tid, epoch, hold, w.pointerWritten), spec, gid, tid, epoch, hold, w)
  {
    FreshRecordCarries(spec, gid, tid);
  }

  lemma CreatedKeepsInv(s: State, spec: NewTurn, gid: string, tid: string, epoch: nat, hold: Hold, pointerWritten: bool)
    requires Disk.Inv(s) && spec.threadId in s.threads && gid !in s.generations && tid !in s.turns && tid != ""
    requires ThreadIdle(s, spec.threadId) && KeyIdle(s, spec.clientRequestId)
    ensures Disk.Inv(Created(s, spec, gid, tid, epoch, hold, pointerWritten))
  {
    var g := CreateGeneration(Generation(gid, tid, hold.proc, epoch, None, None, false));
    ApplyKeepsInv(s, g);
    var s1 := Apply(s, g);
    var t := CreateTurn(FreshRecord(spec, gid, tid));
    ApplyKeepsInv(s1, t);
    var s2 := Apply(s1, t);
    var p := if pointerWritten then SetPointer(spec.threadId, tid) else Stutter;
    ApplyKeepsInv(s2, p);
    var s3 := Apply(s2, p);
    var h := TakeHold(gid, hold);
    ApplyKeepsInv(s3, h);
    assert Apply(s3, h) == Created(s, spec, gid, tid, epoch, hold, pointerWritten);
  }

  // ---------------------------------------------------------------- the object

  /** The items of a turn after the in-place search of the source. */
  method ReplaceOrPush(items: seq<Item>, item: Item) returns (out: seq<Item>)
    ensures out == UpsertItem(items, item)
  {
    var i := 0;
    while i < |items| && items[i].id != item.id
      invariant 0 <= i <= |items|
      invariant forall j :: 0 <= j < i ==> items[j].id != item.id
    {
      i := i + 1;
    }
    if i < |items| {
      UpsertPresent(items, item, i);
      out := items[i := item];
    } else {
      UpsertAbsent(items, item);
      out := items + [item];
    }
  }

  lemma ApplyPark(s: State, t: string, minted: string)
    requires Disk.Inv(s) && t in s.turns && minted != "" && minted !in s.issued
    requires !s.turns[t].IsTerminal() && !s.turns[t].PendingApproval()
    ensures var op := CommitTurn(t, Park, false, minted);
            var v := s.turns[t].(pendingRequestId := minted, pendingDecision := "");
            && Legal(s, op) && Disk.Inv(Apply(s, op)) && v.PendingApproval()
            && Apply(s, op) == s.(turns := s.turns[t := v], issued := s.issued + {minted})
  {
    ApplyKeepsInv(s, CommitTurn(t, Park, false, minted));
  }

  class Ledger {
    const proc: nat
    const number: nat
    var threads: map<string, Thread>
    var turns: map<string, Turn>
    var generations: map<string, Generation>
    var holds: map<string, Hold>
    var index: map<string, string>
    ghost var issued: set<string>
    ghost var answers: map<string, string>

    ghost function Snapshot(): State
      reads this
    {
      State(threads, turns, generations, holds, issued, answers)
    }

    ghost predicate Valid()
      reads this
    {
      Disk.Inv(Snapshot())
    }

    /** Enough to observe any turn. */
    ghost predicate Observable()
      reads this
    {
      forall u :: u in turns ==> turns[u].id == u && turns[u].generationId in generations
    }

    constructor (proc: nat, number: nat)
      ensures Valid() && Snapshot() == Empty() && index == map[] && this.proc == proc && this.number == number
    {
      this.proc, this.number := proc, number;
      threads, turns, generations, holds, index := map[], map[], map[], map[], map[];
      issued, answers := {}, map[];
    }

    method PublishTerminalLocked(turn: Turn, status: TurnStatus, stop: string, failure: string, w: World)
      returns (next: Turn)
      requires turn.id in turns && turns[turn.id] == turn && status.IsTerminal()
      modifies this
      ensures index == old(index)
      ensures turn.IsTerminal() ==> next == turn && Snapshot() == old(Snapshot())
      ensures !turn.IsTerminal() ==>
                && next == Terminated(turn, status, stop, failure)
                && Snapshot() == Published(old(Snapshot()), next, proc, number, w)
    {
      if turn.IsTerminal() { return turn; }
      next := turn.(status := status, stopReason := stop, failureReason := failure);
      turns := turns[next.id := next];
      if next.threadId in threads {
        var thread := threads[next.threadId];
        if thread.inProgressTurnId == next.id && w.pointerWritten {
          threads := threads[next.threadId := thread.(inProgressTurnId := "")];
        }
      }
      if next.generationId in holds && holds[next.generationId].proc == proc &&
         holds[next.generationId].ledger == number {
        holds := holds - {next.generationId};
      }
    }

    method ObserveLocked(turnId: string, w: World) returns (r: Result<Turn>)
      requires turnId in turns ==> turns[turnId].id == turnId
      modifies this
      ensures index == old(index)
      ensures turnId !in old(turns) ==> r == Err(NotFound("turn", turnId)) && Snapshot() == old(Snapshot())
      ensures turnId in old(turns) && old(turns)[turnId].generationId in old(generations) ==>
                && r == Ok(ObservedTurn(old(Snapshot()), turnId, proc, w))
                && Snapshot() == ObservedState(old(Snapshot()), turnId, proc, number, w)
                && turns == old(turns)[turnId := r.value] && SameIdentity(old(turns)[turnId], r.value)
                && generations == old(generations)
      ensures turnId in old(turns) && old(turns)[turnId].generationId in old(generations) &&
              old(turns)[turnId].status == InProgress ==>
                if Gone(old(holds), proc, old(generations)[old(turns)[turnId].generationId], w)
                then r.Ok? && WorkerGone(old(turns)[turnId], r.value)
                else r == Ok(old(turns)[turnId])
    {
      if turnId in turns && turns[turnId].generationId in generations && turns[turnId].status == InProgress {
        VerdictMeaning(Snapshot(), turnId, proc, w);
      }
      if turnId !in turns { return Err(NotFound("turn", turnId)); }
      var turn := turns[turnId];
      if turn.IsTerminal() { return Ok(turn); }
      if turn.generationId !in generations { return Err(NotFound("generation", turn.generationId)); }
      var generation := generations[turn.generationId];
      if !Dead(holds, proc, generation, w) { return Ok(turn); }
      var next := PublishTerminalLocked(turn, Failed, "", FAILURE_WORKER_GONE, w);
      r := Ok(next);
    }

    /** Dead generations converge first, so a crash is never recorded as a cancel. */
    method Cancel(turnId: string, w: World) returns (r: Result<Turn>)
      requires Valid()
      modifies this
      ensures Valid() && index == old(index)
      ensures !ValidId(turnId) ==> r == Err(InvalidId(turnId)) && Snapshot() == old(Snapshot())
      ensures ValidId(turnId) && turnId !in old(turns) ==>
                r == Err(NotFound("turn", turnId)) && Snapshot() == old(Snapshot())
      ensures ValidId(turnId) && turnId in old(turns) ==>
                var s := old(Snapshot());
                var n := Rewrite(CancelTurn, s.turns[turnId], DeadIn(s, turnId, proc, w), "");
                if n.None? then r == Ok(s.turns[turnId]) && Snapshot() == s
                else r == Ok(n.value) && Snapshot() == Published(s, n.value, proc, number, w)
      ensures ValidId(turnId) && turnId in old(turns) && old(turns)[turnId].status != InProgress ==>
                r == Ok(old(turns)[turnId])
      ensures ValidId(turnId) && turnId in old(turns) && old(turns)[turnId].status == InProgress ==>
                && r.Ok?
                && if Gone(old(holds), proc, old(generations)[old(turns)[turnId].generationId], w)
                   then WorkerGone(old(turns)[turnId], r.value) else Interrupts(old(turns)[turnId], r.value)
    {
      if turnId in turns && turns[turnId].status == InProgress { VerdictMeaning(Snapshot(), turnId, proc, w); }
      if !ValidId(turnId) { return Err(InvalidId(turnId)); }
      if turnId !in turns { return Err(NotFound("turn", turnId)); }
      ghost var s := Snapshot();
      ObserveKeepsInv(s, turnId, proc, number, w);
      r := ObserveLocked(turnId, w);
      if r.value.IsTerminal() { return; }
      PublishedKeepsInv(s, turnId, CancelTurn, false, Terminated(r.value, Interrupted, "cancelled", ""),
                        proc, number, w);
      var next := PublishTerminalLocked(r.value, Interrupted, "cancelled", "", w);
      r := Ok(next);
    }

    method PublishTerminal(turnId: string, status: TurnStatus, stop: string, failure: string, w: World)
      returns (r: Result<Turn>)
      requires Valid()
      modifies this
      ensures Valid() && index == old(index)
      ensures r.Err? ==> Snapshot() == old(Snapshot())
      ensures r.Ok? <==>
                && ValidId(turnId) && status.IsTerminal()
                && turnId in old(turns) && !old(turns)[turnId].IsTerminal()
      ensures r.Ok? ==>
                && r.value == old(turns)[turnId].(status := status, stopReason := stop, failureReason := failure)
                && Snapshot() == Published(old(Snapshot()), r.value, proc, number, w)
      ensures ValidId(turnId) && status.IsTerminal() && turnId in old(turns) && r.Err? ==>
                r.error == AlreadyTerminal(turnId, old(turns)[turnId].status)
    {
      if !ValidId(turnId) { return Err(InvalidId(turnId)); }
      if !status.IsTerminal() { return Err(InvalidStatus("publish_terminal requires a terminal TurnStatus")); }
      if turnId !in turns { return Err(NotFound("turn", turnId)); }
      var turn := turns[turnId];
      if turn.IsTerminal() { return Err(AlreadyTerminal(turnId, turn.status)); }
      PublishedKeepsInv(Snapshot(), turnId, Publish(status, stop, failure), false,
                        Terminated(turn, status, stop, failure), proc, number, w);
      var next := PublishTerminalLocked(turn, status, stop, failure, w);
      r := Ok(next);
    }

    /** Park a permission request under a freshly minted id. */
    method ParkApproval(turnId: string, minted: string) returns (r: Result<Turn>)
      requires Valid() && minted != "" && minted !in issued
      modifies this
      ensures Valid() && index == old(index)
      ensures r.Err? ==> Snapshot() == old(Snapshot())
      ensures r.Ok? <==>
                && ValidId(turnId) && turnId in old(turns)
                && !old(turns)[turnId].IsTerminal() && !old(turns)[turnId].PendingApproval()
      ensures r.Ok? ==>
                && Legal(old(Snapshot()), CommitTurn(turnId, Park, false, minted))
                && Snapshot() == Apply(old(Snapshot()), CommitTurn(turnId, Park, false, minted))
                && r.value == turns[turnId] && r.value.PendingApproval()
    {
      if !ValidId(turnId) { return Err(InvalidId(turnId)); }
      if turnId !in turns { return Err(NotFound("turn", turnId)); }
      var turn := turns[turnId];
      if turn.IsTerminal() { return Err(AlreadyTerminal(turnId, turn.status)); }
      if turn.PendingApproval() { return Err(InvalidStatus("already has pending approval")); }
      ApplyPark(Snapshot(), turnId, minted);
      turn := StorePending(turnId, minted);
      r := Ok(turn);
    }

    method StorePending(turnId: string, minted: string) returns (turn: Turn)
      requires turnId in turns
      modifies this
      ensures index == old(index)
      ensures turn == old(turns)[turnId].(pendingRequestId := minted, pendingDecision := "")
      ensures Snapshot() == old(Snapshot()).(turns := old(turns)[turnId := turn], issued := old(issued) + {minted})
    {
      turn := turns[turnId].(pendingRequestId := minted, pendingDecision := "");
      turns := turns[turnId := turn];
      issued := issued + {minted};
    }

    /** Clear a consumed request; also allowed on a terminal turn. */
    method ClearPending(turnId: string, request: string) returns (r: Result<Turn>)
      requires Valid()
      modifies this
      ensures Valid() && index == old(index)
      ensures r.Ok? <==> ValidId(turnId) && turnId in old(turns)
      ensures r.Ok? && old(turns)[turnId].pendingRequestId == request ==>
                Snapshot() == Apply(old(Snapshot()), CommitTurn(turnId, Clear(request), false, ""))
      ensures r.Err? || old(turns)[turnId].pendingRequestId != request ==> Snapshot() == old(Snapshot())
      ensures r.Ok? ==> r.value == turns[turnId]
    {
      if !ValidId(turnId) { return Err(InvalidId(turnId)); }
      if turnId !in turns { return Err(NotFound("turn", turnId)); }
      var turn := turns[turnId];
      if turn.pendingRequestId == request {
        ApplyKeepsInv(Snapshot(), CommitTurn(turnId, Clear(request), false, ""));
        turn := turn.(pendingRequestId := "", pendingDecision := "");
        turns := turns[turnId := turn];
      }
      r := Ok(turn);
    }

    method UpsertItemOn(turnId: string, item: Item) returns (r: Result<Turn>)
      requires Valid()
      modifies this
      ensures Valid() && index == old(index)
      ensures r.Err? ==> Snapshot() == old(Snapshot())
      ensures r.Ok? <==> ValidId(turnId) && ValidId(item.id) && turnId in old(turns) && !old(turns)[turnId].IsTerminal()
      ensures r.Ok? ==>
                && Snapshot() == Apply(old(Snapshot()), CommitTurn(turnId, Upsert(item), false, ""))
                && r.value == turns[turnId]
    {
      if !ValidId(turnId) { return Err(InvalidId(turnId)); }
      if !ValidId(item.id) { return Err(InvalidId(item.id)); }
      if turnId !in turns { return Err(NotFound("turn", turnId)); }
      var turn := turns[turnId];
      if turn.IsTerminal() { return Err(AlreadyTerminal(turnId, turn.status)); }
      ApplyKeepsInv(Snapshot(), CommitTurn(turnId, Upsert(item), false, ""));
      var items := ReplaceOrPush(turn.items, item);
      turn := turn.(items := items);
      turns := turns[turnId := turn];
      r := Ok(turn);
    }

    /** A new thread record; its id has never been used. */
    method CreateThread(spec: Thread) returns (thread: Thread)
      requires Valid() && spec.id !in threads
      modifies this
      ensures Valid() && index == old(index)
      ensures thread == spec.(inProgressTurnId := "")
      ensures Snapshot() == Apply(old(Snapshot()), AtomicOp.CreateThread(thread))
    {
      thread := spec.(inProgressTurnId := "");
      ApplyKeepsInv(Snapshot(), AtomicOp.CreateThread(thread));
      threads := threads[thread.id := thread];
    }

    /** Remember the agent session of a thread. */
    method SetAcpSessionId(threadId: string, session: string) returns (r: Result<Thread>)
      requires Valid()
      modifies this
      ensures Valid() && index == old(index)
      ensures r.Ok? <==> ValidId(threadId) && threadId in old(threads)
      ensures r.Ok? ==>
                && Snapshot() == Apply(old(Snapshot()), SetSession(threadId, session))
                && r.value == threads[threadId] && r.value.acpSessionId == session
      ensures r.Err? ==> Snapshot() == old(Snapshot())
    {
      if !ValidId(threadId) { return Err(InvalidId(threadId)); }
      if threadId !in threads { return Err(NotFound("thread", threadId)); }
      ApplyKeepsInv(Snapshot(), SetSession(threadId, session));
      var thread := threads[threadId].(acpSessionId := session);
      threads := threads[threadId := thread];
      r := Ok(thread);
    }

    method SetChildPid(generationId: string, pid: nat, epoch: nat) returns (r: Result<Generation>)
      requires Valid()
      modifies this
      ensures Valid() && index == old(index)
      ensures r.Ok? <==> ValidId(generationId) && generationId in old(generations)
      ensures r.Err? ==> Snapshot() == old(Snapshot())
      ensures r.Ok? ==> Snapshot() == Apply(old(Snapshot()), SetChild(generationId, pid, epoch))
    {
      if !ValidId(generationId) { return Err(InvalidId(generationId)); }
      if generationId !in generations { return Err(NotFound("generation", generationId)); }
      ApplyKeepsInv(Snapshot(), SetChild(generationId, pid, epoch));
      var g := generations[generationId].(childPid := Some(pid), childStartedEpoch := Some(epoch), childEof := false);
      generations := generations[generationId := g];
      r := Ok(g);
    }

    method MarkChildEof(generationId: string) returns (r: Result<Generation>)
      requires Valid()
      modifies this
      ensures Valid() && index == old(index)
      ensures r.Ok? <==> ValidId(generationId) && generationId in old(generations)
      ensures r.Err? ==> Snapshot() == old(Snapshot())
      ensures r.Ok? ==> Snapshot() == Apply(old(Snapshot()), SetEof(generationId))
    {
      if !ValidId(generationId) { return Err(InvalidId(generationId)); }
      if generationId !in generations { return Err(NotFound("generation", generationId)); }
      ApplyKeepsInv(Snapshot(), SetEof(generationId));
      var g := generations[generationId].(childEof := true);
      generations := generations[generationId := g];
      r := Ok(g);
    }

    /** Observe every turn that is not terminal. */
    method ObserveEvery(w: World) returns (ghost all: seq<string>)
      requires Observable()
      modifies this
      ensures index == old(index) && Observable()
      ensures Snapshot() == ObserveAll(old(Snapshot()), all, proc, number, w)
    {
      all := [];
      var rest := turns.Keys;
      while rest != {}
        invariant index == old(index) && Snapshot() == ObserveAll(old(Snapshot()), all, proc, number, w)
        invariant Observable() && rest <= turns.Keys
        decreases rest
      {
        var t :| t in rest;
        rest := rest - {t};
        if !turns[t].IsTerminal() {
          ObserveAllPush(old(Snapshot()), all, t, proc, number, w);
          var _ := ObserveLocked(t, w);
          all := all + [t];
        }
      }
    }

    method FindRequest(request: string) returns (found: Option<string>)
      ensures found.Some? ==> found.value in turns && turns[found.value].pendingRequestId == request
      ensures found.None? ==> forall t :: t in turns ==> turns[t].pendingRequestId != request
    {
      var rest := turns.Keys;
      while rest != {}
        invariant rest <= turns.Keys
        invariant forall t :: t in turns && t !in rest ==> turns[t].pendingRequestId != request
        decreases rest
      {
        var t :| t in rest;
        if turns[t].pendingRequestId == request { return Some(t); }
        rest := rest - {t};
      }
      found := None;
    }

    /** The part of respond under the thread lock. */
    method Decide(turnId: string, request: string, decision: ApprovalDecision) returns (r: Result<Turn>)
      requires Valid() && turnId in turns && turns[turnId].pendingRequestId == request != ""
      modifies this
      ensures Valid() && index == old(index)
      ensures r.Ok? <==> old(turns)[turnId].PendingApproval()
      ensures r.Err? ==> Snapshot() == old(Snapshot())
      ensures r.Ok? ==>
                && r.value.id == turnId
                && Legal(old(Snapshot()), CommitTurn(turnId, TurnOp.Respond(request, decision), false, ""))
                && Snapshot() ==
                   Apply(old(Snapshot()), CommitTurn(turnId, TurnOp.Respond(request, decision), false, ""))
    {
      var turn := turns[turnId];
      if turn.IsTerminal() { return Err(InvalidStatus("stale request_id")); }
      if turn.pendingDecision != "" { return Err(InvalidStatus("duplicate request_id")); }
      ApplyKeepsInv(Snapshot(), CommitTurn(turnId, TurnOp.Respond(request, decision), false, ""));
      turn := turn.(pendingDecision := decision.AsString());
      turns := turns[turnId := turn];
      answers := answers[request := decision.AsString()];
      r := Ok(turn);
    }

    /** Record a decision: only for the exact request that is parked, live and still undecided. */
    method Respond(request: string, decision: ApprovalDecision, w: World) returns (r: Result<Turn>, ghost mid: State)
      requires Valid()
      modifies this
      ensures Valid() && index == old(index) && Converging(old(Snapshot()), mid, proc, w)
      ensures r.Err? ==> Snapshot() == mid
      ensures r.Ok? ==>
                && Legal(mid, CommitTurn(r.value.id, TurnOp.Respond(request, decision), false, ""))
                && Snapshot() == Apply(mid, CommitTurn(r.value.id, TurnOp.Respond(request, decision), false, ""))
      ensures r.Ok? <==> ValidId(request) && Undecided(mid, request)
    {
      mid := Snapshot();
      ConvergingReflexive(mid, proc, w);
      if !ValidId(request) { return Err(InvalidId(request)), mid; }
      ghost var all := ObserveEvery(w);
      ObserveAllConverges(mid, all, proc, number, w);
      mid := Snapshot();
      var found := FindRequest(request);
      if found.None? { return Err(InvalidStatus("unknown request_id")), mid; }
      OnlyOneParks(mid, found.value, request);
      r := Decide(found.value, request, decision);
    }

    /** Scan every file for a live turn of one thread. */
    method ScanThread(threadId: string, w: World) returns (live: Option<Turn>, ghost all: seq<string>)
      requires Observable()
      modifies this
      ensures index == old(index) && Snapshot() == ObserveAll(old(Snapshot()), all, proc, number, w)
      ensures live.None? ==> ThreadIdle(Snapshot(), threadId)
      ensures live.Some? ==>
                && live.value.threadId == threadId && !live.value.IsTerminal()
                && live.value.id in turns && turns[live.value.id] == live.value
                && all != [] && all[|all| - 1] == live.value.id
    {
      all := [];
      var rest := turns.Keys;
      while rest != {}
        invariant index == old(index) && Snapshot() == ObserveAll(old(Snapshot()), all, proc, number, w)
        invariant generations == old(generations) && rest <= turns.Keys
        invariant Observable()
        invariant forall u :: u in turns && u !in rest && turns[u].threadId == threadId ==> turns[u].IsTerminal()
        decreases rest
      {
        var t :| t in rest;
        rest := rest - {t};
        if turns[t].threadId == threadId && !turns[t].IsTerminal() {
          ObserveAllPush(old(Snapshot()), all, t, proc, number, w);
          var r := ObserveLocked(t, w);
          all := all + [t];
          if !r.value.IsTerminal() { return Some(r.value), all; }
        }
      }
      live := None;
    }

    /** Scan every file for a live turn with one client key. */
    method ScanKey(key: seq<Byte>, w: World) returns (live: Option<Turn>, ghost all: seq<string>)
      requires Observable()
      modifies this
      ensures index == old(index) && Snapshot() == ObserveAll(old(Snapshot()), all, proc, number, w)
      ensures live.None? ==> KeyIdle(Snapshot(), key)
      ensures live.Some? ==>
                && live.value.clientRequestId == key && !live.value.IsTerminal()
                && live.value.id in turns && turns[live.value.id] == live.value
                && all != [] && all[|all| - 1] == live.value.id
    {
      all := [];
      var rest := turns.Keys;
      while rest != {}
        invariant index == old(index) && Snapshot() == ObserveAll(old(Snapshot()), all, proc, number, w)
        invariant generations == old(generations) && rest <= turns.Keys
        invariant Observable()
        invariant forall u :: u in turns && u !in rest && turns[u].clientRequestId == key ==> turns[u].IsTerminal()
        decreases rest
      {
        var t :| t in rest;
        rest := rest - {t};
        if turns[t].clientRequestId == key {
          ObserveAllPush(old(Snapshot()), all, t, proc, number, w);
          var r := ObserveLocked(t, w);
          all := all + [t];
          if !r.value.IsTerminal() { return Some(r.value), all; }
        }
      }
      live := None;
    }

    /** The pointer first, whatever turn it names or even if that is missing, then every file. */
    method FindOnThread(thread: Thread, w: World) returns (live: Option<Turn>, ghost all: seq<string>)
      requires Observable()
      modifies this
      ensures index == old(index) && Snapshot() == ObserveAll(old(Snapshot()), all, proc, number, w)
      ensures live.None? ==> ThreadIdle(Snapshot(), thread.id)
      ensures live.Some? ==>
                && (live.value.threadId == thread.id || live.value.id == thread.inProgressTurnId)
                && !live.value.IsTerminal() && live.value.id in turns && turns[live.value.id] == live.value
                && all != [] && all[|all| - 1] == live.value.id
      ensures var p := thread.inProgressTurnId;
              p != "" && p in old(turns) && !ObservedTurn(old(Snapshot()), p, proc, w).IsTerminal() ==>
                live == Some(ObservedTurn(old(Snapshot()), p, proc, w))
    {
      all := [];
      if thread.inProgressTurnId != "" && thread.inProgressTurnId in turns {
        all := [thread.inProgressTurnId];
        ObserveAllPush(Snapshot(), [], thread.inProgressTurnId, proc, number, w);
        var r := ObserveLocked(thread.inProgressTurnId, w);
        if !r.value.IsTerminal() { return Some(r.value), all; }
      }
      ghost var more;
      live, more := ScanThread(thread.id, w);
      ObserveAllAppend(old(Snapshot()), all, more, proc, number, w);
      all := all + more;
    }

    /** For every thread record: the answer is that of a full scan of the thread's turns, unless its
        `inProgressTurnId` is a live turn of another thread, which is then the answer. */
    method LiveTurnOnThreadLocked(thread: Thread, w: World) returns (live: Option<Turn>)
      requires Valid()
      modifies this
      ensures Valid() && index == old(index) && Converging(old(Snapshot()), Snapshot(), proc, w)
      ensures live.None? ==> ThreadIdle(Snapshot(), thread.id)
      ensures live.Some? ==> Alive(old(Snapshot()), live.value.id, proc, w) && live.value == old(turns)[live.value.id]
      ensures Foreign(old(Snapshot()), thread, proc, w) ==> live == Some(old(turns)[thread.inProgressTurnId])
      ensures !Foreign(old(Snapshot()), thread, proc, w) ==>
                && (live.Some? <==> ThreadBusy(old(Snapshot()), thread.id, proc, w))
                && (live.Some? ==> live.value.threadId == thread.id)
    {
      ghost var all;
      live, all := FindOnThread(thread, w);
      PointerMeaning(old(Snapshot()), thread, proc, number, w);
      if live.Some? && live.value.threadId != thread.id {
        ObserveAllConverges(old(Snapshot()), all, proc, number, w);
        StoppedAtLive(old(Snapshot()), all, live.value.id, proc, number, w);
      } else {
        ScanMeaning(old(Snapshot()), all, live, thread.id, proc, number, w);
      }
    }

    /** The turn the index file names, if it is live and really carries this key. */
    method LookupKey(key: seq<Byte>, w: World) returns (r: Result<Option<Turn>>, ghost seen: seq<string>)
      requires Observable()
      modifies this
      ensures Observable() && index == old(index)
      ensures Snapshot() == ObserveAll(old(Snapshot()), seen, proc, number, w)
      ensures r.Err? <==> ClientFilename(key) in index && !ValidId(index[ClientFilename(key)])
      ensures r.Ok? && r.value.Some? ==>
                var v := r.value.value;
                && v.clientRequestId == key && !v.IsTerminal() && v.id in turns && turns[v.id] == v
                && seen == [v.id]
    {
      seen := [];
      var name := BuildClientFilename(key);
      if name !in index { return Ok(None), seen; }
      var id := index[name];
      if !ValidId(id) { return Err(InvalidId(id)), seen; }
      if id !in turns { return Ok(None), seen; }
      seen := [id];
      ObserveAllPush(Snapshot(), [], id, proc, number, w);
      var o := ObserveLocked(id, w);
      if !o.value.IsTerminal() && o.value.clientRequestId == key { return Ok(Some(o.value)), seen; }
      r := Ok(None);
    }

    /** The index first, then every file. */
    method FindByKey(key: seq<Byte>, w: World) returns (r: Result<Option<Turn>>, ghost all: seq<string>)
      requires Observable()
      modifies this
      ensures index == old(index) && Snapshot() == ObserveAll(old(Snapshot()), all, proc, number, w)
      ensures r.Err? <==> ClientFilename(key) in index && !ValidId(index[ClientFilename(key)])
      ensures r == Ok(None) ==> KeyIdle(Snapshot(), key)
      ensures r.Ok? && r.value.Some? ==>
                var v := r.value.value;
                && v.clientRequestId == key && !v.IsTerminal() && v.id in turns && turns[v.id] == v
                && all != [] && all[|all| - 1] == v.id
    {
      r, all := LookupKey(key, w);
      if r.Err? || r.value.Some? { return; }
      ghost var more;
      var live;
      live, more := ScanKey(key, w);
      ObserveAllAppend(old(Snapshot()), all, more, proc, number, w);
      all := all + more;
      r := Ok(live);
    }

    /** The answer is that of a full scan of the ledger; a stale, missing or colliding index file changes nothing. */
    method InFlightByClient(key: seq<Byte>, w: World) returns (r: Result<Option<Turn>>)
      requires Valid() && key != []
      modifies this
      ensures Valid() && index == old(index) && Converging(old(Snapshot()), Snapshot(), proc, w)
      ensures r.Err? <==> ClientFilename(key) in index && !ValidId(index[ClientFilename(key)])
      ensures r.Ok? ==> (r.value.Some? <==> KeyBusy(old(Snapshot()), key, proc, w))
      ensures r == Ok(None) ==> KeyIdle(Snapshot(), key)
      ensures r.Ok? && r.value.Some? ==>
                var v := r.value.value;
                Alive(old(Snapshot()), v.id, proc, w) && v == old(turns)[v.id] && v.clientRequestId == key
    {
      ghost var all;
      r, all := FindByKey(key, w);
      KeyScanMeaning(old(Snapshot()), all, r, key, proc, number, w);
    }

    /** The writes of an admission, in the order of the source. */
    method CreateLocked(spec: NewTurn, thread: Thread, gid: string, tid: string, epoch: nat, w: World)
      returns (turn: Turn)
      requires spec.threadId in threads
      requires thread == threads[spec.threadId].(inProgressTurnId := thread.inProgressTurnId)
      modifies this
      ensures turn == FreshRecord(spec, gid, tid)
      ensures Snapshot() ==
              Created(old(Snapshot()), spec, gid, tid, epoch, Hold(proc, number, w.liveLocked), w.pointerWritten)
      ensures index == Indexed(old(index), spec, tid, w)
    {
      generations := generations[gid := Generation(gid, tid, proc, epoch, None, None, false)];
      turn := FreshRecord(spec, gid, tid);
      turns := turns[tid := turn];
      if w.pointerWritten { threads := threads[spec.threadId := thread.(inProgressTurnId := tid)]; }
      if spec.clientRequestId != [] && w.indexWritten {
        var name := BuildClientFilename(spec.clientRequestId);
        index := index[name := tid];
      }
      holds := holds[gid := Hold(proc, number, w.liveLocked)];
    }

    /** The part of an admission under the thread lock. */
    method AdmitOnThread(spec: NewTurn, gid: string, tid: string, epoch: nat, w: World)
      returns (r: Result<Turn>, ghost mid: State)
      requires Valid() && gid !in generations && tid !in turns && tid != ""
      requires KeyIdle(Snapshot(), spec.clientRequestId)
      modifies this
      ensures Valid() && Converging(old(Snapshot()), mid, proc, w)
      ensures ThreadAnswer(old(Snapshot()), spec, gid, tid, proc, w, r)
      ensures r.Err? ==> Snapshot() == mid && index == old(index)
      ensures r.Ok? ==>
                && spec.threadId in mid.threads && index == Indexed(old(index), spec, tid, w)
                && Snapshot() == Created(mid, spec, gid, tid, epoch, Hold(proc, number, w.liveLocked), w.pointerWritten)
      ensures r.Ok? ==>
                && r.value.id == tid && tid in turns && r.value == turns[tid]
                && Admits(mid, Snapshot(), spec, gid, tid, epoch, Hold(proc, number, w.liveLocked), w)
    {
      mid := Snapshot();
      ConvergingReflexive(mid, proc, w);
      if spec.threadId !in threads { return Err(NotFound("thread", spec.threadId)), mid; }
      var thread := threads[spec.threadId];
      PointerMeaning(mid, thread, proc, number, w);
      var current := LiveTurnOnThreadLocked(thread, w);
      mid := Snapshot();
      if current.Some? { return Err(TurnInProgress(spec.threadId, current.value.id)), mid; }
      CreatedKeepsInv(mid, spec, gid, tid, epoch, Hold(proc, number, w.liveLocked), w.pointerWritten);
      CreatedMeaning(mid, spec, gid, tid, epoch, Hold(proc, number, w.liveLocked), w);
      var turn := CreateLocked(spec, thread, gid, tid, epoch, w);
      r := Ok(turn);
    }

    /** The live turn that a request with this key repeats; a request without a key repeats nothing. */
    method Duplicate(key: seq<Byte>, w: World) returns (r: Result<Option<Turn>>)
      requires Valid()
      modifies this
      ensures Valid() && index == old(index) && Converging(old(Snapshot()), Snapshot(), proc, w)
      ensures r.Err? <==> key != [] && ClientFilename(key) in index && !ValidId(index[ClientFilename(key)])
      ensures r.Ok? ==> (r.value.Some? <==> key != [] && KeyBusy(old(Snapshot()), key, proc, w))
      ensures r == Ok(None) ==> KeyIdle(Snapshot(), key)
      ensures r.Ok? && r.value.Some? ==>
                var v := r.value.value;
                && v.id in old(turns) && v == old(turns)[v.id] && v.clientRequestId == key
                && Alive(old(Snapshot()), v.id, proc, w)
    {
      ConvergingReflexive(Snapshot(), proc, w);
      if key == [] { return Ok(None); }
      r := InFlightByClient(key, w);
    }

    /** Admission, decided exactly by what a full scan of the starting state would find. */
    method AdmitTurn(spec: NewTurn, gid: string, tid: string, epoch: nat, w: World)
      returns (r: Result<Turn>, ghost mid: State)
      requires Valid() && gid !in generations && tid !in turns && tid != ""
      modifies this
      ensures Valid() && Converging(old(Snapshot()), mid, proc, w)
      ensures AdmitAnswer(old(Snapshot()), old(index), spec, gid, tid, proc, w, r)
      ensures if r == Ok(FreshRecord(spec, gid, tid))
              then && spec.threadId in mid.threads && index == Indexed(old(index), spec, tid, w)
                   && Snapshot() ==
                      Created(mid, spec, gid, tid, epoch, Hold(proc, number, w.liveLocked), w.pointerWritten)
              else Snapshot() == mid && index == old(index)
      ensures r.Ok? && r.value.id !in old(turns) ==>
                && r.value.id == tid && r.value.generationId == gid && tid in turns && r.value == turns[tid]
                && r.value.threadId == spec.threadId && r.value.clientRequestId == spec.clientRequestId
                && r.value.input == spec.input && r.value.model == spec.model && r.value.effort == spec.effort
    {
      ghost var s0 := Snapshot();
      mid := s0;
      ConvergingReflexive(s0, proc, w);
      if !ValidId(spec.threadId) { return Err(InvalidId(spec.threadId)), mid; }
      var existing := Duplicate(spec.clientRequestId, w);
      mid := Snapshot();
      if existing.Err? { return Err(existing.error), mid; }
      if existing.value.Some? { return Ok(existing.value.value), mid; }
      ghost var s1 := mid;
      r, mid := AdmitOnThread(spec, gid, tid, epoch, w);
      ThreadAnswerBack(s0, s1, spec, gid, tid, proc, w, r);
      ConvergingTransitive(s0, s1, mid, proc, w);
    }
  }

  ghost predicate Undecided(s: State, request: string) {
    exists t :: t in s.turns && s.turns[t].pendingRequestId == request && s.turns[t].PendingApproval()
  }

  lemma OnlyOneParks(s: State, t: string, request: string)
    requires ApprovalsAgree(s) && t in s.turns && s.turns[t].pendingRequestId == request != ""
    ensures Undecided(s, request) <==> s.turns[t].PendingApproval()
  {
  }

  ghost predicate ThreadAnswer(
      s: State, spec: NewTurn, gid: string, tid: string, proc: nat, w: World, r: Result<Turn>) {
    if spec.threadId !in s.threads then r == Err(NotFound("thread", spec.threadId))
    else if ThreadBusy(s, spec.threadId, proc, w) then
      && r.Err? && r.error.TurnInProgress? && r.error.threadId == spec.threadId
      && Alive(s, r.error.turnId, proc, w) && s.turns[r.error.turnId].threadId == spec.threadId
    else r == Ok(FreshRecord(spec, gid, tid))
  }

  /** What an admission must answer, in terms of the state it found. */
  ghost predicate AdmitAnswer(s: State, index: map<string, string>, spec: NewTurn, gid: string, tid: string,
                              proc: nat, w: World, r: Result<Turn>) {
    var key := spec.clientRequestId;
    if !ValidId(spec.threadId) then r == Err(InvalidId(spec.threadId))
    else if key != [] && ClientFilename(key) in index && !ValidId(index[ClientFilename(key)]) then r.Err?
    else if key != [] && KeyBusy(s, key, proc, w) then
      r.Ok? && Alive(s, r.value.id, proc, w) && r.value == s.turns[r.value.id] && r.value.clientRequestId == key
    else ThreadAnswer(s, spec, gid, tid, proc, w, r)
  }

  lemma ThreadAnswerBack(
      s0: State, s1: State, spec: NewTurn, gid: string, tid: string, proc: nat, w: World, r: Result<Turn>)
    requires Converging(s0, s1, proc, w) && ThreadAnswer(s1, spec, gid, tid, proc, w, r)
    ensures ThreadAnswer(s0, spec, gid, tid, proc, w, r)
  {
    ConvergingKeepsBusy(s0, s1, proc, w);
    if r.Err? && r.error.TurnInProgress? { assert Alive(s0, r.error.turnId, proc, w); }
  }

  lemma KeyScanMeaning(s0: State, ts: seq<string>, r: Result<Option<Turn>>, key: seq<Byte>,
                       proc: nat, ledger: nat, w: World)
    requires Disk.Inv(s0) && key != []
    requires var s := ObserveAll(s0, ts, proc, ledger, w);
             && (r == Ok(None) ==> KeyIdle(s, key))
             && (r.Ok? && r.value.Some? ==>
                   var v := r.value.value;
                   && v.clientRequestId == key && !v.IsTerminal() && v.id in s.turns && s.turns[v.id] == v
                   && ts != [] && ts[|ts| - 1] == v.id)
    ensures Disk.Inv(ObserveAll(s0, ts, proc, ledger, w))
    ensures Converging(s0, ObserveAll(s0, ts, proc, ledger, w), proc, w)
    ensures r.Ok? ==> (r.value.Some? <==> KeyBusy(s0, key, proc, w))
    ensures r.Ok? && r.value.Some? ==>
              var v := r.value.value; v.id in s0.turns && s0.turns[v.id] == v && Alive(s0, v.id, proc, w)
  {
    ObserveAllConverges(s0, ts, proc, ledger, w);
    if r.Ok? {
      if r.value.Some? { StoppedAtLive(s0, ts, r.value.value.id, proc, ledger, w); }
      else { IdleMeansNotBusy(s0, ObserveAll(s0, ts, proc, ledger, w), proc, w); }
    }
  }

  /** A finished scan, read back against the state it started from. */
  lemma ScanMeaning(s0: State, ts: seq<string>, live: Option<Turn>, th: string, proc: nat, ledger: nat, w: World)
    requires Disk.Inv(s0)
    requires var s := ObserveAll(s0, ts, proc, ledger, w);
             && (live.None? ==> ThreadIdle(s, th))
             && (live.Some? ==> live.value.threadId == th && !live.value.IsTerminal() && live.value.id in s.turns &&
                                s.turns[live.value.id] == live.value && ts != [] && ts[|ts| - 1] == live.value.id)
    ensures Disk.Inv(ObserveAll(s0, ts, proc, ledger, w))
    ensures Converging(s0, ObserveAll(s0, ts, proc, ledger, w), proc, w)
    ensures live.Some? <==> ThreadBusy(s0, th, proc, w)
    ensures live.Some? ==>
              live.value.id in s0.turns && s0.turns[live.value.id] == live.value && Alive(s0, live.value.id, proc, w)
  {
    ObserveAllConverges(s0, ts, proc, ledger, w);
    if live.Some? { StoppedAtLive(s0, ts, live.value.id, proc, ledger, w); }
    else { IdleMeansNotBusy(s0, ObserveAll(s0, ts, proc, ledger, w), proc, w); }
  }
}
