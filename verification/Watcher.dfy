/** The app-server watcher: polled snapshots of one turn become a notification stream. */
module Watcher {
  import opened Records
  import MapperModel
  import opened Disk
  import opened Protocol
  import opened ProtocolTheorems

  datatype Note =
    | ItemStarted(item: Item)
    | ItemCompleted(item: Item)
    | TurnCompleted(id: string, items: seq<Item>, status: TurnStatus)

  predicate Finished(item: Item) { item.status == "completed" || item.status == "failed" }

  /** Finished are exactly the two words; so a tool is, exactly when the agent said done or broken. */
  lemma FinishedMeaning(item: Item, said: MapperModel.ToolStatus)
    ensures item.status == "completed" || item.status == "failed" <==> Finished(item)
    ensures MapperModel.StatusSays(item.status, Some(said), "") ==>
              (Finished(item) <==> said == MapperModel.Done || said == MapperModel.Broken)
  {
    assert |"inProgress"| == 10 && |"completed"| == 9 && |"failed"| == 6;
  }

  // ---------------------------------------------------------------- what a client may rely on

  predicate StartedAt(sent: seq<Note>, i: int, id: string) {
    0 <= i < |sent| && sent[i].ItemStarted? && sent[i].item.id == id
  }

  predicate CompletedAt(sent: seq<Note>, i: int, id: string) {
    0 <= i < |sent| && sent[i].ItemCompleted? && sent[i].item.id == id
  }

  ghost predicate Started(sent: seq<Note>, id: string) { exists i :: StartedAt(sent, i, id) }

  ghost predicate Completed(sent: seq<Note>, id: string) { exists i :: CompletedAt(sent, i, id) }

  predicate StartedOnce(sent: seq<Note>) {
    forall i, j :: (0 <= i < j < |sent| && sent[i].ItemStarted? && sent[j].ItemStarted?) ==>
      sent[i].item.id != sent[j].item.id
  }

  predicate CompletedOnce(sent: seq<Note>) {
    forall i, j :: (0 <= i < j < |sent| && sent[i].ItemCompleted? && sent[j].ItemCompleted?) ==>
      sent[i].item.id != sent[j].item.id
  }

  /** A completion reports a finished item and follows the start of that item. */
  ghost predicate CompletedFollows(sent: seq<Note>) {
    forall j :: (0 <= j < |sent| && sent[j].ItemCompleted?) ==>
      Finished(sent[j].item) && exists i :: i < j && StartedAt(sent, i, sent[j].item.id)
  }

  predicate NoTurnCompleted(sent: seq<Note>) {
    forall i :: 0 <= i < |sent| ==> !sent[i].TurnCompleted?
  }

  ghost predicate WellOrdered(sent: seq<Note>) {
    StartedOnce(sent) && CompletedOnce(sent) && CompletedFollows(sent)
  }

  /** The notification carries this very item. */
  predicate Reports(note: Note, item: Item) {
    !note.TurnCompleted? && note.item == item
  }

  /** The two sets remember exactly what was sent. */
  ghost predicate Remembers(sent: seq<Note>, started: set<string>, completed: set<string>) {
    && (forall id :: id in started <==> Started(sent, id))
    && (forall id :: id in completed <==> Completed(sent, id))
  }

  ghost predicate Covered(sent: seq<Note>, items: seq<Item>) {
    forall i :: 0 <= i < |items| ==>
      Started(sent, items[i].id) && (Finished(items[i]) ==> Completed(sent, items[i].id))
  }

  /** The ids announced as started, in order. */
  function StartedIds(sent: seq<Note>): seq<string> {
    if sent == [] then []
    else
      var n := |sent| - 1;
      StartedIds(sent[..n]) + (if sent[n].ItemStarted? then [sent[n].item.id] else [])
  }

  function ItemIds(items: seq<Item>): (ids: seq<string>)
    ensures |ids| == |items|
  {
    seq(|items|, i requires 0 <= i < |items| => items[i].id)
  }

  predicate Unrepeated(ids: seq<string>) {
    forall i, j :: 0 <= i < j < |ids| ==> ids[i] != ids[j]
  }

  // ---------------------------------------------------------------- one more notification

  lemma SendStarted(sent: seq<Note>, started: set<string>, completed: set<string>, item: Item)
    requires WellOrdered(sent) && Remembers(sent, started, completed) && item.id !in started
    ensures WellOrdered(sent + [ItemStarted(item)])
    ensures Remembers(sent + [ItemStarted(item)], started + {item.id}, completed)
    ensures StartedIds(sent + [ItemStarted(item)]) == StartedIds(sent) + [item.id]
    ensures NoTurnCompleted(sent) ==> NoTurnCompleted(sent + [ItemStarted(item)])
  {
    var next := sent + [ItemStarted(item)];
    assert next[..|sent|] == sent;
    StartedGrows(sent, ItemStarted(item));
    forall i | 0 <= i < |sent| && sent[i].ItemStarted? ensures sent[i].item.id != item.id {
      assert StartedAt(sent, i, sent[i].item.id);
    }
    CompletedFollowsGrows(sent, ItemStarted(item));
  }

  lemma StartedGrows(sent: seq<Note>, note: Note)
    requires !note.TurnCompleted?
    ensures forall id :: Started(sent + [note], id) <==> Started(sent, id) || (note.ItemStarted? && note.item.id == id)
    ensures forall id ::
              Completed(sent + [note], id) <==> Completed(sent, id) || (note.ItemCompleted? && note.item.id == id)
  {
    var next := sent + [note];
    forall id ensures Started(next, id) <==> Started(sent, id) || (note.ItemStarted? && note.item.id == id) {
      if Started(sent, id) { var i :| StartedAt(sent, i, id); assert StartedAt(next, i, id); }
      if note.ItemStarted? && note.item.id == id { assert StartedAt(next, |sent|, id); }
      if Started(next, id) { var i :| StartedAt(next, i, id); assert i == |sent| || StartedAt(sent, i, id); }
    }
    forall id ensures Completed(next, id) <==> Completed(sent, id) || (note.ItemCompleted? && note.item.id == id) {
      if Completed(sent, id) { var i :| CompletedAt(sent, i, id); assert CompletedAt(next, i, id); }
      if note.ItemCompleted? && note.item.id == id { assert CompletedAt(next, |sent|, id); }
      if Completed(next, id) { var i :| CompletedAt(next, i, id); assert i == |sent| || CompletedAt(sent, i, id); }
    }
  }

  lemma CompletedFollowsGrows(sent: seq<Note>, note: Note)
    requires CompletedFollows(sent)
    requires note.ItemCompleted? ==> Finished(note.item) && Started(sent, note.item.id)
    ensures CompletedFollows(sent + [note])
  {
    var next := sent + [note];
    forall j | 0 <= j < |next| && next[j].ItemCompleted?
      ensures Finished(next[j].item) && exists i :: i < j && StartedAt(next, i, next[j].item.id)
    {
      var i :| i < j && StartedAt(sent, i, next[j].item.id);
      assert StartedAt(next, i, next[j].item.id);
    }
  }

  lemma SendCompleted(sent: seq<Note>, started: set<string>, completed: set<string>, item: Item)
    requires WellOrdered(sent) && Remembers(sent, started, completed)
    requires item.id in started && item.id !in completed && Finished(item)
    ensures WellOrdered(sent + [ItemCompleted(item)])
    ensures Remembers(sent + [ItemCompleted(item)], started, completed + {item.id})
    ensures StartedIds(sent + [ItemCompleted(item)]) == StartedIds(sent)
    ensures NoTurnCompleted(sent) ==> NoTurnCompleted(sent + [ItemCompleted(item)])
  {
    var next := sent + [ItemCompleted(item)];
    assert next[..|sent|] == sent;
    StartedGrows(sent, ItemCompleted(item));
    forall i | 0 <= i < |sent| && sent[i].ItemCompleted? ensures sent[i].item.id != item.id {
      assert CompletedAt(sent, i, sent[i].item.id);
    }
    CompletedFollowsGrows(sent, ItemCompleted(item));
  }

  lemma SendTurnCompleted(sent: seq<Note>, note: Note)
    requires WellOrdered(sent) && note.TurnCompleted?
    ensures WellOrdered(sent + [note]) && StartedIds(sent + [note]) == StartedIds(sent)
    ensures forall id :: Started(sent, id) ==> Started(sent + [note], id)
    ensures forall id :: Completed(sent, id) ==> Completed(sent + [note], id)
  {
    var next := sent + [note];
    assert next[..|sent|] == sent;
    CompletedFollowsGrows(sent, note);
    forall id | Started(sent, id) ensures Started(next, id) {
      var i :| StartedAt(sent, i, id); assert StartedAt(next, i, id);
    }
    forall id | Completed(sent, id) ensures Completed(next, id) {
      var i :| CompletedAt(sent, i, id); assert CompletedAt(next, i, id);
    }
  }

  // ---------------------------------------------------------------- emit_item_notifications

  /** How many ids of `ids` have been announced when `done` of them were looked at. */
  predicate Announced(announced: seq<string>, ids: seq<string>, seen: nat, done: nat) {
    && seen <= |ids| && done <= |ids|
    && announced == if done <= seen then ids[..seen] else ids[..done]
  }

  /** The two sets of the watcher and the stream so far. */
  datatype Stream = Stream(started: set<string>, completed: set<string>, sent: seq<Note>)

  ghost predicate Sound(s: Stream, quiet: bool) {
    WellOrdered(s.sent) && Remembers(s.sent, s.started, s.completed) && (quiet ==> NoTurnCompleted(s.sent))
  }

  /** What one item adds to the stream: a start when its id is new, then a completion when it is newly finished. */
  function Announcement(item: Item, s: Stream): seq<Note> {
    (if item.id in s.started then [] else [ItemStarted(item)]) +
    (if Finished(item) && item.id !in s.completed then [ItemCompleted(item)] else [])
  }

  function EmitOne(item: Item, s: Stream): Stream {
    Stream(s.started + {item.id}, if Finished(item) then s.completed + {item.id} else s.completed,
           s.sent + Announcement(item, s))
  }

  function EmitAll(items: seq<Item>, s: Stream): Stream {
    if items == [] then s else EmitOne(items[|items| - 1], EmitAll(items[..|items| - 1], s))
  }

  lemma EmitOneSound(item: Item, s: Stream, quiet: bool)
    requires Sound(s, quiet)
    ensures Sound(EmitOne(item, s), quiet)
    ensures StartedIds(EmitOne(item, s).sent) ==
            if item.id in s.started then StartedIds(s.sent) else StartedIds(s.sent) + [item.id]
  {
    StartSound(item, s, quiet);
    CompleteSound(item, StartOne(item, s), quiet);
    EmitInTwoSteps(item, s);
  }

  /** The start of an item, if it is new, and then its completion, if it is newly finished. */
  function StartOne(item: Item, s: Stream): Stream {
    if item.id in s.started then s else Stream(s.started + {item.id}, s.completed, s.sent + [ItemStarted(item)])
  }

  function CompleteOne(item: Item, s: Stream): Stream {
    if Finished(item) && item.id !in s.completed
    then Stream(s.started, s.completed + {item.id}, s.sent + [ItemCompleted(item)]) else s
  }

  lemma EmitInTwoSteps(item: Item, s: Stream)
    ensures EmitOne(item, s) == CompleteOne(item, StartOne(item, s))
  {
    var e, c := EmitOne(item, s), CompleteOne(item, StartOne(item, s));
    assert e.started == c.started && e.completed == c.completed && e.sent == c.sent;
  }

  lemma StartSound(item: Item, s: Stream, quiet: bool)
    requires Sound(s, quiet)
    ensures Sound(StartOne(item, s), quiet) && item.id in StartOne(item, s).started
    ensures StartedIds(StartOne(item, s).sent) ==
            if item.id in s.started then StartedIds(s.sent) else StartedIds(s.sent) + [item.id]
  {
    if item.id !in s.started { SendStarted(s.sent, s.started, s.completed, item); }
  }

  lemma CompleteSound(item: Item, s: Stream, quiet: bool)
    requires Sound(s, quiet) && item.id in s.started
    ensures Sound(CompleteOne(item, s), quiet) && StartedIds(CompleteOne(item, s).sent) == StartedIds(s.sent)
  {
    if Finished(item) && item.id !in s.completed { SendCompleted(s.sent, s.started, s.completed, item); }
  }

  lemma {:induction false} EmitAllSound(items: seq<Item>, s: Stream, quiet: bool)
    requires Sound(s, quiet)
    ensures Sound(EmitAll(items, s), quiet)
  {
    if items != [] {
      EmitAllSound(items[..|items| - 1], s, quiet);
      EmitOneSound(items[|items| - 1], EmitAll(items[..|items| - 1], s), quiet);
    }
  }

  /** The sets hold every id of the record, and every finished one. */
  lemma {:induction false} EmitAllHolds(items: seq<Item>, s: Stream, i: nat)
    requires i < |items|
    ensures items[i].id in EmitAll(items, s).started
    ensures Finished(items[i]) ==> items[i].id in EmitAll(items, s).completed
  {
    if i < |items| - 1 { EmitAllHolds(items[..|items| - 1], s, i); }
  }

  lemma EmitAllCovers(items: seq<Item>, s: Stream)
    requires Sound(s, false)
    ensures Covered(EmitAll(items, s).sent, items)
  {
    EmitAllSound(items, s, false);
    forall i | 0 <= i < |items|
      ensures items[i].id in EmitAll(items, s).started
      ensures Finished(items[i]) ==> items[i].id in EmitAll(items, s).completed
    {
      EmitAllHolds(items, s, i);
    }
  }

  lemma OrderStep(item: Item, s: Stream, ids: seq<string>, seen: nat, k: nat)
    requires Sound(s, false) && Unrepeated(ids) && k < |ids| && ids[k] == item.id
    requires Announced(StartedIds(s.sent), ids, seen, k)
    ensures Announced(StartedIds(EmitOne(item, s).sent), ids, seen, k + 1)
  {
    AnnouncedStep(s.sent, s.started, s.completed, ids, seen, k);
    EmitOneSound(item, s, false);
  }

  /** Announced ids follow the order of the record. */
  lemma {:induction false} EmitAllOrder(items: seq<Item>, s: Stream, k: nat)
    requires Sound(s, false) && k <= |items|
    requires Unrepeated(ItemIds(items)) && StartedIds(s.sent) <= ItemIds(items)
    ensures Announced(StartedIds(EmitAll(items[..k], s).sent), ItemIds(items), |StartedIds(s.sent)|, k)
  {
    if k > 0 {
      EmitAllOrder(items, s, k - 1);
      assert items[..k][..k - 1] == items[..k - 1];
      EmitAllSound(items[..k - 1], s, false);
      OrderStep(items[k - 1], EmitAll(items[..k - 1], s), ItemIds(items), |StartedIds(s.sent)|, k - 1);
    }
  }

  lemma EmitAllAnnounces(items: seq<Item>, s: Stream)
    requires Sound(s, false) && Unrepeated(ItemIds(items)) && StartedIds(s.sent) <= ItemIds(items)
    ensures StartedIds(EmitAll(items, s).sent) == ItemIds(items)
  {
    EmitAllOrder(items, s, |items|);
    assert items[..|items|] == items;
  }

  ghost predicate ReportsFrom(sent: seq<Note>, from: nat, items: seq<Item>) {
    forall i :: from <= i < |sent| ==> exists k :: 0 <= k < |items| && Reports(sent[i], items[k])
  }

  /** The stream only grows, by notifications that carry items of the record. */
  lemma {:induction false} EmitAllReports(items: seq<Item>, s: Stream)
    ensures s.sent <= EmitAll(items, s).sent && ReportsFrom(EmitAll(items, s).sent, |s.sent|, items)
  {
    if items != [] {
      var n := |items| - 1;
      EmitAllReports(items[..n], s);
      var mid := EmitAll(items[..n], s).sent;
      var after := EmitAll(items, s).sent;
      forall i | |s.sent| <= i < |after| ensures exists j :: 0 <= j < |items| && Reports(after[i], items[j]) {
        if i < |mid| {
          var j :| 0 <= j < n && Reports(mid[i], items[..n][j]);
          assert Reports(after[i], items[j]);
        } else {
          assert Reports(after[i], items[n]);
        }
      }
    }
  }

  /** Announces every new item and every newly finished one, each once. */
  method EmitItemNotifications(items: seq<Item>, s0: Stream) returns (s: Stream)
    ensures s == EmitAll(items, s0)
  {
    var started, completed, sent := s0.started, s0.completed, s0.sent;
    for k := 0 to |items|
      invariant Stream(started, completed, sent) == EmitAll(items[..k], s0)
    {
      var item := items[k];
      assert items[..k + 1][..k] == items[..k];
      if item.id !in started {
        started := started + {item.id};
        sent := sent + [ItemStarted(item)];
      }
      if Finished(item) && item.id !in completed {
        completed := completed + {item.id};
        sent := sent + [ItemCompleted(item)];
      }
    }
    assert items[..|items|] == items;
    s := Stream(started, completed, sent);
  }

  lemma {:induction false} StartedIdsAreStarted(sent: seq<Note>, id: string)
    ensures id in StartedIds(sent) <==> Started(sent, id)
  {
    if sent != [] {
      var n := |sent| - 1;
      StartedIdsAreStarted(sent[..n], id);
      assert sent == sent[..n] + [sent[n]];
      if !sent[n].TurnCompleted? {
        StartedGrows(sent[..n], sent[n]);
      } else if Started(sent, id) {
        var i :| StartedAt(sent, i, id);
        assert StartedAt(sent[..n], i, id);
      } else if Started(sent[..n], id) {
        var i :| StartedAt(sent[..n], i, id);
        assert StartedAt(sent, i, id);
      }
    }
  }

  /** The next item is new exactly when it lies beyond everything announced so far. */
  lemma AnnouncedStep(
      sent: seq<Note>, started: set<string>, completed: set<string>, ids: seq<string>, seen: nat, k: nat)
    requires Remembers(sent, started, completed) && Unrepeated(ids) && k < |ids|
    requires Announced(StartedIds(sent), ids, seen, k)
    ensures ids[k] in started <==> k < seen
    ensures Announced(if ids[k] in started then StartedIds(sent) else StartedIds(sent) + [ids[k]], ids, seen, k + 1)
  {
    StartedIdsAreStarted(sent, ids[k]);
    var a := StartedIds(sent);
    if k < seen { assert a[k] == ids[k]; }
    else { assert forall j :: 0 <= j < |a| ==> a[j] == ids[j]; }
    assert k >= seen ==> ids[..k] + [ids[k]] == ids[..k + 1];
  }

  // ---------------------------------------------------------------- watch_turn

  /** A poll that failed is None; otherwise it is the record the ledger returned. */
  type Poll = Option<Turn>

  /** What the final stream says about the last record. */
  ghost predicate Closes(sent: seq<Note>, turn: Turn) {
    && |sent| > 0 && sent[|sent| - 1] == TurnCompleted(turn.id, turn.items, turn.status)
    && NoTurnCompleted(sent[..|sent| - 1])
    && Covered(sent, turn.items)
  }

  ghost predicate FirstTerminal(polls: seq<Poll>, n: nat) {
    && n < |polls| && polls[n].Some? && polls[n].value.IsTerminal()
    && forall i :: 0 <= i < n ==> polls[i].Some? ==> !polls[i].value.IsTerminal()
  }

  /** Ids keep their positions from one record to the next. */
  predicate Stable(polls: seq<Poll>) {
    && (forall i :: 0 <= i < |polls| ==> polls[i].Some? ==> Unrepeated(ItemIds(polls[i].value.items)))
    && (forall i, j :: (0 <= i < j < |polls| && polls[i].Some? && polls[j].Some?) ==>
          ItemIds(polls[i].value.items) <= ItemIds(polls[j].value.items))
  }

  /** Every item notification carries an item of some polled record, as it was there. */
  ghost predicate Sourced(note: Note, polls: seq<Poll>) {
    note.TurnCompleted? ||
    exists n, k ::
      && 0 <= n < |polls| && polls[n].Some? && 0 <= k < |polls[n].value.items|
      && Reports(note, polls[n].value.items[k])
  }

  lemma CoveredMore(sent: seq<Note>, note: Note, items: seq<Item>)
    requires WellOrdered(sent) && Covered(sent, items) && note.TurnCompleted?
    ensures Covered(sent + [note], items)
  {
    SendTurnCompleted(sent, note);
  }

  /** The stream after the first `n` polls, none of which was terminal. */
  ghost predicate Tracks(s: Stream, polls: seq<Poll>, n: nat) {
    && n <= |polls| && Sound(s, true)
    && (forall i :: 0 <= i < |s.sent| ==> Sourced(s.sent[i], polls))
    && (Stable(polls) ==> forall j :: n <= j < |polls| && polls[j].Some? ==>
          StartedIds(s.sent) <= ItemIds(polls[j].value.items))
  }

  lemma PollStep(s: Stream, polls: seq<Poll>, n: nat)
    requires Tracks(s, polls, n) && n < |polls| && polls[n].Some?
    ensures var items := polls[n].value.items;
            && Tracks(EmitAll(items, s), polls, n) && Tracks(EmitAll(items, s), polls, n + 1)
            && Covered(EmitAll(items, s).sent, items)
            && (Stable(polls) ==> StartedIds(EmitAll(items, s).sent) == ItemIds(items))
  {
    var items := polls[n].value.items;
    var after := EmitAll(items, s);
    EmitAllSound(items, s, true);
    EmitAllCovers(items, s);
    EmitAllReports(items, s);
    if Stable(polls) { EmitAllAnnounces(items, s); }
    forall i | 0 <= i < |after.sent| ensures Sourced(after.sent[i], polls) {
      if i < |s.sent| {
        assert after.sent[i] == s.sent[i];
      } else {
        var k :| 0 <= k < |items| && Reports(after.sent[i], items[k]);
        assert Reports(after.sent[i], polls[n].value.items[k]);
      }
    }
  }

  lemma Closing(s: Stream, polls: seq<Poll>, n: nat)
    requires Tracks(s, polls, n) && n < |polls| && polls[n].Some?
    requires Covered(s.sent, polls[n].value.items)
    ensures var turn := polls[n].value;
            var sent := s.sent + [TurnCompleted(turn.id, turn.items, turn.status)];
            && WellOrdered(sent) && Closes(sent, turn) && StartedIds(sent) == StartedIds(s.sent)
            && forall i :: 0 <= i < |sent| ==> Sourced(sent[i], polls)
  {
    var turn := polls[n].value;
    var note := TurnCompleted(turn.id, turn.items, turn.status);
    SendTurnCompleted(s.sent, note);
    CoveredMore(s.sent, note, turn.items);
    assert (s.sent + [note])[..|s.sent|] == s.sent;
  }

  /** The polling loop over any sequence of snapshots, with every socket write succeeding.
      `last` is the poll that ended it. */
  method WatchTurn(polls: seq<Poll>) returns (sent: seq<Note>, last: Option<nat>)
    ensures WellOrdered(sent)
    ensures last.Some? ==> FirstTerminal(polls, last.value) && Closes(sent, polls[last.value].value)
    ensures last.None? ==> NoTurnCompleted(sent) && forall n :: !FirstTerminal(polls, n)
    ensures last.Some? && Stable(polls) ==> StartedIds(sent) == ItemIds(polls[last.value].value.items)
    ensures forall i :: 0 <= i < |sent| ==> Sourced(sent[i], polls)
  {
    var s := Stream({}, {}, []);
    for n := 0 to |polls|
      invariant Tracks(s, polls, n)
      invariant forall i :: 0 <= i < n ==> polls[i].Some? ==> !polls[i].value.IsTerminal()
    {
      if polls[n].None? { continue; }
      var turn := polls[n].value;
      PollStep(s, polls, n);
      s := EmitItemNotifications(turn.items, s);
      if turn.IsTerminal() {
        PollStep(s, polls, n);
        s := EmitItemNotifications(turn.items, s);
        Closing(s, polls, n);
        assert FirstTerminal(polls, n);
        return s.sent + [TurnCompleted(turn.id, turn.items, turn.status)], Some(n);
      }
    }
    return s.sent, None;
  }

  // ---------------------------------------------------------------- on the records of the ledger

  /** Ids stay where they are, and a list without repeated ids stays one. */
  ghost predicate IdsGrow(before: seq<Item>, after: seq<Item>) {
    && ItemIds(before) <= ItemIds(after)
    && (Unrepeated(ItemIds(before)) ==> Unrepeated(ItemIds(after)))
  }

  lemma UpsertGrowsIds(items: seq<Item>, item: Item)
    ensures IdsGrow(items, UpsertItem(items, item))
  {
    match MapperModel.Find(items, item.id)
    case Some(i) =>
      UpsertPresent(items, item, i);
      assert ItemIds(items[i := item]) == ItemIds(items);
    case None =>
      UpsertAbsent(items, item);
      forall j | 0 <= j < |items| ensures ItemIds(items)[j] != item.id { assert items[j].id != item.id; }
      assert ItemIds(items + [item]) == ItemIds(items) + [item.id];
  }

  lemma RewriteGrowsIds(op: TurnOp, v: Turn, dead: bool, minted: string)
    requires Rewrite(op, v, dead, minted).Some?
    ensures IdsGrow(v.items, Rewrite(op, v, dead, minted).value.items)
  {
    if op.Upsert? { UpsertGrowsIds(v.items, op.item); }
  }

  lemma ApplyGrowsIds(d: State, op: AtomicOp, t: string)
    requires Legal(d, op) && t in d.turns
    ensures t in Apply(d, op).turns && IdsGrow(d.turns[t].items, Apply(d, op).turns[t].items)
  {
    if op.CommitTurn? && op.id == t { RewriteGrowsIds(op.op, d.turns[t], op.dead, op.minted); }
  }

  lemma NewRecordsAreEmpty(d: State, op: AtomicOp, t: string)
    requires Legal(d, op) && t !in d.turns && t in Apply(d, op).turns
    ensures Apply(d, op).turns[t].items == []
  {
  }

  /** In every run of the ledger, whoever writes: the items of a record never repeat an id, */
  lemma {:induction false} RecordsNeverRepeat(states: seq<System>, acts: seq<Action>, i: nat, t: string)
    requires Run(states, acts) && i <= |acts| && t in states[i].disk.turns
    ensures Unrepeated(ItemIds(states[i].disk.turns[t].items))
  {
    if i > 0 {
      EveryStepIsAtomic(states, acts, i - 1);
      var d, op := states[i - 1].disk, OpAt(states[i - 1], acts[i - 1]);
      if t in d.turns {
        RecordsNeverRepeat(states, acts, i - 1, t);
        ApplyGrowsIds(d, op, t);
      } else {
        NewRecordsAreEmpty(d, op, t);
      }
    }
  }

  /** and later records of a turn begin with the ids of earlier ones. */
  lemma {:induction false} RecordsKeepPositions(states: seq<System>, acts: seq<Action>, i: nat, j: nat, t: string)
    requires Run(states, acts) && i <= j <= |acts| && t in states[i].disk.turns
    ensures t in states[j].disk.turns
    ensures ItemIds(states[i].disk.turns[t].items) <= ItemIds(states[j].disk.turns[t].items)
    decreases j
  {
    if i < j {
      RecordsKeepPositions(states, acts, i, j - 1, t);
      StepKeepsPositions(states, acts, j - 1, t);
      PrefixTransitive(ItemIds(states[i].disk.turns[t].items), ItemIds(states[j - 1].disk.turns[t].items),
                       ItemIds(states[j].disk.turns[t].items));
    }
  }

  lemma PrefixTransitive(a: seq<string>, b: seq<string>, c: seq<string>)
    requires a <= b && b <= c
    ensures a <= c
  {
  }

  lemma StepKeepsPositions(states: seq<System>, acts: seq<Action>, i: nat, t: string)
    requires Run(states, acts) && i < |acts| && t in states[i].disk.turns
    ensures t in states[i + 1].disk.turns && IdsGrow(states[i].disk.turns[t].items, states[i + 1].disk.turns[t].items)
  {
    EveryStepIsAtomic(states, acts, i);
    ApplyGrowsIds(states[i].disk, OpAt(states[i], acts[i]), t);
  }

  /** So a watcher that polls a turn at rising moments of any run tells its client of all items in the record's
      order. */
  lemma LedgerRecordsAreStable(states: seq<System>, acts: seq<Action>, t: string, polls: seq<Poll>, at: seq<nat>)
    requires Run(states, acts) && |at| == |polls|
    requires forall i :: 0 <= i < |at| ==> at[i] <= |acts|
    requires forall i, j :: 0 <= i < j < |at| ==> at[i] <= at[j]
    requires forall i :: 0 <= i < |polls| && polls[i].Some? ==>
               t in states[at[i]].disk.turns && polls[i].value == states[at[i]].disk.turns[t]
    ensures Stable(polls)
  {
    forall i, j | 0 <= i < j < |polls| && polls[i].Some? && polls[j].Some?
      ensures ItemIds(polls[i].value.items) <= ItemIds(polls[j].value.items)
    {
      RecordsKeepPositions(states, acts, at[i], at[j], t);
    }
    forall i | 0 <= i < |polls| && polls[i].Some? ensures Unrepeated(ItemIds(polls[i].value.items)) {
      RecordsNeverRepeat(states, acts, at[i], t);
    }
  }
}
