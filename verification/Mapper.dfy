/** The adapter's view of one turn: agent updates become items, and every changed item is sent to the ledger. */
module MapperModel {
  import opened Records
  import opened Ids
  import Disk
  import opened Traces

  // ---------------------------------------------------------------- vocabulary

  const IN_PROGRESS := "inProgress"
  const COMPLETED := "completed"
  const FAILED := "failed"

  const USER_ID := "user-message"
  const AGENT_ID := "agent-message"
  const PLAN_ID := "plan"

  const USER_TYPE := "userMessage"
  const AGENT_TYPE := "agentMessage"
  const PLAN_TYPE := "plan"
  const COMMAND_TYPE := "commandExecution"
  const FILE_TYPE := "fileChange"
  const WEB_TYPE := "webSearch"

  predicate Reserved(id: string) { id == USER_ID || id == AGENT_ID || id == PLAN_ID }

  predicate ExcludedFatalType(t: string) { t == "collabAgentToolCall" || t == "subAgentActivity" }

  predicate ToolType(t: string) { t == COMMAND_TYPE || t == FILE_TYPE || t == WEB_TYPE }

  datatype ToolKind = Read | Edit | Delete | Move | Search | Execute | Think | Fetch | SwitchMode | Other

  datatype ToolStatus = Pending | Running | Done | Broken | Unlisted

  /** Raw tool input: whether it has a `command` member, and its serialised text. */
  datatype RawInput = RawInput(hasCommand: bool, text: string)

  datatype Update =
    | AgentThought(text: string)
    | AgentText(chunk: string)
    | AgentOtherContent
    | PlanEntries(entries: seq<string>)
    | ToolCall(callId: string, title: string, kind: ToolKind, status: ToolStatus, raw: Option<RawInput>)
    | ToolCallUpdate(callId: string, newTitle: Option<string>, newKind: Option<ToolKind>, newStatus: Option<ToolStatus>)
    | UnknownUpdate

  /** One call on the mapper: an update, or the end of the prompt. */
  datatype Event = Receive(update: Update) | FinishAgent

  predicate StandsAt(hay: string, i: nat, needle: string) {
    i + |needle| <= |hay| && hay[i..i + |needle|] == needle
  }

  predicate Contains(hay: string, needle: string) {
    exists i: nat :: i <= |hay| && StandsAt(hay, i, needle)
  }

  function AsciiLower(s: string): string {
    seq(|s|, i requires 0 <= i < |s| => if 'A' <= s[i] <= 'Z' then (s[i] as int + 32) as char else s[i])
  }

  predicate IsShell(title: string, raw: Option<RawInput>) {
    var t := AsciiLower(title);
    Contains(t, "shell") || Contains(t, "bash") || Contains(t, "zsh") || (raw.Some? && raw.value.hasCommand)
  }

  predicate IsWeb(title: string, raw: Option<RawInput>) {
    var blob := title + (if raw.Some? then raw.value.text else "");
    Contains(blob, "http://") || Contains(blob, "https://") || Contains(blob, "www.")
  }

  /** Never an excluded-fatal type, and never the type of a message or a plan. */
  function MapKind(kind: ToolKind, title: string, raw: Option<RawInput>): (t: Option<string>)
    ensures t.Some? ==> ToolType(t.value) && !ExcludedFatalType(t.value)
  {
    match kind
    case Edit => Some(FILE_TYPE)
    case Execute => Some(COMMAND_TYPE)
    case Other => if IsShell(title, raw) then Some(COMMAND_TYPE) else None
    case Fetch => if IsWeb(title, raw) then Some(WEB_TYPE) else None
    case Search => if IsWeb(title, raw) then Some(WEB_TYPE) else None
    case _ => None
  }

  /** A tool item is finished exactly when the agent said completed or failed. */
  function ItemStatus(status: Option<ToolStatus>): string {
    match status
    case Some(Done) => COMPLETED
    case Some(Broken) => FAILED
    case _ => IN_PROGRESS
  }

  function JoinLines(entries: seq<string>): string {
    if |entries| == 0 then ""
    else if |entries| == 1 then entries[0]
    else entries[0] + "\n" + JoinLines(entries[1..])
  }

  // ---------------------------------------------------------------- state

  datatype State = State(items: seq<Item>, tools: map<string, nat>)

  function Start(userText: string): State {
    State([Item(USER_ID, USER_TYPE, userText, COMPLETED)], map[])
  }

  ghost predicate HasId(items: seq<Item>, id: string) {
    exists i :: 0 <= i < |items| && items[i].id == id
  }

  /** The position of the first item with this id. */
  function Find(items: seq<Item>, id: string): (r: Option<nat>)
    ensures r.Some? ==> r.value < |items| && items[r.value].id == id
    ensures r.Some? ==> forall j :: 0 <= j < r.value ==> items[j].id != id
    ensures r.None? ==> !HasId(items, id)
  {
    if items == [] then None
    else if items[0].id == id then Some(0)
    else match Find(items[1..], id)
         case None => assert forall i :: 0 < i < |items| ==> items[i] == items[1..][i - 1]; None
         case Some(i) => Some(i + 1)
  }

  /** What one call does: nothing, overwrite one item, append one item, or fail after overwriting one. */
  datatype Effect =
    | Keep
    | Replace(at: nat, item: Item)
    | Push(item: Item, tool: bool)
    | Refuse(itemType: string, changed: Option<(nat, Item)>)

  function Deltas(e: Effect): seq<Item> {
    if e.Replace? || e.Push? then [e.item] else []
  }

  predicate Applicable(s: State, e: Effect) {
    && (e.Replace? ==> e.at < |s.items|)
    && (e.Refuse? && e.changed.Some? ==> e.changed.value.0 < |s.items|)
  }

  function Perform(s: State, e: Effect): State
    requires Applicable(s, e)
  {
    match e
    case Keep => s
    case Replace(i, item) => s.(items := s.items[i := item])
    case Push(item, tool) =>
      State(s.items + [item], if tool then s.tools[item.id := |s.items|] else s.tools)
    case Refuse(_, changed) =>
      if changed.Some? then s.(items := s.items[changed.value.0 := changed.value.1]) else s
  }

  /** The `tools` index points at items of that id. */
  predicate InRange(s: State) {
    forall id :: id in s.tools ==> s.tools[id] < |s.items|
  }

  function StoreTool(s: State, item: Item): Effect {
    if item.id in s.tools then Replace(s.tools[item.id], item) else Push(item, true)
  }

  function NewTool(s: State, id: string, itemType: Option<string>, title: string, status: Option<ToolStatus>): Effect {
    if itemType.None? then Keep
    else if ExcludedFatalType(itemType.value) then Refuse(itemType.value, None)
    else StoreTool(s, Item(id, itemType.value, title, ItemStatus(status)))
  }

  function KnownTool(s: State, i: nat, u: Update): Effect
    requires u.ToolCallUpdate? && i < |s.items|
  {
    var item := s.items[i];
    var item := if u.newStatus.Some? then item.(status := ItemStatus(u.newStatus)) else item;
    var item := if u.newTitle.Some? then item.(text := u.newTitle.value) else item;
    var t := if u.newKind.Some? then MapKind(u.newKind.value, item.text, None) else None;
    if t.None? then Replace(i, item)
    else if ExcludedFatalType(t.value) then Refuse(t.value, Some((i, item)))
    else Replace(i, item.(itemType := t.value))
  }

  function OrElse<T>(o: Option<T>, d: T): T { if o.Some? then o.value else d }

  function AgentEffect(s: State, chunk: string): Effect {
    match Find(s.items, AGENT_ID)
    case Some(i) => Replace(i, s.items[i].(text := s.items[i].text + chunk))
    case None => Push(Item(AGENT_ID, AGENT_TYPE, chunk, IN_PROGRESS), false)
  }

  function PlanEffect(s: State, text: string): Effect {
    match Find(s.items, PLAN_ID)
    case Some(i) => Replace(i, s.items[i].(text := text))
    case None => Push(Item(PLAN_ID, PLAN_TYPE, text, IN_PROGRESS), false)
  }

  function FinishEffect(s: State): Effect {
    match Find(s.items, AGENT_ID)
    case Some(i) => Replace(i, s.items[i].(status := COMPLETED))
    case None => Keep
  }

  function ToolUpdateEffect(s: State, u: Update): Effect
    requires u.ToolCallUpdate? && InRange(s)
  {
    var id := SanitizeId(u.callId);
    if id in s.tools then KnownTool(s, s.tools[id], u)
    else
      var title := OrElse(u.newTitle, "");
      NewTool(s, id, MapKind(OrElse(u.newKind, Other), title, None), title, u.newStatus)
  }

  function EffectOf(s: State, ev: Event): Effect
    requires InRange(s)
  {
    match ev
    case FinishAgent => FinishEffect(s)
    case Receive(AgentText(chunk)) => AgentEffect(s, chunk)
    case Receive(PlanEntries(entries)) => PlanEffect(s, JoinLines(entries))
    case Receive(ToolCall(callId, title, kind, status, raw)) =>
      NewTool(s, SanitizeId(callId), MapKind(kind, title, raw), title, Some(status))
    case Receive(ToolCallUpdate(_, _, _, _)) => ToolUpdateEffect(s, ev.update)
    case Receive(_) => Keep
  }

  // ---------------------------------------------------------------- the object

  datatype Outcome = Ok(items: seq<Item>) | ExcludedFatal(itemType: string)

  /** The outcome that goes with an effect. */
  function OutcomeOf(e: Effect): Outcome {
    if e.Refuse? then ExcludedFatal(e.itemType) else Ok(Deltas(e))
  }

  class Mapper {
    var items: seq<Item>
    var tools: map<string, nat>

    function View(): State
      reads this
    {
      State(items, tools)
    }

    ghost predicate Valid()
      reads this
    {
      Indexed(View())
    }

    constructor (userText: string)
      ensures Valid() && View() == Start(userText)
    {
      items := [Item(USER_ID, USER_TYPE, userText, COMPLETED)];
      tools := map[];
      new;
      StartIndexed(userText);
    }

    /** Never fails, and the returned items are exactly what changed. */
    method Apply(update: Update) returns (r: Outcome)
      requires Valid()
      modifies this
      ensures Valid() && r.Ok?
      ensures View() == Perform(old(View()), EffectOf(old(View()), Receive(update)))
      ensures r == OutcomeOf(EffectOf(old(View()), Receive(update)))
    {
      EffectSound(View(), Receive(update));
      PerformKeepsIndexed(View(), EffectOf(View(), Receive(update)));
      match update {
        case AgentText(chunk) =>
          UpsertAgent(chunk);
          var at := Find(items, AGENT_ID);
          r := Ok([items[at.value]]);
        case PlanEntries(entries) =>
          UpsertPlan(entries);
          var at := Find(items, PLAN_ID);
          r := Ok([items[at.value]]);
        case ToolCall(callId, title, kind, status, raw) =>
          var t := MapKind(kind, title, raw);
          if t.None? { return Ok([]); }
          var itemType := t.value;
          if ExcludedFatalType(itemType) { return ExcludedFatal(itemType); }
          var item := StoreToolItem(Item(SanitizeId(callId), itemType, title, ItemStatus(Some(status))));
          r := Ok([item]);
        case ToolCallUpdate(_, _, _, _) =>
          r := ApplyToolUpdate(update);
        case _ =>
          r := Ok([]);
      }
    }

    method FinishAgentMessage() returns (r: Option<Item>)
      requires Valid()
      modifies this
      ensures Valid()
      ensures View() == Perform(old(View()), EffectOf(old(View()), FinishAgent))
      ensures (if r.Some? then [r.value] else []) == Deltas(EffectOf(old(View()), FinishAgent))
    {
      EffectSound(View(), FinishAgent);
      PerformKeepsIndexed(View(), EffectOf(View(), FinishAgent));
      var at := Find(items, AGENT_ID);
      if at.None? { return None; }
      items := items[at.value := items[at.value].(status := COMPLETED)];
      r := Some(items[at.value]);
    }

    method UpsertAgent(chunk: string)
      modifies this
      ensures var e := AgentEffect(old(View()), chunk);
              && View() == Perform(old(View()), e)
              && Find(items, AGENT_ID).Some? && items[Find(items, AGENT_ID).value] == e.item
    {
      var at := Find(items, AGENT_ID);
      if at.Some? {
        FindReplaced(items, at.value, items[at.value].(text := items[at.value].text + chunk), AGENT_ID);
        items := items[at.value := items[at.value].(text := items[at.value].text + chunk)];
        return;
      }
      FindPushed(items, Item(AGENT_ID, AGENT_TYPE, chunk, IN_PROGRESS), AGENT_ID);
      items := items + [Item(AGENT_ID, AGENT_TYPE, chunk, IN_PROGRESS)];
    }

    method UpsertPlan(entries: seq<string>)
      modifies this
      ensures var e := PlanEffect(old(View()), JoinLines(entries));
              && View() == Perform(old(View()), e)
              && Find(items, PLAN_ID).Some? && items[Find(items, PLAN_ID).value] == e.item
    {
      var text := JoinLines(entries);
      var at := Find(items, PLAN_ID);
      if at.Some? {
        FindReplaced(items, at.value, items[at.value].(text := text), PLAN_ID);
        items := items[at.value := items[at.value].(text := text)];
        return;
      }
      FindPushed(items, Item(PLAN_ID, PLAN_TYPE, text, IN_PROGRESS), PLAN_ID);
      items := items + [Item(PLAN_ID, PLAN_TYPE, text, IN_PROGRESS)];
    }

    method StoreToolItem(item: Item) returns (stored: Item)
      requires InRange(View())
      modifies this
      ensures View() == Perform(old(View()), StoreTool(old(View()), item)) && stored == item
    {
      if item.id in tools {
        items := items[tools[item.id] := item];
        return item;
      }
      tools := tools[item.id := |items|];
      items := items + [item];
      stored := item;
    }

    method ApplyToolUpdate(update: Update) returns (r: Outcome)
      requires InRange(View()) && update.ToolCallUpdate?
      modifies this
      ensures var e := ToolUpdateEffect(old(View()), update);
              && Applicable(old(View()), e)
              && View() == Perform(old(View()), e) && r == OutcomeOf(e)
    {
      var id := SanitizeId(update.callId);
      if id in tools {
        r := UpdateKnownTool(tools[id], update);
        return;
      }
      var title := OrElse(update.newTitle, "");
      var t := MapKind(OrElse(update.newKind, Other), title, None);
      if t.None? { return Ok([]); }
      var itemType := t.value;
      if ExcludedFatalType(itemType) { return ExcludedFatal(itemType); }
      var item := StoreToolItem(Item(id, itemType, title, ItemStatus(update.newStatus)));
      r := Ok([item]);
    }

    method UpdateKnownTool(i: nat, update: Update) returns (r: Outcome)
      requires i < |items| && update.ToolCallUpdate?
      modifies this
      ensures var e := KnownTool(old(View()), i, update);
              View() == Perform(old(View()), e) && r == OutcomeOf(e)
    {
      if update.newStatus.Some? {
        items := items[i := items[i].(status := ItemStatus(update.newStatus))];
      }
      if update.newTitle.Some? {
        items := items[i := items[i].(text := update.newTitle.value)];
      }
      if update.newKind.Some? {
        var t := MapKind(update.newKind.value, items[i].text, None);
        if t.Some? {
          var itemType := t.value;
          if ExcludedFatalType(itemType) { return ExcludedFatal(itemType); }
          items := items[i := items[i].(itemType := itemType)];
        }
      }
      r := Ok([items[i]]);
    }
  }

  // ---------------------------------------------------------------- looking up

  lemma FindUnique(items: seq<Item>, id: string, i: nat)
    requires i < |items| && items[i].id == id
    requires forall j :: 0 <= j < i ==> items[j].id != id
    ensures Find(items, id) == Some(i)
  {
  }

  /** Overwriting an item by one of the same id moves nothing. */
  lemma FindReplaced(items: seq<Item>, i: nat, item: Item, id: string)
    requires i < |items| && item.id == items[i].id
    ensures Find(items[i := item], id) == Find(items, id)
  {
    var after := items[i := item];
    match Find(items, id)
    case Some(k) => FindUnique(after, id, k);
    case None =>
      forall j | 0 <= j < |after| ensures after[j].id != id { assert items[j].id != id; }
  }

  lemma FindPushed(items: seq<Item>, item: Item, id: string)
    ensures Find(items + [item], id) ==
            if Find(items, id).Some? then Find(items, id) else if item.id == id then Some(|items|) else None
  {
    var after := items + [item];
    match Find(items, id)
    case Some(k) => FindUnique(after, id, k);
    case None =>
      forall j | 0 <= j < |items| ensures after[j].id != id { assert items[j].id != id; }
      if item.id == id { FindUnique(after, id, |items|); }
  }

  // ---------------------------------------------------------------- invariant that needs no assumption

  /** All ids are valid; `tools` maps ids to items of that id; every other item has a reserved id. */
  predicate Indexed(s: State) {
    && (forall id :: id in s.tools ==> s.tools[id] < |s.items| && s.items[s.tools[id]].id == id)
    && (forall i :: 0 <= i < |s.items| ==>
          ValidId(s.items[i].id) && (s.items[i].id in s.tools || Reserved(s.items[i].id)))
  }

  lemma ReservedIds()
    ensures ValidId(USER_ID) && ValidId(AGENT_ID) && ValidId(PLAN_ID)
    ensures USER_ID != AGENT_ID && USER_ID != PLAN_ID && AGENT_ID != PLAN_ID
  {
    assert USER_ID[0] == 'u' && AGENT_ID[0] == 'a' && PLAN_ID[0] == 'p';
    assert forall i :: 0 <= i < |USER_ID| ==> IdChar(USER_ID[i]);
    assert forall i :: 0 <= i < |AGENT_ID| ==> IdChar(AGENT_ID[i]);
    assert forall i :: 0 <= i < |PLAN_ID| ==> IdChar(PLAN_ID[i]);
  }

  lemma StartIndexed(userText: string)
    ensures Indexed(Start(userText))
  {
    ReservedIds();
  }

  /** What the effects of an indexed mapper look like. */
  ghost predicate Sound(s: State, e: Effect) {
    && Applicable(s, e) && !e.Refuse?
    && (e.Replace? ==> e.item.id == s.items[e.at].id)
    && (e.Push? ==> ValidId(e.item.id))
    && (e.Push? && e.tool ==> e.item.id !in s.tools)
    && (e.Push? && !e.tool ==> Reserved(e.item.id) && !HasId(s.items, e.item.id))
  }

  lemma EffectSound(s: State, ev: Event)
    requires Indexed(s)
    ensures Sound(s, EffectOf(s, ev))
  {
    ReservedIds();
  }

  lemma PerformKeepsIndexed(s: State, e: Effect)
    requires Indexed(s) && Sound(s, e)
    ensures Indexed(Perform(s, e))
  {
  }

  /** Ids keep their positions. */
  predicate Extends(before: seq<Item>, after: seq<Item>) {
    |before| <= |after| && forall i :: 0 <= i < |before| ==> after[i].id == before[i].id
  }

  // ---------------------------------------------------------------- the ledger's copy

  function Replay(userText: string, evs: seq<Event>): (s: State)
    ensures Indexed(s)
    decreases |evs|
  {
    if evs == [] then StartIndexed(userText); Start(userText)
    else
      var before := Replay(userText, evs[..|evs| - 1]);
      var e := EffectOf(before, evs[|evs| - 1]);
      EffectSound(before, evs[|evs| - 1]);
      PerformKeepsIndexed(before, e);
      Perform(before, e)
  }

  function UpsertAll(items: seq<Item>, deltas: seq<Item>): seq<Item>
    decreases |deltas|
  {
    if deltas == [] then items else UpsertAll(Disk.UpsertItem(items, deltas[0]), deltas[1..])
  }

  /** What the ledger holds after every returned item was upserted in order. */
  function LedgerItems(userText: string, evs: seq<Event>): seq<Item>
    decreases |evs|
  {
    if evs == [] then UpsertAll([], Start(userText).items)
    else
      var n := |evs| - 1;
      UpsertAll(LedgerItems(userText, evs[..n]), Deltas(EffectOf(Replay(userText, evs[..n]), evs[n])))
  }

  /** The call appends a tool item under an id that some other item already has. */
  ghost predicate Clashes(s: State, ev: Event)
    requires InRange(s)
  {
    var e := EffectOf(s, ev);
    e.Push? && HasId(s.items, e.item.id)
  }

  /** No call clashed with the items there were at that moment. */
  ghost predicate ClashFree(userText: string, evs: seq<Event>)
    decreases |evs|
  {
    evs == [] ||
    (ClashFree(userText, evs[..|evs| - 1]) && !Clashes(Replay(userText, evs[..|evs| - 1]), evs[|evs| - 1]))
  }

  predicate Distinct(items: seq<Item>) {
    forall i, j :: 0 <= i < j < |items| ==> items[i].id != items[j].id
  }

  ghost predicate SameIds(a: seq<Item>, b: seq<Item>) {
    forall id :: HasId(a, id) <==> HasId(b, id)
  }

  /** An upsert grows the list exactly when the id is new, and adds exactly that id. */
  lemma UpsertIds(items: seq<Item>, item: Item)
    ensures var r := Disk.UpsertItem(items, item);
            && |r| == |items| + (if HasId(items, item.id) then 0 else 1)
            && (forall id :: HasId(r, id) <==> HasId(items, id) || id == item.id)
  {
    match Find(items, item.id)
    case Some(i) =>
      Disk.UpsertPresent(items, item, i);
      var r := items[i := item];
      forall id ensures HasId(r, id) <==> HasId(items, id) || id == item.id {
        FindReplaced(items, i, item, id);
      }
    case None =>
      Disk.UpsertAbsent(items, item);
      forall id ensures HasId(items + [item], id) <==> HasId(items, id) || id == item.id {
        FindPushed(items, item, id);
      }
  }

  /** How the two copies move under one effect: the gap between them grows exactly at a clash. */
  lemma CopiesStep(s: State, e: Effect, ledger: seq<Item>)
    requires Indexed(s) && Sound(s, e) && SameIds(ledger, s.items)
    ensures SameIds(UpsertAll(ledger, Deltas(e)), Perform(s, e).items)
    ensures |Perform(s, e).items| - |UpsertAll(ledger, Deltas(e))| ==
            |s.items| - |ledger| + (if e.Push? && HasId(s.items, e.item.id) then 1 else 0)
  {
    if e.Replace? || e.Push? {
      UpsertIds(ledger, e.item);
      assert UpsertAll(ledger, [e.item]) == Disk.UpsertItem(ledger, e.item);
      if e.Replace? {
        assert HasId(s.items, e.item.id);
        forall id ensures HasId(Perform(s, e).items, id) <==> HasId(s.items, id) {
          FindReplaced(s.items, e.at, e.item, id);
        }
      } else {
        forall id ensures HasId(Perform(s, e).items, id) <==> HasId(s.items, id) || id == e.item.id {
          FindPushed(s.items, e.item, id);
        }
      }
    }
  }

  /** Equal copies with distinct ids stay equal under an effect that does not clash. */
  lemma EqualStep(s: State, e: Effect)
    requires Indexed(s) && Sound(s, e) && Distinct(s.items)
    requires !(e.Push? && HasId(s.items, e.item.id))
    ensures UpsertAll(s.items, Deltas(e)) == Perform(s, e).items && Distinct(Perform(s, e).items)
  {
    if e.Replace? {
      Disk.UpsertPresent(s.items, e.item, e.at);
      assert UpsertAll(s.items, [e.item]) == Disk.UpsertItem(s.items, e.item);
    } else if e.Push? {
      Disk.UpsertAbsent(s.items, e.item);
      assert UpsertAll(s.items, [e.item]) == Disk.UpsertItem(s.items, e.item);
      assert forall i :: 0 <= i < |s.items| ==> s.items[i].id != e.item.id;
    }
  }

  // ---------------------------------------------------------------- all update sequences

  /** Ids keep their positions from one call to the next, so a repeated id stays repeated. */
  lemma StepExtends(s: State, ev: Event)
    requires Indexed(s)
    ensures Sound(s, EffectOf(s, ev)) && Extends(s.items, Perform(s, EffectOf(s, ev)).items)
    ensures !Distinct(s.items) || Clashes(s, ev) ==> !Distinct(Perform(s, EffectOf(s, ev)).items)
  {
    EffectSound(s, ev);
    var e := EffectOf(s, ev);
    var after := Perform(s, e).items;
    assert Extends(s.items, after);
    if !Distinct(s.items) {
      var i, j :| 0 <= i < j < |s.items| && s.items[i].id == s.items[j].id;
      assert after[i].id == after[j].id;
    } else if Clashes(s, ev) {
      var i :| 0 <= i < |s.items| && s.items[i].id == e.item.id;
      assert after[i].id == after[|s.items|].id;
    }
  }

  lemma StartCopies(userText: string)
    ensures UpsertAll([], Start(userText).items) == Start(userText).items
  {
    var items := Start(userText).items;
    Disk.UpsertAbsent([], items[0]);
    assert UpsertAll([items[0]], []) == [items[0]];
  }

  lemma {:induction false} CopiesAgree(userText: string, evs: seq<Event>)
    ensures var m := Replay(userText, evs).items; var l := LedgerItems(userText, evs);
            && SameIds(l, m)
            && (ClashFree(userText, evs) ==> l == m && Distinct(m))
            && (!ClashFree(userText, evs) ==> |l| < |m| && !Distinct(m))
    decreases |evs|
  {
    if evs == [] {
      StartCopies(userText);
    } else {
      var n := |evs| - 1;
      var s, l, ev := Replay(userText, evs[..n]), LedgerItems(userText, evs[..n]), evs[n];
      CopiesAgree(userText, evs[..n]);
      StepExtends(s, ev);
      CopiesStep(s, EffectOf(s, ev), l);
      if ClashFree(userText, evs) { EqualStep(s, EffectOf(s, ev)); }
    }
  }

  /** The ledger's items equal the mapper's, and the mapper's ids are distinct, exactly when no call
      appended a tool under an id that a message or plan already had. */
  lemma LedgerEqualsMapperIff(userText: string, evs: seq<Event>)
    ensures LedgerItems(userText, evs) == Replay(userText, evs).items <==> ClashFree(userText, evs)
    ensures Distinct(Replay(userText, evs).items) <==> ClashFree(userText, evs)
  {
    CopiesAgree(userText, evs);
  }

  // ---------------------------------------------------------------- sequences that avoid the reserved ids

  predicate AvoidsReserved(ev: Event) {
    ev.Receive? && (ev.update.ToolCall? || ev.update.ToolCallUpdate?) ==> !Reserved(SanitizeId(ev.update.callId))
  }

  predicate AllAvoid(evs: seq<Event>) {
    forall k :: 0 <= k < |evs| ==> AvoidsReserved(evs[k])
  }

  predicate TypeFits(item: Item) {
    if item.id == USER_ID then item.itemType == USER_TYPE && item.status == COMPLETED
    else if item.id == AGENT_ID then item.itemType == AGENT_TYPE
    else if item.id == PLAN_ID then item.itemType == PLAN_TYPE && item.status == IN_PROGRESS
    else ToolType(item.itemType)
  }

  /** `tools` indexes exactly the tool items, and every item has the type its id calls for. */
  predicate Exact(s: State) {
    && |s.items| > 0 && s.items[0].id == USER_ID && Distinct(s.items)
    && (forall i :: 0 <= i < |s.items| ==> TypeFits(s.items[i]))
    && (forall id :: id in s.tools ==> !Reserved(id))
    && (forall i :: 0 <= i < |s.items| ==>
          !Reserved(s.items[i].id) ==> s.items[i].id in s.tools && s.tools[s.items[i].id] == i)
  }

  /** The effects of an exact mapper on an update that avoids the reserved ids. */
  ghost predicate Fits(s: State, e: Effect) {
    && Sound(s, e)
    && (e.Replace? || e.Push? ==> TypeFits(e.item))
    && (e.Push? && e.tool ==> !Reserved(e.item.id))
  }

  lemma MessageFits(s: State, ev: Event)
    requires Indexed(s) && Exact(s)
    requires ev.FinishAgent? || ev.update.AgentText? || ev.update.PlanEntries?
    ensures Fits(s, EffectOf(s, ev))
  {
    EffectSound(s, ev);
    ReservedIds();
  }

  lemma KnownToolFits(s: State, i: nat, u: Update)
    requires i < |s.items| && u.ToolCallUpdate? && TypeFits(s.items[i]) && !Reserved(s.items[i].id)
    ensures KnownTool(s, i, u).Replace? && KnownTool(s, i, u).at == i
    ensures TypeFits(KnownTool(s, i, u).item) && KnownTool(s, i, u).item.id == s.items[i].id
  {
  }

  lemma ToolFits(s: State, ev: Event)
    requires Indexed(s) && Exact(s) && AvoidsReserved(ev)
    requires ev.Receive? && (ev.update.ToolCall? || ev.update.ToolCallUpdate?)
    ensures Fits(s, EffectOf(s, ev))
  {
    EffectSound(s, ev);
    var id := SanitizeId(ev.update.callId);
    if ev.update.ToolCallUpdate? && id in s.tools { KnownToolFits(s, s.tools[id], ev.update); }
  }

  lemma EventFits(s: State, ev: Event)
    requires Indexed(s) && Exact(s) && AvoidsReserved(ev)
    ensures Fits(s, EffectOf(s, ev))
  {
    EffectSound(s, ev);
    if ev.FinishAgent? || ev.update.AgentText? || ev.update.PlanEntries? {
      MessageFits(s, ev);
    } else if ev.update.ToolCall? || ev.update.ToolCallUpdate? {
      ToolFits(s, ev);
    }
  }

  lemma ExactPerform(s: State, e: Effect)
    requires Indexed(s) && Exact(s) && Fits(s, e)
    ensures !(e.Push? && HasId(s.items, e.item.id))
    ensures Exact(Perform(s, e))
  {
    assert !(e.Push? && HasId(s.items, e.item.id));
    EqualStep(s, e);
  }

  lemma StartExact(userText: string)
    ensures Exact(Start(userText))
  {
  }

  lemma {:induction false} ReplayExact(userText: string, evs: seq<Event>)
    requires AllAvoid(evs)
    ensures Exact(Replay(userText, evs)) && ClashFree(userText, evs)
    decreases |evs|
  {
    if evs == [] {
      StartExact(userText);
    } else {
      var n := |evs| - 1;
      var s := Replay(userText, evs[..n]);
      ReplayExact(userText, evs[..n]);
      EventFits(s, evs[n]);
      ExactPerform(s, EffectOf(s, evs[n]));
    }
  }

  /** The chunks of agent text, in order. */
  function AgentChunks(evs: seq<Event>): seq<string> {
    if evs == [] then []
    else
      var n := |evs| - 1;
      AgentChunks(evs[..n]) +
      (if evs[n].Receive? && evs[n].update.AgentText? then [evs[n].update.chunk] else [])
  }

  function Concat(chunks: seq<string>): string {
    if chunks == [] then "" else Concat(chunks[..|chunks| - 1]) + chunks[|chunks| - 1]
  }

  /** The agent message on the record, if there is one. */
  function AgentMessage(items: seq<Item>): Option<string> {
    match Find(items, AGENT_ID)
    case Some(i) => Some(items[i].text)
    case None => None
  }

  /** An effect on another item leaves the agent message alone. */
  lemma AgentUntouched(s: State, e: Effect)
    requires Sound(s, e)
    requires e.Replace? || e.Push? ==> e.item.id != AGENT_ID
    ensures AgentMessage(Perform(s, e).items) == AgentMessage(s.items)
  {
    if e.Replace? { FindReplaced(s.items, e.at, e.item, AGENT_ID); }
    if e.Push? { FindPushed(s.items, e.item, AGENT_ID); }
  }

  lemma ToolLeavesAgent(s: State, ev: Event)
    requires Indexed(s) && Exact(s) && AvoidsReserved(ev)
    requires ev.Receive? && (ev.update.ToolCall? || ev.update.ToolCallUpdate?)
    ensures AgentMessage(Perform(s, EffectOf(s, ev)).items) == AgentMessage(s.items)
  {
    EffectSound(s, ev);
    var e := EffectOf(s, ev);
    assert e.Replace? || e.Push? ==> e.item.id == SanitizeId(ev.update.callId);
    AgentUntouched(s, e);
  }

  lemma AgentStep(s: State, ev: Event)
    requires Indexed(s) && Exact(s) && AvoidsReserved(ev)
    ensures Applicable(s, EffectOf(s, ev))
    ensures AgentMessage(Perform(s, EffectOf(s, ev)).items) ==
            if ev.Receive? && ev.update.AgentText? then Some(OrElse(AgentMessage(s.items), "") + ev.update.chunk)
            else AgentMessage(s.items)
  {
    EffectSound(s, ev);
    var e := EffectOf(s, ev);
    if ev.Receive? && (ev.update.ToolCall? || ev.update.ToolCallUpdate?) {
      ToolLeavesAgent(s, ev);
    } else if ev.Receive? && ev.update.PlanEntries? {
      ReservedIds();
      AgentUntouched(s, e);
    } else if ev.FinishAgent? {
      if e.Replace? { FindReplaced(s.items, e.at, e.item, AGENT_ID); }
    } else if ev.update.AgentText? {
      AgentChunkStep(s, ev.update.chunk);
    }
  }

  lemma AgentChunkStep(s: State, chunk: string)
    ensures AgentMessage(Perform(s, AgentEffect(s, chunk)).items) == Some(OrElse(AgentMessage(s.items), "") + chunk)
  {
    var e := AgentEffect(s, chunk);
    if e.Replace? {
      FindReplaced(s.items, e.at, e.item, AGENT_ID);
    } else {
      FindPushed(s.items, e.item, AGENT_ID);
      assert "" + chunk == chunk;
    }
  }

  /** `m` is the text made of these chunks; no chunk at all makes no message. */
  predicate Spells(m: Option<string>, chunks: seq<string>) {
    m == if chunks == [] then None else Some(Concat(chunks))
  }

  lemma SpellsMore(m: Option<string>, chunks: seq<string>, chunk: string)
    requires Spells(m, chunks)
    ensures Spells(Some(OrElse(m, "") + chunk), chunks + [chunk])
  {
    var d := chunks + [chunk];
    assert d[..|d| - 1] == chunks;
  }

  lemma StartHasNoAgent(userText: string)
    ensures AgentMessage(Start(userText).items) == None
  {
    ReservedIds();
    assert Start(userText).items[0].id != AGENT_ID;
  }

  lemma LastAgent(userText: string, evs: seq<Event>)
    requires evs != [] && AllAvoid(evs)
    ensures var before := AgentMessage(Replay(userText, evs[..|evs| - 1]).items);
            var ev := evs[|evs| - 1];
            AgentMessage(Replay(userText, evs).items) ==
            if ev.Receive? && ev.update.AgentText? then Some(OrElse(before, "") + ev.update.chunk) else before
  {
    ReplayExact(userText, evs[..|evs| - 1]);
    AgentStep(Replay(userText, evs[..|evs| - 1]), evs[|evs| - 1]);
  }

  lemma {:induction false} AgentTextIsConcat(userText: string, evs: seq<Event>)
    requires AllAvoid(evs)
    ensures Spells(AgentMessage(Replay(userText, evs).items), AgentChunks(evs))
    decreases |evs|
  {
    if evs == [] {
      StartHasNoAgent(userText);
    } else {
      var n := |evs| - 1;
      AgentTextIsConcat(userText, evs[..n]);
      LastAgent(userText, evs);
      if evs[n].Receive? && evs[n].update.AgentText? {
        SpellsMore(AgentMessage(Replay(userText, evs[..n]).items), AgentChunks(evs[..n]), evs[n].update.chunk);
      } else {
        assert AgentChunks(evs) == AgentChunks(evs[..n]);
      }
    }
  }

  // ---------------------------------------------------------------- plan text and tool status

  function PlanText(items: seq<Item>): Option<string> {
    match Find(items, PLAN_ID)
    case Some(i) => Some(items[i].text)
    case None => None
  }

  /** The text of the last plan received. */
  function LastPlan(evs: seq<Event>): Option<string> {
    if evs == [] then None
    else
      var ev := evs[|evs| - 1];
      if ev.Receive? && ev.update.PlanEntries? then Some(JoinLines(ev.update.entries)) else LastPlan(evs[..|evs| - 1])
  }

  lemma PlanUntouched(s: State, e: Effect)
    requires Sound(s, e)
    requires e.Replace? || e.Push? ==> e.item.id != PLAN_ID
    ensures PlanText(Perform(s, e).items) == PlanText(s.items)
  {
    if e.Replace? { FindReplaced(s.items, e.at, e.item, PLAN_ID); }
    if e.Push? { FindPushed(s.items, e.item, PLAN_ID); }
  }

  lemma PlanReplaced(s: State, text: string)
    ensures PlanText(Perform(s, PlanEffect(s, text)).items) == Some(text)
  {
    var e := PlanEffect(s, text);
    if e.Replace? { FindReplaced(s.items, e.at, e.item, PLAN_ID); }
    else { FindPushed(s.items, e.item, PLAN_ID); }
  }

  /** A tool event touches the item of its own sanitised id only. */
  lemma ToolTouchesItsItem(s: State, ev: Event)
    requires Indexed(s) && ev.Receive? && (ev.update.ToolCall? || ev.update.ToolCallUpdate?)
    ensures var e := EffectOf(s, ev);
            e.Replace? || e.Push? ==> e.item.id == SanitizeId(ev.update.callId)
  {
    EffectSound(s, ev);
  }

  lemma PlanStep(s: State, ev: Event)
    requires Indexed(s) && AvoidsReserved(ev)
    ensures Applicable(s, EffectOf(s, ev))
    ensures PlanText(Perform(s, EffectOf(s, ev)).items) ==
            if ev.Receive? && ev.update.PlanEntries? then Some(JoinLines(ev.update.entries)) else PlanText(s.items)
  {
    EffectSound(s, ev);
    ReservedIds();
    if ev.Receive? && ev.update.PlanEntries? {
      PlanReplaced(s, JoinLines(ev.update.entries));
    } else {
      if ev.Receive? && (ev.update.ToolCall? || ev.update.ToolCallUpdate?) { ToolTouchesItsItem(s, ev); }
      PlanUntouched(s, EffectOf(s, ev));
    }
  }

  lemma LastPlanStep(userText: string, evs: seq<Event>)
    requires evs != [] && AllAvoid(evs)
    ensures var ev := evs[|evs| - 1];
            PlanText(Replay(userText, evs).items) ==
            if ev.Receive? && ev.update.PlanEntries? then Some(JoinLines(ev.update.entries))
            else PlanText(Replay(userText, evs[..|evs| - 1]).items)
  {
    PlanStep(Replay(userText, evs[..|evs| - 1]), evs[|evs| - 1]);
  }

  lemma StartHasNoPlan(userText: string)
    ensures PlanText(Start(userText).items) == None
  {
    ReservedIds();
    assert Start(userText).items[0].id != PLAN_ID;
  }

  /** The plan item shows the entries of the last plan received, one per line. */
  lemma {:induction false} PlanTextIsLast(userText: string, evs: seq<Event>)
    requires AllAvoid(evs)
    ensures PlanText(Replay(userText, evs).items) == LastPlan(evs)
    decreases |evs|
  {
    if evs == [] {
      StartHasNoPlan(userText);
    } else {
      PlanTextIsLast(userText, evs[..|evs| - 1]);
      LastPlanStep(userText, evs);
    }
  }

  /** What a tool event says about its status. */
  function SaidStatus(u: Update): Option<ToolStatus>
    requires u.ToolCall? || u.ToolCallUpdate?
  {
    if u.ToolCall? then Some(u.status) else u.newStatus
  }

  /** The event is about this item and says that it is completed, or that it failed. */
  predicate SaysFinished(ev: Event, item: Item) {
    && ev.Receive? && (ev.update.ToolCall? || ev.update.ToolCallUpdate?)
    && SanitizeId(ev.update.callId) == item.id
    && ((item.status == COMPLETED && SaidStatus(ev.update) == Some(Done)) ||
        (item.status == FAILED && SaidStatus(ev.update) == Some(Broken)))
  }

  /** A tool item becomes completed or failed only by an event on that tool that says exactly this; an omitted, pending
      or running status never finishes it. */
  lemma ToolFinishesOnlyWhenTold(s: State, ev: Event, i: nat)
    requires Indexed(s) && Exact(s) && AvoidsReserved(ev) && Sound(s, EffectOf(s, ev))
    requires i < |Perform(s, EffectOf(s, ev)).items|
    requires var after := Perform(s, EffectOf(s, ev)).items[i];
             && !Reserved(after.id) && after.status != IN_PROGRESS
             && (i < |s.items| ==> after.status != s.items[i].status)
    ensures SaysFinished(ev, Perform(s, EffectOf(s, ev)).items[i])
  {
    var e := EffectOf(s, ev);
    if ev.Receive? && (ev.update.ToolCall? || ev.update.ToolCallUpdate?) {
      ToolTouchesItsItem(s, ev);
      ToolStatusSaid(s, ev);
      StatusWords();
    } else {
      MessagesTouchReserved(s, ev);
    }
    Changed(s, e, i);
  }

  /** An item that differs, or is new, is the item of the effect. */
  lemma Changed(s: State, e: Effect, i: nat)
    requires Sound(s, e) && i < |Perform(s, e).items| && (i < |s.items| ==> Perform(s, e).items[i] != s.items[i])
    ensures (e.Replace? && e.at == i) || (e.Push? && i == |s.items|)
    ensures Perform(s, e).items[i] == e.item
  {
  }

  lemma ToolStatusSaid(s: State, ev: Event)
    requires Indexed(s) && ev.Receive? && (ev.update.ToolCall? || ev.update.ToolCallUpdate?)
    ensures var e := EffectOf(s, ev); var said := SaidStatus(ev.update);
            && (e.Push? ==> e.item.status == ItemStatus(said))
            && (e.Replace? ==> e.at < |s.items|)
            && (e.Replace? && said.Some? ==> e.item.status == ItemStatus(said))
            && (e.Replace? && said.None? ==> e.item.status == s.items[e.at].status)
  {
  }

  lemma StatusWords()
    ensures IN_PROGRESS != COMPLETED && IN_PROGRESS != FAILED && COMPLETED != FAILED
  {
    assert |IN_PROGRESS| == 10 && |COMPLETED| == 9 && |FAILED| == 6;
  }

  lemma MessagesTouchReserved(s: State, ev: Event)
    requires Indexed(s) && !(ev.Receive? && (ev.update.ToolCall? || ev.update.ToolCallUpdate?))
    ensures var e := EffectOf(s, ev); e.Replace? || e.Push? ==> Reserved(e.item.id)
  {
  }

  // ---------------------------------------------------------------- what each event leaves, in the wire's words

  /** The status word after an event that said this much; an omitted status leaves the word there was. */
  predicate StatusSays(after: string, said: Option<ToolStatus>, before: string) {
    && (said == Some(Done) ==> after == "completed")
    && (said == Some(Broken) ==> after == "failed")
    && (said == Some(Pending) || said == Some(Running) || said == Some(Unlisted) ==> after == "inProgress")
    && (said == None ==> after == before)
  }

  lemma ItemStatusSays(said: Option<ToolStatus>)
    ensures StatusSays(ItemStatus(said), said, "inProgress")
  {
  }

  /** Which tool calls become items, and of which type. */
  lemma MapKindMeaning(kind: ToolKind, title: string, raw: Option<RawInput>)
    ensures MapKind(kind, title, raw) == Some("fileChange") <==> kind == Edit
    ensures MapKind(kind, title, raw) == Some("commandExecution") <==>
              kind == Execute || (kind == Other && IsShell(title, raw))
    ensures MapKind(kind, title, raw) == Some("webSearch") <==>
              (kind == Fetch || kind == Search) && IsWeb(title, raw)
    ensures MapKind(kind, title, raw).Some? ==>
              MapKind(kind, title, raw).value in ["fileChange", "commandExecution", "webSearch"]
  {
    assert |FILE_TYPE| == 10 && |COMMAND_TYPE| == 16 && |WEB_TYPE| == 9;
    if MapKind(kind, title, raw).Some? {
      var types := ["fileChange", "commandExecution", "webSearch"];
      assert types[0] == FILE_TYPE && types[1] == COMMAND_TYPE && types[2] == WEB_TYPE;
    }
  }

  /** The word stands between what comes before it and what comes after. */
  predicate Splits(hay: string, p: string, word: string, q: string) { hay == p + word + q }

  lemma ContainsMeaning(hay: string, needle: string)
    ensures Contains(hay, needle) <==> exists p, q :: Splits(hay, p, needle, q)
  {
    if Contains(hay, needle) {
      var i: nat :| i <= |hay| && StandsAt(hay, i, needle);
      assert Splits(hay, hay[..i], needle, hay[i + |needle|..]);
    }
    if p, q :| Splits(hay, p, needle, q) {
      assert StandsAt(hay, |p|, needle);
    }
  }

  /** A title names a shell when one of three words stands in it in whatever case, or the raw input has a command. */
  lemma ShellMeaning(title: string, raw: Option<RawInput>)
    ensures IsShell(title, raw) <==>
            || (exists p, q :: Splits(AsciiLower(title), p, "shell", q))
            || (exists p, q :: Splits(AsciiLower(title), p, "bash", q))
            || (exists p, q :: Splits(AsciiLower(title), p, "zsh", q))
            || (raw.Some? && raw.value.hasCommand)
  {
    ContainsMeaning(AsciiLower(title), "shell");
    ContainsMeaning(AsciiLower(title), "bash");
    ContainsMeaning(AsciiLower(title), "zsh");
  }

  lemma LowerMeaning(s: string, i: nat)
    requires i < |s|
    ensures |AsciiLower(s)| == |s|
    ensures 'A' <= s[i] <= 'Z' ==> 'a' <= AsciiLower(s)[i] <= 'z' && AsciiLower(s)[i] - 'a' == s[i] - 'A'
    ensures !('A' <= s[i] <= 'Z') ==> AsciiLower(s)[i] == s[i]
  {
  }

  /** A title and raw input are about the web when a web address starts somewhere in the two put together. */
  lemma WebMeaning(title: string, raw: Option<RawInput>)
    ensures var blob := if raw.None? then title else title + raw.value.text;
            IsWeb(title, raw) <==>
            || (exists p, q :: Splits(blob, p, "http://", q))
            || (exists p, q :: Splits(blob, p, "https://", q))
            || (exists p, q :: Splits(blob, p, "www.", q))
  {
    var blob := if raw.None? then title else title + raw.value.text;
    assert raw.None? ==> title + "" == title;
    ContainsMeaning(blob, "http://");
    ContainsMeaning(blob, "https://");
    ContainsMeaning(blob, "www.");
  }

  /** Joining is fixed by one entry, no entry, and two lists put one after the other. */
  lemma {:induction false} JoinLinesMeaning(a: seq<string>, b: seq<string>)
    requires a != [] && b != []
    ensures JoinLines([]) == "" && JoinLines([a[0]]) == a[0]
    ensures JoinLines(a + b) == JoinLines(a) + "\n" + JoinLines(b)
  {
    if |a| == 1 {
      assert (a + b)[1..] == b;
    } else {
      JoinLinesMeaning(a[1..], b);
      assert (a + b)[1..] == a[1..] + b;
    }
  }

  /** After a tool call of a mapped kind its item has the call's id, type and title and the status it said; a call of
      another kind changes nothing. */
  lemma ToolCallMeaning(s: State, u: Update)
    requires Indexed(s) && u.ToolCall?
    ensures var e := EffectOf(s, Receive(u)); var t := MapKind(u.kind, u.title, u.raw); var id := SanitizeId(u.callId);
            && Applicable(s, e)
            && var after := Perform(s, e);
               if t.None? then after == s
               else
                 && id in after.tools && after.tools[id] < |after.items|
                 && var item := after.items[after.tools[id]];
                    && item.id == id && item.itemType == t.value && item.text == u.title
                    && StatusSays(item.status, Some(u.status), "")
                    && (id in s.tools ==> after.tools == s.tools && after.items == s.items[s.tools[id] := item])
                    && (id !in s.tools ==> after.tools == s.tools[id := |s.items|] && after.items == s.items + [item])
  {
    EffectSound(s, Receive(u));
    ItemStatusSays(Some(u.status));
  }

  /** An update of a known tool changes its item only: the title and status it names, the type if its kind is mapped. */
  lemma KnownToolMeaning(s: State, u: Update)
    requires Indexed(s) && u.ToolCallUpdate? && SanitizeId(u.callId) in s.tools
    ensures var e := EffectOf(s, Receive(u)); var i := s.tools[SanitizeId(u.callId)];
            && Applicable(s, e) && i < |s.items|
            && var before, after := s.items[i], Perform(s, e).items[i];
               && Perform(s, e) == State(s.items[i := after], s.tools)
               && after.id == before.id
               && after.text == (if u.newTitle.Some? then u.newTitle.value else before.text)
               && StatusSays(after.status, u.newStatus, before.status)
               && var t := if u.newKind.Some? then MapKind(u.newKind.value, after.text, None) else None;
                  after.itemType == if t.Some? then t.value else before.itemType
  {
    EffectSound(s, Receive(u));
    ItemStatusSays(u.newStatus);
  }

  /** An update of an unknown tool is a call with what it leaves out filled in: another kind, no title, in progress. */
  lemma UnknownToolMeaning(s: State, u: Update)
    requires Indexed(s) && u.ToolCallUpdate? && SanitizeId(u.callId) !in s.tools
    ensures var e := EffectOf(s, Receive(u)); var id := SanitizeId(u.callId);
            var title := if u.newTitle.Some? then u.newTitle.value else "";
            var t := MapKind(if u.newKind.Some? then u.newKind.value else ToolKind.Other, title, None);
            && Applicable(s, e)
            && var after := Perform(s, e);
               if t.None? then after == s
               else
                 && |after.items| == |s.items| + 1 && after.items[..|s.items|] == s.items
                 && after.tools == s.tools[id := |s.items|]
                 && var item := after.items[|s.items|];
                    && item.id == id && item.itemType == t.value && item.text == title
                    && StatusSays(item.status, u.newStatus, "inProgress")
  {
    EffectSound(s, Receive(u));
    ItemStatusSays(u.newStatus);
  }

  // ---------------------------------------------------------------- the two message items

  function AgentItem(items: seq<Item>): Option<Item> {
    match Find(items, AGENT_ID)
    case Some(i) => Some(items[i])
    case None => None
  }

  /** What the events say about the agent message: a first chunk starts it, later ones lengthen it, the end of the
      prompt completes it. */
  function AgentSaid(evs: seq<Event>): Option<Item> {
    if evs == [] then None
    else
      var before, ev := AgentSaid(evs[..|evs| - 1]), evs[|evs| - 1];
      if ev.FinishAgent? then (if before.Some? then Some(before.value.(status := "completed")) else None)
      else if ev.update.AgentText? then
        (if before.Some? then Some(before.value.(text := before.value.text + ev.update.chunk))
         else Some(Item("agent-message", "agentMessage", ev.update.chunk, "inProgress")))
      else before
  }

  lemma AgentItemUntouched(s: State, e: Effect)
    requires Sound(s, e)
    requires e.Replace? || e.Push? ==> e.item.id != AGENT_ID
    ensures AgentItem(Perform(s, e).items) == AgentItem(s.items)
  {
    if e.Replace? { FindReplaced(s.items, e.at, e.item, AGENT_ID); }
    if e.Push? { FindPushed(s.items, e.item, AGENT_ID); }
  }

  lemma AgentItemChunk(s: State, chunk: string)
    ensures AgentItem(Perform(s, AgentEffect(s, chunk)).items) ==
            match AgentItem(s.items)
            case Some(item) => Some(item.(text := item.text + chunk))
            case None => Some(Item("agent-message", "agentMessage", chunk, "inProgress"))
  {
    var e := AgentEffect(s, chunk);
    if e.Replace? { FindReplaced(s.items, e.at, e.item, AGENT_ID); }
    else { FindPushed(s.items, e.item, AGENT_ID); }
  }

  lemma AgentItemFinish(s: State)
    ensures AgentItem(Perform(s, FinishEffect(s)).items) ==
            match AgentItem(s.items)
            case Some(item) => Some(item.(status := "completed"))
            case None => None
  {
    var e := FinishEffect(s);
    if e.Replace? { FindReplaced(s.items, e.at, e.item, AGENT_ID); }
  }

  lemma AgentItemStep(userText: string, evs: seq<Event>)
    requires evs != [] && AllAvoid(evs)
    requires AgentItem(Replay(userText, evs[..|evs| - 1]).items) == AgentSaid(evs[..|evs| - 1])
    ensures AgentItem(Replay(userText, evs).items) == AgentSaid(evs)
  {
    var s, ev := Replay(userText, evs[..|evs| - 1]), evs[|evs| - 1];
    EffectSound(s, ev);
    if ev.FinishAgent? { AgentItemFinish(s); }
    else if ev.update.AgentText? { AgentItemChunk(s, ev.update.chunk); }
    else { OtherEventsSpareAgent(s, ev); }
  }

  lemma OtherEventsSpareAgent(s: State, ev: Event)
    requires Indexed(s) && AvoidsReserved(ev) && ev.Receive? && !ev.update.AgentText?
    ensures Applicable(s, EffectOf(s, ev)) && AgentItem(Perform(s, EffectOf(s, ev)).items) == AgentItem(s.items)
  {
    EffectSound(s, ev);
    ReservedIds();
    if ev.update.ToolCall? || ev.update.ToolCallUpdate? { ToolTouchesItsItem(s, ev); }
    AgentItemUntouched(s, EffectOf(s, ev));
  }

  /** The agent item is word for word what the events said. */
  lemma {:induction false} AgentItemIsSaid(userText: string, evs: seq<Event>)
    requires AllAvoid(evs)
    ensures AgentItem(Replay(userText, evs).items) == AgentSaid(evs)
    decreases |evs|
  {
    if evs == [] {
      StartHasNoAgent(userText);
    } else {
      AgentItemIsSaid(userText, evs[..|evs| - 1]);
      AgentItemStep(userText, evs);
    }
  }

  /** The first item is the user's message and never changes. */
  lemma {:induction false} UserItemStays(userText: string, evs: seq<Event>)
    requires AllAvoid(evs)
    ensures var items := Replay(userText, evs).items;
            |items| > 0 && items[0] == Item("user-message", "userMessage", userText, "completed")
    decreases |evs|
  {
    if evs != [] {
      UserItemStays(userText, evs[..|evs| - 1]);
      UserItemSpared(Replay(userText, evs[..|evs| - 1]), evs[|evs| - 1]);
    }
  }

  lemma UserItemSpared(s: State, ev: Event)
    requires Indexed(s) && AvoidsReserved(ev) && |s.items| > 0 && s.items[0].id == "user-message"
    ensures Applicable(s, EffectOf(s, ev))
    ensures var after := Perform(s, EffectOf(s, ev)).items; |after| > 0 && after[0] == s.items[0]
  {
    EffectSound(s, ev);
    ReservedIds();
    if ev.Receive? && (ev.update.ToolCall? || ev.update.ToolCallUpdate?) { ToolTouchesItsItem(s, ev); }
  }

  /** The whole promise for update sequences that avoid the reserved ids. */
  lemma AvoidingReservedIsEnough(userText: string, evs: seq<Event>)
    requires AllAvoid(evs)
    ensures var s := Replay(userText, evs);
            && Exact(s)
            && LedgerItems(userText, evs) == s.items
            && (forall i :: 0 <= i < |s.items| ==> ValidId(s.items[i].id))
            && Spells(AgentMessage(s.items), AgentChunks(evs))
            && PlanText(s.items) == LastPlan(evs)
            && AgentItem(s.items) == AgentSaid(evs)
            && s.items[0] == Item("user-message", "userMessage", userText, "completed")
  {
    AgentItemIsSaid(userText, evs);
    UserItemStays(userText, evs);
    PlanTextIsLast(userText, evs);
    ReplayExact(userText, evs);
    LedgerEqualsMapperIff(userText, evs);
    AgentTextIsConcat(userText, evs);
  }

  /** Which types stand under which ids. */
  lemma IdsTellTypes(userText: string, evs: seq<Event>)
    requires AllAvoid(evs)
    ensures forall item :: item in Replay(userText, evs).items ==>
              && (item.id == "user-message" <==> item.itemType == "userMessage")
              && (item.id == "agent-message" <==> item.itemType == "agentMessage")
              && (item.id == "plan" <==> item.itemType == "plan")
              && (item.id == "plan" ==> item.status == "inProgress")
              && (item.itemType in {"userMessage", "agentMessage", "plan"} ||
                  item.itemType in {"commandExecution", "fileChange", "webSearch"})
  {
    ReplayExact(userText, evs);
    var items := Replay(userText, evs).items;
    forall item | item in items ensures TypeFits(item) { var i :| 0 <= i < |items| && items[i] == item; }
    assert "userMessage"[0] == 'u' && "agentMessage"[0] == 'a' && "plan"[0] == 'p';
    assert COMMAND_TYPE[0] == 'c' && FILE_TYPE[0] == 'f' && WEB_TYPE[0] == 'w';
  }

  /** Positions are stable over whole runs, whatever the tool ids are. */
  lemma {:induction false} PositionsAreStable(userText: string, evs: seq<Event>, n: nat)
    requires n <= |evs|
    ensures Extends(Replay(userText, evs[..n]).items, Replay(userText, evs).items)
    decreases |evs|
  {
    if n == |evs| {
      assert evs[..n] == evs;
    } else {
      PositionsAreStable(userText, evs[..|evs| - 1], n);
      assert evs[..|evs| - 1][..n] == evs[..n];
      LastExtends(userText, evs);
      ExtendsTransitive(Replay(userText, evs[..n]).items, Replay(userText, evs[..|evs| - 1]).items,
                        Replay(userText, evs).items);
    }
  }

  lemma ExtendsTransitive(a: seq<Item>, b: seq<Item>, c: seq<Item>)
    requires Extends(a, b) && Extends(b, c)
    ensures Extends(a, c)
  {
  }

  lemma LastExtends(userText: string, evs: seq<Event>)
    requires evs != []
    ensures Extends(Replay(userText, evs[..|evs| - 1]).items, Replay(userText, evs).items)
  {
    StepExtends(Replay(userText, evs[..|evs| - 1]), evs[|evs| - 1]);
  }

  /** A tool call that reuses the id of the user message makes two items with one id and the ledger keeps only one. */
  lemma ReservedToolIdDiverges(userText: string)
    ensures var evs := [Receive(ToolCall(USER_ID, "x", Edit, Running, None))];
            LedgerItems(userText, evs) != Replay(userText, evs).items
  {
    ReservedIds();
    var ev := Receive(ToolCall(USER_ID, "x", Edit, Running, None));
    var evs := [ev];
    assert evs[..0] == [];
    var s := Start(userText);
    assert Replay(userText, []) == s;
    assert s.items[0].id == USER_ID;
    assert EffectOf(s, ev).item.id == USER_ID;
    assert Clashes(Replay(userText, evs[..0]), evs[0]);
    assert !ClashFree(userText, evs);
    LedgerEqualsMapperIff(userText, evs);
  }

  // ---------------------------------------------------------------- with other processes at work on the record

  /** The mapper, the items it still has to send, and the turn record. */
  datatype System = System(mapper: State, unsent: seq<Item>, turn: Turn)

  datatype Action =
    | Call(ev: Event)
    | Send
    | Foreign(op: Disk.TurnOp, dead: bool, minted: string)

  /** The mapper's mutex is held until its items are sent; nobody else upserts items of this turn. */
  predicate Enabled(s: System, act: Action) {
    match act
    case Call(ev) => s.unsent == [] && AvoidsReserved(ev)
    case Send => s.unsent != []
    case Foreign(op, _, _) => !op.Upsert? && op.WellFormed()
  }

  function Written(op: Disk.TurnOp, v: Turn, dead: bool, minted: string): Turn {
    var w := Disk.Rewrite(op, v, dead, minted);
    if w.Some? then w.value else v
  }

  function Next(s: System, act: Action): System
    requires Indexed(s.mapper) && Enabled(s, act)
  {
    match act
    case Call(ev) =>
      var e := EffectOf(s.mapper, ev);
      EffectSound(s.mapper, ev);
      System(Perform(s.mapper, e), Deltas(e), s.turn)
    case Send => System(s.mapper, s.unsent[1..], Written(Disk.Upsert(s.unsent[0]), s.turn, false, ""))
    case Foreign(op, dead, minted) => s.(turn := Written(op, s.turn, dead, minted))
  }

  ghost predicate Consistent(s: System) {
    && Indexed(s.mapper) && Exact(s.mapper)
    && (!s.turn.IsTerminal() ==> UpsertAll(s.turn.items, s.unsent) == s.mapper.items)
  }

  /** The first thing sent is the user message of the new mapper. */
  lemma StartConsistent(userText: string, turn: Turn)
    requires turn.items == []
    ensures Consistent(System(Start(userText), Start(userText).items, turn))
  {
    StartIndexed(userText);
    StartExact(userText);
    StartCopies(userText);
  }

  /** While the turn is live, the record plus the unsent items is the mapper's list; a terminal record is frozen. */
  lemma NextConsistent(s: System, act: Action)
    requires Consistent(s) && Enabled(s, act)
    ensures Consistent(Next(s, act))
    ensures s.turn.IsTerminal() ==> Next(s, act).turn.IsTerminal() && Next(s, act).turn.items == s.turn.items
  {
    match act
    case Call(ev) => CallConsistent(s, ev);
    case Send =>
    case Foreign(op, dead, minted) =>
      assert Written(op, s.turn, dead, minted).items == s.turn.items;
      assert s.turn.IsTerminal() ==> Written(op, s.turn, dead, minted).IsTerminal();
  }

  lemma CallConsistent(s: System, ev: Event)
    requires Consistent(s) && Enabled(s, Call(ev))
    ensures Consistent(Next(s, Call(ev)))
  {
    EventFits(s.mapper, ev);
    var e := EffectOf(s.mapper, ev);
    PerformKeepsIndexed(s.mapper, e);
    ExactPerform(s.mapper, e);
    if !s.turn.IsTerminal() { EqualStep(s.mapper, e); }
  }

  predicate Follows(s: System, act: Action, s': System) {
    Indexed(s.mapper) && Enabled(s, act) && s' == Next(s, act)
  }

  ghost predicate IsRun(states: seq<System>, acts: seq<Action>, userText: string) {
    && Steps(states, acts, Follows) && states[0].turn.items == []
    && states[0] == System(Start(userText), Start(userText).items, states[0].turn)
  }

  /** In every interleaving with observations, cancels, publishes and approvals, a live turn's record equals the mapper
      whenever nothing is waiting to be sent. */
  lemma {:induction false} LedgerFollowsMapper(states: seq<System>, acts: seq<Action>, userText: string, k: nat)
    requires IsRun(states, acts, userText) && k < |states|
    ensures Consistent(states[k])
    ensures !states[k].turn.IsTerminal() && states[k].unsent == [] ==> states[k].turn.items == states[k].mapper.items
  {
    if k == 0 {
      StartConsistent(userText, states[0].turn);
    } else {
      LedgerFollowsMapper(states, acts, userText, k - 1);
      assert Enabled(states[k - 1], acts[k - 1]);
      NextConsistent(states[k - 1], acts[k - 1]);
    }
  }
}
