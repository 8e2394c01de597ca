/** Model and effort: normalisation, the cascade of layers, and the per-thread freeze of the model. */
module Defaults {
  import opened Records
  import opened Traces

  // ---------------------------------------------------------------- trimming

  predicate Whitespace(c: char) {
    || '\U{0009}' <= c <= '\U{000D}' || c == '\U{0020}' || c == '\U{0085}' || c == '\U{00A0}' || c == '\U{1680}'
    || '\U{2000}' <= c <= '\U{200A}' || c == '\U{2028}' || c == '\U{2029}' || c == '\U{202F}'
    || c == '\U{205F}' || c == '\U{3000}'
  }

  function TrimStart(s: string): string {
    if s != "" && Whitespace(s[0]) then TrimStart(s[1..]) else s
  }

  function TrimEnd(s: string): string {
    if s != "" && Whitespace(s[|s| - 1]) then TrimEnd(s[..|s| - 1]) else s
  }

  function Trim(s: string): string { TrimEnd(TrimStart(s)) }

  predicate Trimmed(s: string) { s != "" ==> !Whitespace(s[0]) && !Whitespace(s[|s| - 1]) }

  lemma {:induction false} TrimEndKeepsStart(s: string)
    requires s != "" ==> !Whitespace(s[0])
    ensures Trimmed(TrimEnd(s)) && (s != "" ==> TrimEnd(s) != "")
  {
    if s != "" && Whitespace(s[|s| - 1]) { TrimEndKeepsStart(s[..|s| - 1]); }
  }

  lemma {:induction false} TrimStartStarts(s: string)
    ensures TrimStart(s) != "" ==> !Whitespace(TrimStart(s)[0])
  {
    if s != "" && Whitespace(s[0]) { TrimStartStarts(s[1..]); }
  }

  /** Trimming leaves no space at either end, and leaves trimmed text alone. */
  lemma TrimMeaning(s: string)
    ensures Trimmed(Trim(s)) && (Trimmed(s) ==> Trim(s) == s)
  {
    TrimStartStarts(s);
    TrimEndKeepsStart(TrimStart(s));
  }

  /** The white-space characters, by code point. */
  lemma WhitespaceMeaning(c: char)
    ensures Whitespace(c) <==>
            var n := c as int;
            || 9 <= n <= 13 || n == 32 || n == 133 || n == 160 || n == 5760
            || 8192 <= n <= 8202 || n == 8232 || n == 8233 || n == 8239 || n == 8287 || n == 12288
  {
  }

  predicate Spaces(s: string) { forall i :: 0 <= i < |s| ==> Whitespace(s[i]) }

  lemma {:induction false} TrimStartCuts(s: string) returns (p: string)
    ensures s == p + TrimStart(s) && Spaces(p)
  {
    if s != "" && Whitespace(s[0]) {
      p := TrimStartCuts(s[1..]);
      assert s == [s[0]] + s[1..];
      p := [s[0]] + p;
    } else {
      p := "";
    }
  }

  lemma {:induction false} TrimEndCuts(s: string) returns (q: string)
    ensures s == TrimEnd(s) + q && Spaces(q)
  {
    if s != "" && Whitespace(s[|s| - 1]) {
      var n := |s| - 1;
      q := TrimEndCuts(s[..n]);
      assert s == s[..n] + [s[n]];
      q := q + [s[n]];
    } else {
      q := "";
    }
  }

  /** Trimming cuts off white space at both ends and nothing else. */
  lemma TrimCuts(s: string) returns (p: string, q: string)
    ensures s == p + Trim(s) + q && Spaces(p) && Spaces(q)
  {
    p := TrimStartCuts(s);
    q := TrimEndCuts(TrimStart(s));
  }

  // ---------------------------------------------------------------- normalize_present and the layers

  const BUILTIN_MODEL := "grok-4.6"
  const BUILTIN_EFFORT := "high"
  const GROK_ALIAS := "grok"

  datatype ResolveError = InvalidConfig | ModelMismatch(requested: string, frozen: string)

  datatype Resolved<T> = Ok(value: T) | Err(error: ResolveError)

  datatype HomeDefaults = HomeDefaults(model: Option<string>, effort: Option<string>)

  function NormalizePresent(raw: string): Resolved<string> {
    if Trim(raw) == "" then Err(InvalidConfig)
    else if Trim(raw) == GROK_ALIAS then Ok(BUILTIN_MODEL)
    else Ok(Trim(raw))
  }

  /** A stored value: not blank, without spaces at its ends, and not the alias. */
  predicate Normal(s: string) { s != "" && Trimmed(s) && s != GROK_ALIAS }

  lemma BuiltinsNormal()
    ensures Normal(BUILTIN_MODEL) && Normal(BUILTIN_EFFORT)
  {
    assert BUILTIN_MODEL[0] == 'g' && BUILTIN_MODEL[7] == '6' && |BUILTIN_MODEL| == 8 && |GROK_ALIAS| == 4;
    assert BUILTIN_EFFORT[0] == 'h' && BUILTIN_EFFORT[3] == 'h' && GROK_ALIAS[0] == 'g';
  }

  /** Normalising yields normal values, exactly the normal values are left alone, and only blank input fails. */
  lemma NormalizeMeaning(raw: string)
    ensures NormalizePresent(raw).Ok? ==> Normal(NormalizePresent(raw).value)
    ensures NormalizePresent(raw) == Ok(raw) <==> Normal(raw)
    ensures NormalizePresent(raw).Err? <==> Trim(raw) == ""
  {
    TrimMeaning(raw);
    BuiltinsNormal();
  }

  lemma NormalizeIdempotent(raw: string)
    requires NormalizePresent(raw).Ok?
    ensures NormalizePresent(NormalizePresent(raw).value) == NormalizePresent(raw)
  {
    NormalizeMeaning(raw);
    NormalizeMeaning(NormalizePresent(raw).value);
  }

  /** An empty field was omitted by the caller. */
  function PresentField(raw: string): Option<string> { if raw == "" then None else Some(raw) }

  function ResolveLayer(explicit: Option<string>, config: Option<string>, builtin: string): Resolved<string> {
    if explicit.Some? then NormalizePresent(explicit.value)
    else if config.Some? then NormalizePresent(config.value)
    else Ok(builtin)
  }

  function ResolveFirstTurn(model: string, effort: string, d: HomeDefaults): Resolved<(string, string)> {
    var m := ResolveLayer(PresentField(model), d.model, BUILTIN_MODEL);
    if m.Err? then Err(m.error)
    else
      var e := ResolveLayer(PresentField(effort), d.effort, BUILTIN_EFFORT);
      if e.Err? then Err(e.error) else Ok((m.value, e.value))
  }

  function FollowUpModel(requested: string, frozen: string): Resolved<string> {
    var f := NormalizePresent(frozen);
    if f.Err? then f
    else if requested == "" then f
    else
      var r := NormalizePresent(requested);
      if r.Err? then r
      else if r.value != f.value then Err(ModelMismatch(r.value, f.value))
      else r
  }

  function FollowUpEffort(requested: string, previous: string, d: HomeDefaults): Resolved<string> {
    if requested != "" then NormalizePresent(requested)
    else if previous != "" then Ok(previous)
    else ResolveLayer(None, d.effort, BUILTIN_EFFORT)
  }

  function ResolveFollowUp(model: string, effort: string, frozen: string, previous: string, d: HomeDefaults)
    : Resolved<(string, string)>
  {
    var m := FollowUpModel(model, frozen);
    if m.Err? then Err(m.error)
    else
      var e := FollowUpEffort(effort, previous, d);
      if e.Err? then Err(e.error) else Ok((m.value, e.value))
  }

  /** The value kept for one that was given: without the spaces around it, and the alias by its full name. */
  function Stored(raw: string): string {
    if Trim(raw) == "grok" then "grok-4.6" else Trim(raw)
  }

  lemma NormalizeWords(raw: string)
    ensures Trim(raw) == "" ==> NormalizePresent(raw) == Err(InvalidConfig)
    ensures Trim(raw) != "" ==> NormalizePresent(raw) == Ok(Stored(raw))
  {
  }

  /** The value that decides: what the caller gave, else what the home configuration has, else nothing. */
  function Deciding(given: string, config: Option<string>): Option<string> {
    if given != "" then Some(given) else config
  }

  predicate Usable(v: Option<string>) { v.Some? ==> Trim(v.value) != "" }

  /** A first turn uses the given model and effort, else the configured ones, else `grok-4.6` and `high`; it is refused
      exactly when a deciding value is blank. */
  lemma FirstTurnMeaning(model: string, effort: string, d: HomeDefaults)
    ensures var r := ResolveFirstTurn(model, effort, d);
            var m, e := Deciding(model, d.model), Deciding(effort, d.effort);
            && (r.Ok? <==> Usable(m) && Usable(e))
            && (r.Ok? ==> r.value.0 == if m.Some? then Stored(m.value) else "grok-4.6")
            && (r.Ok? ==> r.value.1 == if e.Some? then Stored(e.value) else "high")
            && (r.Err? ==> r.error == InvalidConfig)
  {
    NormalizeWords(model);
    NormalizeWords(effort);
    if d.model.Some? { NormalizeWords(d.model.value); }
    if d.effort.Some? { NormalizeWords(d.effort.value); }
  }

  /** A follow-up runs the frozen model with the given effort, else the previous one, else the configured one, else
      `high`; another model is refused as a mismatch, a blank value as invalid. */
  lemma FollowUpWords(model: string, effort: string, frozen: string, previous: string, d: HomeDefaults)
    requires Trim(frozen) != ""
    ensures var r := ResolveFollowUp(model, effort, frozen, previous, d);
            && (r.Ok? ==> r.value.0 == Stored(frozen))
            && (r.Ok? && effort != "" ==> r.value.1 == Stored(effort))
            && (r.Ok? && effort == "" && previous != "" ==> r.value.1 == previous)
            && (r.Ok? && effort == "" && previous == "" && d.effort.Some? ==> r.value.1 == Stored(d.effort.value))
            && (r.Ok? && effort == "" && previous == "" && d.effort.None? ==> r.value.1 == "high")
            && (model != "" && Trim(model) != "" && Stored(model) != Stored(frozen) ==>
                  r == Err(ModelMismatch(Stored(model), Stored(frozen))))
            && (model != "" && Trim(model) == "" ==> r == Err(InvalidConfig))
  {
    NormalizeWords(frozen);
    NormalizeWords(model);
    NormalizeWords(effort);
    if d.effort.Some? { NormalizeWords(d.effort.value); }
  }

  lemma LayerNormal(explicit: Option<string>, config: Option<string>, builtin: string)
    requires Normal(builtin)
    ensures var r := ResolveLayer(explicit, config, builtin); r.Ok? ==> Normal(r.value)
  {
    if explicit.Some? { NormalizeMeaning(explicit.value); }
    else if config.Some? { NormalizeMeaning(config.value); }
  }

  lemma FirstTurnNormal(model: string, effort: string, d: HomeDefaults)
    ensures var r := ResolveFirstTurn(model, effort, d); r.Ok? ==> Normal(r.value.0) && Normal(r.value.1)
  {
    BuiltinsNormal();
    LayerNormal(PresentField(model), d.model, BUILTIN_MODEL);
    LayerNormal(PresentField(effort), d.effort, BUILTIN_EFFORT);
  }

  /** A follow-up keeps the frozen model, and is refused exactly when it names another model or a blank value. */
  lemma FollowUpMeaning(model: string, effort: string, frozen: string, previous: string, d: HomeDefaults)
    requires Normal(frozen) && (previous != "" ==> Normal(previous))
    ensures var r := ResolveFollowUp(model, effort, frozen, previous, d);
            && (r.Ok? ==> r.value.0 == frozen && Normal(r.value.1))
            && (r.Ok? && effort == "" && previous != "" ==> r.value.1 == previous)
            && (r.Ok? <==>
                  && (model == "" || NormalizePresent(model) == Ok(frozen))
                  && (if effort != "" then Trim(effort) != ""
                      else previous != "" || d.effort.None? || Trim(d.effort.value) != ""))
  {
    NormalizeMeaning(frozen);
    BuiltinsNormal();
    LayerNormal(None, d.effort, BUILTIN_EFFORT);
    NormalizeMeaning(effort);
    if d.effort.Some? { NormalizeMeaning(d.effort.value); }
  }

  // ---------------------------------------------------------------- previous_turn_effort

  /** Byte-wise order of ids, which are ASCII. */
  predicate StringLess(a: string, b: string) {
    if b == "" then false
    else if a == "" then true
    else a[0] < b[0] || (a[0] == b[0] && StringLess(a[1..], b[1..]))
  }

  lemma {:induction false} StringLessTotal(a: string, b: string)
    ensures !(StringLess(a, b) && StringLess(b, a)) && (a == b || StringLess(a, b) || StringLess(b, a))
    ensures a == b ==> !StringLess(a, b)
  {
    if a != "" && b != "" {
      StringLessTotal(a[1..], b[1..]);
      assert a == [a[0]] + a[1..] && b == [b[0]] + b[1..];
    }
  }

  lemma {:induction false} StringLessTransitive(a: string, b: string, c: string)
    requires StringLess(a, b) && StringLess(b, c)
    ensures StringLess(a, c)
  {
    if a != "" && a[0] == b[0] && b[0] == c[0] { StringLessTransitive(a[1..], b[1..], c[1..]); }
  }

  /** The first `k` characters agree, and then either only `b` goes on or its next character is greater. */
  predicate DiffersUp(a: string, b: string, k: nat) {
    && k <= |a| && k < |b| && a[..k] == b[..k]
    && (k == |a| || a[k] < b[k])
  }

  lemma {:induction false} StringLessMeaning(a: string, b: string)
    ensures StringLess(a, b) <==> exists k: nat :: k <= |a| && DiffersUp(a, b, k)
  {
    if a == "" || b == "" {
      if a == "" && b != "" { assert DiffersUp(a, b, 0); }
    } else if a[0] != b[0] {
      if a[0] < b[0] { assert DiffersUp(a, b, 0); }
      forall k: nat | k <= |a| && DiffersUp(a, b, k) ensures a[0] < b[0] {
        if k > 0 { assert a[..k][0] == b[..k][0]; }
      }
    } else {
      StringLessMeaning(a[1..], b[1..]);
      forall k: nat | k <= |a[1..]| && DiffersUp(a[1..], b[1..], k) ensures DiffersUp(a, b, k + 1) {
        assert a[..k + 1] == [a[0]] + a[1..][..k] && b[..k + 1] == [b[0]] + b[1..][..k];
      }
      forall k: nat | k <= |a| && DiffersUp(a, b, k) ensures k > 0 && DiffersUp(a[1..], b[1..], k - 1) {
        assert a[1..][..k - 1] == a[..k][1..] && b[1..][..k - 1] == b[..k][1..];
      }
    }
  }

  /** (started_epoch, id) order; `epochs` gives the start of each generation. */
  predicate Later(epochs: map<string, nat>, t: Turn, u: Turn)
    requires t.generationId in epochs && u.generationId in epochs
  {
    epochs[t.generationId] > epochs[u.generationId] ||
    (epochs[t.generationId] == epochs[u.generationId] && StringLess(u.id, t.id))
  }

  predicate AllStarted(turns: seq<Turn>, epochs: map<string, nat>, threadId: string) {
    forall i :: 0 <= i < |turns| && turns[i].threadId == threadId ==> turns[i].generationId in epochs
  }

  /** No turn of the thread is later than this one. */
  predicate IsLatest(turns: seq<Turn>, epochs: map<string, nat>, threadId: string, k: nat)
    requires AllStarted(turns, epochs, threadId)
  {
    && k < |turns| && turns[k].threadId == threadId
    && forall i :: 0 <= i < |turns| && turns[i].threadId == threadId ==> !Later(epochs, turns[i], turns[k])
  }

  /** The effort a follow-up falls back to: that of the latest turn of the thread, or nothing. */
  ghost predicate IsPreviousEffort(turns: seq<Turn>, epochs: map<string, nat>, threadId: string, effort: string) {
    && AllStarted(turns, epochs, threadId)
    && ((exists k: nat :: IsLatest(turns, epochs, threadId, k) && effort == turns[k].effort)
        || (effort == "" && forall i :: 0 <= i < |turns| ==> turns[i].threadId != threadId))
  }

  lemma LaterTransitive(epochs: map<string, nat>, t: Turn, u: Turn, v: Turn)
    requires t.generationId in epochs && u.generationId in epochs && v.generationId in epochs
    requires Later(epochs, t, u) && !Later(epochs, v, u)
    ensures !Later(epochs, v, t)
  {
    if Later(epochs, v, t) && epochs[v.generationId] == epochs[t.generationId] == epochs[u.generationId] {
      StringLessTransitive(u.id, t.id, v.id);
    }
  }

  /** One scan over the listing, in whatever order it comes; None when a generation cannot be read. */
  method PreviousTurnEffort(turns: seq<Turn>, epochs: map<string, nat>, threadId: string) returns (r: Option<string>)
    ensures r.None? <==> !AllStarted(turns, epochs, threadId)
    ensures r.Some? ==> IsPreviousEffort(turns, epochs, threadId, r.value)
  {
    var best: Option<Turn> := None;
    for i := 0 to |turns|
      invariant AllStarted(turns[..i], epochs, threadId)
      invariant best.None? ==> forall j :: 0 <= j < i ==> turns[j].threadId != threadId
      invariant best.Some? ==> best.value.generationId in epochs && best.value.threadId == threadId
      invariant best.Some? ==> exists k :: 0 <= k < i && turns[k] == best.value
      invariant best.Some? ==>
                  forall j :: 0 <= j < i && turns[j].threadId == threadId ==> !Later(epochs, turns[..i][j], best.value)
    {
      var turn := turns[i];
      if turn.threadId != threadId { continue; }
      if turn.generationId !in epochs { return None; }
      StringLessTotal(turn.id, turn.id);
      if best.None? || Later(epochs, turn, best.value) {
        if best.Some? {
          forall j | 0 <= j < i && turns[j].threadId == threadId ensures !Later(epochs, turns[..i][j], turn) {
            LaterTransitive(epochs, turn, best.value, turns[..i][j]);
          }
        }
        best := Some(turn);
      }
    }
    assert turns[..|turns|] == turns;
    r := Some(if best.Some? then best.value.effort else "");
  }

  /** The latest turn started last, and among those that started then it has the greatest id. */
  lemma LatestMeaning(turns: seq<Turn>, epochs: map<string, nat>, threadId: string, k: nat, i: nat)
    requires AllStarted(turns, epochs, threadId) && IsLatest(turns, epochs, threadId, k)
    requires i < |turns| && turns[i].threadId == threadId
    ensures epochs[turns[i].generationId] <= epochs[turns[k].generationId]
    ensures epochs[turns[i].generationId] == epochs[turns[k].generationId] ==>
              turns[i].id == turns[k].id || StringLess(turns[i].id, turns[k].id)
  {
    StringLessTotal(turns[i].id, turns[k].id);
  }

  /** With distinct ids the answer is unique. */
  lemma LatestIsUnique(turns: seq<Turn>, epochs: map<string, nat>, threadId: string, j: nat, k: nat)
    requires AllStarted(turns, epochs, threadId)
    requires IsLatest(turns, epochs, threadId, j) && IsLatest(turns, epochs, threadId, k)
    ensures turns[j].id == turns[k].id
  {
    StringLessTotal(turns[j].id, turns[k].id);
  }

  // ---------------------------------------------------------------- histories

  /** `resolved` is what a runner that created a thread for its first turn still has to admit. */
  datatype History = History(
    threads: map<string, Thread>,
    turns: map<string, Turn>,
    epochs: map<string, nat>,
    resolved: map<string, (string, string)>)

  /** `thread/start`; the two halves of a first turn, creation of its thread and admission; and a turn on an existing
      thread, whose fallback effort comes from any listing of records seen so far. */
  datatype Event =
    | StartThread(thread: Thread, model: string, d: HomeDefaults)
    | CreateForTurn(thread: Thread, model: string, effort: string, d: HomeDefaults)
    | AdmitFirst(turn: Turn, epoch: nat)
    | AdmitNext(
        seen: seq<Turn>, turn: Turn, epoch: nat, model: string, effort: string, previous: string, d: HomeDefaults)

  predicate NewRecord(h: History, turn: Turn) {
    turn.id !in h.turns && turn.generationId !in h.epochs && turn.threadId in h.threads
  }

  /** The step is one the adapter takes: it resolved, and what it stored is what it resolved. */
  ghost predicate Allowed(h: History, ev: Event) {
    match ev
    case StartThread(thread, model, d) =>
      && thread.id !in h.threads
      && var r := ResolveFirstTurn(model, "", d); r.Ok? && thread.model == r.value.0
    case CreateForTurn(thread, model, effort, d) =>
      && thread.id !in h.threads
      && var r := ResolveFirstTurn(model, effort, d); r.Ok? && thread.model == r.value.0
    case AdmitFirst(turn, _) =>
      && NewRecord(h, turn) && turn.threadId in h.resolved
      && (turn.model, turn.effort) == h.resolved[turn.threadId]
    case AdmitNext(seen, turn, _, model, effort, previous, d) =>
      && NewRecord(h, turn)
      && (forall i :: 0 <= i < |seen| ==> seen[i].id in h.turns && h.turns[seen[i].id] == seen[i])
      && IsPreviousEffort(seen, h.epochs, turn.threadId, previous)
      && var r := ResolveFollowUp(model, effort, h.threads[turn.threadId].model, previous, d);
         r.Ok? && turn.model == r.value.0 && turn.effort == r.value.1
  }

  function WithTurn(h: History, turn: Turn, epoch: nat): History {
    h.(turns := h.turns[turn.id := turn], epochs := h.epochs[turn.generationId := epoch])
  }

  ghost function Recorded(h: History, ev: Event): History
    requires Allowed(h, ev)
  {
    match ev
    case StartThread(thread, _, _) => h.(threads := h.threads[thread.id := thread])
    case CreateForTurn(thread, model, effort, d) =>
      h.(threads := h.threads[thread.id := thread],
         resolved := h.resolved[thread.id := ResolveFirstTurn(model, effort, d).value])
    case AdmitFirst(turn, epoch) => WithTurn(h, turn, epoch)
    case AdmitNext(_, turn, epoch, _, _, _, _) => WithTurn(h, turn, epoch)
  }

  /** Every turn runs its thread's frozen model; models and efforts are normal, hence never blank. */
  ghost predicate Frozen(h: History) {
    && (forall th :: th in h.threads ==> Normal(h.threads[th].model))
    && (forall th :: th in h.resolved ==>
          th in h.threads && h.resolved[th].0 == h.threads[th].model && Normal(h.resolved[th].1))
    && (forall t :: t in h.turns ==>
          && h.turns[t].threadId in h.threads
          && h.turns[t].model == h.threads[h.turns[t].threadId].model
          && Normal(h.turns[t].effort))
  }

  lemma AdmittedKeepsFrozen(h: History, turn: Turn, epoch: nat)
    requires Frozen(h) && turn.threadId in h.threads
    requires turn.model == h.threads[turn.threadId].model && Normal(turn.effort)
    ensures Frozen(WithTurn(h, turn, epoch))
  {
  }

  lemma EventKeepsFrozen(h: History, ev: Event)
    requires Frozen(h) && Allowed(h, ev)
    ensures Frozen(Recorded(h, ev))
    ensures forall th :: th in h.threads ==>
              th in Recorded(h, ev).threads && Recorded(h, ev).threads[th] == h.threads[th]
  {
    match ev
    case StartThread(thread, model, d) => FirstTurnNormal(model, "", d);
    case CreateForTurn(thread, model, effort, d) => FirstTurnNormal(model, effort, d);
    case AdmitFirst(turn, epoch) => AdmittedKeepsFrozen(h, turn, epoch);
    case AdmitNext(seen, turn, epoch, model, effort, previous, d) =>
      PreviousNormal(h, seen, turn.threadId, previous);
      FollowUpMeaning(model, effort, h.threads[turn.threadId].model, previous, d);
      AdmittedKeepsFrozen(h, turn, epoch);
  }

  lemma PreviousNormal(h: History, seen: seq<Turn>, threadId: string, previous: string)
    requires Frozen(h)
    requires forall i :: 0 <= i < |seen| ==> seen[i].id in h.turns && h.turns[seen[i].id] == seen[i]
    requires IsPreviousEffort(seen, h.epochs, threadId, previous)
    ensures previous != "" ==> Normal(previous)
  {
    if previous != "" {
      var k: nat :| IsLatest(seen, h.epochs, threadId, k) && previous == seen[k].effort;
      assert h.turns[seen[k].id] == seen[k];
    }
  }

  ghost predicate Follows(h: History, ev: Event, h': History) { Allowed(h, ev) && h' == Recorded(h, ev) }

  ghost predicate IsHistory(states: seq<History>, evs: seq<Event>) {
    Steps(states, evs, Follows) && states[0] == History(map[], map[], map[], map[])
  }

  /** Over every history, the model of every turn is its thread's, and no stored effort is blank. */
  lemma {:induction false} ModelsStayFrozen(states: seq<History>, evs: seq<Event>, k: nat)
    requires IsHistory(states, evs) && k < |states|
    ensures Frozen(states[k])
  {
    if k > 0 {
      ModelsStayFrozen(states, evs, k - 1);
      assert Allowed(states[k - 1], evs[k - 1]);
      EventKeepsFrozen(states[k - 1], evs[k - 1]);
    }
  }
}
