/** Agent sessions: which session a prompt runs in, and with which instructions it was created. */
module Sessions {
  import opened Records
  import opened Traces

  /** A turn request names no thread, a thread to follow up on, or an existing thread without a session. */
  datatype Request = First(created: Thread) | FollowUp(thread: string) | Reuse(thread: string)

  /** A runner between reading its request and sending its prompt. `asked` is the thread of the request, `thread` that
      of the admitted turn; `load` is the stored session it will load instead of creating one. */
  datatype Point =
    | Resolved(asked: string, instructions: string, load: Option<string>, key: seq<Byte>)
    | Admitted(asked: string, thread: string, instructions: string, load: Option<string>)
    | Created(asked: string, thread: string, session: string)
    | Ready(asked: string, thread: string, session: string, loaded: bool)
    | Ended

  /** A session/new: the instructions it carried and the runner that sent it. */
  datatype Session = Session(instructions: string, creator: nat)

  /** Who made a session id durable: the thread of the request and the thread it was written to. */
  datatype Origin = Origin(asked: string, thread: string)

  datatype Prompt = Prompt(asked: string, thread: string, session: string, loaded: bool)

  datatype System = System(
    threads: map<string, Thread>,
    turns: map<string, Turn>,
    sessions: map<string, Session>,
    persisted: map<string, Origin>,
    runners: map<nat, Point>,
    prompts: seq<Prompt>)

  datatype Action =
    | StartThread(thread: Thread)
    | Begin(r: nat, request: Request, key: seq<Byte>)
    | AdmitNew(r: nat, turn: Turn)
    | AdmitExisting(r: nat, found: string)
    | Load(r: nat)
    | New(r: nat, session: string)
    | Persist(r: nat)
    | Send(r: nat)
    | Stop(r: nat)

  predicate Initial(s: System) { s == System(map[], map[], map[], map[], map[], []) }

  predicate BeginEnabled(s: System, r: nat, request: Request) {
    && r !in s.runners
    && match request
       case First(created) =>
         created.id !in s.threads && created.acpSessionId == "" && created.developerInstructions == ""
       case FollowUp(th) => th in s.threads && s.threads[th].acpSessionId != ""
       case Reuse(th) => th in s.threads
  }

  /** Failed reads and writes, failed loads, refusals and crashes are `Stop`.
      Session ids returned by the agent are fresh. */
  predicate Enabled(s: System, act: Action) {
    match act
    case StartThread(thread) => thread.id !in s.threads && thread.acpSessionId == ""
    case Begin(r, request, _) => BeginEnabled(s, r, request)
    case AdmitNew(r, turn) =>
      && r in s.runners && s.runners[r].Resolved? && turn.id !in s.turns
      && turn.threadId == s.runners[r].asked && turn.clientRequestId == s.runners[r].key
    case AdmitExisting(r, t) =>
      && r in s.runners && s.runners[r].Resolved? && t in s.turns
      && s.runners[r].key != [] && s.turns[t].clientRequestId == s.runners[r].key
    case Load(r) => r in s.runners && s.runners[r].Admitted? && s.runners[r].load.Some?
    case New(r, sid) =>
      && r in s.runners && s.runners[r].Admitted? && s.runners[r].load.None?
      && sid !in s.sessions && sid != ""
    case Persist(r) => r in s.runners && s.runners[r].Created? && s.runners[r].thread in s.threads
    case Send(r) => r in s.runners && s.runners[r].Ready?
    case Stop(r) => r in s.runners
  }

  function Put(s: System, r: nat, p: Point): System { s.(runners := s.runners[r := p]) }

  function BeginNext(s: System, r: nat, request: Request, key: seq<Byte>): System
    requires BeginEnabled(s, r, request)
  {
    match request
    case First(created) =>
      Put(s, r, Resolved(created.id, "", None, key)).(threads := s.threads[created.id := created])
    case FollowUp(th) =>
      Put(s, r, Resolved(th, s.threads[th].developerInstructions, Some(s.threads[th].acpSessionId), key))
    case Reuse(th) => Put(s, r, Resolved(th, s.threads[th].developerInstructions, None, key))
  }

  function Next(s: System, act: Action): System
    requires Enabled(s, act)
  {
    match act
    case StartThread(thread) => s.(threads := s.threads[thread.id := thread])
    case Begin(r, request, key) => BeginNext(s, r, request, key)
    case AdmitNew(r, turn) =>
      var p := s.runners[r];
      Put(s, r, Admitted(p.asked, turn.threadId, p.instructions, p.load)).(turns := s.turns[turn.id := turn])
    case AdmitExisting(r, t) =>
      var p := s.runners[r];
      Put(s, r, Admitted(p.asked, s.turns[t].threadId, p.instructions, p.load))
    case Load(r) =>
      var p := s.runners[r];
      Put(s, r, Ready(p.asked, p.thread, p.load.value, true))
    case New(r, sid) =>
      var p := s.runners[r];
      Put(s, r, Created(p.asked, p.thread, sid)).(sessions := s.sessions[sid := Session(p.instructions, r)])
    case Persist(r) =>
      var p := s.runners[r];
      Put(s, r, Ready(p.asked, p.thread, p.session, false)).(
        threads := s.threads[p.thread := s.threads[p.thread].(acpSessionId := p.session)],
        persisted := s.persisted[p.session := Origin(p.asked, p.thread)])
    case Send(r) =>
      var p := s.runners[r];
      Put(s, r, Ended).(prompts := s.prompts + [Prompt(p.asked, p.thread, p.session, p.loaded)])
    case Stop(r) => Put(s, r, Ended)
  }

  // ---------------------------------------------------------------- invariant of every run

  function Instructions(s: System, th: string): string
    requires th in s.threads
  {
    s.threads[th].developerInstructions
  }

  /** The session is on disk, put there by a runner whose request was for `asked`. */
  predicate Durable(s: System, asked: string, thread: string, sid: string, loaded: bool) {
    && asked in s.threads && thread in s.threads && sid in s.persisted
    && if loaded then s.persisted[sid].thread == asked else s.persisted[sid] == Origin(asked, thread)
  }

  predicate PointOk(s: System, r: nat, p: Point) {
    match p
    case Resolved(asked, instructions, load, _) =>
      && asked in s.threads && instructions == Instructions(s, asked)
      && (load.Some? ==> load.value in s.persisted && s.persisted[load.value].thread == asked)
    case Admitted(asked, thread, instructions, load) =>
      && asked in s.threads && thread in s.threads && instructions == Instructions(s, asked)
      && (load.Some? ==> load.value in s.persisted && s.persisted[load.value].thread == asked)
    case Created(asked, thread, sid) =>
      && asked in s.threads && thread in s.threads && sid != ""
      && sid in s.sessions && sid !in s.persisted && s.sessions[sid] == Session(Instructions(s, asked), r)
    case Ready(asked, thread, sid, loaded) => Durable(s, asked, thread, sid, loaded)
    case Ended => true
  }

  ghost predicate ThreadsOk(s: System) {
    forall th :: th in s.threads && s.threads[th].acpSessionId != "" ==>
      s.threads[th].acpSessionId in s.persisted && s.persisted[s.threads[th].acpSessionId].thread == th
  }

  ghost predicate SessionsOk(s: System) {
    forall sid :: sid in s.persisted ==>
      && sid in s.sessions && s.persisted[sid].asked in s.threads && s.persisted[sid].thread in s.threads
      && s.sessions[sid].instructions == Instructions(s, s.persisted[sid].asked)
  }

  ghost predicate DiskOk(s: System) {
    && ThreadsOk(s) && SessionsOk(s)
    && (forall t :: t in s.turns ==> s.turns[t].threadId in s.threads)
  }

  ghost predicate Inv(s: System) {
    && DiskOk(s)
    && (forall r :: r in s.runners ==> PointOk(s, r, s.runners[r]))
    && (forall i :: 0 <= i < |s.prompts| ==>
          var p := s.prompts[i]; Durable(s, p.asked, p.thread, p.session, p.loaded))
  }

  /** How the shared state may change under a runner that does not move. */
  ghost predicate Keeps(s: System, s': System, actor: nat) {
    && (forall th :: th in s.threads ==> th in s'.threads && Instructions(s', th) == Instructions(s, th))
    && (forall sid :: sid in s.sessions ==> sid in s'.sessions && s'.sessions[sid] == s.sessions[sid])
    && (forall sid :: sid in s.persisted ==> sid in s'.persisted && s'.persisted[sid] == s.persisted[sid])
    && (forall sid :: sid in s'.persisted && sid !in s.persisted ==>
          sid in s.sessions && s.sessions[sid].creator == actor)
  }

  lemma PointKept(s: System, s': System, actor: nat, r: nat, p: Point)
    requires PointOk(s, r, p) && Keeps(s, s', actor) && r != actor
    ensures PointOk(s', r, p)
  {
  }

  lemma Assemble(s: System, s': System, r: nat)
    requires Inv(s) && Keeps(s, s', r) && DiskOk(s')
    requires r in s'.runners ==> PointOk(s', r, s'.runners[r])
    requires s'.runners.Keys <= s.runners.Keys + {r}
    requires forall q :: q in s'.runners && q != r ==> s'.runners[q] == s.runners[q]
    requires s'.prompts == s.prompts ||
             (exists p :: s'.prompts == s.prompts + [p] && Durable(s', p.asked, p.thread, p.session, p.loaded))
    ensures Inv(s')
  {
    forall q | q in s'.runners ensures PointOk(s', q, s'.runners[q]) {
      if q != r {
        assert q in s.runners.Keys + {r};
        PointKept(s, s', r, q, s.runners[q]);
      }
    }
    forall i | 0 <= i < |s'.prompts|
      ensures var p := s'.prompts[i]; Durable(s', p.asked, p.thread, p.session, p.loaded)
    {
      if i < |s.prompts| { assert s'.prompts[i] == s.prompts[i]; }
    }
  }

  lemma StartKeepsInv(s: System, thread: Thread, unused: nat)
    requires Inv(s) && Enabled(s, StartThread(thread)) && unused !in s.runners
    ensures Inv(Next(s, StartThread(thread)))
  {
    Assemble(s, Next(s, StartThread(thread)), unused);
  }

  lemma FirstKeepsDisk(s: System, r: nat, created: Thread, key: seq<Byte>)
    requires DiskOk(s) && BeginEnabled(s, r, First(created))
    ensures var s' := BeginNext(s, r, First(created), key); DiskOk(s') && Keeps(s, s', r)
  {
  }

  lemma BeginKeepsInv(s: System, r: nat, request: Request, key: seq<Byte>)
    requires Inv(s) && BeginEnabled(s, r, request)
    ensures Inv(BeginNext(s, r, request, key))
  {
    if request.First? { FirstKeepsInv(s, r, request.created, key); }
    else { ReadKeepsInv(s, r, request, key); }
  }

  lemma FirstKeepsInv(s: System, r: nat, created: Thread, key: seq<Byte>)
    requires Inv(s) && BeginEnabled(s, r, First(created))
    ensures Inv(BeginNext(s, r, First(created), key))
  {
    FirstKeepsDisk(s, r, created, key);
    Assemble(s, BeginNext(s, r, First(created), key), r);
  }

  /** Requests that read an existing thread. */
  lemma ReadKeepsInv(s: System, r: nat, request: Request, key: seq<Byte>)
    requires Inv(s) && BeginEnabled(s, r, request) && !request.First?
    ensures Inv(BeginNext(s, r, request, key))
  {
    Assemble(s, BeginNext(s, r, request, key), r);
  }

  lemma AdmitKeepsInv(s: System, act: Action)
    requires Inv(s) && Enabled(s, act) && (act.AdmitNew? || act.AdmitExisting?)
    ensures Inv(Next(s, act))
  {
    assert PointOk(s, act.r, s.runners[act.r]);
    Assemble(s, Next(s, act), act.r);
  }

  lemma LoadKeepsInv(s: System, act: Action)
    requires Inv(s) && Enabled(s, act) && (act.Load? || act.Stop?)
    ensures Inv(Next(s, act))
  {
    assert PointOk(s, act.r, s.runners[act.r]);
    Assemble(s, Next(s, act), act.r);
  }

  lemma NewKeepsInv(s: System, act: Action)
    requires Inv(s) && Enabled(s, act) && act.New?
    ensures Inv(Next(s, act))
  {
    assert PointOk(s, act.r, s.runners[act.r]);
    Assemble(s, Next(s, act), act.r);
  }

  lemma PersistKeepsThreads(s: System, r: nat)
    requires ThreadsOk(s) && Enabled(s, Persist(r)) && PointOk(s, r, s.runners[r])
    ensures var s' := Next(s, Persist(r)); ThreadsOk(s') && Keeps(s, s', r)
  {
  }

  lemma PersistKeepsSessions(s: System, r: nat)
    requires SessionsOk(s) && Enabled(s, Persist(r)) && PointOk(s, r, s.runners[r])
    ensures var s' := Next(s, Persist(r)); SessionsOk(s') && PointOk(s', r, s'.runners[r])
  {
  }

  lemma PersistKeepsInv(s: System, r: nat)
    requires Inv(s) && Enabled(s, Persist(r))
    ensures Inv(Next(s, Persist(r)))
  {
    assert PointOk(s, r, s.runners[r]);
    PersistKeepsThreads(s, r);
    PersistKeepsSessions(s, r);
    Assemble(s, Next(s, Persist(r)), r);
  }

  lemma SendKeepsInv(s: System, r: nat)
    requires Inv(s) && Enabled(s, Send(r))
    ensures Inv(Next(s, Send(r)))
  {
    var s' := Next(s, Send(r));
    var p := s.runners[r];
    assert PointOk(s, r, p);
    assert s'.prompts == s.prompts + [Prompt(p.asked, p.thread, p.session, p.loaded)];
    Assemble(s, s', r);
  }

  lemma NextKeepsInv(s: System, act: Action, unused: nat)
    requires Inv(s) && Enabled(s, act) && unused !in s.runners
    ensures Inv(Next(s, act))
  {
    match act
    case StartThread(thread) => StartKeepsInv(s, thread, unused);
    case Begin(r, request, key) => BeginKeepsInv(s, r, request, key);
    case AdmitNew(_, _) => AdmitKeepsInv(s, act);
    case AdmitExisting(_, _) => AdmitKeepsInv(s, act);
    case Load(_) => LoadKeepsInv(s, act);
    case New(_, _) => NewKeepsInv(s, act);
    case Persist(r) => PersistKeepsInv(s, r);
    case Send(r) => SendKeepsInv(s, r);
    case Stop(_) => LoadKeepsInv(s, act);
  }

  // ---------------------------------------------------------------- whole runs

  predicate Follows(s: System, act: Action, s': System) { Enabled(s, act) && s' == Next(s, act) }

  ghost predicate IsRun(states: seq<System>, acts: seq<Action>) {
    Steps(states, acts, Follows) && Initial(states[0])
  }

  lemma {:induction false} UnusedRunner(keys: set<nat>) returns (n: nat)
    ensures forall k :: k in keys ==> k < n
    decreases |keys|
  {
    n := 0;
    if keys != {} {
      var k :| k in keys;
      var m := UnusedRunner(keys - {k});
      n := if m > k then m else k + 1;
      assert forall j :: j in keys ==> j == k || j in keys - {k};
    }
  }

  lemma {:induction false} RunInv(states: seq<System>, acts: seq<Action>, k: nat)
    requires IsRun(states, acts) && k < |states|
    ensures Inv(states[k])
  {
    if k > 0 {
      RunInv(states, acts, k - 1);
      assert Enabled(states[k - 1], acts[k - 1]);
      var unused := UnusedRunner(states[k - 1].runners.Keys);
      NextKeepsInv(states[k - 1], acts[k - 1], unused);
    }
  }

  /** A durable session id was created with the instructions of the thread it is written on, exactly when the request
      that created it was for a thread with the same instructions. */
  lemma SessionInstructionsIff(states: seq<System>, acts: seq<Action>, k: nat, sid: string)
    requires IsRun(states, acts) && k < |states| && sid in states[k].persisted
    ensures var s := states[k]; var o := s.persisted[sid];
            && sid in s.sessions && o.asked in s.threads && o.thread in s.threads
            && (s.sessions[sid].instructions == Instructions(s, o.thread) <==>
                Instructions(s, o.asked) == Instructions(s, o.thread))
  {
    RunInv(states, acts, k);
  }

  /** A prompt's session was made durable on the thread of its turn before the prompt was sent, exactly when the session
      is new or was loaded for a request on that same thread. */
  lemma PromptSessionIff(states: seq<System>, acts: seq<Action>, k: nat, r: nat)
    requires IsRun(states, acts) && k < |acts| && acts[k] == Send(r)
    ensures var s := states[k];
            && r in s.runners && s.runners[r].Ready? && s.runners[r].session in s.persisted
            && (s.persisted[s.runners[r].session].thread == s.runners[r].thread <==>
                !s.runners[r].loaded || s.runners[r].asked == s.runners[r].thread)
  {
    RunInv(states, acts, k);
    assert Enabled(states[k], acts[k]);
    assert PointOk(states[k], r, states[k].runners[r]);
  }

  /** The runner serves a request for thread `asked` with this stored session to load, or none. */
  predicate Serves(p: Point, asked: string, load: Option<string>) {
    match p
    case Resolved(a, _, l, _) => a == asked && l == load
    case Admitted(a, _, _, l) => a == asked && l == load
    case Created(a, _, _) => a == asked && load == None
    case Ready(a, _, sid, loaded) => a == asked && (if load.Some? then loaded && sid == load.value else !loaded)
    case Ended => true
  }

  function AskedThread(request: Request): string {
    if request.First? then request.created.id else request.thread
  }

  /** A follow-up is to run in the session its thread has; the other requests get a new one. */
  function StoredSession(s: System, request: Request): Option<string> {
    if request.FollowUp? && request.thread in s.threads then Some(s.threads[request.thread].acpSessionId) else None
  }

  lemma ServesStep(s: System, act: Action, r: nat, asked: string, load: Option<string>)
    requires Enabled(s, act) && r in s.runners && Serves(s.runners[r], asked, load)
    ensures r in Next(s, act).runners && Serves(Next(s, act).runners[r], asked, load)
  {
    if act.Begin? { BeginSparesOthers(s, act.r, act.request, act.key, r); }
  }

  lemma BeginSparesOthers(s: System, b: nat, request: Request, key: seq<Byte>, r: nat)
    requires BeginEnabled(s, b, request) && r in s.runners
    ensures r in BeginNext(s, b, request, key).runners && BeginNext(s, b, request, key).runners[r] == s.runners[r]
  {
  }

  lemma {:induction false} RunnerServesItsRequest(states: seq<System>, acts: seq<Action>, i: nat, k: nat)
    requires IsRun(states, acts) && i < k < |states| && acts[i].Begin?
    ensures var r := acts[i].r;
            && r in states[k].runners
            && Serves(states[k].runners[r], AskedThread(acts[i].request), StoredSession(states[i], acts[i].request))
    decreases k
  {
    assert Enabled(states[k - 1], acts[k - 1]);
    if i < k - 1 {
      RunnerServesItsRequest(states, acts, i, k - 1);
      ServesStep(states[k - 1], acts[k - 1], acts[i].r, AskedThread(acts[i].request),
                 StoredSession(states[i], acts[i].request));
    }
  }

  /** The prompt of a follow-up runs in the session that its thread had stored when the request was read, and that of
      any other request in a session that was not loaded. */
  lemma PromptFollowsItsRequest(states: seq<System>, acts: seq<Action>, i: nat, k: nat)
    requires IsRun(states, acts) && i < k < |acts| && acts[i].Begin? && acts[k] == Send(acts[i].r)
    ensures |states[k + 1].prompts| == |states[k].prompts| + 1
    ensures var p, request := states[k + 1].prompts[|states[k].prompts|], acts[i].request;
            match request
            case First(created) => p.asked == created.id && !p.loaded
            case FollowUp(th) =>
              p.asked == th && p.loaded && th in states[i].threads && p.session == states[i].threads[th].acpSessionId
            case Reuse(th) => p.asked == th && !p.loaded
  {
    RunnerServesItsRequest(states, acts, i, k);
    assert Enabled(states[i], acts[i]) && Enabled(states[k], acts[k]);
  }

  // ---------------------------------------------------------------- client keys only with first turns

  predicate Disciplined(act: Action) { act.Begin? && act.key != [] ==> act.request.First? }

  /** Threads that a client key can lead to have no instructions. */
  predicate PointMatches(s: System, p: Point) {
    match p
    case Resolved(asked, instructions, load, key) => key != [] ==> instructions == "" && load.None?
    case Admitted(asked, thread, instructions, load) =>
      && asked in s.threads && thread in s.threads
      && Instructions(s, asked) == Instructions(s, thread) && (load.Some? ==> asked == thread)
    case Created(asked, thread, _) =>
      asked in s.threads && thread in s.threads && Instructions(s, asked) == Instructions(s, thread)
    case Ready(asked, thread, _, loaded) => loaded ==> asked == thread
    case Ended => true
  }

  ghost predicate Matches(s: System) {
    && (forall t :: t in s.turns && s.turns[t].clientRequestId != [] ==>
          s.turns[t].threadId in s.threads && Instructions(s, s.turns[t].threadId) == "")
    && (forall r :: r in s.runners ==> PointMatches(s, s.runners[r]))
    && (forall sid :: sid in s.persisted ==>
          var o := s.persisted[sid];
          o.asked in s.threads && o.thread in s.threads && Instructions(s, o.asked) == Instructions(s, o.thread))
    && (forall i :: 0 <= i < |s.prompts| && s.prompts[i].loaded ==> s.prompts[i].asked == s.prompts[i].thread)
  }

  /** A runner moves and nothing else that matters here changes. */
  lemma MoveMatches(s: System, s': System, r: nat)
    requires Matches(s) && r in s'.runners && PointMatches(s', s'.runners[r])
    requires s'.threads == s.threads && s'.turns == s.turns && s'.persisted == s.persisted
    requires s'.runners == s.runners[r := s'.runners[r]]
    requires s'.prompts == s.prompts ||
             (exists p :: s'.prompts == s.prompts + [p] && (p.loaded ==> p.asked == p.thread))
    ensures Matches(s')
  {
    forall q | q in s'.runners ensures PointMatches(s', s'.runners[q]) {
      if q != r { assert PointMatches(s, s.runners[q]); }
    }
  }

  lemma AdmitNewMatches(s: System, act: Action)
    requires Inv(s) && Matches(s) && Enabled(s, act) && act.AdmitNew?
    ensures Matches(Next(s, act))
  {
    assert PointOk(s, act.r, s.runners[act.r]);
    assert PointMatches(s, s.runners[act.r]);
  }

  lemma PersistMatches(s: System, r: nat)
    requires Inv(s) && Matches(s) && Enabled(s, Persist(r))
    ensures Matches(Next(s, Persist(r)))
  {
    assert PointOk(s, r, s.runners[r]);
    assert PointMatches(s, s.runners[r]);
    var s' := Next(s, Persist(r));
    forall q | q in s'.runners ensures PointMatches(s', s'.runners[q]) {
      if q != r { assert PointMatches(s, s.runners[q]); }
    }
  }

  lemma StartMatches(s: System, thread: Thread)
    requires Inv(s) && Matches(s) && Enabled(s, StartThread(thread))
    ensures Matches(Next(s, StartThread(thread)))
  {
    var s' := Next(s, StartThread(thread));
    forall q | q in s'.runners ensures PointMatches(s', s'.runners[q]) { assert PointMatches(s, s.runners[q]); }
  }

  lemma RunnerMatches(s: System, act: Action)
    requires Inv(s) && Matches(s) && Enabled(s, act)
    requires act.AdmitExisting? || act.Load? || act.New? || act.Stop? || act.Send?
    ensures Matches(Next(s, act))
  {
    var s' := Next(s, act);
    var p := s.runners[act.r];
    assert PointOk(s, act.r, p) && PointMatches(s, p);
    if act.Send? { assert s'.prompts == s.prompts + [Prompt(p.asked, p.thread, p.session, p.loaded)]; }
    MoveMatches(s, s', act.r);
  }

  lemma NextMatches(s: System, act: Action)
    requires Inv(s) && Matches(s) && Enabled(s, act) && Disciplined(act)
    ensures Matches(Next(s, act))
  {
    match act
    case StartThread(thread) => StartMatches(s, thread);
    case Begin(r, request, key) => BeginMatches(s, r, request, key);
    case AdmitNew(_, _) => AdmitNewMatches(s, act);
    case Persist(r) => PersistMatches(s, r);
    case _ => RunnerMatches(s, act);
  }

  lemma BeginMatches(s: System, r: nat, request: Request, key: seq<Byte>)
    requires Inv(s) && Matches(s) && BeginEnabled(s, r, request) && (key != [] ==> request.First?)
    ensures Matches(BeginNext(s, r, request, key))
  {
  }

  ghost predicate AllDisciplined(acts: seq<Action>) {
    forall k :: 0 <= k < |acts| ==> Disciplined(acts[k])
  }

  lemma {:induction false} RunMatches(states: seq<System>, acts: seq<Action>, k: nat)
    requires IsRun(states, acts) && AllDisciplined(acts) && k < |states|
    ensures Matches(states[k])
  {
    if k > 0 {
      RunMatches(states, acts, k - 1);
      RunInv(states, acts, k - 1);
      assert Enabled(states[k - 1], acts[k - 1]) && Disciplined(acts[k - 1]);
      NextMatches(states[k - 1], acts[k - 1]);
    }
  }

  /** Then every prompt runs in a session that was durable on its turn's thread before, and that was created with
      exactly that thread's instructions. */
  lemma PromptsRunInTheirSession(states: seq<System>, acts: seq<Action>, k: nat, r: nat)
    requires IsRun(states, acts) && AllDisciplined(acts) && k < |acts| && acts[k] == Send(r)
    ensures var s := states[k];
            && r in s.runners && s.runners[r].Ready?
            && var p := s.runners[r];
               && p.thread in s.threads && p.session in s.persisted && s.persisted[p.session].thread == p.thread
               && p.session in s.sessions && s.sessions[p.session].instructions == Instructions(s, p.thread)
  {
    RunInv(states, acts, k);
    RunMatches(states, acts, k);
    assert Enabled(states[k], acts[k]);
    assert PointOk(states[k], r, states[k].runners[r]);
    assert PointMatches(states[k], states[k].runners[r]);
  }

  // ---------------------------------------------------------------- and what happens otherwise

  /** Two threads with different instructions and one key used for both: the second request is answered with the first
      one's turn, and its prompt runs on the first thread in a session that carries the second thread's instructions. */
  lemma KeyOnReuseMixesInstructions(a: Thread, b: Thread, turn: Turn, key: seq<Byte>)
    returns (states: seq<System>, acts: seq<Action>)
    requires a.id != b.id && a.acpSessionId == "" && b.acpSessionId == ""
    requires a.developerInstructions != b.developerInstructions
    requires key != [] && turn.clientRequestId == key && turn.threadId == a.id
    ensures IsRun(states, acts)
    ensures var s := states[|acts|];
            && 1 in s.runners && s.runners[1] == Ready(b.id, a.id, "s", false)
            && a.id in s.threads && s.threads[a.id].acpSessionId == "s"
            && "s" in s.sessions && s.sessions["s"].instructions != Instructions(s, a.id)
  {
    states, acts := [System(map[], map[], map[], map[], map[], [])], [];
    states, acts := Do(states, acts, StartThread(a));
    states, acts := Do(states, acts, StartThread(b));
    states, acts := Do(states, acts, Begin(0, Reuse(a.id), key));
    states, acts := Do(states, acts, AdmitNew(0, turn));
    states, acts := Do(states, acts, Begin(1, Reuse(b.id), key));
    states, acts := Do(states, acts, AdmitExisting(1, turn.id));
    states, acts := Do(states, acts, New(1, "s"));
    states, acts := Do(states, acts, Persist(1));
  }

  lemma Do(states: seq<System>, acts: seq<Action>, act: Action) returns (states': seq<System>, acts': seq<Action>)
    requires IsRun(states, acts) && Enabled(states[|acts|], act)
    ensures IsRun(states', acts') && states'[|acts'|] == Next(states[|acts|], act)
  {
    OneMore(states, acts, act, Next(states[|acts|], act), Follows);
    states', acts' := states + [Next(states[|acts|], act)], acts + [act];
  }
}
