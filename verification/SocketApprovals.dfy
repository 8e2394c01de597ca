/** Approval requests over one connection: many watchers ask, one reader delivers the replies.
    Ledger request ids are named by the order in which they were minted. */
module SocketApprovals {
  import opened Records
  import opened Traces

  /** The `id` member of a client message: an integer, or any other JSON text. */
  datatype MessageId = Number(n: nat) | Text(text: string)

  /** A client message without a method; `decision` is the string at `result.decision`, if any. */
  datatype Message = Message(id: Option<MessageId>, decision: Option<string>)

  datatype Wait = Wait(request: nat, rpc: nat)

  /** Where a watcher stands in one round of its loop. */
  datatype Point =
    | Resting
    | Looked(request: Option<nat>)
    | Received(request: Option<nat>)
    | Numbered(request: Option<nat>, rpc: nat)
    | Registered(request: Option<nat>, rpc: nat)

  datatype Watch = Watch(turn: nat, last: Option<nat>, wait: Option<Wait>, point: Point) {
    /** This server-request id belongs to this watcher. */
    predicate Holds(r: nat) {
      (wait.Some? && wait.value.rpc == r) || ((point.Numbered? || point.Registered?) && point.rpc == r)
    }
  }

  datatype Ask = Ask(rpc: nat, watcher: nat, request: nat)

  datatype Response = Response(rpc: nat, request: nat, decision: ApprovalDecision, message: nat)

  /** Connection state, the approvals parked on each turn, and the history: who allocated which number (`owner`),
      what was asked, received and answered. */
  datatype System = System(
    next: nat,
    owner: map<nat, nat>,
    pending: set<nat>,
    channel: map<nat, nat>,
    watches: map<nat, Watch>,
    nextWatch: nat,
    parked: map<nat, nat>,
    minted: nat,
    inbox: seq<Message>,
    asked: seq<Ask>,
    responses: seq<Response>)

  datatype Action =
    | Park(turn: nat)
    | Clear(turn: nat)
    | Open(turn: nat)
    | Close(w: nat)
    | Look(w: nat)
    | Receive(w: nat)
    | Allocate(w: nat)
    | Register(w: nat)
    | Write(w: nat, ok: bool)
    | Deliver(message: Message)

  const FIRST_ID: nat := 1000

  predicate Initial(s: System) {
    s == System(FIRST_ID, map[], {}, map[], map[], 0, map[], 0, [], [], [])
  }

  function Parked(s: System, turn: nat): Option<nat> {
    if turn in s.parked then Some(s.parked[turn]) else None
  }

  predicate Enabled(s: System, act: Action) {
    match act
    case Park(_) => true
    case Clear(_) => true
    case Deliver(_) => true
    case Open(_) => true
    case Close(w) => w in s.watches && (s.watches[w].point.Resting? || s.watches[w].point.Looked?)
    case Look(w) => w in s.watches && s.watches[w].point.Resting?
    case Receive(w) => w in s.watches && s.watches[w].point.Looked?
    case Allocate(w) => w in s.watches && s.watches[w].point.Received?
    case Register(w) => w in s.watches && s.watches[w].point.Numbered?
    case Write(w, _) => w in s.watches && s.watches[w].point.Registered?
  }

  function Put(s: System, w: nat, v: Watch): System { s.(watches := s.watches[w := v]) }

  /** The ledger call made for a reply: none when the decision is missing or is not one of the four. */
  function Answers(m: Message, wait: Wait, index: nat): seq<Response> {
    if m.decision.None? then []
    else match ParseApprovalDecision(m.decision.value)
         case None => []
         case Some(d) => [Response(wait.rpc, wait.request, d, index)]
  }

  /** Polls the reply channel of the outstanding request, if there is one. */
  function ReceiveNext(s: System, w: nat): System
    requires w in s.watches && s.watches[w].point.Looked?
  {
    var v := s.watches[w].(point := Received(s.watches[w].point.request));
    if v.wait.None? then Put(s, w, v)
    else
      var r := v.wait.value.rpc;
      if r in s.channel && s.channel[r] < |s.inbox| then
        Put(s, w, v.(wait := None)).(
          channel := s.channel - {r},
          responses := s.responses + Answers(s.inbox[s.channel[r]], v.wait.value, s.channel[r]))
      else if r in s.pending then Put(s, w, v)
      else Put(s, w, v.(wait := None)).(pending := s.pending - {r})
  }

  predicate Asks(v: Watch) {
    v.point.Received? && v.point.request.Some? && v.wait.None? && v.point.request != v.last
  }

  function AllocateNext(s: System, w: nat): System
    requires w in s.watches && s.watches[w].point.Received?
  {
    var v := s.watches[w];
    if Asks(v) then Put(s, w, v.(point := Numbered(v.point.request, s.next))).(
        next := s.next + 1, owner := s.owner[s.next := w])
    else Put(s, w, v.(point := Resting))
  }

  function WriteNext(s: System, w: nat, ok: bool): System
    requires w in s.watches && s.watches[w].point.Registered?
  {
    var v := s.watches[w];
    var p := v.point;
    if ok && p.request.Some? then
      Put(s, w, v.(last := p.request, wait := Some(Wait(p.request.value, p.rpc)), point := Resting)).(
        asked := s.asked + [Ask(p.rpc, w, p.request.value)])
    else Put(s, w, v.(point := Resting)).(pending := s.pending - {p.rpc})
  }

  function DeliverNext(s: System, m: Message): System {
    var s1 := s.(inbox := s.inbox + [m]);
    if m.id.Some? && m.id.value.Number? && m.id.value.n in s.pending then
      s1.(pending := s.pending - {m.id.value.n}, channel := s.channel[m.id.value.n := |s.inbox|])
    else s1
  }

  function Next(s: System, act: Action): System
    requires Enabled(s, act)
  {
    match act
    case Park(t) => s.(parked := s.parked[t := s.minted], minted := s.minted + 1)
    case Clear(t) => s.(parked := s.parked - {t})
    case Open(t) => Put(s, s.nextWatch, Watch(t, None, None, Resting)).(nextWatch := s.nextWatch + 1)
    case Close(w) => s.(watches := s.watches - {w})
    case Look(w) => Put(s, w, s.watches[w].(point := Looked(Parked(s, s.watches[w].turn))))
    case Receive(w) => ReceiveNext(s, w)
    case Allocate(w) => AllocateNext(s, w)
    case Register(w) =>
      var v := s.watches[w];
      Put(s, w, v.(point := Registered(v.point.request, v.point.rpc))).(pending := s.pending + {v.point.rpc})
    case Write(w, ok) => WriteNext(s, w, ok)
    case Deliver(m) => DeliverNext(s, m)
  }

  // ---------------------------------------------------------------- invariant

  predicate InFlight(s: System, r: nat) { r in s.pending || r in s.channel }

  /** Every number in use was allocated, and a delivered reply lies in exactly the channel it names. */
  ghost predicate Channels(s: System) {
    && (forall r :: r in s.owner ==> r < s.next)
    && (forall r :: r in s.pending ==> r in s.owner)
    && (forall r :: r in s.channel ==>
          && r in s.owner && r !in s.pending
          && s.channel[r] < |s.inbox| && s.inbox[s.channel[r]].id == Some(Number(r)))
    && (forall t :: t in s.parked ==> s.parked[t] < s.minted)
  }

  /** No number is asked twice, and no watcher asks for a ledger request twice. */
  ghost predicate AskedOnce(s: System) {
    && (forall i :: 0 <= i < |s.asked| ==>
          && s.asked[i].watcher < s.nextWatch
          && s.asked[i].rpc in s.owner && s.owner[s.asked[i].rpc] == s.asked[i].watcher)
    && (forall i, j :: 0 <= i < j < |s.asked| ==> s.asked[i].rpc != s.asked[j].rpc)
    && (forall i, j :: (0 <= i < j < |s.asked| && s.asked[i].watcher == s.asked[j].watcher) ==>
          s.asked[i].request != s.asked[j].request)
  }

  ghost predicate WasAsked(s: System, a: Ask) { exists i :: 0 <= i < |s.asked| && s.asked[i] == a }

  /** The response answers the request its number was issued for, with the decision of a reply to that number. */
  ghost predicate Genuine(s: System, r: Response) {
    && r.rpc in s.owner && WasAsked(s, Ask(r.rpc, s.owner[r.rpc], r.request))
    && r.message < |s.inbox| && s.inbox[r.message].id == Some(Number(r.rpc))
    && s.inbox[r.message].decision == Some(r.decision.AsString())
  }

  /** No number is answered twice. */
  ghost predicate AnsweredOnce(s: System) {
    && (forall i :: 0 <= i < |s.responses| ==> Genuine(s, s.responses[i]))
    && (forall i, j :: 0 <= i < j < |s.responses| ==> s.responses[i].rpc != s.responses[j].rpc)
  }

  predicate AtMost(a: Option<nat>, b: Option<nat>) { a.Some? && b.Some? ==> a.value <= b.value }

  /** A watcher sees requests in the order of minting. */
  predicate Ordered(s: System, v: Watch) {
    && (v.last.Some? ==> v.last.value < s.minted)
    && AtMost(v.last, Parked(s, v.turn))
    && (!v.point.Resting? ==>
          && (v.point.request.Some? ==> v.point.request.value < s.minted)
          && AtMost(v.last, v.point.request) && AtMost(v.point.request, Parked(s, v.turn)))
  }

  /** What a watcher's place says about its numbers. */
  predicate Placed(s: System, w: nat, v: Watch) {
    && w < s.nextWatch
    && (v.wait.Some? ==> v.wait.value.rpc in s.owner && s.owner[v.wait.value.rpc] == w && InFlight(s, v.wait.value.rpc))
    && (v.point.Numbered? || v.point.Registered? ==>
          && v.wait.None? && v.point.request.Some? && v.point.request != v.last
          && v.point.rpc in s.owner && s.owner[v.point.rpc] == w)
    && (v.point.Numbered? ==> !InFlight(s, v.point.rpc))
    && (v.point.Registered? ==> InFlight(s, v.point.rpc))
  }

  /** What a watcher's place says about the history. */
  ghost predicate Recorded(s: System, w: nat, v: Watch) {
    && (v.wait.Some? ==> WasAsked(s, Ask(v.wait.value.rpc, w, v.wait.value.request)))
    && (v.point.Numbered? || v.point.Registered? ==> forall i :: 0 <= i < |s.asked| ==> s.asked[i].rpc != v.point.rpc)
    && (forall i :: 0 <= i < |s.responses| ==> !v.Holds(s.responses[i].rpc))
    && (forall i :: 0 <= i < |s.asked| && s.asked[i].watcher == w ==>
          v.last.Some? && s.asked[i].request <= v.last.value)
  }

  ghost predicate WatchOk(s: System, w: nat, v: Watch) { Ordered(s, v) && Placed(s, w, v) && Recorded(s, w, v) }

  ghost predicate Inv(s: System) {
    && Channels(s) && AskedOnce(s) && AnsweredOnce(s)
    && forall w :: w in s.watches ==> WatchOk(s, w, s.watches[w])
  }

  // ---------------------------------------------------------------- what a step of one watcher leaves to the others

  /** Approvals parked in between were minted in between. */
  ghost predicate ParkedLater(s: System, s': System) {
    && s.minted <= s'.minted
    && forall t: nat :: Parked(s', t) == Parked(s, t) || Parked(s', t).None? || Parked(s', t).value >= s.minted
  }

  ghost predicate Histories(s: System, s': System, w: nat) {
    && s.asked <= s'.asked && s.responses <= s'.responses
    && (forall i :: |s.asked| <= i < |s'.asked| ==>
          s'.asked[i].watcher == w && s'.asked[i].rpc in s'.owner && s'.owner[s'.asked[i].rpc] == w)
    && (forall i :: |s.responses| <= i < |s'.responses| ==>
          s'.responses[i].rpc in s'.owner && s'.owner[s'.responses[i].rpc] == w)
  }

  ghost predicate Numbers(s: System, s': System, w: nat) {
    && s.nextWatch <= s'.nextWatch
    && (forall r :: r in s.owner ==> r in s'.owner && s'.owner[r] == s.owner[r])
    && (forall r :: r in s.owner && s.owner[r] != w ==> (InFlight(s', r) <==> InFlight(s, r)))
  }

  lemma OrderedKept(s: System, s': System, v: Watch)
    requires Ordered(s, v) && ParkedLater(s, s')
    ensures Ordered(s', v)
  {
    assert Parked(s', v.turn) == Parked(s, v.turn) || Parked(s', v.turn).None? || Parked(s', v.turn).value >= s.minted;
  }

  lemma PlacedKept(s: System, s': System, w: nat, u: nat, v: Watch)
    requires u != w && Placed(s, u, v) && Numbers(s, s', w)
    ensures Placed(s', u, v)
  {
  }

  lemma AskedKept(s: System, s': System, a: Ask)
    requires s.asked <= s'.asked && WasAsked(s, a)
    ensures WasAsked(s', a)
  {
    var i :| 0 <= i < |s.asked| && s.asked[i] == a;
    assert s'.asked[i] == a;
  }

  lemma RecordedKept(s: System, s': System, w: nat, u: nat, v: Watch)
    requires u != w && Placed(s, u, v) && Recorded(s, u, v) && Numbers(s, s', w) && Histories(s, s', w)
    ensures Recorded(s', u, v)
  {
    if v.wait.Some? { AskedKept(s, s', Ask(v.wait.value.rpc, u, v.wait.value.request)); }
    forall i | 0 <= i < |s'.responses| ensures !v.Holds(s'.responses[i].rpc) {
      if i < |s.responses| { assert s'.responses[i] == s.responses[i]; }
    }
    if v.point.Numbered? || v.point.Registered? {
      forall i | 0 <= i < |s'.asked| ensures s'.asked[i].rpc != v.point.rpc {
        if i < |s.asked| { assert s'.asked[i] == s.asked[i]; }
      }
    }
    forall i | 0 <= i < |s'.asked| && s'.asked[i].watcher == u
      ensures v.last.Some? && s'.asked[i].request <= v.last.value
    {
      assert i < |s.asked|;
      assert s'.asked[i] == s.asked[i];
    }
  }

  /** It is enough to look at the acting watcher. */
  lemma OthersKept(s: System, s': System, w: nat)
    requires forall u :: u in s.watches ==> WatchOk(s, u, s.watches[u])
    requires ParkedLater(s, s') && Numbers(s, s', w) && Histories(s, s', w)
    requires s'.watches.Keys - {w} <= s.watches.Keys
    requires forall u :: u in s'.watches && u != w ==> s'.watches[u] == s.watches[u]
    requires w in s'.watches ==> WatchOk(s', w, s'.watches[w])
    ensures forall u :: u in s'.watches ==> WatchOk(s', u, s'.watches[u])
  {
    forall u | u in s'.watches ensures WatchOk(s', u, s'.watches[u]) {
      if u != w {
        assert u in s'.watches.Keys - {w};
        var v := s.watches[u];
        assert WatchOk(s, u, v);
        OrderedKept(s, s', v);
        PlacedKept(s, s', w, u, v);
        RecordedKept(s, s', w, u, v);
      }
    }
  }

  /** Responses stay genuine while the histories grow. */
  lemma GenuineKept(s: System, s': System, r: Response)
    requires Genuine(s, r) && s.asked <= s'.asked && s.inbox <= s'.inbox
    requires forall r :: r in s.owner ==> r in s'.owner && s'.owner[r] == s.owner[r]
    ensures Genuine(s', r)
  {
    AskedKept(s, s', Ask(r.rpc, s.owner[r.rpc], r.request));
    assert s'.inbox[r.message] == s.inbox[r.message];
  }

  lemma AnsweredKept(s: System, s': System)
    requires AnsweredOnce(s) && s'.responses == s.responses && s.asked <= s'.asked && s.inbox <= s'.inbox
    requires forall r :: r in s.owner ==> r in s'.owner && s'.owner[r] == s.owner[r]
    ensures AnsweredOnce(s')
  {
    forall i | 0 <= i < |s'.responses| ensures Genuine(s', s'.responses[i]) {
      GenuineKept(s, s', s.responses[i]);
    }
  }

  // ---------------------------------------------------------------- preservation

  /** The shared state after a step of `w`, and what it leaves to the other watchers. */
  ghost predicate Frame(s: System, s': System, w: nat) {
    && Channels(s') && AskedOnce(s')
    && ParkedLater(s, s') && Numbers(s, s', w) && Histories(s, s', w)
  }

  lemma LedgerKeepsInv(s: System, act: Action)
    requires Inv(s) && (act.Park? || act.Clear?)
    ensures Inv(Next(s, act))
  {
    var s' := Next(s, act);
    AnsweredKept(s, s');
    OthersKept(s, s', s.nextWatch);
  }

  lemma OpenKeepsInv(s: System, act: Action)
    requires Inv(s) && act.Open?
    ensures Inv(Next(s, act))
  {
    var s' := Next(s, act);
    AnsweredKept(s, s');
    OthersKept(s, s', s.nextWatch);
  }

  lemma CloseKeepsInv(s: System, act: Action)
    requires Inv(s) && act.Close? && Enabled(s, act)
    ensures Inv(Next(s, act))
  {
    var s' := Next(s, act);
    AnsweredKept(s, s');
    OthersKept(s, s', act.w);
  }

  lemma LookFrame(s: System, w: nat)
    requires Channels(s) && AskedOnce(s) && Enabled(s, Look(w)) && WatchOk(s, w, s.watches[w])
    ensures Frame(s, Next(s, Look(w)), w)
  {
  }

  lemma LookWatch(s: System, w: nat)
    requires Channels(s) && AskedOnce(s) && Enabled(s, Look(w)) && WatchOk(s, w, s.watches[w])
    ensures WatchOk(Next(s, Look(w)), w, Next(s, Look(w)).watches[w])
  {
  }

  lemma LookKeepsInv(s: System, w: nat)
    requires Inv(s) && Enabled(s, Look(w))
    ensures Inv(Next(s, Look(w)))
  {
    var s' := Next(s, Look(w));
    assert WatchOk(s, w, s.watches[w]);
    LookFrame(s, w);
    LookWatch(s, w);
    AnsweredKept(s, s');
    OthersKept(s, s', w);
  }

  lemma AllocateFrame(s: System, w: nat)
    requires Channels(s) && AskedOnce(s) && Enabled(s, Allocate(w)) && WatchOk(s, w, s.watches[w])
    ensures Frame(s, AllocateNext(s, w), w)
  {
  }

  lemma AllocateWatch(s: System, w: nat)
    requires Channels(s) && AskedOnce(s) && AnsweredOnce(s) && Enabled(s, Allocate(w)) && WatchOk(s, w, s.watches[w])
    ensures WatchOk(AllocateNext(s, w), w, AllocateNext(s, w).watches[w])
  {
    AllocateRecorded(s, w);
  }

  lemma AllocateRecorded(s: System, w: nat)
    requires Channels(s) && AskedOnce(s) && AnsweredOnce(s) && Enabled(s, Allocate(w)) && WatchOk(s, w, s.watches[w])
    ensures Recorded(AllocateNext(s, w), w, AllocateNext(s, w).watches[w])
  {
    forall i | 0 <= i < |s.responses| ensures s.responses[i].rpc != s.next {
      assert Genuine(s, s.responses[i]);
    }
  }

  lemma AllocateKeepsInv(s: System, w: nat)
    requires Inv(s) && Enabled(s, Allocate(w))
    ensures Inv(AllocateNext(s, w))
  {
    var s' := AllocateNext(s, w);
    assert WatchOk(s, w, s.watches[w]);
    AllocateFrame(s, w);
    AllocateWatch(s, w);
    AnsweredKept(s, s');
    OthersKept(s, s', w);
  }

  lemma RegisterFrame(s: System, w: nat)
    requires Channels(s) && AskedOnce(s) && Enabled(s, Register(w)) && WatchOk(s, w, s.watches[w])
    ensures Frame(s, Next(s, Register(w)), w)
  {
  }

  lemma RegisterWatch(s: System, w: nat)
    requires Channels(s) && AskedOnce(s) && Enabled(s, Register(w)) && WatchOk(s, w, s.watches[w])
    ensures WatchOk(Next(s, Register(w)), w, Next(s, Register(w)).watches[w])
  {
  }

  lemma RegisterKeepsInv(s: System, w: nat)
    requires Inv(s) && Enabled(s, Register(w))
    ensures Inv(Next(s, Register(w)))
  {
    var s' := Next(s, Register(w));
    assert WatchOk(s, w, s.watches[w]);
    RegisterFrame(s, w);
    RegisterWatch(s, w);
    AnsweredKept(s, s');
    OthersKept(s, s', w);
  }

  lemma WriteFrame(s: System, w: nat, ok: bool)
    requires Channels(s) && AskedOnce(s) && Enabled(s, Write(w, ok)) && WatchOk(s, w, s.watches[w])
    ensures Frame(s, WriteNext(s, w, ok), w)
  {
  }

  lemma WriteWatch(s: System, w: nat, ok: bool)
    requires Channels(s) && AskedOnce(s) && Enabled(s, Write(w, ok)) && WatchOk(s, w, s.watches[w])
    ensures WatchOk(WriteNext(s, w, ok), w, WriteNext(s, w, ok).watches[w])
  {
    var s' := WriteNext(s, w, ok);
    if ok { assert s'.asked[|s.asked|] == Ask(s.watches[w].point.rpc, w, s.watches[w].point.request.value); }
  }

  lemma WriteKeepsInv(s: System, w: nat, ok: bool)
    requires Inv(s) && Enabled(s, Write(w, ok))
    ensures Inv(WriteNext(s, w, ok))
  {
    var s' := WriteNext(s, w, ok);
    assert WatchOk(s, w, s.watches[w]);
    WriteFrame(s, w, ok);
    WriteWatch(s, w, ok);
    AnsweredKept(s, s');
    OthersKept(s, s', w);
  }

  /** A reply is there. */
  predicate Takes(s: System, w: nat) {
    && Enabled(s, Receive(w)) && s.watches[w].wait.Some?
    && s.watches[w].wait.value.rpc in s.channel && s.channel[s.watches[w].wait.value.rpc] < |s.inbox|
  }

  lemma TakeFrame(s: System, w: nat)
    requires Channels(s) && AskedOnce(s) && Takes(s, w) && Placed(s, w, s.watches[w])
    ensures Frame(s, ReceiveNext(s, w), w)
  {
    assert s.owner[s.watches[w].wait.value.rpc] == w;
  }

  lemma ReceiveFrame(s: System, w: nat)
    requires Channels(s) && AskedOnce(s) && Enabled(s, Receive(w)) && WatchOk(s, w, s.watches[w])
    ensures Frame(s, ReceiveNext(s, w), w)
  {
    if Takes(s, w) { TakeFrame(s, w); }
  }

  lemma TakeWatch(s: System, w: nat)
    requires Takes(s, w) && WatchOk(s, w, s.watches[w])
    ensures WatchOk(ReceiveNext(s, w), w, ReceiveNext(s, w).watches[w])
  {
  }

  lemma ReceiveWatch(s: System, w: nat)
    requires Channels(s) && AskedOnce(s) && Enabled(s, Receive(w)) && WatchOk(s, w, s.watches[w])
    ensures WatchOk(ReceiveNext(s, w), w, ReceiveNext(s, w).watches[w])
  {
    if Takes(s, w) { TakeWatch(s, w); }
  }

  lemma ReceiveKeepsInv(s: System, w: nat)
    requires Inv(s) && Enabled(s, Receive(w))
    ensures Inv(ReceiveNext(s, w))
  {
    var s' := ReceiveNext(s, w);
    assert WatchOk(s, w, s.watches[w]);
    ReceiveFrame(s, w);
    ReceiveWatch(s, w);
    ReceiveAnswers(s, w);
    OthersKept(s, s', w);
  }

  /** The reply taken from a channel answers the request the watcher was waiting for. */
  lemma ReceiveAnswers(s: System, w: nat)
    requires Channels(s) && AnsweredOnce(s) && Enabled(s, Receive(w)) && WatchOk(s, w, s.watches[w])
    ensures AnsweredOnce(ReceiveNext(s, w))
  {
    var s' := ReceiveNext(s, w);
    forall i | 0 <= i < |s.responses| ensures Genuine(s', s.responses[i]) {
      GenuineKept(s, s', s.responses[i]);
    }
    var v := s.watches[w];
    if v.wait.Some? && v.wait.value.rpc in s.channel {
      var m := s.inbox[s.channel[v.wait.value.rpc]];
      if m.decision.Some? && ParseApprovalDecision(m.decision.value).Some? {
        ParsePrintDecision(ParseApprovalDecision(m.decision.value).value, m.decision.value);
        AskedKept(s, s', Ask(v.wait.value.rpc, w, v.wait.value.request));
        assert Genuine(s', s'.responses[|s.responses|]);
      }
    }
  }

  lemma DeliverFrame(s: System, m: Message)
    requires Channels(s) && AskedOnce(s)
    ensures Frame(s, DeliverNext(s, m), s.nextWatch)
  {
    DeliverChannels(s, m);
  }

  lemma DeliverChannels(s: System, m: Message)
    requires Channels(s)
    ensures Channels(DeliverNext(s, m))
    ensures forall r: nat :: InFlight(DeliverNext(s, m), r) <==> InFlight(s, r)
  {
  }

  lemma DeliverKeepsInv(s: System, m: Message)
    requires Inv(s)
    ensures Inv(DeliverNext(s, m))
  {
    var s' := DeliverNext(s, m);
    DeliverFrame(s, m);
    AnsweredKept(s, s');
    OthersKept(s, s', s.nextWatch);
  }

  lemma NextKeepsInv(s: System, act: Action)
    requires Inv(s) && Enabled(s, act)
    ensures Inv(Next(s, act))
  {
    match act
    case Park(_) => LedgerKeepsInv(s, act);
    case Clear(_) => LedgerKeepsInv(s, act);
    case Open(_) => OpenKeepsInv(s, act);
    case Close(_) => CloseKeepsInv(s, act);
    case Look(w) => LookKeepsInv(s, w);
    case Receive(w) => ReceiveKeepsInv(s, w);
    case Allocate(w) => AllocateKeepsInv(s, w);
    case Register(w) => RegisterKeepsInv(s, w);
    case Write(w, ok) => WriteKeepsInv(s, w, ok);
    case Deliver(m) => DeliverKeepsInv(s, m);
  }

  // ---------------------------------------------------------------- whole runs

  predicate Follows(s: System, act: Action, s': System) { Enabled(s, act) && s' == Next(s, act) }

  ghost predicate IsRun(states: seq<System>, acts: seq<Action>) {
    Steps(states, acts, Follows) && Initial(states[0])
  }

  lemma {:induction false} RunInv(states: seq<System>, acts: seq<Action>, k: nat)
    requires IsRun(states, acts) && k < |states|
    ensures Inv(states[k])
  {
    if k > 0 {
      RunInv(states, acts, k - 1);
      assert Enabled(states[k - 1], acts[k - 1]);
      NextKeepsInv(states[k - 1], acts[k - 1]);
    }
  }

  /** A reply to server-request `r` reaches the ledger at most once, only for the ledger request `r` was
      issued for, and with the decision that reply carried. */
  lemma RepliesReachTheirRequest(states: seq<System>, acts: seq<Action>, k: nat, i: nat)
    requires IsRun(states, acts) && k < |states| && i < |states[k].responses|
    ensures var s := states[k]; var r := s.responses[i];
            && (exists w :: WasAsked(s, Ask(r.rpc, w, r.request)))
            && (forall a :: 0 <= a < |s.asked| && s.asked[a].rpc == r.rpc ==> s.asked[a].request == r.request)
            && r.message < |s.inbox| && s.inbox[r.message].id == Some(Number(r.rpc))
            && s.inbox[r.message].decision == Some(r.decision.AsString())
            && (forall j :: 0 <= j < |s.responses| && j != i ==>
                  s.responses[j].rpc != r.rpc && s.responses[j].message != r.message)
  {
    RunInv(states, acts, k);
    var s := states[k];
    var r := s.responses[i];
    assert Genuine(s, r);
    var b :| 0 <= b < |s.asked| && s.asked[b] == Ask(r.rpc, s.owner[r.rpc], r.request);
    forall j | 0 <= j < |s.responses| && j != i
      ensures s.responses[j].rpc != r.rpc && s.responses[j].message != r.message
    {
      assert Genuine(s, s.responses[j]);
    }
  }

  /** No watcher asks its client twice about one ledger request, and no number is used for two requests. */
  lemma RequestsAreAskedOnce(states: seq<System>, acts: seq<Action>, k: nat, i: nat, j: nat)
    requires IsRun(states, acts) && k < |states| && i < j < |states[k].asked|
    ensures var a, b := states[k].asked[i], states[k].asked[j];
            a.rpc != b.rpc && !(a.watcher == b.watcher && a.request == b.request)
  {
    RunInv(states, acts, k);
  }

  /** An outstanding request is always registered or answered: its channel is never found disconnected. */
  lemma NeverDisconnected(states: seq<System>, acts: seq<Action>, k: nat, w: nat)
    requires IsRun(states, acts) && k < |states| && w in states[k].watches && states[k].watches[w].wait.Some?
    ensures InFlight(states[k], states[k].watches[w].wait.value.rpc)
  {
    RunInv(states, acts, k);
    assert WatchOk(states[k], w, states[k].watches[w]);
  }

  ghost predicate Consecutive(s: System) {
    && s.next >= 1000
    && (forall r: nat :: r in s.owner <==> 1000 <= r < s.next)
  }

  lemma ConsecutiveStep(s: System, act: Action)
    requires Consecutive(s) && Enabled(s, act)
    ensures Consecutive(Next(s, act))
  {
    if act.Receive? { ReceiveKeepsNumbers(s, act.w); }
  }

  lemma ReceiveKeepsNumbers(s: System, w: nat)
    requires Enabled(s, Receive(w))
    ensures ReceiveNext(s, w).next == s.next && ReceiveNext(s, w).owner == s.owner
  {
  }

  /** The numbers given out on a connection are 1000, 1001 and so on, without a gap. */
  lemma {:induction false} NumbersAreConsecutive(states: seq<System>, acts: seq<Action>, k: nat)
    requires IsRun(states, acts) && k < |states|
    ensures states[k].next >= 1000
    ensures forall r: nat :: r in states[k].owner <==> 1000 <= r < states[k].next
    ensures forall i :: 0 <= i < |states[k].asked| ==> 1000 <= states[k].asked[i].rpc < states[k].next
  {
    RunInv(states, acts, k);
    if k > 0 {
      NumbersAreConsecutive(states, acts, k - 1);
      assert Enabled(states[k - 1], acts[k - 1]);
      ConsecutiveStep(states[k - 1], acts[k - 1]);
    }
  }

  // ---------------------------------------------------------------- and nothing is lost on the way

  /** A reply to an outstanding number is taken by its watcher at its next look, and its decision, if it is one of the
      four words, is passed on for the request that was asked about; a reply without one only ends the wait. */
  lemma ReplyIsPassedOn(s: System, w: nat, m: Message)
    requires Inv(s) && w in s.watches && s.watches[w].point.Looked? && s.watches[w].wait.Some?
    requires s.watches[w].wait.value.rpc in s.pending && m.id == Some(Number(s.watches[w].wait.value.rpc))
    ensures var wait := s.watches[w].wait.value; var s1 := Next(s, Deliver(m));
            && Enabled(s1, Receive(w))
            && var s2 := Next(s1, Receive(w));
               && s2.watches[w].wait == None
               && wait.rpc !in s2.pending && wait.rpc !in s2.channel
               && (m.decision.Some? && ParseApprovalDecision(m.decision.value).Some? ==>
                     s2.responses == s.responses +
                       [Response(wait.rpc, wait.request, ParseApprovalDecision(m.decision.value).value, |s.inbox|)])
               && (m.decision.None? || ParseApprovalDecision(m.decision.value).None? ==> s2.responses == s.responses)
  {
    assert WatchOk(s, w, s.watches[w]);
  }

  /** A message that names no outstanding number changes nothing but the record of what came in. */
  lemma StrangersAreIgnored(s: System, m: Message)
    requires m.id.None? || m.id.value.Text? || m.id.value.n !in s.pending
    ensures Next(s, Deliver(m)) == s.(inbox := s.inbox + [m])
  {
  }

  /** A watcher that looks while a request is parked, has nothing outstanding and has not asked for it yet goes on to
      ask for it, under the next number. */
  lemma ParkedRequestIsAsked(s: System, w: nat)
    requires Inv(s) && w in s.watches && s.watches[w].point.Resting? && s.watches[w].wait.None?
    requires s.watches[w].turn in s.parked && s.watches[w].last != Some(s.parked[s.watches[w].turn])
    ensures var s5 := Round(s, w);
            && s5.asked == s.asked + [Ask(s.next, w, s.parked[s.watches[w].turn])]
            && s5.watches[w].wait == Some(Wait(s.parked[s.watches[w].turn], s.next)) && s.next in s5.pending
  {
  }

  /** One round of a watcher by itself, its write succeeding. */
  function Round(s: System, w: nat): System
    requires w in s.watches && s.watches[w].point.Resting? && s.watches[w].wait.None?
    requires s.watches[w].turn in s.parked && s.watches[w].last != Some(s.parked[s.watches[w].turn])
  {
    Next(Next(Next(Next(Next(s, Look(w)), Receive(w)), Allocate(w)), Register(w)), Write(w, true))
  }
}
