/** How the adapter answers the agent's permission requests. */
module Permissions {
  import opened Records
  import opened Protocol
  import opened ProtocolTheorems

  datatype OptionKind = AllowOnce | AllowAlways | RejectOnce | RejectAlways | UnlistedKind {
    predicate Allows() { AllowOnce? || AllowAlways? }
  }

  datatype PermissionOption = PermissionOption(id: string, kind: OptionKind)

  datatype Outcome = Cancelled | Selected(option: PermissionOption)

  // ---------------------------------------------------------------- waiting for a decision

  datatype WaitResult = Decided(decision: ApprovalDecision) | TurnOver | WaitFailed | StillWaiting

  /** One observed record answers the waiter, or does not. */
  function Answer(v: Turn, request: string): WaitResult {
    if v.IsTerminal() then TurnOver
    else if v.pendingRequestId == request && v.pendingDecision != "" then
      match ParseApprovalDecision(v.pendingDecision)
      case Some(d) => Decided(d)
      case None => WaitFailed
    else StillWaiting
  }

  function AnswerOf(poll: Option<Turn>, request: string): WaitResult {
    if poll.None? then WaitFailed else Answer(poll.value, request)
  }

  /** The polling loop over the successive results of `observe`; None is a failed observation.
      The first conclusive poll decides, and a decision is the one stored under this very request. */
  method WaitPendingDecision(polls: seq<Option<Turn>>, request: string) returns (r: WaitResult, at: nat)
    ensures at <= |polls|
    ensures forall i :: 0 <= i < at ==> AnswerOf(polls[i], request) == StillWaiting
    ensures r.StillWaiting? <==> at == |polls|
    ensures at < |polls| ==> r == AnswerOf(polls[at], request)
    ensures r.Decided? ==>
              && polls[at].Some? && !polls[at].value.IsTerminal()
              && polls[at].value.pendingRequestId == request
              && ParseApprovalDecision(polls[at].value.pendingDecision) == Some(r.decision)
    ensures r.TurnOver? ==> polls[at].Some? && polls[at].value.status != InProgress
    ensures r.WaitFailed? ==>
              polls[at].None? ||
              (&& polls[at].value.status == InProgress && polls[at].value.pendingRequestId == request
               && polls[at].value.pendingDecision != ""
               && ParseApprovalDecision(polls[at].value.pendingDecision) == None)
    ensures forall i :: 0 <= i < at ==>
              && polls[i].Some? && polls[i].value.status == InProgress
              && (polls[i].value.pendingRequestId != request || polls[i].value.pendingDecision == "")
  {
    at := 0;
    while at < |polls|
      invariant at <= |polls|
      invariant forall i :: 0 <= i < at ==> AnswerOf(polls[i], request) == StillWaiting
      invariant forall i :: 0 <= i < at ==>
                  && polls[i].Some? && polls[i].value.status == InProgress
                  && (polls[i].value.pendingRequestId != request || polls[i].value.pendingDecision == "")
    {
      if polls[at].None? { return WaitFailed, at; }
      var turn := polls[at].value;
      if turn.IsTerminal() { return TurnOver, at; }
      if turn.pendingRequestId == request && turn.pendingDecision != "" {
        var d := ParseApprovalDecision(turn.pendingDecision);
        if d.None? { return WaitFailed, at; }
        ParsePrintDecision(d.value, turn.pendingDecision);
        return Decided(d.value), at;
      }
      at := at + 1;
    }
    r := StillWaiting;
  }

  // ---------------------------------------------------------------- choosing an option

  function Preferred(d: ApprovalDecision): seq<OptionKind> {
    match d
    case Accept => [AllowOnce, AllowAlways]
    case AcceptForSession => [AllowAlways, AllowOnce]
    case Decline => [RejectOnce, RejectAlways]
    case Cancel => []
  }

  predicate Offers(options: seq<PermissionOption>, kind: OptionKind) {
    exists i :: 0 <= i < |options| && options[i].kind == kind
  }

  /** The option stands there, and no earlier one is of its kind. */
  predicate IsFirst(options: seq<PermissionOption>, i: nat, o: PermissionOption) {
    i < |options| && options[i] == o && forall j :: 0 <= j < i ==> options[j].kind != o.kind
  }

  lemma FirstInRest(options: seq<PermissionOption>, i: nat, o: PermissionOption)
    requires options != [] && options[0].kind != o.kind && IsFirst(options[1..], i, o)
    ensures IsFirst(options, i + 1, o)
  {
  }

  /** The first option of this kind. */
  function FirstOfKind(options: seq<PermissionOption>, kind: OptionKind): (r: Option<PermissionOption>)
    ensures r.None? <==> !Offers(options, kind)
    ensures r.Some? ==> r.value in options && r.value.kind == kind
    ensures r.Some? ==> exists i :: 0 <= i < |options| && IsFirst(options, i, r.value)
  {
    if options == [] then None
    else if options[0].kind == kind then assert IsFirst(options, 0, options[0]); Some(options[0])
    else
      assert forall i :: 1 <= i < |options| ==> options[i] == options[1..][i - 1];
      assert forall i :: 0 <= i < |options| - 1 ==> options[1..][i] == options[i + 1];
      var rest := FirstOfKind(options[1..], kind);
      assert rest.Some? ==> exists i :: 0 <= i < |options| && IsFirst(options, i, rest.value) by {
        if rest.Some? {
          var i :| 0 <= i < |options[1..]| && IsFirst(options[1..], i, rest.value);
          FirstInRest(options, i, rest.value);
        }
      }
      rest
  }

  function FirstOfKinds(options: seq<PermissionOption>, kinds: seq<OptionKind>): Option<PermissionOption>
    decreases |kinds|
  {
    if kinds == [] then None
    else
      var here := FirstOfKind(options, kinds[0]);
      if here.Some? then here else FirstOfKinds(options, kinds[1..])
  }

  function DecisionOption(options: seq<PermissionOption>, d: ApprovalDecision): Option<PermissionOption> {
    FirstOfKinds(options, Preferred(d))
  }

  /** The choice, stated by kinds alone: the once-or-always preference of each decision, and nothing else. */
  lemma DecisionOptionMeaning(options: seq<PermissionOption>, d: ApprovalDecision)
    ensures var r := DecisionOption(options, d);
            && (r.Some? ==> r.value in options && exists i :: 0 <= i < |options| && IsFirst(options, i, r.value))
            && (d == Accept ==> (r.None? <==> !Offers(options, AllowOnce) && !Offers(options, AllowAlways)))
            && (d == Accept && r.Some? ==>
                  r.value.kind == if Offers(options, AllowOnce) then AllowOnce else AllowAlways)
            && (d == AcceptForSession ==> (r.None? <==> !Offers(options, AllowOnce) && !Offers(options, AllowAlways)))
            && (d == AcceptForSession && r.Some? ==>
                  r.value.kind == if Offers(options, AllowAlways) then AllowAlways else AllowOnce)
            && (d == Decline ==> (r.None? <==> !Offers(options, RejectOnce) && !Offers(options, RejectAlways)))
            && (d == Decline && r.Some? ==>
                  r.value.kind == if Offers(options, RejectOnce) then RejectOnce else RejectAlways)
            && (d == Cancel ==> r.None?)
  {
    var kinds := Preferred(d);
    if kinds != [] {
      assert kinds[1..] == [kinds[1]];
      assert FirstOfKinds(options, kinds[1..]) == FirstOfKind(options, kinds[1]);
    }
  }

  /** The answer given once the wait has ended. */
  function GatedOutcome(options: seq<PermissionOption>, wait: WaitResult): Outcome {
    if !wait.Decided? then Cancelled
    else match DecisionOption(options, wait.decision)
         case Some(o) => Selected(o)
         case None => Cancelled
  }

  /** The option stands there, and no earlier one allows. */
  predicate FirstAllowed(options: seq<PermissionOption>, i: nat, o: PermissionOption) {
    && i < |options| && options[i] == o
    && forall j :: 0 <= j < i ==> options[j].kind != AllowOnce && options[j].kind != AllowAlways
  }

  /** The first option that allows, for policies that never ask. */
  function AutoAllow(options: seq<PermissionOption>): (r: Outcome)
    ensures r.Selected? ==> r.option in options && (r.option.kind == AllowOnce || r.option.kind == AllowAlways)
    ensures r.Selected? ==> exists i :: 0 <= i < |options| && FirstAllowed(options, i, r.option)
    ensures r.Cancelled? <==> !Offers(options, AllowOnce) && !Offers(options, AllowAlways)
  {
    if options == [] then Cancelled
    else if options[0].kind.Allows() then assert FirstAllowed(options, 0, options[0]); Selected(options[0])
    else
      assert forall i :: 1 <= i < |options| ==> options[i] == options[1..][i - 1];
      assert forall i :: 0 <= i < |options| - 1 ==> options[1..][i] == options[i + 1];
      var rest := AutoAllow(options[1..]);
      assert rest.Selected? ==> exists i :: 0 <= i < |options| && FirstAllowed(options, i, rest.option) by {
        if rest.Selected? {
          var i :| 0 <= i < |options[1..]| && FirstAllowed(options[1..], i, rest.option);
          assert FirstAllowed(options, i + 1, rest.option);
        }
      }
      rest
  }

  predicate Gated(policy: ApprovalPolicy) { policy == Untrusted || policy == OnRequest }

  /** The whole handler: replayed history is refused, ungated policies allow, gated ones wait.
      `parked` is false when the ledger refused to park the request. */
  function Respond(
      history: bool, policy: ApprovalPolicy, parked: bool, options: seq<PermissionOption>, wait: WaitResult): Outcome {
    if history then Cancelled
    else if !Gated(policy) then AutoAllow(options)
    else if !parked then Cancelled
    else GatedOutcome(options, wait)
  }

  /** An allow option is chosen exactly when the decision accepts and one is offered. */
  lemma AllowIffAccepted(options: seq<PermissionOption>, wait: WaitResult)
    ensures var r := GatedOutcome(options, wait);
            (r.Selected? && (r.option.kind == AllowOnce || r.option.kind == AllowAlways)) <==>
            && wait.Decided? && (wait.decision == Accept || wait.decision == AcceptForSession)
            && (Offers(options, AllowOnce) || Offers(options, AllowAlways))
  {
    if wait.Decided? { DecisionOptionMeaning(options, wait.decision); }
  }

  predicate AllowOffered(options: seq<PermissionOption>) {
    exists i :: 0 <= i < |options| && (options[i].kind == AllowOnce || options[i].kind == AllowAlways)
  }

  predicate RejectOffered(options: seq<PermissionOption>) {
    exists i :: 0 <= i < |options| && (options[i].kind == RejectOnce || options[i].kind == RejectAlways)
  }

  lemma OffersMeaning(options: seq<PermissionOption>)
    ensures AllowOffered(options) <==> Offers(options, AllowOnce) || Offers(options, AllowAlways)
    ensures RejectOffered(options) <==> Offers(options, RejectOnce) || Offers(options, RejectAlways)
  {
  }

  /** Over everything the handler looks at: it allows if and only if the request is not replayed history, an allow
      option is offered, and either the policy never asks, or it asks and the request was parked and decided with one
      of the two accepting decisions. It rejects only on a parked and declined request. What it selects was offered. */
  lemma RespondMeaning(
      history: bool, policy: ApprovalPolicy, parked: bool, options: seq<PermissionOption>, wait: WaitResult)
    ensures var r := Respond(history, policy, parked, options, wait);
            var asks := policy == Untrusted || policy == OnRequest;
            && ((r.Selected? && (r.option.kind == AllowOnce || r.option.kind == AllowAlways)) <==>
                && !history && AllowOffered(options)
                && (policy == Never ||
                    (asks && parked && (wait == Decided(Accept) || wait == Decided(AcceptForSession)))))
            && ((r.Selected? && (r.option.kind == RejectOnce || r.option.kind == RejectAlways)) <==>
                !history && RejectOffered(options) && asks && parked && wait == Decided(Decline))
            && (r.Selected? ==> r.option in options && r.option.kind != UnlistedKind)
  {
    OffersMeaning(options);
    AllowIffAccepted(options, wait);
    if wait.Decided? { DecisionOptionMeaning(options, wait.decision); }
  }

  /** Over every run of the ledger, for replayed and live requests, parked or not: when a waiter's observation makes the
      handler of a policy that asks select an option of an allow kind, some earlier step recorded accept or
      acceptForSession for that very request. */
  lemma AllowNeedsRecordedAccept(
      states: seq<System>, acts: seq<Action>, i: nat, a: Actor, history: bool, parked: bool,
      policy: ApprovalPolicy, request: string, options: seq<PermissionOption>) returns (k: nat)
    requires Run(states, acts) && i <= |acts| && a in states[i].running
    requires Returning(states[i].running[a]) && (policy == Untrusted || policy == OnRequest)
    requires var r := Respond(history, policy, parked, options, Answer(states[i].running[a].point.end.v, request));
             r.Selected? && (r.option.kind == AllowOnce || r.option.kind == AllowAlways)
    ensures parked && !history
    ensures k < i && Answers(states[k], acts[k], request)
    ensures var d := OpAt(states[k], acts[k]).op.decision; d == Accept || d == AcceptForSession
  {
    var v := states[i].running[a].point.end.v;
    RespondMeaning(history, policy, parked, options, Answer(v, request));
    k := WaiterSeesRecordedDecision(states, acts, i, a);
  }
}
