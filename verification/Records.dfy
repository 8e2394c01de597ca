/** The durable records of the ledger and the pure vocabulary around them. */
module Records {

  datatype Option<+T> = None | Some(value: T)

  type Byte = b: int | 0 <= b < 256

  datatype TurnStatus = InProgress | Completed | Interrupted | Failed {
    predicate IsTerminal() { !InProgress? }
  }

  datatype ApprovalPolicy = Untrusted | OnRequest | Never

  datatype ThreadSandbox = ReadOnly | WorkspaceWrite

  datatype ApprovalDecision = Accept | AcceptForSession | Decline | Cancel {
    function AsString(): string {
      match this
      case Accept => "accept"
      case AcceptForSession => "acceptForSession"
      case Decline => "decline"
      case Cancel => "cancel"
    }
  }

  /** Rejects every string that is not exactly one of the four wire names. */
  function ParseApprovalDecision(v: string): Option<ApprovalDecision> {
    if v == "accept" then Some(Accept)
    else if v == "acceptForSession" then Some(AcceptForSession)
    else if v == "decline" then Some(Decline)
    else if v == "cancel" then Some(Cancel)
    else None
  }

  const FAILURE_WORKER_GONE := "worker_gone"

  datatype UserInput = UserInput(kind: string, text: string)

  datatype Item = Item(id: string, itemType: string, text: string, status: string)

  /** `inProgressTurnId` is empty when the thread has no recorded live turn. */
  datatype Thread = Thread(
    id: string,
    cwd: string,
    model: string,
    sandbox: ThreadSandbox,
    approvalPolicy: ApprovalPolicy,
    developerInstructions: string,
    acpSessionId: string,
    inProgressTurnId: string)

  /** Client keys are the UTF-8 bytes of the caller's `client_request_id`; empty means none. */
  datatype Turn = Turn(
    id: string,
    threadId: string,
    generationId: string,
    status: TurnStatus,
    input: seq<UserInput>,
    model: string,
    effort: string,
    stopReason: string,
    failureReason: string,
    clientRequestId: seq<Byte>,
    pendingRequestId: string,
    pendingDecision: string,
    items: seq<Item>)
  {
    predicate IsTerminal() { status.IsTerminal() }

    predicate PendingApproval() {
      !IsTerminal() && pendingRequestId != "" && pendingDecision == ""
    }
  }

  datatype Generation = Generation(
    id: string,
    turnId: string,
    ownerPid: nat,
    startedEpoch: nat,
    childPid: Option<nat>,
    childStartedEpoch: Option<nat>,
    childEof: bool)

  /** Parameters of one admission. */
  datatype NewTurn = NewTurn(
    threadId: string,
    input: seq<UserInput>,
    model: string,
    effort: string,
    clientRequestId: seq<Byte>)

  /** The four words of the wire. */
  lemma DecisionWords()
    ensures ParseApprovalDecision("accept") == Some(Accept) && Accept.AsString() == "accept"
    ensures ParseApprovalDecision("acceptForSession") == Some(AcceptForSession)
    ensures AcceptForSession.AsString() == "acceptForSession"
    ensures ParseApprovalDecision("decline") == Some(Decline) && Decline.AsString() == "decline"
    ensures ParseApprovalDecision("cancel") == Some(Cancel) && Cancel.AsString() == "cancel"
  {
    ParsePrintDecision(Accept, "accept");
    ParsePrintDecision(AcceptForSession, "acceptForSession");
    ParsePrintDecision(Decline, "decline");
    ParsePrintDecision(Cancel, "cancel");
  }

  /** Parsing inverts printing, and nothing but a printed decision parses. */
  lemma ParsePrintDecision(d: ApprovalDecision, v: string)
    ensures ParseApprovalDecision(d.AsString()) == Some(d)
    ensures d.AsString() != ""
    ensures ParseApprovalDecision(v) == Some(d) <==> v == d.AsString()
  {
    assert |"accept"| == 6 && |"acceptForSession"| == 16 && |"decline"| == 7 && |"cancel"| == 6;
    assert "accept"[0] == 'a' && "cancel"[0] == 'c';
  }
}
