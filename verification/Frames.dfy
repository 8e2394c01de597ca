/** WebSocket frames as the app server reads and writes them (sections 5.2 and 5.3 of RFC 6455). */
module Frames {
  import opened Records
  import opened Ids

  /** Bit operations on octets are written arithmetically. */
  type Octet = Byte

  const MAX_FRAME: nat := 16 * 1024 * 1024

  // ---------------------------------------------------------------- big-endian numbers

  function Power256(k: nat): nat { if k == 0 then 1 else 256 * Power256(k - 1) }

  /** The low `k` octets of `n`, most significant first. */
  function BigEndian(n: nat, k: nat): (s: seq<Octet>)
    ensures |s| == k
  {
    if k == 0 then [] else BigEndian(n / 256, k - 1) + [n % 256]
  }

  function FromBigEndian(s: seq<Octet>): nat {
    if s == [] then 0 else FromBigEndian(s[..|s| - 1]) * 256 + s[|s| - 1]
  }

  lemma SplitLast(n: nat, m: nat)
    requires n < 256 * m
    ensures n / 256 < m && n / 256 * 256 + n % 256 == n
  {
  }

  lemma LastOfSum(q: nat, r: nat)
    requires r < 256
    ensures (q * 256 + r) / 256 == q && (q * 256 + r) % 256 == r
  {
  }

  lemma {:induction false} BigEndianRoundTrip(n: nat, k: nat)
    requires n < Power256(k)
    ensures FromBigEndian(BigEndian(n, k)) == n
  {
    if k > 0 {
      var s := BigEndian(n, k);
      assert s[..|s| - 1] == BigEndian(n / 256, k - 1);
      SplitLast(n, Power256(k - 1));
      BigEndianRoundTrip(n / 256, k - 1);
    }
  }

  lemma {:induction false} BigEndianInverse(s: seq<Octet>)
    ensures FromBigEndian(s) < Power256(|s|) && BigEndian(FromBigEndian(s), |s|) == s
  {
    if s != [] {
      BigEndianInverse(s[..|s| - 1]);
      LastOfSum(FromBigEndian(s[..|s| - 1]), s[|s| - 1]);
      assert s == s[..|s| - 1] + [s[|s| - 1]];
    }
  }

  lemma Powers()
    ensures Power256(2) == 65536 && Power256(8) == TWO64
  {
    assert Power256(4) == 65536 * Power256(2);
    assert Power256(8) == 65536 * 65536 * Power256(4);
  }

  /** The pieces of a concatenation, cut out again. */
  lemma Cut(a: seq<Octet>, b: seq<Octet>, c: seq<Octet>, d: seq<Octet>)
    ensures var s := a + (b + c) + d;
            && s[..|a|] == a && s[|a|..|a| + |b|] == b
            && s[|a| + |b|..|a| + |b| + |c|] == c && s[|a| + |b| + |c|..] == d
  {
  }

  lemma Rejoin(s: seq<Octet>, i: nat, j: nat, k: nat)
    requires i <= j <= k <= |s|
    ensures s == s[..i] + (s[i..j] + s[j..k]) + s[k..]
  {
  }

  // ---------------------------------------------------------------- masking

  lemma Halves(q: nat, r: nat)
    requires r < 2
    ensures (2 * q + r) / 2 == q && (2 * q + r) % 2 == r
  {
  }

  lemma BitTwice(x: nat, y: nat)
    requires x < 2 && y < 2
    ensures ((x + y) % 2 + y) % 2 == x
  {
  }

  lemma {:induction false} XorBitsTwice(a: nat, b: nat, k: nat)
    requires a < PowerOfTwo(k)
    ensures XorBits(XorBits(a, b, k), b, k) == a
  {
    if k > 0 {
      var q, r := XorBits(a / 2, b / 2, k - 1), (a % 2 + b % 2) % 2;
      XorBitsTwice(a / 2, b / 2, k - 1);
      Halves(q, r);
      BitTwice(a % 2, b % 2);
      calc {
        XorBits(XorBits(a, b, k), b, k);
        XorBits(2 * q + r, b, k);
        2 * XorBits(q, b / 2, k - 1) + (r + b % 2) % 2;
        2 * (a / 2) + a % 2;
        a;
      }
    }
  }

  lemma XorTwice(a: Octet, b: Octet)
    ensures Xor(Xor(a, b), b) == a
  {
    ByteBits();
    XorBitsTwice(a, b, 8);
  }

  function Masked(data: seq<Octet>, mask: seq<Octet>): (r: seq<Octet>)
    requires |mask| == 4
    ensures |r| == |data|
  {
    seq(|data|, i requires 0 <= i < |data| => Xor(data[i], mask[i % 4]))
  }

  lemma MaskedTwice(data: seq<Octet>, mask: seq<Octet>)
    requires |mask| == 4
    ensures Masked(Masked(data, mask), mask) == data
  {
    forall i | 0 <= i < |data| ensures Masked(Masked(data, mask), mask)[i] == data[i] {
      XorTwice(data[i], mask[i % 4]);
    }
  }

  /** The octets `sent` carry `payload` under `mask`: a sent bit is 1 where payload and mask octet `i % 4` differ. */
  ghost predicate SentUnder(sent: seq<Octet>, payload: seq<Octet>, mask: seq<Octet>)
    requires |mask| == 4
  {
    && |sent| == |payload|
    && forall i, k: nat :: 0 <= i < |payload| && k < 8 ==>
         (Bit(sent[i], k) <==> Bit(payload[i], k) != Bit(mask[i % 4], k))
  }

  /** Octet `i` is combined with mask octet `i % 4`, bit by bit. */
  lemma MaskedBits(data: seq<Octet>, mask: seq<Octet>)
    requires |mask| == 4
    ensures SentUnder(Masked(data, mask), data, mask)
  {
    forall i, k: nat | 0 <= i < |data| && k < 8
      ensures Bit(Masked(data, mask)[i], k) <==> Bit(data[i], k) != Bit(mask[i % 4], k)
    {
      XorMeaning(data[i], mask[i % 4], k);
    }
  }

  /** The unmasking loop, in place. */
  method Unmask(payload: array<Octet>, mask: seq<Octet>)
    requires |mask| == 4
    modifies payload
    ensures payload[..] == Masked(old(payload[..]), mask)
    ensures forall i, k: nat :: 0 <= i < payload.Length && k < 8 ==>
              (Bit(payload[i], k) <==> Bit(old(payload[i]), k) != Bit(mask[i % 4], k))
  {
    for i := 0 to payload.Length
      invariant forall k :: 0 <= k < i ==> payload[k] == Xor(old(payload[k]), mask[k % 4])
      invariant forall k :: i <= k < payload.Length ==> payload[k] == old(payload[k])
    {
      payload[i] := Xor(payload[i], mask[i % 4]);
    }
    MaskedBits(old(payload[..]), mask);
    assert forall i :: 0 <= i < payload.Length ==>
             payload[..][i] == payload[i] && old(payload[..])[i] == old(payload[i]);
  }

  // ---------------------------------------------------------------- headers

  datatype Form = Short | Medium | Long {
    function Width(): nat { match this case Short => 0 case Medium => 2 case Long => 8 }

    predicate Fits(len: nat) {
      match this case Short => len <= 125 case Medium => len <= 65535 case Long => len < TWO64
    }
  }

  function Marker(form: Form, len: nat): (m: Octet)
    requires form.Fits(len)
  {
    match form case Short => len case Medium => 126 case Long => 127
  }

  function FormOf(marker: Octet): Form {
    if marker <= 125 then Short else if marker == 126 then Medium else Long
  }

  /** The three reserved bits, the final bit and the opcode of a first octet. */
  predicate Reserved(b: Octet) { b / 16 % 8 != 0 }

  predicate Final(b: Octet) { b >= 128 }

  function Opcode(b: Octet): Octet { b % 16 }

  /** The mask bit and the length marker of a second octet. */
  predicate HasMask(b: Octet) { b >= 128 }

  function MarkerOf(b: Octet): Octet { b % 128 }

  function FirstOctet(fin: bool, opcode: Octet): Octet
    requires opcode < 16
  {
    (if fin then 128 else 0) + opcode
  }

  lemma FirstOctetParts(fin: bool, opcode: Octet)
    requires opcode < 16
    ensures var b := FirstOctet(fin, opcode); !Reserved(b) && (Final(b) <==> fin) && Opcode(b) == opcode
  {
  }

  lemma SecondOctetParts(marker: Octet)
    requires marker < 128
    ensures HasMask(128 + marker) && MarkerOf(128 + marker) == marker
    ensures !HasMask(marker) && MarkerOf(marker) == marker
  {
  }

  /** The extended length and what its marker says. */
  function LengthField(form: Form, len: nat): (s: seq<Octet>)
    ensures |s| == form.Width()
  {
    BigEndian(len, form.Width())
  }

  lemma MarkerParts(form: Form, len: nat)
    requires form.Fits(len)
    ensures FormOf(Marker(form, len)) == form && Marker(form, len) < 128
    ensures form.Short? ==> Marker(form, len) == len
    ensures !form.Short? ==> FromBigEndian(LengthField(form, len)) == len
  {
    Powers();
    if !form.Short? { BigEndianRoundTrip(len, form.Width()); }
  }

  // ---------------------------------------------------------------- client frames

  datatype ClientFrame = ClientFrame(fin: bool, opcode: Octet, payload: seq<Octet>, mask: seq<Octet>, form: Form) {
    predicate Valid() {
      opcode < 16 && |mask| == 4 && |payload| <= MAX_FRAME && form.Fits(|payload|)
    }
  }

  function EncodeClient(f: ClientFrame): seq<Octet>
    requires f.Valid()
  {
    [FirstOctet(f.fin, f.opcode), 128 + Marker(f.form, |f.payload|)] +
    (LengthField(f.form, |f.payload|) + (f.mask + Masked(f.payload, f.mask)))
  }

  datatype FrameError = ReservedBits | Unmasked | TooLarge | Truncated

  datatype Parsed =
    | End
    | Bad(error: FrameError)
    | Frame(fin: bool, opcode: Octet, payload: seq<Octet>, rest: seq<Octet>)

  function ParseBody(b0: Octet, marker: Octet, b: seq<Octet>): Parsed {
    var w := FormOf(marker).Width();
    if |b| < w then Bad(Truncated)
    else
      var len := if w == 0 then marker else FromBigEndian(b[..w]);
      if len > MAX_FRAME then Bad(TooLarge)
      else if |b| < w + 4 + len then Bad(Truncated)
      else Frame(Final(b0), Opcode(b0), Masked(b[w + 4..w + 4 + len], b[w..w + 4]), b[w + 4 + len..])
  }

  /** One client frame from the front of a byte stream. */
  function Parse(b: seq<Octet>): (p: Parsed)
    ensures p.Frame? ==> |p.rest| < |b|
  {
    if |b| < 2 then End
    else if Reserved(b[0]) then Bad(ReservedBits)
    else if !HasMask(b[1]) then Bad(Unmasked)
    else ParseBody(b[0], MarkerOf(b[1]), b[2..])
  }

  lemma BodyOf(b0: Octet, marker: Octet, field: seq<Octet>, mask: seq<Octet>, sent: seq<Octet>, tail: seq<Octet>)
    requires |field| == FormOf(marker).Width() && |mask| == 4 && |sent| <= MAX_FRAME
    requires |sent| == if field == [] then marker else FromBigEndian(field)
    ensures ParseBody(b0, marker, field + (mask + sent) + tail) ==
            Frame(Final(b0), Opcode(b0), Masked(sent, mask), tail)
  {
    Cut(field, mask, sent, tail);
  }

  lemma ParseBodyEncoded(f: ClientFrame, tail: seq<Octet>)
    requires f.Valid()
    ensures ParseBody(FirstOctet(f.fin, f.opcode), Marker(f.form, |f.payload|),
                      LengthField(f.form, |f.payload|) + (f.mask + Masked(f.payload, f.mask)) + tail)
            == Frame(f.fin, f.opcode, f.payload, tail)
  {
    MarkerParts(f.form, |f.payload|);
    MaskedTwice(f.payload, f.mask);
    FirstOctetParts(f.fin, f.opcode);
    BodyOf(FirstOctet(f.fin, f.opcode), Marker(f.form, |f.payload|), LengthField(f.form, |f.payload|), f.mask,
           Masked(f.payload, f.mask), tail);
  }

  lemma AfterTwo(b0: Octet, b1: Octet, body: seq<Octet>, tail: seq<Octet>)
    ensures var b := [b0, b1] + body + tail; |b| >= 2 && b[0] == b0 && b[1] == b1 && b[2..] == body + tail
  {
  }

  /** Whatever follows it, an encoded frame is read back as it was sent. */
  lemma ParseEncoded(f: ClientFrame, tail: seq<Octet>)
    requires f.Valid()
    ensures Parse(EncodeClient(f) + tail) == Frame(f.fin, f.opcode, f.payload, tail)
  {
    FirstOctetParts(f.fin, f.opcode);
    MarkerParts(f.form, |f.payload|);
    SecondOctetParts(Marker(f.form, |f.payload|));
    ParseBodyEncoded(f, tail);
    AfterTwo(FirstOctet(f.fin, f.opcode), 128 + Marker(f.form, |f.payload|),
             LengthField(f.form, |f.payload|) + (f.mask + Masked(f.payload, f.mask)), tail);
  }

  /** A body that parses, taken apart. */
  lemma ParsedBody(b0: Octet, marker: Octet, b: seq<Octet>)
    requires marker < 128 && ParseBody(b0, marker, b).Frame?
    ensures var p := ParseBody(b0, marker, b); var form := FormOf(marker); var w := form.Width();
            && |p.payload| <= MAX_FRAME && w + 4 + |p.payload| <= |b|
            && form.Fits(|p.payload|) && Marker(form, |p.payload|) == marker
            && b == LengthField(form, |p.payload|) + (b[w..w + 4] + Masked(p.payload, b[w..w + 4])) + p.rest
  {
    var p := ParseBody(b0, marker, b);
    var w := FormOf(marker).Width();
    var masked, mask := b[w + 4..w + 4 + |p.payload|], b[w..w + 4];
    MarkerBack(marker, |p.payload|, b[..w]);
    MaskedTwice(masked, mask);
    Rejoin(b, w, w + 4, w + 4 + |p.payload|);
  }

  lemma Reassemble(b: seq<Octet>, f: ClientFrame, rest: seq<Octet>)
    requires |b| >= 2 && f.Valid()
    requires b[0] == FirstOctet(f.fin, f.opcode) && b[1] == 128 + Marker(f.form, |f.payload|)
    requires b[2..] == LengthField(f.form, |f.payload|) + (f.mask + Masked(f.payload, f.mask)) + rest
    ensures b == EncodeClient(f) + rest
  {
    assert b == [b[0], b[1]] + b[2..];
  }

  /** The header of a frame that parses. */
  lemma ParsedHeader(b: seq<Octet>)
    requires Parse(b).Frame?
    ensures var p := Parse(b); var marker := MarkerOf(b[1]);
            && |b| >= 2 && p == ParseBody(b[0], marker, b[2..]) && marker < 128
            && p.opcode < 16 && b[0] == FirstOctet(p.fin, p.opcode) && b[1] == 128 + marker
  {
  }

  /** What is read back is the encoding of a valid frame, so nothing else is accepted. */
  lemma ParseAcceptsOnlyEncodings(b: seq<Octet>) returns (f: ClientFrame)
    requires Parse(b).Frame?
    ensures f.Valid() && b == EncodeClient(f) + Parse(b).rest
    ensures Sent(f) == Message(Parse(b).fin, Parse(b).opcode, Parse(b).payload)
  {
    ParsedHeader(b);
    var p, body, form := Parse(b), b[2..], FormOf(MarkerOf(b[1]));
    ParsedBody(b[0], MarkerOf(b[1]), body);
    var mask := body[form.Width()..form.Width() + 4];
    f := ClientFrame(p.fin, p.opcode, p.payload, mask, form);
    Reassemble(b, f, p.rest);
  }

  lemma MarkerBack(marker: Octet, len: nat, field: seq<Octet>)
    requires marker < 128 && |field| == FormOf(marker).Width()
    requires len == if FormOf(marker).Short? then marker else FromBigEndian(field)
    ensures FormOf(marker).Fits(len)
    ensures Marker(FormOf(marker), len) == marker && LengthField(FormOf(marker), len) == field
  {
    Powers();
    BigEndianInverse(field);
  }

  // ---------------------------------------------------------------- whole streams

  datatype Message = Message(fin: bool, opcode: Octet, payload: seq<Octet>)

  function Sent(f: ClientFrame): Message { Message(f.fin, f.opcode, f.payload) }

  predicate AllValid(fs: seq<ClientFrame>) { forall i :: 0 <= i < |fs| ==> fs[i].Valid() }

  function EncodeAll(fs: seq<ClientFrame>): seq<Octet>
    requires AllValid(fs)
  {
    if fs == [] then [] else EncodeClient(fs[0]) + EncodeAll(fs[1..])
  }

  /** Every frame up to the end of the stream or the first error. */
  function ParseAll(b: seq<Octet>): (seq<Message>, Option<FrameError>)
    decreases |b|
  {
    match Parse(b)
    case End => ([], None)
    case Bad(e) => ([], Some(e))
    case Frame(fin, opcode, payload, rest) =>
      var (ms, e) := ParseAll(rest);
      ([Message(fin, opcode, payload)] + ms, e)
  }

  function AllSent(fs: seq<ClientFrame>): seq<Message> {
    if fs == [] then [] else [Sent(fs[0])] + AllSent(fs[1..])
  }

  /** Any concatenation of masked frames, in any length forms and with any masks, decodes to exactly what was sent. */
  lemma {:induction false} StreamRoundTrip(fs: seq<ClientFrame>)
    requires AllValid(fs)
    ensures ParseAll(EncodeAll(fs)) == (AllSent(fs), None)
  {
    if fs != [] {
      ParseEncoded(fs[0], EncodeAll(fs[1..]));
      StreamRoundTrip(fs[1..]);
    }
  }

  // ---------------------------------------------------------------- server frames

  function ShortestForm(len: nat): Form {
    if len <= 125 then Short else if len <= 65535 then Medium else Long
  }

  function EncodeServer(opcode: Octet, payload: seq<Octet>): seq<Octet>
    requires opcode < 16 && |payload| < TWO64
  {
    var form := ShortestForm(|payload|);
    [FirstOctet(true, opcode), Marker(form, |payload|)] + (LengthField(form, |payload|) + payload)
  }

  /** No other length form that fits is shorter. */
  lemma ShortestIsShortest(len: nat, form: Form)
    requires len < TWO64 && form.Fits(len)
    ensures ShortestForm(len).Fits(len) && ShortestForm(len).Width() <= form.Width()
    ensures ShortestForm(len).Width() == form.Width() ==> ShortestForm(len) == form
  {
  }

  function ParseServerBody(b0: Octet, marker: Octet, b: seq<Octet>): Parsed {
    var w := FormOf(marker).Width();
    if |b| < w then Bad(Truncated)
    else
      var len := if w == 0 then marker else FromBigEndian(b[..w]);
      if |b| < w + len then Bad(Truncated)
      else Frame(Final(b0), Opcode(b0), b[w..w + len], b[w + len..])
  }

  /** A client's reading of one unmasked frame. */
  function ParseServer(b: seq<Octet>): (p: Parsed)
    ensures p.Frame? ==> |p.rest| < |b|
  {
    if |b| < 2 then End
    else if Reserved(b[0]) then Bad(ReservedBits)
    else ParseServerBody(b[0], MarkerOf(b[1]), b[2..])
  }

  lemma ParseServerBodyEncoded(opcode: Octet, form: Form, payload: seq<Octet>, tail: seq<Octet>)
    requires opcode < 16 && form.Fits(|payload|)
    ensures ParseServerBody(FirstOctet(true, opcode), Marker(form, |payload|),
                            LengthField(form, |payload|) + payload + tail)
            == Frame(true, opcode, payload, tail)
  {
    MarkerParts(form, |payload|);
    Cut(LengthField(form, |payload|), payload, [], tail);
    assert payload + [] == payload;
  }

  lemma ParseServerEncoded(opcode: Octet, payload: seq<Octet>, tail: seq<Octet>)
    requires opcode < 16 && |payload| < TWO64
    ensures ParseServer(EncodeServer(opcode, payload) + tail) == Frame(true, opcode, payload, tail)
  {
    var form := ShortestForm(|payload|);
    FirstOctetParts(true, opcode);
    MarkerParts(form, |payload|);
    SecondOctetParts(Marker(form, |payload|));
    ParseServerBodyEncoded(opcode, form, payload, tail);
    AfterTwo(FirstOctet(true, opcode), Marker(form, |payload|), LengthField(form, |payload|) + payload, tail);
  }

  datatype ServerFrame = ServerFrame(opcode: Octet, payload: seq<Octet>) {
    predicate Valid() { opcode < 16 && |payload| < TWO64 }
  }

  predicate AllServerValid(fs: seq<ServerFrame>) { forall i :: 0 <= i < |fs| ==> fs[i].Valid() }

  function EncodeServerAll(fs: seq<ServerFrame>): seq<Octet>
    requires AllServerValid(fs)
  {
    if fs == [] then [] else EncodeServer(fs[0].opcode, fs[0].payload) + EncodeServerAll(fs[1..])
  }

  /** The concatenated output decodes in one way only. */
  lemma {:induction false} ServerStreamUnique(fs: seq<ServerFrame>, gs: seq<ServerFrame>)
    requires AllServerValid(fs) && AllServerValid(gs) && EncodeServerAll(fs) == EncodeServerAll(gs)
    ensures fs == gs
  {
    if fs != [] && gs != [] {
      ParseServerEncoded(fs[0].opcode, fs[0].payload, EncodeServerAll(fs[1..]));
      ParseServerEncoded(gs[0].opcode, gs[0].payload, EncodeServerAll(gs[1..]));
      ServerStreamUnique(fs[1..], gs[1..]);
      assert fs == [fs[0]] + fs[1..] && gs == [gs[0]] + gs[1..];
    }
  }

  // ---------------------------------------------------------------- the connection

  datatype ReadResult = NoFrame | BadFrame(error: FrameError) | Got(message: Message)

  /** What the caller of the reader sees. */
  function Reported(p: Parsed): ReadResult {
    match p
    case End => NoFrame
    case Bad(e) => BadFrame(e)
    case Frame(fin, opcode, payload, _) => Got(Message(fin, opcode, payload))
  }

  const OP_TEXT: Octet := 0x1
  const OP_CLOSE: Octet := 0x8
  const OP_PING: Octet := 0x9
  const OP_PONG: Octet := 0xA

  datatype TextResult = Closed | TextFailed(error: FrameError) | Text(payload: seq<Octet>)

  /** The next text message, what is left after it, and the pings answered on the way. */
  datatype Reading = Reading(result: TextResult, rest: seq<Octet>, pings: seq<seq<Octet>>)

  function ReadingOf(b: seq<Octet>): (r: Reading)
    ensures forall i :: 0 <= i < |r.pings| ==> |r.pings[i]| < TWO64
    decreases |b|
  {
    match Parse(b)
    case End => Reading(Closed, [], [])
    case Bad(e) => Reading(TextFailed(e), [], [])
    case Frame(fin, opcode, payload, rest) =>
      PayloadBound(b);
      if opcode == OP_TEXT && fin then Reading(Text(payload), rest, [])
      else if opcode == OP_PING then
        var next := ReadingOf(rest);
        next.(pings := [payload] + next.pings)
      else if opcode == OP_PONG then ReadingOf(rest)
      else Reading(Closed, rest, [])
  }

  lemma PayloadBound(b: seq<Octet>)
    requires Parse(b).Frame?
    ensures |Parse(b).payload| <= MAX_FRAME
  {
  }

  /** The pongs that answer these pings. */
  function Pongs(pings: seq<seq<Octet>>): seq<Octet>
    requires forall i :: 0 <= i < |pings| ==> |pings[i]| < TWO64
  {
    if pings == [] then [] else EncodeServer(10, pings[0]) + Pongs(pings[1..])
  }

  function AnnouncedLength(marker: Octet, b: seq<Octet>): nat
    requires |b| >= FormOf(marker).Width()
  {
    var w := FormOf(marker).Width();
    if w == 0 then marker else FromBigEndian(b[..w])
  }

  /** The body in the order it is read: length, then mask, then payload. */
  lemma BodyInSteps(b0: Octet, marker: Octet, b: seq<Octet>)
    ensures var w := FormOf(marker).Width(); var p := ParseBody(b0, marker, b);
            if |b| < w then p == Bad(Truncated)
            else
              var len := AnnouncedLength(marker, b);
              var body := b[w..];
              if len > MAX_FRAME then p == Bad(TooLarge)
              else if |body| < 4 + len then p == Bad(Truncated)
              else p == Frame(Final(b0), Opcode(b0), Masked(body[4..4 + len], body[..4]), body[4 + len..])
  {
    var w := FormOf(marker).Width();
    if |b| >= w {
      var len := AnnouncedLength(marker, b);
      if |b| >= w + 4 + len { Shift(b, w, len); }
    }
  }

  lemma Shift(b: seq<Octet>, w: nat, len: nat)
    requires w + 4 + len <= |b|
    ensures b[w..][..4] == b[w..w + 4] && b[w..][4..4 + len] == b[w + 4..w + 4 + len]
    ensures b[w..][4 + len..] == b[w + 4 + len..]
  {
  }

  method BuildHeader(opcode: Octet, len: nat) returns (header: seq<Octet>)
    requires opcode < 16 && len < TWO64
    ensures header == [FirstOctet(true, opcode), Marker(ShortestForm(len), len)] + LengthField(ShortestForm(len), len)
  {
    header := [FirstOctet(true, opcode)];
    if len <= 125 {
      header := header + [len];
    } else if len <= 65535 {
      header := header + [126];
      header := header + BigEndian(len, 2);
    } else {
      header := header + [127];
      header := header + BigEndian(len, 8);
    }
  }

  /** The freshly read buffer, unmasked in place. */
  method UnmaskBuffer(masked: seq<Octet>, mask: seq<Octet>) returns (payload: seq<Octet>)
    requires |mask| == 4
    ensures payload == Masked(masked, mask)
  {
    var buffer := new Octet[|masked|](i requires 0 <= i < |masked| => masked[i]);
    assert buffer[..] == masked;
    Unmask(buffer, mask);
    payload := buffer[..];
  }

  class Connection {
    var unread: seq<Octet>
    var written: seq<Octet>

    /** Exactly `n` octets, or None at the end of the stream, which uses up what was there. */
    method ReadExact(n: nat) returns (r: Option<seq<Octet>>)
      modifies this`unread
      ensures if n <= |old(unread)| then r == Some(old(unread)[..n]) && unread == old(unread)[n..]
              else r == None && unread == []
    {
      if n > |unread| {
        unread := [];
        return None;
      }
      r := Some(unread[..n]);
      unread := unread[n..];
    }

    /** The extended length, when the marker announces one. */
    method ReadLength(marker: Octet) returns (len: Option<nat>)
      modifies this`unread
      ensures var w := FormOf(marker).Width(); var b := old(unread);
              && (|b| < w ==> len == None)
              && (|b| >= w ==> unread == b[w..] && len == Some(AnnouncedLength(marker, b)))
    {
      if marker <= 125 { return Some(marker); }
      var field := ReadExact(if marker == 126 then 2 else 8);
      if field.None? { return None; }
      len := Some(FromBigEndian(field.value));
    }

    /** The mask and the unmasked payload. */
    method ReadPayload(len: nat) returns (r: Option<seq<Octet>>)
      modifies this`unread
      ensures var b := old(unread);
              && (|b| < 4 + len ==> r == None)
              && (|b| >= 4 + len ==> r == Some(Masked(b[4..4 + len], b[..4])) && unread == b[4 + len..])
    {
      var mask := ReadExact(4);
      if mask.None? { return None; }
      var masked := ReadExact(len);
      if masked.None? { return None; }
      assert masked.value == old(unread)[4..4 + len];
      assert unread == old(unread)[4 + len..];
      var payload := UnmaskBuffer(masked.value, mask.value);
      r := Some(payload);
    }

    method ReadBody(b0: Octet, marker: Octet) returns (r: ReadResult)
      modifies this`unread
      ensures var p := ParseBody(b0, marker, old(unread));
              r == Reported(p) && (p.Frame? ==> unread == p.rest)
    {
      BodyInSteps(b0, marker, unread);
      var len := ReadLength(marker);
      if len.None? { return BadFrame(Truncated); }
      if len.value > MAX_FRAME { return BadFrame(TooLarge); }
      var payload := ReadPayload(len.value);
      if payload.None? { return BadFrame(Truncated); }
      r := Got(Message(Final(b0), Opcode(b0), payload.value));
    }

    /** Reads one frame as `Parse` describes it. */
    method ReadFrame() returns (r: ReadResult)
      modifies this`unread
      ensures var p := Parse(old(unread));
              r == Reported(p) && (p.Frame? ==> unread == p.rest)
    {
      var prefix := ReadExact(2);
      if prefix.None? { return NoFrame; }
      var b0, b1 := prefix.value[0], prefix.value[1];
      if Reserved(b0) { return BadFrame(ReservedBits); }
      if !HasMask(b1) { return BadFrame(Unmasked); }
      r := ReadBody(b0, MarkerOf(b1));
    }

    method WriteFrame(opcode: Octet, payload: seq<Octet>)
      requires opcode < 16 && |payload| < TWO64
      modifies this`written
      ensures written == old(written) + EncodeServer(opcode, payload)
    {
      var header := BuildHeader(opcode, |payload|);
      assert EncodeServer(opcode, payload) == header + payload;
      written := written + header;
      written := written + payload;
    }

    /** Skips to the next text message and answers the pings on the way, in order. */
    method ReadText() returns (r: TextResult)
      modifies this
      ensures var reading := ReadingOf(old(unread));
              && r == reading.result
              && written == old(written) + Pongs(reading.pings)
              && (r.Text? ==> unread == reading.rest)
    {
      ghost var whole := ReadingOf(unread);
      while true
        invariant ReadingOf(unread).result == whole.result && ReadingOf(unread).rest == whole.rest
        invariant written + Pongs(ReadingOf(unread).pings) == old(written) + Pongs(whole.pings)
        decreases |unread|
      {
        PingStep(unread);
        ghost var before := unread;
        var frame := ReadFrame();
        if frame.NoFrame? { return Closed; }
        if frame.BadFrame? { return TextFailed(frame.error); }
        var m := frame.message;
        if m.opcode == OP_TEXT && m.fin { return Text(m.payload); }
        if m.opcode == OP_CLOSE { return Closed; }
        if m.opcode == OP_PING {
          PayloadBound(before);
          WriteFrame(OP_PONG, m.payload);
        } else if m.opcode != OP_PONG {
          return Closed;
        }
      }
    }
  }

  /** How one frame moves the reading on. */
  lemma PingStep(b: seq<Octet>)
    ensures var p := Parse(b); var r := ReadingOf(b);
            && (p.Frame? && p.opcode == OP_PING ==>
                  && |p.payload| < TWO64
                  && Pongs(r.pings) == EncodeServer(OP_PONG, p.payload) + Pongs(ReadingOf(p.rest).pings)
                  && r.result == ReadingOf(p.rest).result && r.rest == ReadingOf(p.rest).rest)
            && (p.Frame? && p.opcode == OP_PONG ==> r == ReadingOf(p.rest))
            && (!(p.Frame? && p.opcode == OP_PING) && !(p.Frame? && p.opcode == OP_PONG) ==> Pongs(r.pings) == [])
            && (p.End? ==> r.result == Closed) && (p.Bad? ==> r.result == TextFailed(p.error))
            && (p.Frame? && p.opcode == OP_TEXT && p.fin ==> r.result == Text(p.payload) && r.rest == p.rest)
            && (p.Frame? && !(p.opcode == OP_TEXT && p.fin) && p.opcode != OP_PING && p.opcode != OP_PONG ==>
                  r.result == Closed)
  {
    var p := Parse(b);
    if p.Frame? && p.opcode == OP_PING {
      PayloadBound(b);
      assert ReadingOf(b).pings[1..] == ReadingOf(p.rest).pings;
    }
  }

  // ---------------------------------------------------------------- pings between text messages

  /** Pings are opcode 9, pongs opcode 10. */
  predicate Control(f: ClientFrame) { f.opcode == 9 || f.opcode == 10 }

  /** The payloads of the pings among these frames. */
  function PingsIn(fs: seq<ClientFrame>): seq<seq<Octet>> {
    if fs == [] then []
    else (if fs[0].opcode == 9 then [fs[0].payload] else []) + PingsIn(fs[1..])
  }

  lemma ReadingOfFrame(b: seq<Octet>, p: Parsed)
    requires p.Frame? && Parse(b) == p
    ensures p.opcode == OP_TEXT && p.fin ==> ReadingOf(b) == Reading(Text(p.payload), p.rest, [])
    ensures p.opcode == OP_PONG ==> ReadingOf(b) == ReadingOf(p.rest)
    ensures p.opcode == OP_PING ==>
              ReadingOf(b) == ReadingOf(p.rest).(pings := [p.payload] + ReadingOf(p.rest).pings)
  {
    PayloadBound(b);
  }

  /** Control frames before a final text frame are consumed, its payload is delivered, every ping is echoed once and
      in order, and what follows stays unread. */
  lemma {:induction false} TextAfterControls(fs: seq<ClientFrame>, f: ClientFrame, tail: seq<Octet>)
    requires AllValid(fs) && (forall i :: 0 <= i < |fs| ==> Control(fs[i]))
    requires f.Valid() && f.opcode == 1 && f.fin
    ensures ReadingOf(EncodeAll(fs) + (EncodeClient(f) + tail)) == Reading(Text(f.payload), tail, PingsIn(fs))
  {
    var b := EncodeAll(fs) + (EncodeClient(f) + tail);
    if fs == [] {
      assert b == EncodeClient(f) + tail;
      ParseEncoded(f, tail);
      ReadingOfFrame(b, Frame(f.fin, f.opcode, f.payload, tail));
    } else {
      var more := EncodeAll(fs[1..]) + (EncodeClient(f) + tail);
      assert b == EncodeClient(fs[0]) + more;
      ParseEncoded(fs[0], more);
      ReadingOfFrame(b, Frame(fs[0].fin, fs[0].opcode, fs[0].payload, more));
      TextAfterControls(fs[1..], f, tail);
    }
  }

  /** A close frame, a text frame that is not final, and every opcode other than text, ping and pong end the connection;
      so does the end of the stream. An error of the frame reader is passed on. */
  lemma ReadingMeaning(b: seq<Octet>)
    ensures var p := Parse(b); var r := ReadingOf(b);
            && (p.End? ==> r.result == Closed)
            && (p.Bad? ==> r.result == TextFailed(p.error))
            && (p.Frame? && p.opcode == 1 && p.fin ==> r == Reading(Text(p.payload), p.rest, []))
            && (p.Frame? && p.opcode == 9 ==>
                  r == Reading(ReadingOf(p.rest).result, ReadingOf(p.rest).rest, [p.payload] + ReadingOf(p.rest).pings))
            && (p.Frame? && p.opcode == 10 ==> r == ReadingOf(p.rest))
            && (p.Frame? && p.opcode == 8 ==> r.result == Closed && r.pings == [])
            && (p.Frame? && p.opcode == 1 && !p.fin ==> r.result == Closed && r.pings == [])
            && (p.Frame? && p.opcode !in {1, 8, 9, 10} ==> r.result == Closed && r.pings == [])
  {
  }

  // ---------------------------------------------------------------- the layout of section 5.2, octet by octet

  /** First octet: final bit, three zero bits, opcode. Second octet: mask bit, length marker. */
  lemma HeaderBits(fin: bool, opcode: Octet, marker: Octet)
    requires opcode < 16 && marker < 128
    ensures var b := FirstOctet(fin, opcode);
            && (Bit(b, 7) <==> fin) && !Bit(b, 6) && !Bit(b, 5) && !Bit(b, 4)
            && forall k: nat :: k < 4 ==> (Bit(b, k) <==> Bit(opcode, k))
    ensures Bit(128 + marker, 7) && !Bit(marker, 7)
    ensures forall k: nat :: k < 7 ==> (Bit(128 + marker, k) <==> Bit(marker, k))
  {
    Bits8(FirstOctet(fin, opcode));
    Bits8(128 + marker);
    Bits8(marker);
    forall k: nat | k < 4 ensures Bit(FirstOctet(fin, opcode), k) <==> Bit(opcode, k) {
      HighBitsApart(opcode, if fin then 8 else 0, 4, k);
    }
    forall k: nat | k < 7 ensures Bit(128 + marker, k) <==> Bit(marker, k) { HighBitsApart(marker, 1, 7, k); }
  }

  /** The upper four bits of an octet are those of its upper half. */
  lemma UpperHalf(b: Octet, k: nat)
    ensures Bit(b, k + 4) <==> Bit(b / 16, k)
  {
    var c := b / 2;
    var d := c / 2;
    var e := d / 2;
    assert e / 2 == b / 16;
    assert Bit(b, k + 4) == Bit(c, k + 3);
    assert Bit(c, k + 3) == Bit(d, k + 2);
    assert Bit(d, k + 2) == Bit(e, k + 1);
    assert Bit(e, k + 1) == Bit(e / 2, k);
  }

  lemma HalfBits(q: nat)
    requires q < 16
    ensures (Bit(q, 0) <==> q % 2 == 1) && (Bit(q, 1) <==> q / 2 % 2 == 1)
    ensures (Bit(q, 2) <==> q / 4 % 2 == 1) && (Bit(q, 3) <==> q >= 8)
  {
    var h := q / 2;
    var f := h / 2;
    assert f == q / 4 && f / 2 == q / 8;
    assert Bit(q, 3) == Bit(h, 2);
    assert Bit(h, 2) == Bit(f, 1);
    assert Bit(f, 1) == Bit(f / 2, 0);
    assert Bit(q, 2) == Bit(h, 1);
    assert Bit(h, 1) == Bit(f, 0);
  }

  lemma Bits8(b: Octet)
    ensures Bit(b, 7) <==> b >= 128
    ensures Bit(b, 4) || Bit(b, 5) || Bit(b, 6) <==> b / 16 % 8 != 0
  {
    UpperHalf(b, 0);
    UpperHalf(b, 1);
    UpperHalf(b, 2);
    UpperHalf(b, 3);
    HalfBits(b / 16);
    EighthMeaning(b / 16);
  }

  lemma EighthMeaning(q: nat)
    requires q < 16
    ensures q % 8 != 0 <==> q % 2 == 1 || q / 2 % 2 == 1 || q / 4 % 2 == 1
  {
  }

  /** Adding a multiple of a power of two leaves the bits below it alone. */
  lemma {:induction false} HighBitsApart(low: nat, high: nat, n: nat, k: nat)
    requires k < n
    ensures Bit(low + PowerOfTwo(n) * high, k) <==> Bit(low, k)
    decreases n
  {
    var half := PowerOfTwo(n - 1) * high;
    assert PowerOfTwo(n) * high == 2 * half;
    assert (low + 2 * half) / 2 == low / 2 + half && (low + 2 * half) % 2 == low % 2;
    if k > 0 { HighBitsApart(low / 2, high, n - 1, k - 1); }
  }

  /** The number in eight octets, the first one the most significant. */
  function Eight(s: seq<Octet>): nat
    requires |s| == 8
  {
    (s[0] as nat) * 0x100_0000_0000_0000 + (s[1] as nat) * 0x1_0000_0000_0000 + (s[2] as nat) * 0x100_0000_0000 +
    (s[3] as nat) * 0x1_0000_0000 + (s[4] as nat) * 0x100_0000 + (s[5] as nat) * 0x1_0000 + (s[6] as nat) * 0x100 +
    s[7] as nat
  }

  /** The length in a header: in the marker itself; or 126 and two octets; or 127 and eight octets; high ones first. */
  lemma LengthLayout(form: Form, len: nat)
    requires form.Fits(len)
    ensures var m, s := Marker(form, len), LengthField(form, len);
            && (form.Short? ==> len <= 125 && m == len && s == [])
            && (form.Medium? ==> len <= 65535 && m == 126 && |s| == 2 && (s[0] as nat) * 256 + s[1] as nat == len)
            && (form.Long? ==> m == 127 && |s| == 8 && Eight(s) == len)
  {
    MarkerParts(form, len);
    if form.Medium? { TwoOctets(LengthField(form, len)); }
    if form.Long? { EightOctets(LengthField(form, len)); }
  }

  lemma TwoOctets(s: seq<Octet>)
    requires |s| == 2
    ensures FromBigEndian(s) == (s[0] as nat) * 256 + s[1] as nat
  {
    assert s[..1][..0] == [];
    assert FromBigEndian(s[..1]) == s[0] as nat;
  }

  lemma EightOctets(s: seq<Octet>)
    requires |s| == 8
    ensures FromBigEndian(s) == Eight(s)
  {
    TwoOctets(s[..2]);
    FromPrefix(s, 2);
    FromPrefix(s, 3);
    FromPrefix(s, 4);
    FromPrefix(s, 5);
    FromPrefix(s, 6);
    FromPrefix(s, 7);
    assert s[..8] == s;
  }

  lemma FromPrefix(s: seq<Octet>, n: nat)
    requires n < |s|
    ensures FromBigEndian(s[..n + 1]) == FromBigEndian(s[..n]) * 256 + s[n] as nat
  {
    assert s[..n + 1][..n] == s[..n];
  }

  /** Where everything stands in a client frame. */
  lemma ClientLayout(f: ClientFrame)
    requires f.Valid()
    ensures var b, n, w := EncodeClient(f), |f.payload|, LengthField(f.form, |f.payload|);
            && |b| == 6 + |w| + n
            && b[0] == FirstOctet(f.fin, f.opcode) && b[1] == 128 + Marker(f.form, n)
            && b[2..2 + |w|] == w && b[2 + |w|..6 + |w|] == f.mask
            && SentUnder(b[6 + |w|..], f.payload, f.mask)
  {
    var b, n, w := EncodeClient(f), |f.payload|, LengthField(f.form, |f.payload|);
    var masked := Masked(f.payload, f.mask);
    var head := [FirstOctet(f.fin, f.opcode), 128 + Marker(f.form, n)];
    assert b == head + (w + f.mask) + masked;
    Cut(head, w, f.mask, masked);
    MaskedBits(f.payload, f.mask);
  }

  /** Where everything stands in a server frame: always final, never masked, the length in its shortest form. */
  lemma ServerLayout(opcode: Octet, payload: seq<Octet>)
    requires opcode < 16 && |payload| < TWO64
    ensures var b, n := EncodeServer(opcode, payload), |payload|;
            && |b| >= 2 && b[0] == 128 + opcode
            && (n <= 125 ==> b[1] == n && b[2..] == payload)
            && (125 < n <= 65535 ==>
                  && |b| == 4 + n && b[1] == 126 && (b[2] as nat) * 256 + b[3] as nat == n && b[4..] == payload)
            && (n > 65535 ==> |b| == 10 + n && b[1] == 127 && Eight(b[2..10]) == n && b[10..] == payload)
  {
    var n := |payload|;
    var form := ShortestForm(n);
    LengthLayout(form, n);
    var w := LengthField(form, n);
    var b := EncodeServer(opcode, payload);
    assert b[2..] == w + payload;
    assert b[2 + |w|..] == payload;
    if form.Medium? { assert b[2] == w[0] && b[3] == w[1]; }
    if form.Long? { assert b[2..10] == w; }
  }

  /** What the reader refuses, in the order in which it looks: fewer than two octets are the end of the stream; a
      reserved bit; a missing mask bit; an announced length above 16 MiB. */
  lemma ParseRefuses(b: seq<Octet>)
    ensures |b| < 2 ==> Parse(b) == End
    ensures |b| >= 2 && (Bit(b[0], 4) || Bit(b[0], 5) || Bit(b[0], 6)) ==> Parse(b) == Bad(ReservedBits)
    ensures |b| >= 2 && !Bit(b[0], 4) && !Bit(b[0], 5) && !Bit(b[0], 6) && !Bit(b[1], 7) ==> Parse(b) == Bad(Unmasked)
    ensures (|b| >= 10 && !Bit(b[0], 4) && !Bit(b[0], 5) && !Bit(b[0], 6) && b[1] == 255 &&
             FromBigEndian(b[2..10]) > 16777216) ==> Parse(b) == Bad(TooLarge)
    ensures Parse(b).Frame? ==> |Parse(b).payload| <= 16777216
  {
    if |b| >= 2 {
      Bits8(b[0]);
      Bits8(b[1]);
      if |b| >= 10 { assert b[2..][..8] == b[2..10]; }
    }
  }

  /** The largest payload a client may send is 16 MiB, in the long form. */
  lemma LargestFrame(f: ClientFrame)
    requires f.opcode < 16 && |f.mask| == 4 && f.form == Long
    ensures f.Valid() <==> |f.payload| <= 16777216
  {
  }

  /** A frame cut short anywhere is never taken for one: before its second octet the stream has ended, after it the
      frame is truncated. */
  lemma CutShort(f: ClientFrame, n: nat)
    requires f.Valid() && n < |EncodeClient(f)|
    ensures Parse(EncodeClient(f)[..n]) == if n < 2 then End else Bad(Truncated)
  {
    if n >= 2 {
      var field, rest := LengthField(f.form, |f.payload|), f.mask + Masked(f.payload, f.mask);
      var b := EncodeClient(f)[..n];
      FirstOctetParts(f.fin, f.opcode);
      MarkerParts(f.form, |f.payload|);
      SecondOctetParts(Marker(f.form, |f.payload|));
      assert b[2..] == (field + rest)[..n - 2];
      BodyCutShort(b[0], f, n - 2);
    }
  }

  lemma BodyCutShort(b0: Octet, f: ClientFrame, n: nat)
    requires f.Valid() && n < f.form.Width() + 4 + |f.payload|
    ensures ParseBody(b0, Marker(f.form, |f.payload|),
                      (LengthField(f.form, |f.payload|) + (f.mask + Masked(f.payload, f.mask)))[..n]) == Bad(Truncated)
  {
    MarkerParts(f.form, |f.payload|);
    var field := LengthField(f.form, |f.payload|);
    var body := (field + (f.mask + Masked(f.payload, f.mask)))[..n];
    if n >= |field| { assert body[..|field|] == field; }
  }
}
