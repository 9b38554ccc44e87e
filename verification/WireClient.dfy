/** From the bytes of the stream to the client's listeners, and to its callback for the reconnect frame. */
module WireClient {
  import opened Stream
  import opened SseWire
  import Decimal
  import Replica
  import SseClient

  // ---------- How the client reads the payload ----------

  predicate IsBlank(c: char) {
    c == ' ' || c == '\t' || c == '\n' || c == '\r'
  }

  function Trim(s: string): string {
    if s != "" && IsBlank(s[0]) then Trim(s[1..])
    else if s != "" && IsBlank(s[|s| - 1]) then Trim(s[..|s| - 1])
    else s
  }

  /** An integer by the grammar of section 6 of RFC 8259: no plus sign and no leading zero. */
  function JsonInt(s: string): Parsed {
    var digits := if s != "" && s[0] == '-' then s[1..] else s;
    if !Decimal.IsDigits(digits) || (|digits| > 1 && digits[0] == '0') then NotANumber
    else Number(if s[0] == '-' then 0 - Decimal.Value(digits) else Decimal.Value(digits))
  }

  const NAME := "\"afterSeq\""

  /** The number of an object whose one member is an integer named afterSeq. */
  function ParseReconnect(data: string): Parsed {
    var text := Trim(data);
    if |text| < 2 || text[0] != '{' || text[|text| - 1] != '}' then NotANumber
    else ParseMember(Trim(text[1..|text| - 1]))
  }

  function ParseMember(member: string): Parsed {
    if !(NAME <= member) then NotANumber
    else
      var rest := Trim(member[|NAME|..]);
      if rest == "" || rest[0] != ':' then NotANumber else JsonInt(Trim(rest[1..]))
  }

  /** What the client does with a reconnect message. */
  function ReconnectCall(m: Message): SseClient.Callback {
    match ParseReconnect(m.data)
    case Number(n) => SseClient.Reconnects(n, true)
    case NotANumber => SseClient.Reconnects(0, false)
  }

  // ---------- The number written is the number read ----------

  lemma {:induction false} NoLeadingZero(n: nat)
    ensures |Decimal.Natural(n)| > 1 ==> Decimal.Natural(n)[0] != '0'
  {
    if n >= 10 {
      NoLeadingZero(n / 10);
      assert Decimal.Natural(n)[0] == Decimal.Natural(n / 10)[0];
      if n / 10 < 10 {
        assert Decimal.Natural(n / 10) == [Decimal.Digit(n / 10)];
      }
    }
  }

  lemma JsonFormatted(n: int)
    ensures JsonInt(Decimal.Format(n)) == Number(n)
  {
    var s := Decimal.Natural(if n < 0 then -n else n);
    Decimal.NaturalRoundTrip(if n < 0 then -n else n);
    NoLeadingZero(if n < 0 then -n else n);
    if n < 0 {
      assert ("-" + s)[1..] == s;
    }
  }

  lemma FormatEnds(n: int)
    ensures var s := Decimal.Format(n); s != "" && !IsBlank(s[0]) && !IsBlank(s[|s| - 1])
  {
  }

  /** The member of the payload, as the client finds it between the braces. */
  lemma MemberReads(number: string, n: int)
    requires number != "" && !IsBlank(number[0]) && !IsBlank(number[|number| - 1]) && JsonInt(number) == Number(n)
    ensures ParseMember(NAME + (":" + number)) == Number(n)
  {
    var member := NAME + (":" + number);
    assert member[|NAME|..] == ":" + number;
    assert (":" + number)[1..] == number;
  }

  lemma Braced(member: string)
    requires member != "" && !IsBlank(member[0]) && !IsBlank(member[|member| - 1])
    ensures ParseReconnect("{" + member + "}") == ParseMember(member)
  {
    var data := "{" + member + "}";
    assert data[1..|data| - 1] == member;
  }

  lemma PayloadReads(number: string, n: int)
    requires number != "" && !IsBlank(number[0]) && !IsBlank(number[|number| - 1]) && JsonInt(number) == Number(n)
    ensures ParseReconnect("{" + (NAME + (":" + number)) + "}") == Number(n)
  {
    MemberReads(number, n);
    NonBlank(":" + number);
    Braced(NAME + (":" + number));
  }

  lemma Regrouped(a: string, b: string, c: string, d: string, e: string)
    ensures a + (b + (c + d)) + e == (a + b + c) + d + e
  {
  }

  lemma Spelled(number: string)
    ensures "{" + (NAME + (":" + number)) + "}" == "{\"afterSeq\":" + number + "}"
  {
    Regrouped("{", NAME, ":", number, "}");
  }

  lemma NonBlank(rest: string)
    requires rest != "" && !IsBlank(rest[|rest| - 1])
    ensures var member := NAME + rest; member != "" && !IsBlank(member[0]) && !IsBlank(member[|member| - 1])
  {
    var member := NAME + rest;
    assert member[|member| - 1] == rest[|rest| - 1];
  }

  lemma CursorReads(n: int)
    ensures ParseReconnect(CursorData(n)) == Number(n)
  {
    JsonFormatted(n);
    FormatEnds(n);
    Spelled(Decimal.Format(n));
    PayloadReads(Decimal.Format(n), n);
  }

  /**
   The bytes of a stream that ends in a reconnect frame read as messages of which the last is that frame's,
   and the client's callback for it has the number the server wrote.
   */
  lemma ReconnectReadsBack(ps: seq<Packet>, n: int)
    requires ps != [] && ps[|ps| - 1] == ReconnectPacket(n) && forall p :: p in ps ==> OneLineData(p)
    ensures var out := Read(FRESH, EncodeAll(ps)).out;
            && out != [] && out[|out| - 1].kind == "reconnect"
            && ParseReconnect(out[|out| - 1].data) == Number(n)
            && ReconnectCall(out[|out| - 1]) == SseClient.Reconnects(n, true)
  {
    ReadsBackWhatWasWritten(ps);
    CursorReads(n);
  }

  // ---------- Which listener hears what ----------

  /** What reaches the application's listeners; an EventSource calls the listeners of a message's kind. */
  datatype Heard =
    | HeardEvent(data: string)
    | HeardRender(data: string)
    | HeardDelta(data: string)
    | HeardReconnect(to: Parsed)

  function Hears(m: Message): seq<Heard> {
    if m.kind == "am_event" then [HeardEvent(m.data)]
    else if m.kind == "am_render" then [HeardRender(m.data)]
    else if m.kind == "am_delta" then [HeardDelta(m.data)]
    else if m.kind == "reconnect" then [HeardReconnect(ParseReconnect(m.data))]
    else []
  }

  function HearsAll(out: seq<Message>): seq<Heard> {
    if out == [] then [] else HearsAll(out[..|out| - 1]) + Hears(out[|out| - 1])
  }

  /** What the server meant to be heard. */
  function Meant(p: Packet): seq<Heard> {
    match p
    case EventPacket(_, data) => [HeardEvent(data)]
    case RenderPacket(data) => [HeardRender(data)]
    case DeltaPacket(data) => [HeardDelta(data)]
    case PingPacket => []
    case ReconnectPacket(n) => [HeardReconnect(Number(n))]
  }

  function MeantAll(ps: seq<Packet>, n: nat): seq<Heard>
    requires n <= |ps|
  {
    if n == 0 then [] else MeantAll(ps, n - 1) + Meant(ps[n - 1])
  }

  lemma HearsMore(out: seq<Message>, m: Message)
    ensures HearsAll(out + [m]) == HearsAll(out) + Hears(m)
  {
    assert (out + [m])[..|out|] == out;
  }

  lemma HearsPacket(out: seq<Message>, p: Packet, id: string)
    ensures HearsAll(out + MessageOf(p, id)) == HearsAll(out) + Meant(p)
  {
    match p
    case EventPacket(_, data) => HearsMore(out, Message("am_event", data, id));
    case RenderPacket(data) => HearsMore(out, Message("am_render", data, id));
    case DeltaPacket(data) => HearsMore(out, Message("am_delta", data, id));
    case PingPacket => assert out + [] == out;
    case ReconnectPacket(n) =>
      CursorReads(n);
      HearsMore(out, Message("reconnect", CursorData(n), id));
  }

  lemma OneMore(ps: seq<Packet>, n: nat)
    requires n < |ps|
    ensures Messages(ps, n + 1) == Messages(ps, n) + MessageOf(ps[n], LastId(ps, n + 1))
    ensures MeantAll(ps, n + 1) == MeantAll(ps, n) + Meant(ps[n])
  {
  }

  lemma {:induction false} HearsMessages(ps: seq<Packet>, n: nat)
    requires n <= |ps|
    ensures HearsAll(Messages(ps, n)) == MeantAll(ps, n)
  {
    if n > 0 {
      var k := n - 1;
      HearsMessages(ps, k);
      HearsPacket(Messages(ps, k), ps[k], LastId(ps, k + 1));
      OneMore(ps, k);
      assert k + 1 == n;
    }
  }

  /** From the bytes of any packets the client's listeners hear exactly what the server meant, in order. */
  lemma HeardAsMeant(ps: seq<Packet>)
    requires forall p :: p in ps ==> OneLineData(p)
    ensures HearsAll(Read(FRESH, EncodeAll(ps)).out) == MeantAll(ps, |ps|)
  {
    ReadsBackWhatWasWritten(ps);
    HearsMessages(ps, |ps|);
  }

  // ---------- The stream of a connection ----------

  /** The packet carries the frame; the payload of an event, render or delta is any text without a line break. */
  predicate Carries(p: Packet, w: Wire) {
    && OneLineData(p)
    && match w
       case AmEvent(e) => p.EventPacket? && p.seqNo == e.seqNo
       case AmRender(_) => p.RenderPacket?
       case AmDelta(_, _, _) => p.DeltaPacket?
       case Ping => p.PingPacket?
       case Reconnect(n) => p == ReconnectPacket(n)
  }

  /** The bytes written so far, up to the frame the client is about to process. */
  predicate CarriesNext(ps: seq<Packet>, s: Replica.State) {
    && s.got < |s.sent| && |ps| == s.got + 1
    && forall k :: 0 <= k < |ps| ==> Carries(ps[k], s.sent[k])
  }

  /**
   With one committer, when the reconnect frame reaches the client through the bytes, its callback takes
   over the cursor the client already has.
   */
  lemma BytesRepeatCursor(states: seq<Replica.State>, steps: seq<Replica.Step>, i: nat, ps: seq<Packet>)
    requires Replica.IsOrderlyRun(states, steps) && i < |states| && !states[i].link.Down?
    requires CarriesNext(ps, states[i]) && states[i].sent[states[i].got].Reconnect?
    ensures var out := Read(FRESH, EncodeAll(ps)).out;
            out != [] && ReconnectCall(out[|out| - 1]) == SseClient.Reconnects(states[i].cursor, true)
  {
    Replica.ReconnectRepeatsCursor(states, steps, i);
    ReconnectReadsBack(ps, states[i].cursor);
  }
}
