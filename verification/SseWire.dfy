/**
 The bytes of the stream, and their reading by section 9.2.6 of the WHATWG HTML Standard
 ("Interpreting an event stream"). Text is a sequence of decoded characters.
 */
module SseWire {
  import Folds
  import Decimal

  // ---------- What the server writes ----------

  datatype Packet =
    | EventPacket(seqNo: int, data: string)
    | RenderPacket(data: string)
    | DeltaPacket(data: string)
    | PingPacket
    | ReconnectPacket(afterSeq: int)

  function Block(kind: string, data: string): string {
    "event: " + kind + "\ndata: " + data + "\n\n"
  }

  function IdLine(id: string): string {
    "id: " + id + "\n"
  }

  function CursorData(n: int): string {
    "{\"afterSeq\":" + Decimal.Format(n) + "}"
  }

  const PING := ": ping\n\n"

  function Encode(p: Packet): string {
    match p
    case EventPacket(n, data) => IdLine(Decimal.Format(n)) + Block("am_event", data)
    case RenderPacket(data) => Block("am_render", data)
    case DeltaPacket(data) => Block("am_delta", data)
    case PingPacket => PING
    case ReconnectPacket(n) => Block("reconnect", CursorData(n))
  }

  /** Everything written, one packet after another. */
  function EncodeAll(ps: seq<Packet>): string {
    Concat(Encodings(ps), |ps|)
  }

  function Encodings(ps: seq<Packet>): (texts: seq<string>)
    ensures |texts| == |ps|
  {
    seq(|ps|, i requires 0 <= i < |ps| => Encode(ps[i]))
  }

  function Concat(texts: seq<string>, n: nat): string
    requires n <= |texts|
  {
    if n == 0 then "" else Concat(texts, n - 1) + texts[n - 1]
  }

  // ---------- How the client reads it ----------

  datatype Message = Message(kind: string, data: string, lastEventId: string)

  /** The buffers of the standard's algorithm, the line being read, and what was dispatched so far. */
  datatype Reader = Reader(line: string, afterCr: bool,
                           data: string, kind: string, id: string,
                           lastEventId: string, retry: string,
                           out: seq<Message>)

  const FRESH := Reader("", false, "", "", "", "", "", [])

  /** One character. A line ends with LF, CR or CR LF. */
  function Feed(r: Reader, c: char): Reader {
    if c == '\n' then if r.afterCr then r.(afterCr := false) else EndLine(r)
    else if c == '\r' then EndLine(r).(afterCr := true)
    else r.(line := r.line + [c], afterCr := false)
  }

  function Read(r: Reader, text: string): Reader {
    Folds.Fold(Feed, r, text, |text|)
  }

  function EndLine(r: Reader): Reader {
    Interpret(r.(line := "", afterCr := false), r.line)
  }

  function Interpret(r: Reader, line: string): Reader {
    if line == "" then Dispatch(r)
    else if line[0] == ':' then r
    else
      var k := Colon(line, 0);
      if k == |line| then Field(r, line, "") else Field(r, line[..k], WithoutSpace(line[k + 1..]))
  }

  /** The position of the first colon from i on, or the length. */
  function Colon(line: string, i: nat): (k: nat)
    requires i <= |line|
    ensures i <= k <= |line| && (k < |line| ==> line[k] == ':') && forall j :: i <= j < k ==> line[j] != ':'
    decreases |line| - i
  {
    if i == |line| || line[i] == ':' then i else Colon(line, i + 1)
  }

  function WithoutSpace(value: string): string {
    if value != "" && value[0] == ' ' then value[1..] else value
  }

  function Field(r: Reader, name: string, value: string): Reader {
    if name == "event" then r.(kind := value)
    else if name == "data" then r.(data := r.data + value + "\n")
    else if name == "id" then if '\0' in value then r else r.(id := value)
    else if name == "retry" then if Decimal.IsDigits(value) then r.(retry := value) else r
    else r
  }

  function Dispatch(r: Reader): Reader {
    if r.data == "" then r.(lastEventId := r.id, kind := "")
    else
      var data := if r.data[|r.data| - 1] == '\n' then r.data[..|r.data| - 1] else r.data;
      r.(lastEventId := r.id, data := "", kind := "",
         out := r.out + [Message(if r.kind == "" then "message" else r.kind, data, r.id)])
  }

  // ---------- Reading what was written ----------

  predicate OneLine(s: string) {
    '\n' !in s && '\r' !in s
  }

  predicate OneLineData(p: Packet) {
    match p
    case EventPacket(_, data) => OneLine(data)
    case RenderPacket(data) => OneLine(data)
    case DeltaPacket(data) => OneLine(data)
    case _ => true
  }

  /** The id in force after the first n packets. */
  function LastId(ps: seq<Packet>, n: nat): string
    requires n <= |ps|
  {
    if n == 0 then ""
    else if ps[n - 1].EventPacket? then Decimal.Format(ps[n - 1].seqNo)
    else LastId(ps, n - 1)
  }

  /** The messages of the first n packets: one each, in order, and none for a ping. */
  function Messages(ps: seq<Packet>, n: nat): seq<Message>
    requires n <= |ps|
  {
    if n == 0 then [] else Messages(ps, n - 1) + MessageOf(ps[n - 1], LastId(ps, n))
  }

  function MessageOf(p: Packet, id: string): seq<Message> {
    match p
    case EventPacket(_, data) => [Message("am_event", data, id)]
    case RenderPacket(data) => [Message("am_render", data, id)]
    case DeltaPacket(data) => [Message("am_delta", data, id)]
    case PingPacket => []
    case ReconnectPacket(n) => [Message("reconnect", CursorData(n), id)]
  }

  lemma ReadThen(r: Reader, a: string, b: string)
    ensures Read(r, a + b) == Read(Read(r, a), b)
  {
    Folds.FoldThen(Feed, r, a, b);
  }

  /** Text within a line only makes the line longer. */
  lemma {:induction false} ReadPlain(r: Reader, s: string, n: nat)
    requires n <= |s| && OneLine(s) && !r.afterCr
    ensures Folds.Fold(Feed, r, s, n) == r.(line := r.line + s[..n])
  {
    if n == 0 {
      assert r.line + s[..0] == r.line;
    } else {
      ReadPlain(r, s, n - 1);
      assert s[n - 1] in s;
      assert r.line + s[..n - 1] + [s[n - 1]] == r.line + s[..n];
    }
  }

  /** A whole line is interpreted, and the next one starts empty. */
  lemma ReadLine(r: Reader, s: string)
    requires r.line == "" && !r.afterCr && OneLine(s)
    ensures Read(r, s + "\n") == Interpret(r, s)
  {
    ReadThen(r, s, "\n");
    ReadPlain(r, s, |s|);
    assert s[..|s|] == s && "" + s == s;
    Folds.FoldOne(Feed, r.(line := s), '\n');
  }

  predicate Starts(r: Reader) {
    r.line == "" && !r.afterCr
  }

  /** A line "name: value" sets the field. */
  lemma InterpretField(r: Reader, name: string, value: string)
    requires name != "" && ':' !in name
    ensures Interpret(r, name + ": " + value) == Field(r, name, value)
  {
    var line := name + ": " + value;
    assert forall j :: 0 <= j < |name| ==> line[j] == name[j] && name[j] in name;
    assert line[|name|] == ':';
    var k := Colon(line, 0);
    assert line[..k] == name && line[k + 1..] == " " + value;
    assert WithoutSpace(" " + value) == value;
  }

  lemma ReadField(r: Reader, name: string, value: string)
    requires Starts(r) && name != "" && ':' !in name && OneLine(name) && OneLine(value)
    ensures Read(r, name + ": " + value + "\n") == Field(r, name, value)
  {
    ReadLine(r, name + ": " + value);
    InterpretField(r, name, value);
  }

  lemma ReadEmptyLine(r: Reader)
    requires Starts(r)
    ensures Read(r, "\n") == Dispatch(r)
  {
    ReadLine(r, "");
    assert "" + "\n" == "\n";
  }

  /** Between packets: nothing is buffered. */
  predicate Between(r: Reader) {
    Starts(r) && r.data == "" && r.kind == ""
  }

  /** An event line, a data line and an empty line dispatch one message. */
  lemma ReadBlock(r: Reader, kind: string, data: string)
    requires Between(r) && kind != "" && OneLine(kind) && OneLine(data)
    ensures Read(r, Block(kind, data)) ==
            r.(lastEventId := r.id, out := r.out + [Message(kind, data, r.id)])
  {
    var a, b := "event: " + kind + "\n", "data: " + data + "\n";
    var r1 := r.(kind := kind);
    var r2 := r1.(data := data + "\n");
    assert "event" + ": " + kind + "\n" == a && "data" + ": " + data + "\n" == b;
    assert Block(kind, data) == (a + b) + "\n";
    ReadField(r, "event", kind);
    ReadField(r1, "data", data);
    assert "" + data + "\n" == data + "\n";
    ReadThen(r, a, b);
    ReadThen(r, a + b, "\n");
    ReadEmptyLine(r2);
    assert (data + "\n")[..|data|] == data;
  }

  lemma FormatIsOneLine(n: int)
    ensures OneLine(Decimal.Format(n)) && '\0' !in Decimal.Format(n)
  {
    if n < 0 {
      assert forall i :: 0 < i < |Decimal.Format(n)| ==> Decimal.Format(n)[i] == Decimal.Natural(-n)[i - 1];
    }
  }

  lemma ReadEvent(r: Reader, id: string, data: string)
    requires Between(r) && OneLine(id) && '\0' !in id && OneLine(data)
    ensures Read(r, IdLine(id) + Block("am_event", data)) ==
            r.(id := id, lastEventId := id, out := r.out + [Message("am_event", data, id)])
  {
    ReadThen(r, IdLine(id), Block("am_event", data));
    assert "id" + ": " + id + "\n" == IdLine(id);
    ReadField(r, "id", id);
    ReadBlock(r.(id := id), "am_event", data);
  }

  lemma ReadPing(r: Reader)
    requires Between(r)
    ensures Read(r, PING) == r.(lastEventId := r.id)
  {
    assert PING == ": ping" + "\n" + "\n";
    ReadThen(r, ": ping" + "\n", "\n");
    ReadLine(r, ": ping");
    ReadEmptyLine(r);
  }

  lemma CursorDataIsOneLine(n: int)
    ensures OneLine(CursorData(n))
  {
    FormatIsOneLine(n);
  }

  /** The reader after a packet, given the id then in force. */
  function AfterPacket(r: Reader, p: Packet, id: string): Reader {
    r.(id := id, lastEventId := id, out := r.out + MessageOf(p, id))
  }

  lemma ReadPacket(r: Reader, p: Packet, text: string, id: string)
    requires Between(r) && OneLineData(p) && text == Encode(p)
    requires id == if p.EventPacket? then Decimal.Format(p.seqNo) else r.id
    ensures Read(r, text) == AfterPacket(r, p, id)
  {
    match p
    case EventPacket(n, data) =>
      FormatIsOneLine(n);
      ReadEvent(r, id, data);
    case RenderPacket(data) => ReadBlock(r, "am_render", data);
    case DeltaPacket(data) => ReadBlock(r, "am_delta", data);
    case PingPacket =>
      ReadPing(r);
      assert r.out + [] == r.out;
    case ReconnectPacket(n) =>
      CursorDataIsOneLine(n);
      ReadBlock(r, "reconnect", CursorData(n));
  }

  function AfterPackets(ps: seq<Packet>, n: nat): Reader
    requires n <= |ps|
  {
    FRESH.(id := LastId(ps, n), lastEventId := LastId(ps, n), out := Messages(ps, n))
  }

  lemma NextPacket(ps: seq<Packet>, n: nat, text: string)
    requires n < |ps| && OneLineData(ps[n]) && text == Encode(ps[n])
    ensures Read(AfterPackets(ps, n), text) == AfterPackets(ps, n + 1)
  {
    ReadPacket(AfterPackets(ps, n), ps[n], text, LastId(ps, n + 1));
  }

  lemma {:induction false} ReadConcat(texts: seq<string>, readers: seq<Reader>, n: nat)
    requires |readers| == |texts| + 1 && n <= |texts|
    requires forall k :: 0 <= k < |texts| ==> Read(readers[k], texts[k]) == readers[k + 1]
    ensures Read(readers[0], Concat(texts, n)) == readers[n]
  {
    if n > 0 {
      ReadConcat(texts, readers, n - 1);
      ReadThen(readers[0], Concat(texts, n - 1), texts[n - 1]);
    }
  }

  /**
   Whatever packets are written, as long as their data has no line break, the reader dispatches exactly
   their messages in order, pings leave no trace, and the last event id is the last written number.
   */
  lemma ReadsBackWhatWasWritten(ps: seq<Packet>)
    requires forall p :: p in ps ==> OneLineData(p)
    ensures Read(FRESH, EncodeAll(ps)) == AfterPackets(ps, |ps|)
  {
    var readers := seq(|ps| + 1, k requires 0 <= k <= |ps| => AfterPackets(ps, k));
    forall k | 0 <= k < |ps| ensures Read(readers[k], Encodings(ps)[k]) == readers[k + 1] {
      NextPacket(ps, k, Encode(ps[k]));
    }
    ReadConcat(Encodings(ps), readers, |ps|);
    assert readers[0] == AfterPackets(ps, 0) == FRESH;
  }

  // ---------- Resuming ----------

  datatype Parsed = Number(value: int) | NotANumber

  const MAX_INT64: int := 0x7FFF_FFFF_FFFF_FFFF

  /** A decimal 64-bit integer: an optional sign and digits, in range. */
  function ParseInt(s: string): Parsed {
    var digits := if s != "" && (s[0] == '+' || s[0] == '-') then s[1..] else s;
    if !Decimal.IsDigits(digits) then NotANumber
    else
      var v: int := Decimal.Value(digits);
      if s[0] == '-' then if v <= MAX_INT64 + 1 then Number(-v) else NotANumber
      else if v <= MAX_INT64 then Number(v) else NotANumber
  }

  /** The header wins over the query; what does not parse is passed over. */
  function ResumeCursor(lastEventId: string, afterSeq: string): (n: int)
    ensures ParseInt(lastEventId).Number? ==> ParseInt(lastEventId) == Number(n)
    ensures ParseInt(lastEventId).NotANumber? && ParseInt(afterSeq).Number? ==> ParseInt(afterSeq) == Number(n)
    ensures ParseInt(lastEventId).NotANumber? && ParseInt(afterSeq).NotANumber? ==> n == 0
  {
    if ParseInt(lastEventId).Number? then ParseInt(lastEventId).value
    else if ParseInt(afterSeq).Number? then ParseInt(afterSeq).value
    else 0
  }

  lemma ParseDigits(s: string)
    requires Decimal.IsDigits(s)
    ensures ParseInt(s) == if Decimal.Value(s) <= MAX_INT64 then Number(Decimal.Value(s)) else NotANumber
    ensures ParseInt("-" + s) ==
            if Decimal.Value(s) <= MAX_INT64 + 1 then Number(0 - Decimal.Value(s)) else NotANumber
  {
    assert ("-" + s)[1..] == s;
  }

  /** A formatted number parses to itself when it fits 64 bits, and not at all otherwise. */
  lemma ParseFormatted(n: int)
    ensures ParseInt(Decimal.Format(n)) == if -MAX_INT64 - 1 <= n <= MAX_INT64 then Number(n) else NotANumber
  {
    var s := Decimal.Natural(if n < 0 then -n else n);
    Decimal.NaturalRoundTrip(if n < 0 then -n else n);
    ParseDigits(s);
  }

  /** A client that sends neither a last event id nor a cursor starts from the beginning. */
  lemma NoCursorStartsOver(lastEventId: string, afterSeq: string)
    requires !(exists c :: c in lastEventId && '0' <= c <= '9') && !(exists c :: c in afterSeq && '0' <= c <= '9')
    ensures ResumeCursor(lastEventId, afterSeq) == 0
  {
    assert ParseInt(lastEventId).NotANumber? by { NoDigitsNoNumber(lastEventId); }
    assert ParseInt(afterSeq).NotANumber? by { NoDigitsNoNumber(afterSeq); }
  }

  lemma NoDigitsNoNumber(s: string)
    requires !(exists c :: c in s && '0' <= c <= '9')
    ensures ParseInt(s).NotANumber?
  {
    var digits := if s != "" && (s[0] == '+' || s[0] == '-') then s[1..] else s;
    if digits != "" {
      assert digits[0] in s;
    }
  }

  /** The number of the last event among the first n packets. */
  function LastSeqWritten(ps: seq<Packet>, n: nat, default: int): int
    requires n <= |ps|
  {
    if n == 0 then default
    else if ps[n - 1].EventPacket? then ps[n - 1].seqNo
    else LastSeqWritten(ps, n - 1, default)
  }

  /** Sending back a stream's last event id, or the own cursor if there is none, resumes after the last event read. */
  lemma ResumesAfterLastWritten(ps: seq<Packet>, cursor: int)
    requires forall p :: p in ps ==> OneLineData(p) && (p.EventPacket? ==> -MAX_INT64 - 1 <= p.seqNo <= MAX_INT64)
    requires -MAX_INT64 - 1 <= cursor <= MAX_INT64
    ensures ResumeCursor(Read(FRESH, EncodeAll(ps)).lastEventId, Decimal.Format(cursor)) ==
            LastSeqWritten(ps, |ps|, cursor)
  {
    ReadsBackWhatWasWritten(ps);
    LastIdNamesLastSeq(ps, |ps|, cursor);
    ParseFormatted(cursor);
  }

  predicate Names(id: string, seqNo: int, cursor: int) {
    if id == "" then seqNo == cursor else ParseInt(id) == Number(seqNo)
  }

  lemma FormatNames(n: int, cursor: int)
    requires -MAX_INT64 - 1 <= n <= MAX_INT64
    ensures Names(Decimal.Format(n), n, cursor)
  {
    ParseFormatted(n);
  }

  lemma {:induction false} LastIdNamesLastSeq(ps: seq<Packet>, n: nat, cursor: int)
    requires n <= |ps| && forall p :: p in ps && p.EventPacket? ==> -MAX_INT64 - 1 <= p.seqNo <= MAX_INT64
    ensures Names(LastId(ps, n), LastSeqWritten(ps, n, cursor), cursor)
  {
    if n > 0 {
      if ps[n - 1].EventPacket? {
        assert ps[n - 1] in ps;
        FormatNames(ps[n - 1].seqNo, cursor);
      } else {
        LastIdNamesLastSeq(ps, n - 1, cursor);
      }
    }
  }
}
