/**
  The message frame: `MSG <id> <channel> <length>`, a newline, the content, a newline. The server writes
  it into a buffer and sends it; the subscriber reads it back off a socket that also carries reply lines.
 */
module Frame {
  import opened Prelude
  import Utf8

  const SPACE: Byte := 32
  const NEWLINE: Byte := 10
  const MSG: seq<Byte> := [77, 83, 71]

  datatype Message = Message(id: nat, channel: seq<Byte>, content: seq<Byte>)

  // ---- Decimal numbers ---------------------------------------------------------------------------

  /** What `%lu` and `%zu` print. */
  function Decimal(n: nat): seq<Byte> {
    if n < 10 then [48 + n] else Decimal(n / 10) + [48 + n % 10]
  }

  predicate IsDigit(b: Byte) {
    48 <= b <= 57
  }

  predicate AllDigits(s: seq<Byte>) {
    s != [] && forall i :: 0 <= i < |s| ==> IsDigit(s[i])
  }

  /** What `int()` reads. */
  function Value(s: seq<Byte>): nat
    requires forall i :: 0 <= i < |s| ==> IsDigit(s[i])
  {
    if s == [] then 0
    else
      assert IsDigit(s[|s| - 1]);
      10 * Value(s[..|s| - 1]) + (s[|s| - 1] as int - 48)
  }

  /** A printed number is digits only and reads back as itself. */
  lemma {:induction false} DecimalRoundTrip(n: nat)
    ensures AllDigits(Decimal(n)) && Value(Decimal(n)) == n
  {
    if n >= 10 {
      DecimalRoundTrip(n / 10);
      assert Decimal(n)[..|Decimal(n)| - 1] == Decimal(n / 10);
    } else {
      assert Decimal(n)[..0] == [];
    }
  }

  function Pow10(d: nat): nat {
    if d == 0 then 1 else 10 * Pow10(d - 1)
  }

  lemma {:induction false} DecimalLength(n: nat, d: nat)
    requires d > 0 && n < Pow10(d)
    ensures |Decimal(n)| <= d
  {
    if n >= 10 {
      DecimalLength(n / 10, d - 1);
    }
  }

  /** A 64-bit number prints in at most twenty digits. */
  lemma TwentyDigits(n: nat)
    requires n < WIDTH
    ensures |Decimal(n)| <= 20
  {
    assert Pow10(5) == 100000;
    assert Pow10(10) == 100000 * Pow10(5);
    assert Pow10(15) == 100000 * Pow10(10);
    assert Pow10(20) == 100000 * Pow10(15);
    DecimalLength(n, 20);
  }

  // ---- The frame ---------------------------------------------------------------------------------

  /** The header without its newline. */
  function HeaderLine(m: Message): seq<Byte> {
    MSG + [SPACE] + (Decimal(m.id) + [SPACE] + (m.channel + [SPACE] + Decimal(|m.content|)))
  }

  function Encode(m: Message): seq<Byte> {
    HeaderLine(m) + [NEWLINE] + (m.content + [NEWLINE])
  }

  /** A channel name of at most 255 bytes makes a header of at most 302, so the frame fits its buffer. */
  lemma HeaderBound(m: Message)
    requires m.id < WIDTH && |m.content| < WIDTH && |m.channel| <= 255
    ensures |HeaderLine(m) + [NEWLINE]| <= 302
    ensures |Encode(m)| <= 512 + |m.content| + 1
  {
    TwentyDigits(m.id);
    TwentyDigits(|m.content|);
  }

  /** Print a header: like `snprintf`, at most `size - 1` bytes and a terminator, answering the full length. */
  method PrintHeader(buffer: array<Byte>, header: seq<Byte>) returns (length: nat)
    requires buffer.Length > 0
    modifies buffer
    ensures length == |header|
    ensures forall i :: 0 <= i < |header| && i < buffer.Length - 1 ==> buffer[i] == header[i]
  {
    var i := 0;
    while i < |header| && i < buffer.Length - 1
      invariant 0 <= i <= |header| && i <= buffer.Length - 1
      invariant forall j :: 0 <= j < i ==> buffer[j] == header[j]
    {
      buffer[i] := header[i];
      i := i + 1;
    }
    buffer[i] := 0;
    length := |header|;
  }

  /** The receiver thread's frame construction; the bytes sent are the first `length` of the buffer. */
  method WriteFrame(m: Message) returns (buffer: array<Byte>, length: nat)
    requires |HeaderLine(m) + [NEWLINE]| <= 512
    ensures buffer.Length == 512 + |m.content| + 1 && length <= buffer.Length
    ensures buffer[..length] == Encode(m)
  {
    buffer := new Byte[512 + |m.content| + 1];
    var header := HeaderLine(m) + [NEWLINE];
    var start := PrintHeader(buffer, header);
    var i := 0;
    while i < |m.content|
      invariant i <= |m.content|
      invariant forall j :: 0 <= j < start ==> buffer[j] == header[j]
      invariant forall j :: 0 <= j < i ==> buffer[start + j] == m.content[j]
    {
      buffer[start + i] := m.content[i];
      i := i + 1;
    }
    buffer[start + |m.content|] := NEWLINE;
    length := start + |m.content| + 1;
    assert buffer[..start] == header;
    assert buffer[start..length] == m.content + [NEWLINE];
    assert buffer[..length] == buffer[..start] + buffer[start..length];
  }

  // ---- The subscriber's reader -------------------------------------------------------------------

  /** The first place of a byte, or the length. */
  function FirstOf(s: seq<Byte>, b: Byte): (i: nat)
    ensures i <= |s|
    ensures i < |s| ==> s[i] == b
    ensures forall j :: 0 <= j < i ==> s[j] != b
  {
    if s == [] || s[0] == b then 0 else 1 + FirstOf(s[1..], b)
  }

  predicate Lacks(s: seq<Byte>, b: Byte) {
    forall i :: 0 <= i < |s| ==> s[i] != b
  }

  /** `split(" ")`. */
  function Split(s: seq<Byte>): seq<seq<Byte>>
    decreases |s|
  {
    var i := FirstOf(s, SPACE);
    if i == |s| then [s] else [s[..i]] + Split(s[i + 1..])
  }

  predicate IsMessageLine(line: seq<Byte>) {
    MSG + [SPACE] <= line && |Split(line)| >= 4
  }

  /** A message as the subscriber prints it: the id stays text. */
  datatype Received = Received(id: seq<Byte>, channel: seq<Byte>, content: seq<Byte>)

  function AtMost(n: nat, bound: nat): nat {
    if n < bound then n else bound
  }

  /** One turn of the reading loop: the loop ends, passes a line over, or reads a message. */
  datatype Turn = Stop | Skip(rest: seq<Byte>) | Take(message: Received, rest: seq<Byte>)

  /**
    A line that is no message is passed over. A line or a content that is not UTF-8 ends the loop, and so
    does a length that is no number, or no further line.
   */
  function ReadTurn(bytes: seq<Byte>): (turn: Turn)
    ensures !turn.Stop? ==> |turn.rest| < |bytes|
  {
    var i := FirstOf(bytes, NEWLINE);
    if i == |bytes| || !Utf8.Valid(bytes[..i]) then Stop else ReadMessage(Utf8.Strip(bytes[..i]), bytes[i + 1..])
  }

  function ReadMessage(line: seq<Byte>, rest: seq<Byte>): (turn: Turn)
    ensures !turn.Stop? ==> |turn.rest| <= |rest|
  {
    if !IsMessageLine(line) then Skip(rest)
    else
      var parts := Split(line);
      if !AllDigits(parts[3]) then Stop
      else
        var n := AtMost(Value(parts[3]), |rest|);
        if !Utf8.Valid(rest[..n]) then Stop
        else Take(Received(parts[1], parts[2], rest[..n]), rest[AtMost(n + 1, |rest|)..])
  }

  /** The reading loop, over everything the socket will carry. */
  function Decode(bytes: seq<Byte>): seq<Received>
    decreases |bytes|
  {
    match ReadTurn(bytes)
    case Stop => []
    case Skip(rest) => Decode(rest)
    case Take(message, rest) => [message] + Decode(rest)
  }

  // ---- Round trip --------------------------------------------------------------------------------

  /** What the socket carries: message frames and reply lines, in any order. */
  datatype Item = Frame(message: Message) | Line(text: seq<Byte>)

  function Bytes(items: seq<Item>): seq<Byte> {
    if items == [] then []
    else (match items[0] case Frame(m) => Encode(m) case Line(text) => text + [NEWLINE]) + Bytes(items[1..])
  }

  function Seen(m: Message): Received {
    Received(Decimal(m.id), m.channel, m.content)
  }

  function SeenIn(items: seq<Item>): seq<Received> {
    if items == [] then []
    else (if items[0].Frame? then [Seen(items[0].message)] else []) + SeenIn(items[1..])
  }

  /** A channel name that the frame can carry. */
  predicate Clean(channel: seq<Byte>) {
    Lacks(channel, SPACE) && Lacks(channel, NEWLINE)
  }

  /** A message whose bytes the subscriber can decode. */
  predicate Decodable(m: Message) {
    Utf8.Valid(m.channel) && Utf8.Valid(m.content)
  }

  /** A reply line: text with no newline inside, and not the beginning of a message. */
  predicate IsReply(text: seq<Byte>) {
    Lacks(text, NEWLINE) && Utf8.Valid(text) && !IsMessageLine(Utf8.Strip(text))
  }

  lemma FirstOfAt(a: seq<Byte>, b: Byte, rest: seq<Byte>)
    requires Lacks(a, b)
    ensures FirstOf(a + [b] + rest, b) == |a|
    ensures (a + [b] + rest)[..|a|] == a && (a + [b] + rest)[|a| + 1..] == rest
  {
    var s := a + [b] + rest;
    assert s[|a|] == b;
    var i := FirstOf(s, b);
    assert forall j :: 0 <= j < |a| ==> s[j] == a[j];
  }

  lemma FirstOfNone(a: seq<Byte>, b: Byte)
    requires Lacks(a, b)
    ensures FirstOf(a, b) == |a|
  {
  }

  lemma SplitCons(a: seq<Byte>, rest: seq<Byte>)
    requires Lacks(a, SPACE)
    ensures Split(a + [SPACE] + rest) == [a] + Split(rest)
  {
    FirstOfAt(a, SPACE, rest);
  }

  lemma SplitTwo(a: seq<Byte>, b: seq<Byte>)
    requires Lacks(a, SPACE) && Lacks(b, SPACE)
    ensures Split(a + [SPACE] + b) == [a, b]
  {
    SplitCons(a, b);
    FirstOfNone(b, SPACE);
  }

  lemma SplitFour(a: seq<Byte>, b: seq<Byte>, c: seq<Byte>, d: seq<Byte>)
    requires Lacks(a, SPACE) && Lacks(b, SPACE) && Lacks(c, SPACE) && Lacks(d, SPACE)
    ensures Split(a + [SPACE] + (b + [SPACE] + (c + [SPACE] + d))) == [a] + ([b] + [c, d])
  {
    var last := c + [SPACE] + d;
    SplitTwo(c, d);
    SplitCons(b, last);
    SplitCons(a, b + [SPACE] + last);
  }

  lemma DigitsLack(s: seq<Byte>, b: Byte)
    requires AllDigits(s) && !IsDigit(b)
    ensures Lacks(s, b)
  {
  }

  /** A header line splits into its four fields. */
  lemma HeaderSplits(m: Message)
    requires Clean(m.channel)
    ensures Split(HeaderLine(m)) == [MSG, Decimal(m.id), m.channel, Decimal(|m.content|)]
  {
    var id, length := Decimal(m.id), Decimal(|m.content|);
    DecimalRoundTrip(m.id);
    DecimalRoundTrip(|m.content|);
    DigitsLack(id, SPACE);
    DigitsLack(length, SPACE);
    SplitFour(MSG, id, m.channel, length);
  }

  lemma LacksConcat(a: seq<Byte>, c: seq<Byte>, b: Byte)
    requires Lacks(a, b) && Lacks(c, b)
    ensures Lacks(a + c, b)
  {
  }

  lemma LineLacksNewline(id: seq<Byte>, channel: seq<Byte>, length: seq<Byte>)
    requires AllDigits(id) && AllDigits(length) && Lacks(channel, NEWLINE)
    ensures Lacks(MSG + [SPACE] + (id + [SPACE] + (channel + [SPACE] + length)), NEWLINE)
  {
    DigitsLack(id, NEWLINE);
    DigitsLack(length, NEWLINE);
    LacksConcat(channel, [SPACE], NEWLINE);
    LacksConcat(channel + [SPACE], length, NEWLINE);
    LacksConcat(id, [SPACE], NEWLINE);
    LacksConcat(id + [SPACE], channel + [SPACE] + length, NEWLINE);
    LacksConcat(MSG + [SPACE], id + [SPACE] + (channel + [SPACE] + length), NEWLINE);
  }

  lemma LineStays(front: seq<Byte>, length: seq<Byte>)
    requires front != [] && front[0] == 77 && AllDigits(length)
    ensures Utf8.Strip(front + length) == front + length
  {
    var line := front + length;
    assert line[|line| - 1] == length[|length| - 1];
    assert IsDigit(length[|length| - 1]) && line[0] == front[0];
    Utf8.StripNothing(line);
  }

  lemma HeaderIsMessageLine(m: Message)
    requires Clean(m.channel)
    ensures Utf8.Strip(HeaderLine(m)) == HeaderLine(m)
    ensures Lacks(HeaderLine(m), NEWLINE) && IsMessageLine(HeaderLine(m))
  {
    HeaderSplits(m);
    DecimalRoundTrip(m.id);
    DecimalRoundTrip(|m.content|);
    var id, length := Decimal(m.id), Decimal(|m.content|);
    var front := MSG + [SPACE] + (id + [SPACE] + (m.channel + [SPACE]));
    assert HeaderLine(m) == front + length;
    LineStays(front, length);
    LineLacksNewline(id, m.channel, length);
  }

  lemma DigitsAscii(s: seq<Byte>)
    requires AllDigits(s)
    ensures Utf8.Ascii(s)
  {
    assert forall i :: 0 <= i < |s| ==> IsDigit(s[i]);
  }

  /** ASCII around a string makes it neither more nor less valid. */
  lemma ValidBetween(front: seq<Byte>, s: seq<Byte>, back: seq<Byte>)
    requires Utf8.Ascii(front) && Utf8.Ascii(back)
    ensures Utf8.Valid(front + (s + back)) <==> Utf8.Valid(s)
  {
    Utf8.AsciiValid(front);
    Utf8.AsciiValid(back);
    if Utf8.Valid(s) {
      Utf8.ValidConcat(s, back);
      Utf8.ValidConcat(front, s + back);
    }
    if Utf8.Valid(front + (s + back)) {
      AsciiFront(front, s + back);
      Utf8.ValidSplit(s, back);
    }
  }

  lemma {:induction false} AsciiFront(front: seq<Byte>, s: seq<Byte>)
    requires Utf8.Ascii(front) && Utf8.Valid(front + s)
    ensures Utf8.Valid(s)
    decreases |front|
  {
    if front == [] {
      assert front + s == s;
    } else {
      assert (front + s)[1..] == front[1..] + s;
      AsciiFront(front[1..], s);
    }
  }

  /** A header decodes exactly when its channel does. */
  lemma HeaderValid(m: Message)
    ensures Utf8.Valid(HeaderLine(m)) <==> Utf8.Valid(m.channel)
  {
    var id, length := Decimal(m.id), Decimal(|m.content|);
    DecimalRoundTrip(m.id);
    DecimalRoundTrip(|m.content|);
    DigitsAscii(id);
    DigitsAscii(length);
    var front, back := MSG + [SPACE] + (id + [SPACE]), [SPACE] + length;
    assert HeaderLine(m) == front + (m.channel + back);
    ValidBetween(front, m.channel, back);
  }

  lemma ReadContent(m: Message, rest: seq<Byte>)
    requires Clean(m.channel)
    ensures ReadMessage(HeaderLine(m), m.content + [NEWLINE] + rest)
      == if Utf8.Valid(m.content) then Take(Seen(m), rest) else Stop
  {
    var after := m.content + [NEWLINE] + rest;
    HeaderSplits(m);
    HeaderIsMessageLine(m);
    DecimalRoundTrip(|m.content|);
    assert after[..|m.content|] == m.content && after[|m.content| + 1..] == rest;
  }

  /** A frame at the head of the stream is read back whole and nothing after it is touched, or it ends the loop. */
  lemma ReadFrame(m: Message, rest: seq<Byte>)
    requires Clean(m.channel)
    ensures Decode(Encode(m) + rest) == if Decodable(m) then [Seen(m)] + Decode(rest) else []
  {
    var after := m.content + [NEWLINE] + rest;
    assert Encode(m) + rest == HeaderLine(m) + [NEWLINE] + after;
    HeaderIsMessageLine(m);
    HeaderValid(m);
    FirstOfAt(HeaderLine(m), NEWLINE, after);
    ReadContent(m, rest);
  }

  lemma ReadLine(text: seq<Byte>, rest: seq<Byte>)
    requires IsReply(text)
    ensures Decode(text + [NEWLINE] + rest) == Decode(rest)
  {
    FirstOfAt(text, NEWLINE, rest);
  }

  /** How many items come before the first message that does not decode. */
  function Legible(items: seq<Item>): (n: nat)
    ensures n <= |items|
  {
    if items == [] || (items[0].Frame? && !Decodable(items[0].message)) then 0 else 1 + Legible(items[1..])
  }

  /** What the server sends: channel names without space or newline, and replies that are replies. */
  predicate Sendable(items: seq<Item>) {
    forall i :: 0 <= i < |items| ==>
      (items[i].Frame? ==> Clean(items[i].message.channel)) && (items[i].Line? ==> IsReply(items[i].text))
  }

  /**
    Whatever the socket carries, replies and frames in any order, the subscriber sees exactly the
    messages sent before the first one that is not UTF-8, in order; contents may hold newlines and even
    whole frames.
   */
  lemma {:induction false} StreamExactly(items: seq<Item>)
    requires Sendable(items)
    ensures Decode(Bytes(items)) == SeenIn(items[..Legible(items)])
  {
    if items != [] {
      var n := Legible(items);
      StreamExactly(items[1..]);
      if items[0].Frame? {
        ReadFrame(items[0].message, Bytes(items[1..]));
      } else {
        ReadLine(items[0].text, Bytes(items[1..]));
      }
      assert n > 0 ==> items[..n][0] == items[0] && items[..n][1..] == items[1..][..n - 1];
    }
  }

  /** So a stream of UTF-8 messages is read back as sent. */
  lemma StreamRoundTrip(items: seq<Item>)
    requires Sendable(items)
    requires forall i :: 0 <= i < |items| && items[i].Frame? ==> Decodable(items[i].message)
    ensures Decode(Bytes(items)) == SeenIn(items)
  {
    AllLegible(items);
    StreamExactly(items);
    assert items[..|items|] == items;
  }

  lemma {:induction false} AllLegible(items: seq<Item>)
    requires forall i :: 0 <= i < |items| && items[i].Frame? ==> Decodable(items[i].message)
    ensures Legible(items) == |items|
  {
    if items != [] {
      AllLegible(items[1..]);
    }
  }

  /** What the subscriber sees of a message determines it. */
  lemma SeenDetermines(m: Message, n: Message)
    requires Seen(m) == Seen(n)
    ensures m == n
  {
    DecimalRoundTrip(m.id);
    DecimalRoundTrip(n.id);
  }

  // ---- Exactly when ------------------------------------------------------------------------------

  lemma {:induction false} SplitLacks(s: seq<Byte>, k: nat)
    requires k < |Split(s)|
    ensures Lacks(Split(s)[k], SPACE)
    ensures forall b :: Lacks(s, b) ==> Lacks(Split(s)[k], b)
    decreases |s|
  {
    var i := FirstOf(s, SPACE);
    if i < |s| && k > 0 {
      SplitLacks(s[i + 1..], k - 1);
    }
  }

  lemma {:induction false} SplitValid(s: seq<Byte>, k: nat)
    requires Utf8.Valid(s) && k < |Split(s)|
    ensures Utf8.Valid(Split(s)[k])
    decreases |s|
  {
    var i := FirstOf(s, SPACE);
    if i < |s| {
      assert s == s[..i] + s[i..];
      Utf8.ValidSplit(s[..i], s[i..]);
      assert s[i..][1..] == s[i + 1..];
      if k > 0 {
        SplitValid(s[i + 1..], k - 1);
      }
    }
  }

  lemma LacksPart(part: seq<Byte>, s: seq<Byte>, b: Byte)
    requires Lacks(s, b) && forall x :: x in part ==> x in s
    ensures Lacks(part, b)
  {
    assert forall i :: 0 <= i < |part| ==> part[i] in s;
  }

  lemma TurnClean(bytes: seq<Byte>)
    requires ReadTurn(bytes).Take?
    ensures
      var message := ReadTurn(bytes).message;
      Clean(message.channel) && Utf8.Valid(message.channel) && Utf8.Valid(message.content)
  {
    var i := FirstOf(bytes, NEWLINE);
    var line := Utf8.Strip(bytes[..i]);
    Utf8.StripPart(bytes[..i]);
    LacksPart(line, bytes[..i], NEWLINE);
    SplitLacks(line, 2);
    SplitValid(line, 2);
  }

  /** Whatever the bytes, what the subscriber sees is UTF-8, and the channel has no space and no newline. */
  lemma {:induction false} SeenChannelsClean(bytes: seq<Byte>)
    ensures forall r :: r in Decode(bytes) ==>
      Clean(r.channel) && Utf8.Valid(r.channel) && Utf8.Valid(r.content)
    decreases |bytes|
  {
    var turn := ReadTurn(bytes);
    if !turn.Stop? {
      SeenChannelsClean(turn.rest);
    }
    if turn.Take? {
      TurnClean(bytes);
    }
  }

  /** A frame is read back as sent exactly when it is UTF-8 and its channel has no space and no newline. */
  lemma RoundTripExactly(m: Message)
    ensures Decode(Encode(m)) == [Seen(m)] <==> Clean(m.channel) && Decodable(m)
  {
    SeenChannelsClean(Encode(m));
    assert Decode(Encode(m)) == [Seen(m)] ==> Seen(m) in Decode(Encode(m));
    if Clean(m.channel) {
      ReadFrame(m, []);
      assert Encode(m) + [] == Encode(m);
    }
  }
}
