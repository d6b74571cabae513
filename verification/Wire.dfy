/**
 The messages on the FIFOs: type, length, value.  Numbers are 4 little-endian bytes, passwords are
 fixed 21-byte fields, and the value is a header followed by the arguments of the operation, if any.
 */
module Wire {
  import opened Bank

  type byte = x: int | 0 <= x < 256

  const PASSWORD_FIELD := MAX_PASSWORD_LEN + 1
  const HEADER_SIZE := 4 + 4 + PASSWORD_FIELD + 4
  const VALUE_SIZE := HEADER_SIZE + 4 + 4 + PASSWORD_FIELD
  const REPLY_HEADER_SIZE := 4 + 4

  // ----- Numbers -----

  function U32(x: uint32): (bytes: seq<byte>)
    ensures |bytes| == 4
  {
    [x % 256, x / 256 % 256, x / 65536 % 256, x / 16777216]
  }

  function FromU32(bytes: seq<byte>): uint32
    requires |bytes| == 4
  {
    var b0: int, b1: int, b2: int, b3: int := bytes[0], bytes[1], bytes[2], bytes[3];
    b0 + 256 * b1 + 65536 * b2 + 16777216 * b3
  }

  lemma U32RoundTrip(x: uint32)
    ensures FromU32(U32(x)) == x
  {
    var a, b, c := x / 256, x / 65536, x / 16777216;
    assert b == a / 256 && c == b / 256;
    assert x == 256 * a + x % 256 && a == 256 * b + a % 256 && b == 256 * c + b % 256;
  }

  /** A process identifier is a signed 32-bit number, in two's complement. */
  predicate IsInt32(x: int) {
    -0x8000_0000 <= x < 0x8000_0000
  }

  function Signed(x: uint32): int {
    if x < 0x8000_0000 then x else x - TWO_TO_THE_32
  }

  // ----- Passwords -----

  /** Text that a password field can hold: at most 20 bytes, none of them zero. */
  predicate FitsField(text: string) {
    |text| <= MAX_PASSWORD_LEN && forall k :: 0 <= k < |text| ==> 0 < text[k] as int < 256
  }

  function Field(text: string): (bytes: seq<byte>)
    requires FitsField(text)
    ensures |bytes| == PASSWORD_FIELD
  {
    seq(PASSWORD_FIELD,
        k requires 0 <= k < PASSWORD_FIELD && FitsField(text) => if k < |text| then text[k] as int else 0)
  }

  /** The text of a field ends at its first zero byte. */
  function FromField(bytes: seq<byte>): string {
    if bytes == [] || bytes[0] == 0 then "" else [bytes[0] as char] + FromField(bytes[1..])
  }

  lemma {:induction false} FieldRoundTrip(text: string, bytes: seq<byte>)
    requires |text| < |bytes| && bytes[|text|] == 0
    requires forall k :: 0 <= k < |text| ==> 0 < text[k] as int < 256 && bytes[k] == text[k] as int
    ensures FromField(bytes) == text
  {
    if text != "" {
      FieldRoundTrip(text[1..], bytes[1..]);
      assert text == [text[0]] + text[1..];
    }
  }

  // ----- Requests -----

  predicate WellFormed(req: Request) {
    && IsInt32(req.pid) && FitsField(req.password)
    && (req.op.CreateAccount? ==> FitsField(req.op.newPassword))
  }

  function TypeCode(op: Operation): uint32 {
    match op
    case CreateAccount(_, _, _) => 0
    case CheckBalance => 1
    case Transfer(_, _) => 2
    case Shutdown => 3
  }

  function Arguments(op: Operation): seq<byte>
    requires op.CreateAccount? ==> FitsField(op.newPassword)
  {
    match op
    case CreateAccount(id, newPassword, balance) => U32(id) + U32(balance) + Field(newPassword)
    case Transfer(dest, amount) => U32(dest) + U32(amount)
    case _ => []
  }

  function Value(req: Request): seq<byte>
    requires WellFormed(req)
  {
    U32(Wrap(req.pid)) + U32(req.account) + Field(req.password) + U32(req.delay) + Arguments(req.op)
  }

  function Encode(req: Request): seq<byte>
    requires WellFormed(req)
  {
    U32(TypeCode(req.op)) + U32(|Value(req)|) + Value(req)
  }

  predicate AllWellFormed(reqs: seq<Request>) {
    forall k :: 0 <= k < |reqs| ==> WellFormed(reqs[k])
  }

  function EncodeAll(reqs: seq<Request>): seq<byte>
    requires AllWellFormed(reqs)
  {
    if reqs == [] then [] else Encode(reqs[0]) + EncodeAll(reqs[1..])
  }

  function Slice(bytes: seq<byte>, from: nat, length: nat): (slice: seq<byte>)
    requires from + length <= |bytes|
    ensures |slice| == length
  {
    bytes[from..from + length]
  }

  /** The operation of a type code, with its arguments taken from the value buffer. */
  function DecodeOperation(code: uint32, buffer: seq<byte>): Option<Operation>
    requires |buffer| == VALUE_SIZE
  {
    var first, second := FromU32(Slice(buffer, HEADER_SIZE, 4)), FromU32(Slice(buffer, HEADER_SIZE + 4, 4));
    match code
    case 0 =>
      if first < MAX_BANK_ACCOUNTS
      then Some(CreateAccount(first, FromField(Slice(buffer, HEADER_SIZE + 8, PASSWORD_FIELD)), second))
      else None
    case 1 => Some(CheckBalance)
    case 2 => if first < MAX_BANK_ACCOUNTS then Some(Transfer(first, second)) else None
    case 3 => Some(Shutdown)
    case _ => None
  }

  /** The request in a value buffer; only the bytes that its type gives a meaning to are read. */
  function Decode(code: uint32, buffer: seq<byte>): Option<Request>
    requires |buffer| == VALUE_SIZE
  {
    match DecodeOperation(code, buffer)
    case None => None
    case Some(op) =>
      Some(Request(Signed(FromU32(Slice(buffer, 0, 4))), FromU32(Slice(buffer, 4, 4)),
                   FromField(Slice(buffer, 8, PASSWORD_FIELD)), FromU32(Slice(buffer, 8 + PASSWORD_FIELD, 4)), op))
  }

  lemma SliceOfSlice(bytes: seq<byte>, start: nat, length: nat, from: nat, n: nat)
    requires start + length <= |bytes| && from + n <= length
    ensures Slice(bytes, start + from, n) == Slice(Slice(bytes, start, length), from, n)
  {
    var direct, nested := bytes[start + from..start + from + n], bytes[start..start + length][from..from + n];
    assert forall k :: 0 <= k < n ==> direct[k] == bytes[start + from + k] == nested[k];
    assert direct == nested;
  }

  /** Where the fields of a creation's or a transfer's arguments lie. */
  lemma ArgumentFields(op: Operation)
    requires op.CreateAccount? ==> FitsField(op.newPassword)
    ensures op.CreateAccount? ==>
      && |Arguments(op)| == 8 + PASSWORD_FIELD
      && Slice(Arguments(op), 0, 4) == U32(op.id) && Slice(Arguments(op), 4, 4) == U32(op.balance)
      && Slice(Arguments(op), 8, PASSWORD_FIELD) == Field(op.newPassword)
    ensures op.Transfer? ==>
      && |Arguments(op)| == 8
      && Slice(Arguments(op), 0, 4) == U32(op.dest) && Slice(Arguments(op), 4, 4) == U32(op.amount)
  {
  }

  lemma DecodeCreation(op: Operation, buffer: seq<byte>)
    requires op.CreateAccount? && FitsField(op.newPassword)
    requires |buffer| == VALUE_SIZE && Slice(buffer, HEADER_SIZE, 8 + PASSWORD_FIELD) == Arguments(op)
    ensures DecodeOperation(TypeCode(op), buffer) == Some(op)
  {
    ArgumentFields(op);
    SliceOfSlice(buffer, HEADER_SIZE, 8 + PASSWORD_FIELD, 0, 4);
    SliceOfSlice(buffer, HEADER_SIZE, 8 + PASSWORD_FIELD, 4, 4);
    SliceOfSlice(buffer, HEADER_SIZE, 8 + PASSWORD_FIELD, 8, PASSWORD_FIELD);
    U32RoundTrip(op.id);
    U32RoundTrip(op.balance);
    FieldRoundTrip(op.newPassword, Field(op.newPassword));
  }

  lemma DecodeTransfer(op: Operation, buffer: seq<byte>)
    requires op.Transfer?
    requires |buffer| == VALUE_SIZE && Slice(buffer, HEADER_SIZE, 8) == Arguments(op)
    ensures DecodeOperation(TypeCode(op), buffer) == Some(op)
  {
    ArgumentFields(op);
    SliceOfSlice(buffer, HEADER_SIZE, 8, 0, 4);
    SliceOfSlice(buffer, HEADER_SIZE, 8, 4, 4);
    U32RoundTrip(op.dest);
    U32RoundTrip(op.amount);
  }

  /** Where the fields of a value lie. */
  lemma ValueFields(req: Request)
    requires WellFormed(req)
    ensures |Value(req)| == HEADER_SIZE + |Arguments(req.op)| <= VALUE_SIZE
    ensures Slice(Value(req), 0, 4) == U32(Wrap(req.pid)) && Slice(Value(req), 4, 4) == U32(req.account)
    ensures Slice(Value(req), 8, PASSWORD_FIELD) == Field(req.password)
    ensures Slice(Value(req), 8 + PASSWORD_FIELD, 4) == U32(req.delay)
    ensures Slice(Value(req), HEADER_SIZE, |Arguments(req.op)|) == Arguments(req.op)
  {
    ArgumentFields(req.op);
  }

  /** A buffer that starts with a request's value gives back its header, and holds its arguments behind it. */
  lemma HeaderRoundTrip(req: Request, buffer: seq<byte>)
    requires WellFormed(req)
    requires |buffer| == VALUE_SIZE && |Value(req)| <= VALUE_SIZE && buffer[..|Value(req)|] == Value(req)
    ensures Signed(FromU32(Slice(buffer, 0, 4))) == req.pid && FromU32(Slice(buffer, 4, 4)) == req.account
    ensures FromField(Slice(buffer, 8, PASSWORD_FIELD)) == req.password
    ensures FromU32(Slice(buffer, 8 + PASSWORD_FIELD, 4)) == req.delay
    ensures |Value(req)| == HEADER_SIZE + |Arguments(req.op)|
    ensures Slice(buffer, HEADER_SIZE, |Arguments(req.op)|) == Arguments(req.op)
  {
    var n := |Value(req)|;
    ValueFields(req);
    assert Slice(buffer, 0, n) == Value(req);
    SliceOfSlice(buffer, 0, n, 0, 4);
    SliceOfSlice(buffer, 0, n, 4, 4);
    SliceOfSlice(buffer, 0, n, 8, PASSWORD_FIELD);
    SliceOfSlice(buffer, 0, n, 8 + PASSWORD_FIELD, 4);
    SliceOfSlice(buffer, 0, n, HEADER_SIZE, |Arguments(req.op)|);
    U32RoundTrip(Wrap(req.pid));
    U32RoundTrip(req.account);
    U32RoundTrip(req.delay);
    FieldRoundTrip(req.password, Field(req.password));
  }

  /** Whatever an earlier message left in the rest of the buffer, the value decodes to the request. */
  lemma DecodeRoundTrip(req: Request, buffer: seq<byte>)
    requires WellFormed(req)
    requires |buffer| == VALUE_SIZE && |Value(req)| <= VALUE_SIZE && buffer[..|Value(req)|] == Value(req)
    ensures Decode(TypeCode(req.op), buffer) == Some(req)
  {
    HeaderRoundTrip(req, buffer);
    ArgumentFields(req.op);
    if req.op.CreateAccount? {
      DecodeCreation(req.op, buffer);
    } else if req.op.Transfer? {
      DecodeTransfer(req.op, buffer);
    }
  }

  // ----- The bytes themselves -----

  /** The least significant byte comes first. */
  lemma LittleEndian(x: uint32)
    ensures
      var bytes := U32(x);
      x == bytes[0] as int + 256 * bytes[1] as int + 65536 * bytes[2] as int + 16777216 * bytes[3] as int
  {
    U32RoundTrip(x);
  }

  lemma SmallNumber(x: uint32)
    requires x < 256
    ensures U32(x) == [x, 0, 0, 0]
  {
  }

  /** The bytes before a value: the operation in the first, the length of the value in the fifth. */
  lemma PrefixBytes(req: Request)
    requires WellFormed(req)
    ensures Encode(req)[..4] == match req.op
      case CreateAccount(_, _, _) => [0, 0, 0, 0]
      case CheckBalance => [1, 0, 0, 0]
      case Transfer(_, _) => [2, 0, 0, 0]
      case Shutdown => [3, 0, 0, 0]
    ensures Encode(req)[4..8] == match req.op
      case CreateAccount(_, _, _) => [62, 0, 0, 0]
      case Transfer(_, _) => [41, 0, 0, 0]
      case _ => [33, 0, 0, 0]
    ensures |Encode(req)| == 8 + Encode(req)[4]
  {
    var code, n := TypeCode(req.op), |Value(req)|;
    ValueFields(req);
    ArgumentFields(req.op);
    SmallNumber(code);
    SmallNumber(n);
    SplitFrame(U32(code), U32(n), Value(req));
  }

  lemma SplitFrame(code: seq<byte>, length: seq<byte>, value: seq<byte>)
    requires |code| == 4 && |length| == 4
    ensures (code + length + value)[..4] == code && (code + length + value)[4..8] == length
    ensures (code + length + value)[8..] == value
  {
  }

  lemma SplitStream(code: seq<byte>, length: seq<byte>, value: seq<byte>, rest: seq<byte>)
    requires |code| == 4 && |length| == 4
    ensures
      var data, n := code + length + value + rest, |value|;
      data[..4] == code && data[4..8] == length && data[8..8 + n] == value && data[8 + n..] == rest
  {
  }

  /** A password fills its field from the front, with zeros behind it. */
  lemma PasswordBytes(text: string)
    requires FitsField(text)
    ensures |Field(text)| == 21
    ensures forall k :: 0 <= k < 21 ==> Field(text)[k] == if k < |text| then text[k] as int else 0
  {
  }

  /** Behind its prefix, a message is the value. */
  lemma InFrame(req: Request, from: nat, n: nat)
    requires WellFormed(req) && from + n <= |Value(req)|
    ensures |Encode(req)| == 8 + |Value(req)| && Encode(req)[8 + from..8 + from + n] == Slice(Value(req), from, n)
  {
    var bytes, value := Encode(req), Value(req);
    SplitFrame(U32(TypeCode(req.op)), U32(|value|), value);
    assert Slice(bytes, 8, |value|) == bytes[8..] == value;
    SliceOfSlice(bytes, 8, |value|, from, n);
  }

  lemma TwosComplement(x: int)
    requires IsInt32(x)
    ensures Wrap(x) == if x < 0 then x + 0x1_0000_0000 else x
  {
  }

  /** Where the fields of the header lie in a message. */
  lemma HeaderBytes(req: Request)
    requires WellFormed(req)
    ensures
      var bytes := Encode(req);
      && |bytes| >= 41
      && bytes[8..12] == U32(if req.pid < 0 then req.pid + 0x1_0000_0000 else req.pid)
      && bytes[12..16] == U32(req.account) && bytes[16..37] == Field(req.password) && bytes[37..41] == U32(req.delay)
  {
    ValueFields(req);
    TwosComplement(req.pid);
    InFrame(req, 0, 4);
    InFrame(req, 4, 4);
    InFrame(req, 8, 21);
    InFrame(req, 29, 4);
  }

  /** Where the arguments of a creation or a transfer lie in a message. */
  lemma ArgumentBytes(req: Request)
    requires WellFormed(req)
    ensures
      var bytes := Encode(req);
      match req.op
      case CreateAccount(id, newPassword, balance) =>
        && |bytes| == 70 && bytes[41..45] == U32(id) && bytes[45..49] == U32(balance)
        && bytes[49..70] == Field(newPassword)
      case Transfer(dest, amount) => |bytes| == 49 && bytes[41..45] == U32(dest) && bytes[45..49] == U32(amount)
      case _ => |bytes| == 41
  {
    var n := |Arguments(req.op)|;
    ValueFields(req);
    ArgumentFields(req.op);
    InFrame(req, HEADER_SIZE, n);
    if n >= 8 {
      ArgumentIn(req, 0, 4);
      ArgumentIn(req, 4, 4);
    }
    if n > 8 {
      ArgumentIn(req, 8, PASSWORD_FIELD);
    }
  }

  lemma ArgumentIn(req: Request, from: nat, n: nat)
    requires WellFormed(req) && from + n <= |Arguments(req.op)|
    ensures |Encode(req)| == 41 + |Arguments(req.op)|
    ensures Encode(req)[41 + from..41 + from + n] == Slice(Arguments(req.op), from, n)
  {
    ValueFields(req);
    InFrame(req, HEADER_SIZE + from, n);
    SliceOfSlice(Value(req), HEADER_SIZE, |Arguments(req.op)|, from, n);
  }

  // ----- Reading a FIFO -----

  /** The reading end of a FIFO whose writers have gone: what is left to read, then end-of-file. */
  class Fifo {
    var data: seq<byte>

    constructor (data: seq<byte>)
      ensures this.data == data
    {
      this.data := data;
    }

    /** At most `count` bytes; none at end-of-file. */
    method Read(count: nat) returns (bytes: seq<byte>)
      modifies this
      ensures bytes == old(data)[..if count <= |old(data)| then count else |old(data)|]
      ensures bytes + data == old(data)
    {
      var taken := if count <= |data| then count else |data|;
      bytes := data[..taken];
      data := data[taken..];
    }
  }

  /** Copies a message's value over the front of the buffer, as the third read does. */
  method Fill(buffer: array<byte>, bytes: seq<byte>)
    requires |bytes| <= buffer.Length
    modifies buffer
    ensures buffer[..] == bytes + old(buffer[..])[|bytes|..]
  {
    for i := 0 to |bytes|
      invariant forall k :: 0 <= k < buffer.Length ==> buffer[k] == if k < i then bytes[k] else old(buffer[k])
    {
      buffer[i] := bytes[i];
    }
  }

  lemma EncodeAllSplit(reqs: seq<Request>)
    requires reqs != [] && AllWellFormed(reqs)
    ensures
      var data, value := EncodeAll(reqs), Value(reqs[0]);
      && |value| <= VALUE_SIZE && |data| >= 8 + |value| && |value| >= HEADER_SIZE
      && data[..4] == U32(TypeCode(reqs[0].op)) && data[4..8] == U32(|value|)
      && data[8..8 + |value|] == value && data[8 + |value|..] == EncodeAll(reqs[1..])
  {
    var value := Value(reqs[0]);
    ValueFields(reqs[0]);
    SplitStream(U32(TypeCode(reqs[0].op)), U32(|value|), value, EncodeAll(reqs[1..]));
  }

  /**
   One turn of the producer's loop: type, length and value in three reads, into a buffer that is reused
   from message to message; None at end-of-file.
   */
  method ReceiveOne(fifo: Fifo, buffer: array<byte>, ghost sent: seq<Request>) returns (received: Option<Request>)
    requires AllWellFormed(sent)
    requires fifo.data == EncodeAll(sent) && buffer.Length == VALUE_SIZE
    modifies fifo, buffer
    ensures received == (if sent == [] then None else Some(sent[0]))
    ensures fifo.data == if sent == [] then [] else EncodeAll(sent[1..])
  {
    ghost var message := fifo.data;
    if sent != [] {
      EncodeAllSplit(sent);
      U32RoundTrip(TypeCode(sent[0].op));
      U32RoundTrip(|Value(sent[0])|);
    }
    var kind := fifo.Read(4);
    if |kind| == 0 {
      return None;
    }
    assert kind == message[..4] && fifo.data == message[4..];
    var length := fifo.Read(4);
    if |length| == 0 {
      return None;
    }
    assert length == message[4..8] && fifo.data == message[8..];
    var value := fifo.Read(FromU32(length));
    if |value| == 0 {
      return None;
    }
    assert value == message[8..8 + |value|] == Value(sent[0]);
    assert fifo.data == message[8 + |value|..];
    Fill(buffer, value);
    assert buffer[..][..|value|] == value;
    DecodeRoundTrip(sent[0], buffer[..]);
    received := Decode(FromU32(kind), buffer[..]);
  }

  lemma SuffixIsWellFormed(reqs: seq<Request>, k: nat)
    requires AllWellFormed(reqs) && k <= |reqs|
    ensures AllWellFormed(reqs[k..])
  {
    assert forall j :: 0 <= j < |reqs[k..]| ==> reqs[k..][j] == reqs[k + j];
  }

  lemma TakeOne(reqs: seq<Request>, k: nat)
    requires k < |reqs|
    ensures reqs[k..][1..] == reqs[k + 1..] && reqs[k..][0] == reqs[k] && reqs[..k] + [reqs[k]] == reqs[..k + 1]
  {
  }

  /** The producer's loop: requests written whole, in any number, come out as they went in. */
  method ReceiveAll(fifo: Fifo, ghost sent: seq<Request>) returns (received: seq<Request>)
    requires AllWellFormed(sent)
    requires fifo.data == EncodeAll(sent)
    modifies fifo
    ensures received == sent && fifo.data == []
  {
    var buffer := new byte[VALUE_SIZE](_ => 0);
    received := [];
    while true
      invariant |received| <= |sent| && received == sent[..|received|]
      invariant fifo.data == EncodeAll(sent[|received|..])
      decreases |sent| - |received|
    {
      SuffixIsWellFormed(sent, |received|);
      var next := ReceiveOne(fifo, buffer, sent[|received|..]);
      if next.None? {
        break;
      }
      TakeOne(sent, |received|);
      received := received + [next.value];
    }
  }

  // ----- Replies -----

  /** A reply as it is sent: its type is that of the request it answers. */
  datatype Message = Message(op: uint32, reply: Reply)

  function CodeNumber(code: ReturnCode): uint32 {
    match code
    case RC_OK => 0
    case RC_SRV_DOWN => 1
    case RC_SRV_TIMEOUT => 2
    case RC_USR_DOWN => 3
    case RC_LOGIN_FAIL => 4
    case RC_OP_NALLOW => 5
    case RC_ID_IN_USE => 6
    case RC_ID_NOT_FOUND => 7
    case RC_SAME_ID => 8
    case RC_NO_FUNDS => 9
    case RC_TOO_HIGH => 10
    case RC_OTHER => 11
  }

  function FromCodeNumber(number: uint32): ReturnCode {
    match number
    case 0 => RC_OK
    case 1 => RC_SRV_DOWN
    case 2 => RC_SRV_TIMEOUT
    case 3 => RC_USR_DOWN
    case 4 => RC_LOGIN_FAIL
    case 5 => RC_OP_NALLOW
    case 6 => RC_ID_IN_USE
    case 7 => RC_ID_NOT_FOUND
    case 8 => RC_SAME_ID
    case 9 => RC_NO_FUNDS
    case 10 => RC_TOO_HIGH
    case _ => RC_OTHER
  }

  /** Balance and transfer replies may carry a balance, shutdown replies an office count, creations nothing. */
  predicate WellFormedReply(message: Message) {
    && message.op <= 3
    && match message.reply.body
       case NoBody => true
       case BalanceBody(_) => message.op == 1 || message.op == 2
       case ActiveBody(_) => message.op == 3
  }

  function BodyBytes(body: Body): seq<byte> {
    match body
    case NoBody => []
    case BalanceBody(balance) => U32(balance)
    case ActiveBody(offices) => U32(offices)
  }

  function ReplyValue(reply: Reply): seq<byte> {
    U32(reply.account) + U32(CodeNumber(reply.code)) + BodyBytes(reply.body)
  }

  function EncodeReply(message: Message): seq<byte> {
    U32(message.op) + U32(|ReplyValue(message.reply)|) + ReplyValue(message.reply)
  }

  /** The reply in a value; its length says whether there is a body, its type says which. */
  function DecodeReply(op: uint32, value: seq<byte>): Reply
    requires |value| == REPLY_HEADER_SIZE || |value| == REPLY_HEADER_SIZE + 4
  {
    var body :=
      if |value| == REPLY_HEADER_SIZE then NoBody
      else if op == 3 then ActiveBody(FromU32(value[8..12]))
      else BalanceBody(FromU32(value[8..12]));
    Reply(FromU32(value[..4]), FromCodeNumber(FromU32(value[4..8])), body)
  }

  /** The bytes of a reply: type, length, account, return code, and the balance or the office count if there is one. */
  lemma ReplyBytes(message: Message)
    ensures
      var bytes, reply := EncodeReply(message), message.reply;
      && |bytes| == (if reply.body.NoBody? then 16 else 20)
      && bytes[..4] == U32(message.op) && bytes[4..8] == [|bytes| - 8, 0, 0, 0] && bytes[8..12] == U32(reply.account)
      && bytes[13..16] == [0, 0, 0]
      && bytes[12] == match reply.code {
        case RC_OK => 0
        case RC_SRV_DOWN => 1
        case RC_SRV_TIMEOUT => 2
        case RC_USR_DOWN => 3
        case RC_LOGIN_FAIL => 4
        case RC_OP_NALLOW => 5
        case RC_ID_IN_USE => 6
        case RC_ID_NOT_FOUND => 7
        case RC_SAME_ID => 8
        case RC_NO_FUNDS => 9
        case RC_TOO_HIGH => 10
        case RC_OTHER => 11
      }
      && (reply.body.BalanceBody? ==> bytes[16..20] == U32(reply.body.balance))
      && (reply.body.ActiveBody? ==> bytes[16..20] == U32(reply.body.offices))
  {
    var bytes, reply, value := EncodeReply(message), message.reply, ReplyValue(message.reply);
    SplitFrame(U32(message.op), U32(|value|), value);
    SplitFrame(U32(reply.account), U32(CodeNumber(reply.code)), BodyBytes(reply.body));
    SmallNumber(|value|);
    SmallNumber(CodeNumber(reply.code));
    assert bytes[8..12] == value[..4] && bytes[12..16] == value[4..8] && bytes[16..] == BodyBytes(reply.body);
    assert bytes[12] == bytes[12..16][0] && bytes[13..16] == bytes[12..16][1..];
  }

  lemma DecodeReplyRoundTrip(message: Message)
    requires WellFormedReply(message)
    ensures
      var value := ReplyValue(message.reply);
      && (|value| == REPLY_HEADER_SIZE || |value| == REPLY_HEADER_SIZE + 4)
      && DecodeReply(message.op, value) == message.reply
  {
    var reply := message.reply;
    var value := ReplyValue(reply);
    assert value[..4] == U32(reply.account) && value[4..8] == U32(CodeNumber(reply.code));
    assert value[8..] == BodyBytes(reply.body);
    U32RoundTrip(reply.account);
    U32RoundTrip(CodeNumber(reply.code));
    match reply.body
    case NoBody =>
    case BalanceBody(balance) =>
      assert value[8..12] == U32(balance);
      U32RoundTrip(balance);
    case ActiveBody(offices) =>
      assert value[8..12] == U32(offices);
      U32RoundTrip(offices);
  }

  /** The client's three reads give back the reply that the server wrote, and leave what follows it. */
  method ReadReply(fifo: Fifo, ghost sent: Message, ghost rest: seq<byte>) returns (received: Message)
    requires WellFormedReply(sent)
    requires fifo.data == EncodeReply(sent) + rest
    modifies fifo
    ensures received == sent && fifo.data == rest
  {
    ghost var message := fifo.data;
    DecodeReplyRoundTrip(sent);
    U32RoundTrip(sent.op);
    U32RoundTrip(|ReplyValue(sent.reply)|);
    var kind := fifo.Read(4);
    assert kind == message[..4] == U32(sent.op) && fifo.data == message[4..];
    var length := fifo.Read(4);
    assert length == message[4..8] == U32(|ReplyValue(sent.reply)|) && fifo.data == message[8..];
    var value := fifo.Read(FromU32(length));
    assert value == message[8..8 + |value|] == ReplyValue(sent.reply);
    received := Message(FromU32(kind), DecodeReply(FromU32(kind), value));
  }
}
