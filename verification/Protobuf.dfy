/** The wire form of the tunneling message, field by field from the tags of aws/Message.pb.go, and
    the bound it puts on what the proxy sends. Strings are given as their UTF-8 bytes. */
module Protobuf {
  import opened Basics
  import Framing

  type int32 = n: int | -0x8000_0000 <= n < 0x8000_0000

  const UNKNOWN: int32 := 0
  const DATA: int32 := 1
  const STREAM_START: int32 := 2
  const STREAM_RESET: int32 := 3
  const SESSION_RESET: int32 := 4
  const SERVICE_IDS: int32 := 5

  datatype TunnelMessage = TunnelMessage(
    messageType: int32,
    streamId: int32,
    ignorable: bool,
    payload: seq<byte>,
    serviceId: seq<byte>,
    availableServiceIds: seq<seq<byte>>)

  /** The size of one read from a local socket. */
  const READ_BUF_SIZE := 32 * 1024

  /** Seven bits a byte, least significant first; the high bit says that more follow. */
  function Varint(n: nat): (s: seq<byte>)
    ensures |s| >= 1
  {
    if n < 128 then [n] else [n % 128 + 128] + Varint(n / 128)
  }

  /** A negative int32 is sent as its 64-bit two's complement. */
  function Int32Bits(v: int32): nat {
    if v < 0 then v + 0x1_0000_0000_0000_0000 else v
  }

  /** A field number and wire type: 0 is a varint, 2 is length-delimited. */
  function Tag(field: nat, wireType: nat): seq<byte> {
    Varint(field * 8 + wireType)
  }

  function VarintField(field: nat, n: nat): seq<byte> {
    if n == 0 then [] else Tag(field, 0) + Varint(n)
  }

  function Delimited(field: nat, b: seq<byte>): seq<byte> {
    Tag(field, 2) + Varint(|b|) + b
  }

  function BytesField(field: nat, b: seq<byte>): seq<byte> {
    if b == [] then [] else Delimited(field, b)
  }

  /** A repeated field is present once per element, empty elements included. */
  function RepeatedField(field: nat, bs: seq<seq<byte>>): seq<byte> {
    if bs == [] then [] else Delimited(field, bs[0]) + RepeatedField(field, bs[1..])
  }

  function Encode(m: TunnelMessage): seq<byte> {
    VarintField(1, Int32Bits(m.messageType))
    + VarintField(2, Int32Bits(m.streamId))
    + VarintField(3, if m.ignorable then 1 else 0)
    + BytesField(4, m.payload)
    + BytesField(5, m.serviceId)
    + RepeatedField(6, m.availableServiceIds)
  }

  /** The message SendData builds. */
  function DataMessage(streamId: int32, serviceId: seq<byte>, data: seq<byte>): TunnelMessage {
    TunnelMessage(DATA, streamId, false, data, serviceId, [])
  }

  function PowerOf128(k: nat): nat {
    if k == 0 then 1 else 128 * PowerOf128(k - 1)
  }

  /** The shortest form: k bytes are enough exactly for the values that fit in k groups of seven bits. */
  lemma {:induction false} VarintLengthIff(n: nat, k: nat)
    requires k >= 1
    ensures |Varint(n)| <= k <==> n < PowerOf128(k)
  {
    if k == 1 {
      assert PowerOf128(1) == 128;
    } else {
      PowersGrow(k - 1);
      if n >= 128 {
        VarintLengthIff(n / 128, k - 1);
      }
    }
  }

  lemma {:induction false} PowersGrow(k: nat)
    ensures PowerOf128(k) >= 1
  {
    if k > 0 {
      PowersGrow(k - 1);
    }
  }

  lemma {:induction false} VarintLength(n: nat)
    ensures n < 0x80 ==> |Varint(n)| == 1
    ensures 0x80 <= n < 0x4000 ==> |Varint(n)| == 2
    ensures 0x4000 <= n < 0x20_0000 ==> |Varint(n)| == 3
    ensures 0x20_0000 <= n < 0x1000_0000 ==> |Varint(n)| == 4
    ensures 0x1000_0000 <= n < 0x8_0000_0000 ==> |Varint(n)| == 5
  {
    if 0x80 <= n < 0x8_0000_0000 {
      VarintLength(n / 128);
    }
  }

  lemma NegativeTakesTenBytes(v: int32)
    requires v < 0
    ensures |Varint(Int32Bits(v))| == 10
  {
    var n := Int32Bits(v);
    var q := n / 128 / 128 / 128 / 128 / 128;
    assert 0x1000_0000 <= q < 0x8_0000_0000;
    VarintLength(q);
    assert |Varint(n)| == 1 + |Varint(n / 128)|;
    assert |Varint(n / 128)| == 1 + |Varint(n / 128 / 128)|;
    assert |Varint(n / 128 / 128)| == 1 + |Varint(n / 128 / 128 / 128)|;
    assert |Varint(n / 128 / 128 / 128)| == 1 + |Varint(n / 128 / 128 / 128 / 128)|;
    assert |Varint(n / 128 / 128 / 128 / 128)| == 1 + |Varint(q)|;
  }

  /** What a varint stands for: the sum of its groups of seven bits. */
  function VarintValue(s: seq<byte>): nat {
    if s == [] then 0 else s[0] % 128 + 128 * VarintValue(s[1..])
  }

  /** A varint says its number, and where it ends: all bytes but the last have the high bit. */
  lemma {:induction false} VarintSaysItsNumber(n: nat)
    ensures VarintValue(Varint(n)) == n
    ensures forall i :: 0 <= i < |Varint(n)| ==> (Varint(n)[i] < 128 <==> i == |Varint(n)| - 1)
  {
    if n >= 128 {
      VarintSaysItsNumber(n / 128);
      assert Varint(n)[1..] == Varint(n / 128);
    } else {
      assert Varint(n)[1..] == [];
    }
  }

  lemma KeysOfFields()
    ensures Tag(1, 0) == [0x08] && Tag(2, 0) == [0x10] && Tag(3, 0) == [0x18]
    ensures Tag(4, 2) == [0x22] && Tag(5, 2) == [0x2A] && Tag(6, 2) == [0x32]
  {
  }

  function NumberBytes(key: byte, n: nat): seq<byte> {
    if n == 0 then [] else [key] + Varint(n)
  }

  function TextBytes(key: byte, b: seq<byte>): seq<byte> {
    if b == [] then [] else [key] + Varint(|b|) + b
  }

  lemma FieldsAre(key: byte, field: nat, n: nat, b: seq<byte>, bs: seq<seq<byte>>)
    ensures Tag(field, 0) == [key] ==> VarintField(field, n) == NumberBytes(key, n)
    ensures Tag(field, 2) == [key] ==> BytesField(field, b) == TextBytes(key, b)
    ensures Tag(field, 2) == [key] && bs != [] ==>
              RepeatedField(field, bs) == [key] + Varint(|bs[0]|) + bs[0] + RepeatedField(field, bs[1..])
  {
  }

  /** The bytes of a message: fields in the order of their numbers, each with its key, and those with the
      default value left out, but every service id that is available. */
  lemma EncodedBytes(m: TunnelMessage)
    ensures Encode(m)
         == NumberBytes(0x08, Int32Bits(m.messageType))
            + NumberBytes(0x10, Int32Bits(m.streamId))
            + NumberBytes(0x18, if m.ignorable then 1 else 0)
            + TextBytes(0x22, m.payload)
            + TextBytes(0x2A, m.serviceId)
            + RepeatedField(6, m.availableServiceIds)
    ensures m.availableServiceIds != [] ==>
              var id := m.availableServiceIds[0];
              RepeatedField(6, m.availableServiceIds)
              == [0x32] + Varint(|id|) + id + RepeatedField(6, m.availableServiceIds[1..])
  {
    KeysOfFields();
    FieldsAre(0x08, 1, Int32Bits(m.messageType), [], []);
    FieldsAre(0x10, 2, Int32Bits(m.streamId), [], []);
    FieldsAre(0x18, 3, if m.ignorable then 1 else 0, [], []);
    FieldsAre(0x22, 4, 0, m.payload, []);
    FieldsAre(0x2A, 5, 0, m.serviceId, []);
    FieldsAre(0x32, 6, 0, [], m.availableServiceIds);
  }

  function LengthOfBytesField(n: nat): nat {
    if n == 0 then 0 else 1 + |Varint(n)| + n
  }

  lemma DataMessageLength(streamId: int32, serviceId: seq<byte>, data: seq<byte>)
    ensures |Encode(DataMessage(streamId, serviceId, data))|
         == 2 + (if streamId == 0 then 0 else 1 + |Varint(Int32Bits(streamId))|)
              + LengthOfBytesField(|data|) + LengthOfBytesField(|serviceId|)
  {
    assert Tag(1, 0) == [8] && Tag(2, 0) == [16] && Tag(4, 2) == [34] && Tag(5, 2) == [42];
    assert Varint(1) == [1];
  }

  /** No DATA message of the proxy outgrows the framing: for every stream id and every read. */
  lemma ProxiedDataFits(streamId: int32, serviceId: seq<byte>, data: seq<byte>)
    requires |serviceId| <= 32744 && |data| <= READ_BUF_SIZE
    ensures |Encode(DataMessage(streamId, serviceId, data))| <= Framing.MAX_BODY
  {
    DataMessageLength(streamId, serviceId, data);
    VarintLength(|serviceId|);
    VarintLength(|data|);
    if streamId < 0 {
      NegativeTakesTenBytes(streamId);
    } else {
      VarintLength(streamId);
    }
  }

  /** The sizes a service id may have: those that leave room for any stream id and a full read. */
  lemma ServiceIdFitsIff(serviceId: seq<byte>)
    ensures (forall streamId: int32, data: seq<byte> | |data| <= READ_BUF_SIZE ::
               |Encode(DataMessage(streamId, serviceId, data))| <= Framing.MAX_BODY)
            <==> |serviceId| <= 32744
  {
    if |serviceId| <= 32744 {
      forall streamId: int32, data: seq<byte> | |data| <= READ_BUF_SIZE
        ensures |Encode(DataMessage(streamId, serviceId, data))| <= Framing.MAX_BODY
      {
        ProxiedDataFits(streamId, serviceId, data);
      }
    } else {
      var data: seq<byte> := seq(READ_BUF_SIZE, _ => 0);
      DataMessageLength(-1, serviceId, data);
      NegativeTakesTenBytes(-1);
      VarintLength(READ_BUF_SIZE);
      VarintLength(|serviceId|);
      if |serviceId| >= 0x20_0000 {
        assert |Varint(|serviceId|)| >= 1;
      }
      assert |Encode(DataMessage(-1, serviceId, data))| > Framing.MAX_BODY;
    }
  }

  /** What the proxy reads from a socket arrives whole at the other end of the wire. */
  lemma ProxiedDataSurvives(streamId: int32, serviceId: seq<byte>, data: seq<byte>)
    requires |serviceId| <= 32744 && |data| <= READ_BUF_SIZE
    ensures var body := Encode(DataMessage(streamId, serviceId, data));
            var script := [Framing.WsFrame(Framing.BINARY_MESSAGE, Framing.FrameOf(body))];
            Framing.NextStep(Framing.RAW, [], script, 0) == Framing.Step(Framing.Message(body), [], 1)
  {
    ProxiedDataFits(streamId, serviceId, data);
    Framing.BodySurvivesIff(Encode(DataMessage(streamId, serviceId, data)));
  }
}
