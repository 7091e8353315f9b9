/** Voice packets inside the tunnel: header byte, variable-length fields, payload. */
module Voice {
  import opened Types
  import opened Varints

  const OPUS: nat := 4

  datatype VoicePacket = VoicePacket(codec: nat, target: nat, session: U32, payloadStart: nat, payloadLen: nat)

  /** `as u32` of an `i64`. */
  function AsU32(v: I64): U32 {
    v % 0x1_0000_0000
  }

  /** The payload's length: a field of its own for Opus, whatever is left otherwise. */
  function PayloadLength(codec: nat, fields: seq<Byte>, pos: nat): (r: Taken<nat>)
    requires pos <= |fields|
    ensures pos <= r.pos <= |fields|
  {
    if codec == OPUS then
      var length := VarintAt(fields, pos);
      if length.value.None? then Taken(None, length.pos) else Taken(Some(length.value.value % 0x2000), length.pos)
    else Taken(Some(|fields| - pos), pos)
  }

  function Parse(data: seq<Byte>): Option<VoicePacket> {
    if data == [] then None
    else
      var header, fields := data[0], data[1..];
      var session := VarintAt(fields, 0);
      if session.value.None? then None
      else
        var sequence := VarintAt(fields, session.pos);
        if sequence.value.None? then None
        else
          var length := PayloadLength(header / 32, fields, sequence.pos);
          if length.value.None? || 1 + length.pos + length.value.value > |data| then None
          else Some(VoicePacket(header / 32, header % 32, AsU32(session.value.value), 1 + length.pos, length.value.value))
  }

  /** Whatever the bytes, an accepted payload lies inside the packet and its length is
      what the field can say. */
  lemma AcceptedPayloadIsInside(data: seq<Byte>)
    requires Parse(data).Some?
    ensures var p := Parse(data).value;
            && 0 < p.payloadStart && p.payloadStart + p.payloadLen <= |data|
            && p.codec < 8 && p.target < 32
            && (if p.codec == OPUS then p.payloadLen < 0x2000 else p.payloadStart + p.payloadLen == |data|)
  {
    hide VarintAt;
  }

  /** A packet as a client writes it. */
  function Packet(codec: nat, target: nat, session: U32, sequence: U64, payload: seq<Byte>): seq<Byte>
    requires codec < 8 && target < 32 && |payload| < 0x2000
  {
    [codec * 32 + target] + Encode(session) + Encode(sequence)
      + (if codec == OPUS then Encode(|payload|) else []) + payload
  }

  /** Reading a packet gives back its session and exactly its payload; for Opus, whatever
      follows the payload. */
  lemma PacketRoundTrip(codec: nat, target: nat, session: U32, sequence: U64, payload: seq<Byte>, after: seq<Byte>)
    requires codec < 8 && target < 32 && |payload| < 0x2000 && (codec != OPUS ==> after == [])
    ensures var data := Packet(codec, target, session, sequence, payload) + after;
            && Parse(data).Some?
            && var p := Parse(data).value;
               && p.codec == codec && p.target == target && p.session == session
               && p.payloadStart + p.payloadLen <= |data|
               && data[p.payloadStart..p.payloadStart + p.payloadLen] == payload
  {
    hide VarintAt;
    hide Encode;
    var data := Packet(codec, target, session, sequence, payload) + after;
    var s, q := Encode(session), Encode(sequence);
    var l := if codec == OPUS then Encode(|payload|) else [];
    var fields := data[1..];
    assert fields == s + q + l + payload + after;
    assert fields == [] + s + (q + l + payload + after);
    RoundTrip([], session, q + l + payload + after);
    assert fields == s + q + (l + payload + after);
    RoundTrip(s, sequence, l + payload + after);
    if codec == OPUS {
      assert fields == (s + q) + l + (payload + after);
      RoundTrip(s + q, |payload|, payload + after);
    }
    var start := 1 + |s| + |q| + |l|;
    assert data[start..start + |payload|] == payload;
  }

  method ParseVoice(data: seq<Byte>) returns (r: Option<VoicePacket>)
    ensures r == Parse(data)
  {
    hide VarintAt;
    if data == [] {
      return None;
    }
    var header: int := data[0];
    var reader := new Reader(data[1..]);
    var session := reader.Varint();
    if session.None? {
      return None;
    }
    var sequence := reader.Varint();
    if sequence.None? {
      return None;
    }
    var codec := header / 32;
    var length: nat;
    if codec == OPUS {
      var field := reader.Varint();
      if field.None? {
        return None;
      }
      length := field.value % 0x2000;
    } else {
      length := reader.Remaining();
    }
    var start := 1 + reader.pos;
    if start + length > |data| {
      return None;
    }
    return Some(VoicePacket(codec, header % 32, AsU32(session.value), start, length));
  }
}
