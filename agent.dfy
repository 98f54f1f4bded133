/** The per-agent record and its flat stride-8 encoding.

    A buffer holds agent i in slots 8i .. 8i+7: position at offsets 0-1, velocity at 2-3,
    planned (predicted) position at 4-5 and goal at 6-7. The same layout is the vertex
    layout of the instanced render pipeline (four float32x2 attributes at byte offsets
    0, 8, 16 and 24 of a 32-byte stride). */
module AgentCodec {
  import opened Vec2Math

  datatype Agent = Agent(pos: Vec2, vel: Vec2, ppos: Vec2, goal: Vec2)

  /** Number of floats per agent in a buffer. */
  const Stride: nat := 8

  /** The eight floats of one agent, in buffer order. */
  function Record(a: Agent): (r: seq<real>)
    ensures |r| == Stride
  {
    [a.pos.x, a.pos.y, a.vel.x, a.vel.y, a.ppos.x, a.ppos.y, a.goal.x, a.goal.y]
  }

  /** The agent whose record is the first eight floats of `r`. */
  function FromRecord(r: seq<real>): Agent
    requires Stride <= |r|
  {
    Agent(Vec2(r[0], r[1]), Vec2(r[2], r[3]), Vec2(r[4], r[5]), Vec2(r[6], r[7]))
  }

  /** `objArray2Buffer`: the records of the agents, one after the other. */
  function Encode(s: seq<Agent>): (buf: seq<real>)
    ensures |buf| == Stride * |s|
  {
    if s == [] then [] else Record(s[0]) + Encode(s[1..])
  }

  /** `buffer2ObjArray`: the first n agents of a buffer. */
  function Decode(buf: seq<real>, n: nat): (s: seq<Agent>)
    requires Stride * n <= |buf|
    ensures |s| == n
  {
    if n == 0 then [] else [FromRecord(buf[..Stride])] + Decode(buf[Stride..], n - 1)
  }

  lemma RecordRoundTrip(a: Agent)
    ensures FromRecord(Record(a)) == a
  {
  }

  lemma FromRecordRoundTrip(r: seq<real>)
    requires |r| == Stride
    ensures Record(FromRecord(r)) == r
  {
  }

  /** Slot 8i+k of an encoded buffer holds field k of agent i. */
  lemma {:induction false} EncodeAt(s: seq<Agent>, i: nat, k: nat)
    requires i < |s| && k < Stride
    ensures Encode(s)[Stride * i + k] == Record(s[i])[k]
  {
    if i > 0 {
      EncodeAt(s[1..], i - 1, k);
      assert Encode(s) == Record(s[0]) + Encode(s[1..]);
      assert Stride * i + k == Stride + (Stride * (i - 1) + k);
    }
  }

  /** Agent i of a decoded buffer is made of slots 8i .. 8i+7. */
  lemma {:induction false} DecodeAt(buf: seq<real>, n: nat, i: nat)
    requires Stride * n <= |buf| && i < n
    ensures Decode(buf, n)[i] == FromRecord(buf[Stride * i .. Stride * i + Stride])
  {
    if i > 0 {
      DecodeAt(buf[Stride..], n - 1, i - 1);
      assert buf[Stride..][Stride * (i - 1) .. Stride * (i - 1) + Stride]
          == buf[Stride * i .. Stride * i + Stride];
    }
  }

  /** Decoding an encoded agent list gives the list back. */
  lemma {:induction false} DecodeEncode(s: seq<Agent>)
    ensures Decode(Encode(s), |s|) == s
  {
    if s != [] {
      var buf := Encode(s);
      assert buf[..Stride] == Record(s[0]);
      assert buf[Stride..] == Encode(s[1..]);
      DecodeEncode(s[1..]);
      RecordRoundTrip(s[0]);
    }
  }

  /** Encoding the first n decoded agents gives the first 8n floats back; in particular
      a buffer of exactly 8n floats survives `objArray2Buffer(buffer2ObjArray(b))`. */
  lemma {:induction false} EncodeDecode(buf: seq<real>, n: nat)
    requires Stride * n <= |buf|
    ensures Encode(Decode(buf, n)) == buf[..Stride * n]
  {
    if n > 0 {
      var s := Decode(buf, n);
      assert s[0] == FromRecord(buf[..Stride]);
      assert s[1..] == Decode(buf[Stride..], n - 1);
      EncodeDecode(buf[Stride..], n - 1);
      FromRecordRoundTrip(buf[..Stride]);
      assert buf[..Stride * n] == buf[..Stride] + buf[Stride..][..Stride * (n - 1)];
    }
  }

  /** Encoding one more agent appends its record. */
  lemma {:induction false} EncodeSnoc(s: seq<Agent>, a: Agent)
    ensures Encode(s + [a]) == Encode(s) + Record(a)
  {
    if s != [] {
      assert (s + [a])[1..] == s[1..] + [a];
      EncodeSnoc(s[1..], a);
    }
  }

  /** `buffer2ObjArray(buffer)`: a fresh array of the first `numAgents` agents. */
  method Buffer2ObjArray(buffer: array<real>, numAgents: nat) returns (objArray: array<Agent>)
    requires Stride * numAgents <= buffer.Length
    ensures fresh(objArray)
    ensures objArray[..] == Decode(buffer[..], numAgents)
  {
    objArray := new Agent[numAgents];
    for i := 0 to numAgents
      invariant forall k :: 0 <= k < i ==>
        objArray[k] == FromRecord(buffer[..][Stride * k .. Stride * k + Stride])
    {
      var agent := Agent(
        Vec2(buffer[8 * i + 0], buffer[8 * i + 1]),
        Vec2(buffer[8 * i + 2], buffer[8 * i + 3]),
        Vec2(buffer[8 * i + 4], buffer[8 * i + 5]),
        Vec2(buffer[8 * i + 6], buffer[8 * i + 7]));
      assert agent == FromRecord(buffer[..][Stride * i .. Stride * i + Stride]);
      objArray[i] := agent;
    }
    forall k | 0 <= k < numAgents
      ensures objArray[k] == Decode(buffer[..], numAgents)[k]
    {
      DecodeAt(buffer[..], numAgents, k);
    }
  }

  /** Slots off .. off+7 of the buffer receive the record of a; the slots before stay. */
  method StoreRecord(buf: array<real>, off: nat, a: Agent)
    requires off + Stride <= buf.Length
    modifies buf
    ensures buf[..off] == old(buf[..off])
    ensures buf[off..off + Stride] == Record(a)
    ensures forall j :: off + Stride <= j < buf.Length ==> buf[j] == old(buf[j])
  {
    buf[off + 0] := a.pos.x;
    buf[off + 1] := a.pos.y;
    buf[off + 2] := a.vel.x;
    buf[off + 3] := a.vel.y;
    buf[off + 4] := a.ppos.x;
    buf[off + 5] := a.ppos.y;
    buf[off + 6] := a.goal.x;
    buf[off + 7] := a.goal.y;
  }

  /** `objArray2Buffer(objArray)`: a fresh buffer holding the records of the first
      `numAgents` agents. */
  method ObjArray2Buffer(objArray: array<Agent>, numAgents: nat) returns (agentBuffer: array<real>)
    requires numAgents <= objArray.Length
    ensures fresh(agentBuffer)
    ensures agentBuffer[..] == Encode(objArray[..numAgents])
  {
    agentBuffer := new real[numAgents * 8];
    for i := 0 to numAgents
      invariant agentBuffer[..Stride * i] == Encode(objArray[..i])
    {
      var a := objArray[i];
      ghost var before := agentBuffer[..Stride * i];
      StoreRecord(agentBuffer, 8 * i, a);
      assert agentBuffer[..Stride * (i + 1)] == before + Record(a);
      EncodeSnoc(objArray[..i], a);
      assert objArray[..i] + [a] == objArray[..i + 1];
    }
    assert agentBuffer[..] == agentBuffer[..Stride * numAgents];
  }
}
