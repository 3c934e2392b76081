/** Building scripts piece by piece. */
module ScriptBuilder {
  import opened Outcomes
  import opened ScriptTypes
  import opened ScriptNumbers
  import opened Opcodes
  import opened ScriptCodec

  /** The script consists of whole instructions: nothing appended can be swallowed by a push. */
  predicate Whole(script: Bytes) {
    Decode(script, false).failure == None
  }

  function Relocate(body: seq<Located>, tail: Bytes): seq<Located> {
    if body == [] then []
    else [Located(body[0].instr, body[0].rest + tail)] + Relocate(body[1..], tail)
  }

  /** Appending bytes does not change how a complete first instruction is read. */
  lemma NextAppend(a: Bytes, b: Bytes, minimal: bool)
    requires ParseNext(a, false).Item?
    ensures match ParseNext(a, minimal)
            case Item(i, rest) => ParseNext(a + b, minimal) == Item(i, rest + b)
            case Failed(e) => ParseNext(a + b, minimal) == Failed(e)
            case Finished => false
  {
    var ab := a + b;
    if a[0] < OP_PUSHDATA1 {
      var n := a[0];
      assert ab[1..n + 1] == a[1..n + 1] && ab[n + 1..] == a[n + 1..] + b;
    } else if PushDataFrom(a[0]).Some? {
      var size := DataSizeBytes(PushDataFrom(a[0]).value);
      assert ab[1..size + 1] == a[1..size + 1];
      assert ab[size + 1..] == a[size + 1..] + b;
      var n := LittleEndian(a[1..size + 1]);
      assert ab[size + 1..][..n] == a[size + 1..][..n];
      assert ab[size + 1..][n..] == a[size + 1..][n..] + b;
    } else {
      assert ab[1..] == a[1..] + b;
    }
  }

  lemma MinimalRefines(a: Bytes, minimal: bool)
    ensures match ParseNext(a, minimal)
            case Item(i, rest) => ParseNext(a, false) == Item(i, rest)
            case Failed(e) => ParseNext(a, false).Failed? || (minimal && e == NonMinimalPush)
            case Finished => a == []
  {}

  lemma DecodeCons(a: Bytes, minimal: bool, i: Instruction, rest: Bytes)
    requires ParseNext(a, minimal) == Item(i, rest)
    ensures |rest| < |a|
    ensures Decode(a, minimal) ==
            Code([Located(i, rest)] + Decode(rest, minimal).body, Decode(rest, minimal).failure)
  {}

  lemma RelocateCons(l: Located, body: seq<Located>, tail: Bytes)
    ensures Relocate([l] + body, tail) == [Located(l.instr, l.rest + tail)] + Relocate(body, tail)
  {
    assert ([l] + body)[1..] == body;
  }

  /** How the instructions of `a + b` follow from those of its parts. */
  function Joined(front: Code, back: Code, b: Bytes): Code {
    if front.failure.Some? then Code(Relocate(front.body, b), front.failure)
    else Code(Relocate(front.body, b) + back.body, back.failure)
  }

  lemma JoinedCons(l: Located, front: Code, back: Code, b: Bytes)
    ensures Joined(Code([l] + front.body, front.failure), back, b) ==
            Code([Located(l.instr, l.rest + b)] + Joined(front, back, b).body, Joined(front, back, b).failure)
  {
    RelocateCons(l, front.body, b);
  }

  /** Reading a concatenation: the first script's instructions, then the second's. */
  lemma {:induction false} DecodeAppend(a: Bytes, b: Bytes, minimal: bool)
    requires Whole(a)
    ensures Decode(a + b, minimal) == Joined(Decode(a, minimal), Decode(b, minimal), b)
    decreases |a|
  {
    if a == [] {
      assert a + b == b;
    } else {
      NextAppend(a, b, minimal);
      MinimalRefines(a, minimal);
      var next := ParseNext(a, minimal);
      if next.Item? {
        DecodeCons(a, false, next.instr, next.rest);
        DecodeCons(a, minimal, next.instr, next.rest);
        DecodeCons(a + b, minimal, next.instr, next.rest + b);
        DecodeAppend(next.rest, b, minimal);
        JoinedCons(Located(next.instr, next.rest), Decode(next.rest, minimal), Decode(b, minimal), b);
      }
    }
  }

  lemma WholeAppend(a: Bytes, b: Bytes)
    requires Whole(a) && Whole(b)
    ensures Whole(a + b)
  {
    DecodeAppend(a, b, false);
  }

  lemma WholeInstruction(i: Instruction)
    requires Encodable(i)
    ensures Whole(Encode(i))
  {
    NextOfEncode(i, [], false);
    assert Encode(i) + [] == Encode(i);
  }

  lemma WholeAfterPush(script: Bytes, data: Bytes)
    requires Whole(script) && |data| < 0x1_0000_0000
    ensures Whole(script + Encode(PushBytes(data)))
  {
    WholeInstruction(PushBytes(data));
    WholeAppend(script, Encode(PushBytes(data)));
  }

  /** An opcode that is complete in itself: the empty push, or one that takes no script bytes. */
  predicate StandsAlone(c: Byte) {
    c == OP_FALSE || c > OP_PUSHDATA4
  }

  lemma WholeOpcode(c: Byte)
    requires StandsAlone(c)
    ensures Whole([c])
  {
    WholeInstruction(if c == OP_FALSE then PushBytes([]) else Op(c));
  }

  // ----- what the builder appends

  /** The instruction that puts `n` on the stack. */
  function IntInstruction(n: int): Instruction {
    if n == -1 || 1 <= n <= 16 then Op(n - 1 + OP_TRUE)
    else PushBytes(ScriptInt(n))
  }

  /** The instruction that puts `d` on the stack in minimal form. */
  function SliceInstruction(d: Bytes): Instruction {
    if |d| == 1 && d[0] == 0x81 then IntInstruction(-1)
    else if |d| == 1 && 1 <= d[0] <= 16 then IntInstruction(d[0])
    else PushBytes(d)
  }

  /** The item a push instruction leaves on the stack. */
  function PushedItem(i: Instruction): Option<Bytes> {
    match i
    case PushBytes(d) => Some(d)
    case Op(c) => if Classify(c).PushNum? then Some(ScriptInt(Classify(c).num)) else None
  }

  /** Pushing a number leaves its encoding, whichever form was chosen. */
  lemma IntInstructionPushes(n: I64)
    requires n != -TWO_63
    ensures Encodable(IntInstruction(n)) && MinimalInstruction(IntInstruction(n))
    ensures PushedItem(IntInstruction(n)) == Some(ScriptInt(n))
  {
    Exp256Values();
    ScriptIntLength(n, 8);
    ScriptIntMeansItsNumber(n);
  }

  /** Pushing a slice minimally leaves the slice, and minimal mode accepts the form. */
  lemma SliceInstructionPushes(d: Bytes)
    requires |d| < 0x1_0000_0000
    ensures MinimalInstruction(SliceInstruction(d))
    ensures PushedItem(SliceInstruction(d)) == Some(d)
  {
    if HasShortForm(d) {
      assert d == [d[0]];
    }
  }

  lemma HeaderThenData(script: Bytes, data: Bytes)
    requires |data| < 0x1_0000_0000
    ensures (script + PushHeader(|data|)) + data == script + Encode(PushBytes(data))
  {}

  /** The opcode that fuses `c` with a following OP_VERIFY. */
  function Fused(c: Byte): Option<Byte> {
    if c == OP_EQUAL then Some(OP_EQUALVERIFY)
    else if c == OP_NUMEQUAL then Some(OP_NUMEQUALVERIFY)
    else if c == OP_CHECKSIG then Some(OP_CHECKSIGVERIFY)
    else if c == OP_CHECKMULTISIG then Some(OP_CHECKMULTISIGVERIFY)
    else None
  }

  class Builder {
    var bytes: Bytes
    var last: Option<Byte>

    /** The script is whole, and so is what remains when the recorded last opcode is taken off. */
    ghost predicate Valid()
      reads this
    {
      && Whole(bytes)
      && (last.Some? ==>
            && bytes != [] && bytes[|bytes| - 1] == last.value
            && StandsAlone(last.value) && Whole(bytes[..|bytes| - 1]))
    }

    constructor ()
      ensures Valid() && bytes == [] && last == None
    {
      bytes, last := [], None;
    }

    /** Any byte may be pushed; the script stays whole when it is an opcode complete in itself. */
    method PushOpcode(c: Byte)
      modifies this
      ensures bytes == old(bytes) + [c] && last == Some(c)
      ensures old(Valid()) && StandsAlone(c) ==> Valid()
    {
      if Whole(bytes) && StandsAlone(c) {
        WholeOpcode(c);
        WholeAppend(bytes, [c]);
      }
      bytes := bytes + [c];
      assert bytes[..|bytes| - 1] == old(bytes);
      last := Some(c);
    }

    /** The opcode and length in front of a push; the source panics on 4 GiB and more. */
    method AppendHeader(n: nat)
      requires n < 0x1_0000_0000
      modifies this`bytes
      ensures bytes == old(bytes) + PushHeader(n)
    {
      if n < OP_PUSHDATA1 {
        bytes := bytes + [n];
      } else if n < 0x100 {
        bytes := bytes + [OP_PUSHDATA1];
        bytes := bytes + [n];
      } else if n < 0x1_0000 {
        bytes := bytes + [OP_PUSHDATA2];
        bytes := bytes + [n % 0x100];
        bytes := bytes + [n / 0x100];
      } else {
        bytes := bytes + [OP_PUSHDATA4];
        bytes := bytes + [n % 0x100];
        bytes := bytes + [(n / 0x100) % 0x100];
        bytes := bytes + [(n / 0x1_0000) % 0x100];
        bytes := bytes + [n / 0x100_0000];
      }
    }

    method PushSlice(data: Bytes)
      requires |data| < 0x1_0000_0000
      modifies this
      ensures bytes == old(bytes) + Encode(PushBytes(data)) && last == None
      ensures old(Valid()) ==> Valid()
    {
      ghost var before, wasWhole := bytes, Whole(bytes);
      AppendHeader(|data|);
      bytes := bytes + data;
      HeaderThenData(before, data);
      last := None;
      if wasWhole {
        WholeAfterPush(before, data);
      }
    }

    method PushScriptint(n: I64)
      requires n != -TWO_63
      modifies this
      ensures Encodable(PushBytes(ScriptInt(n)))
      ensures bytes == old(bytes) + Encode(PushBytes(ScriptInt(n))) && last == None
      ensures old(Valid()) ==> Valid()
    {
      Exp256Values();
      ScriptIntLength(n, 8);
      var v := BuildScriptint(n);
      PushSlice(v);
    }

    method PushInt(n: I64)
      requires n != -TWO_63
      modifies this
      ensures Encodable(IntInstruction(n)) && bytes == old(bytes) + Encode(IntInstruction(n))
      ensures old(Valid()) ==> Valid()
    {
      IntInstructionPushes(n);
      if n == -1 || 1 <= n <= 16 {
        PushOpcode(n - 1 + OP_TRUE);
      } else if n == 0 {
        PushOpcode(OP_FALSE);
      } else {
        PushScriptint(n);
      }
    }

    method PushSliceMinimal(data: Bytes)
      requires |data| < 0x1_0000_0000
      modifies this
      ensures Encodable(SliceInstruction(data)) && bytes == old(bytes) + Encode(SliceInstruction(data))
      ensures old(Valid()) ==> Valid()
    {
      if |data| == 1 && data[0] == 129 {
        PushInt(-1);
      } else if |data| == 1 && 1 <= data[0] <= 16 {
        PushInt(data[0]);
      } else {
        PushSlice(data);
      }
    }

    /** Fuses with the last opcode where that is possible. */
    method PushVerify()
      requires last.Some? && Fused(last.value).Some? ==> bytes != []
      modifies this
      ensures if old(last).Some? && Fused(old(last).value).Some?
              then bytes == old(bytes)[..|old(bytes)| - 1] + [Fused(old(last).value).value]
              else bytes == old(bytes) + [OP_VERIFY]
      ensures bytes != [] && last == Some(bytes[|bytes| - 1])
      ensures old(Valid()) ==> Valid()
    {
      if last.Some? && Fused(last.value).Some? {
        var c := Fused(last.value).value;
        ghost var wasValid := Valid();
        bytes := bytes[..|bytes| - 1];
        last := None;
        assert wasValid ==> Valid();
        PushOpcode(c);
      } else {
        PushOpcode(OP_VERIFY);
      }
    }
  }

  // ----- lists of pushes

  function PushScript(data: seq<Bytes>): Bytes
    requires forall d :: d in data ==> |d| < 0x1_0000_0000
  {
    if data == [] then []
    else
      assert Encodable(SliceInstruction(data[0]));
      Encode(SliceInstruction(data[0])) + PushScript(data[1..])
  }

  lemma {:induction false} PushScriptSnoc(data: seq<Bytes>, d: Bytes)
    requires |d| < 0x1_0000_0000 && forall x :: x in data ==> |x| < 0x1_0000_0000
    ensures PushScript(data + [d]) == PushScript(data) + Encode(SliceInstruction(d))
  {
    if data == [] {
      assert [] + [d] == [d] && [d][1..] == [];
    } else {
      assert (data + [d])[1..] == data[1..] + [d];
      PushScriptSnoc(data[1..], d);
    }
  }

  /** A script that pushes the given byte strings, one minimal push each. */
  method BuildPushes(data: seq<Bytes>) returns (script: Bytes)
    requires forall d :: d in data ==> |d| < 0x1_0000_0000
    ensures script == PushScript(data)
  {
    var builder := new Builder();
    for i := 0 to |data|
      invariant fresh(builder) && builder.bytes == PushScript(data[..i])
    {
      PushScriptSnoc(data[..i], data[i]);
      assert data[..i] + [data[i]] == data[..i + 1];
      builder.PushSliceMinimal(data[i]);
    }
    assert data[..|data|] == data;
    return builder.bytes;
  }
}
