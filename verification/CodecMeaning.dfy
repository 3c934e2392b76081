/** The bytes of instructions, spelled out, and what exactly minimal mode refuses. */
module CodecMeaning {
  import opened Outcomes
  import opened ScriptTypes
  import opened ScriptNumbers
  import opened Opcodes
  import opened ScriptCodec
  import opened ScriptBuilder

  /** The forms of a push: the length in one byte, or after 0x4c, 0x4d, 0x4e in one, two or four, lowest first. */
  lemma PushForms(d: Bytes)
    requires |d| < 0x1_0000_0000
    ensures var n, v := |d|, Encode(PushBytes(d));
            && (n <= 75 ==> v == [n] + d)
            && (76 <= n <= 255 ==> v == [0x4c, n] + d)
            && (256 <= n <= 65535 ==> v == [0x4d, n % 256, n / 256] + d)
            && (65536 <= n ==>
                  v == [0x4e, n % 256, n / 256 % 256, n / 65536 % 256, n / 16777216] + d)
  {}

  /** What the forms are read as. */
  lemma FormsRead(d: Bytes, tail: Bytes, b0: Byte, b1: Byte, b2: Byte, b3: Byte)
    ensures |d| <= 75 ==> ParseNext([|d|] + d + tail, false) == Item(PushBytes(d), tail)
    ensures |d| == b0 ==> ParseNext([0x4c, b0] + d + tail, false) == Item(PushBytes(d), tail)
    ensures |d| == b0 + 256 * b1 ==> ParseNext([0x4d, b0, b1] + d + tail, false) == Item(PushBytes(d), tail)
    ensures |d| == b0 + 256 * b1 + 65536 * b2 + 16777216 * b3 ==>
              ParseNext([0x4e, b0, b1, b2, b3] + d + tail, false) == Item(PushBytes(d), tail)
  {
    if |d| <= 75 {
      var all := [|d|] + d + tail;
      assert all[1..|d| + 1] == d && all[|d| + 1..] == tail;
    }
    LongFormRead(0x4c, [b0], d, tail);
    LongFormRead(0x4d, [b0, b1], d, tail);
    LongFormRead(0x4e, [b0, b1, b2, b3], d, tail);
    assert [0x4c] + [b0] == [0x4c, b0] && [0x4d] + [b0, b1] == [0x4d, b0, b1];
    assert [0x4e] + [b0, b1, b2, b3] == [0x4e, b0, b1, b2, b3];
    LittleEndianFour([b0]);
    LittleEndianFour([b0, b1]);
    LittleEndianFour([b0, b1, b2, b3]);
  }

  lemma LongFormRead(code: Byte, len: Bytes, d: Bytes, tail: Bytes)
    requires PushDataFrom(code).Some? && |len| == DataSizeBytes(PushDataFrom(code).value)
    ensures LittleEndian(len) == |d| ==> ParseNext([code] + len + d + tail, false) == Item(PushBytes(d), tail)
  {
    var all := [code] + len + d + tail;
    var size := |len|;
    assert all[1..size + 1] == len;
    var body := all[size + 1..];
    assert body == d + tail;
    if LittleEndian(len) == |d| {
      assert body[..|d|] == d && body[|d|..] == tail;
    }
  }

  /** Every byte above 0x4e is an instruction of its own. */
  lemma OpcodesRead(c: Byte, tail: Bytes, minimal: bool)
    requires c > 0x4e
    ensures ParseNext([c] + tail, minimal) == Item(Op(c), tail)
  {
    assert ([c] + tail)[1..] == tail;
  }

  /** The pushes with an opcode of their own are those that such an opcode makes. */
  lemma ShortFormExactly(d: Bytes)
    ensures HasShortForm(d) <==> exists c: Byte :: c > 0x4e && PushedItem(Op(c)) == Some(d)
  {
    if HasShortForm(d) {
      var c: Byte := if d[0] == 0x81 then 0x4f else 0x50 + d[0];
      SliceInstructionPushes(d);
      assert SliceInstruction(d) == Op(c);
    }
    forall c: Byte | c > 0x4e && PushedItem(Op(c)) == Some(d) ensures HasShortForm(d) {
      assert -1 <= Classify(c).num <= 16 && Classify(c).num != 0;
    }
  }

  /** A long form announces less than 4 GiB, and is longer than the shortest form if that is little. */
  lemma LongHeader(p: PushDataOp, len: Bytes)
    requires |len| == DataSizeBytes(p)
    ensures 0 <= LittleEndian(len) < 0x1_0000_0000
    ensures LittleEndian(len) < DataSizeMin(p) <==> 1 + |len| > |PushHeader(LittleEndian(len))|
  {
    LittleEndianFour(len);
  }

  /** Minimal mode refuses exactly the pushes that could be made with fewer bytes, and otherwise reads alike. */
  lemma NonMinimalExactly(data: Bytes)
    ensures var loose, strict := ParseNext(data, false), ParseNext(data, true);
            && (strict == Failed(NonMinimalPush) <==>
                  && loose.Item? && loose.instr.PushBytes? && |loose.instr.data| < 0x1_0000_0000
                  && |data| - |loose.rest| > |Encode(SliceInstruction(loose.instr.data))|)
            && (strict != Failed(NonMinimalPush) ==> strict == loose)
            && (loose.Failed? ==> loose.error == EarlyEndOfScript)
  {
    var loose := ParseNext(data, false);
    if loose.Item? && loose.instr.PushBytes? && data[0] >= OP_PUSHDATA1 {
      var p := PushDataFrom(data[0]).value;
      LongHeader(p, data[1..DataSizeBytes(p) + 1]);
    }
  }
}
