/** Parsing scripts into instructions, and the minimal encoding that parsing undoes. */
module ScriptCodec {
  import opened Outcomes
  import opened ScriptTypes
  import opened ScriptNumbers
  import opened Opcodes

  datatype Instruction = PushBytes(data: Bytes) | Op(code: Byte)

  /** One call of the instruction iterator on the remaining bytes. */
  datatype Parsed = Finished | Failed(error: Error) | Item(instr: Instruction, rest: Bytes)

  /** `read_uint` reads a little-endian length. */
  method ReadUint(data: Bytes, size: nat) returns (r: ScriptResult<nat>)
    requires size <= 8
    ensures r == if |data| < size then Err(EarlyEndOfScript) else Ok(LittleEndian(data[..size]))
  {
    if |data| < size {
      return Err(EarlyEndOfScript);
    }
    var ret := 0;
    for i := 0 to size
      invariant ret == LittleEndian(data[..i])
    {
      LittleEndianSnoc(data[..i], data[i]);
      assert data[..i] + [data[i]] == data[..i + 1];
      ret := ret + data[i] * Exp256(i);
    }
    return Ok(ret);
  }

  lemma {:induction false} LittleEndianSnoc(v: Bytes, b: Byte)
    ensures LittleEndian(v + [b]) == LittleEndian(v) + b * Exp256(|v|)
  {
    if v == [] {
      assert [b][1..] == [];
    } else {
      assert (v + [b])[1..] == v[1..] + [b];
      LittleEndianSnoc(v[1..], b);
      assert 256 * (b * Exp256(|v| - 1)) == b * (256 * Exp256(|v| - 1));
    }
  }

  /** A one-byte push for which a dedicated opcode exists. */
  predicate HasShortForm(data: Bytes) {
    |data| == 1 && (data[0] == 0x81 || 0 < data[0] <= 16)
  }

  /** What one call of `Instructions::next` yields, by the first byte alone. */
  function ParseNext(data: Bytes, minimal: bool): Parsed {
    if data == [] then Finished
    else if data[0] < OP_PUSHDATA1 then
      var n := data[0];
      if |data| < n + 1 then Failed(EarlyEndOfScript)
      else if minimal && HasShortForm(data[1..n + 1]) then Failed(NonMinimalPush)
      else Item(PushBytes(data[1..n + 1]), data[n + 1..])
    else if PushDataFrom(data[0]).Some? then
      var p := PushDataFrom(data[0]).value;
      var size := DataSizeBytes(p);
      if |data| < size + 1 then Failed(EarlyEndOfScript)
      else
        var n := LittleEndian(data[1..size + 1]);
        var body := data[size + 1..];
        if |body| < n then Failed(EarlyEndOfScript)
        else if minimal && n < DataSizeMin(p) then Failed(NonMinimalPush)
        else Item(PushBytes(body[..n]), body[n..])
    else Item(Op(data[0]), data[1..])
  }

  /** What the iterator returns and leaves, for what it parses. */
  predicate Yields(p: Parsed, r: Option<ScriptResult<Instruction>>, before: Bytes, after: Bytes) {
    match p
    case Finished => r == None && after == before
    case Failed(e) => r == Some(Err(e)) && after == []
    case Item(instr, rest) => r == Some(Ok(instr)) && after == rest
  }

  /** The iterator over a script, consuming its bytes in place. */
  class Instructions {
    var data: Bytes
    const enforceMinimal: bool

    constructor (data: Bytes, enforceMinimal: bool)
      ensures this.data == data && this.enforceMinimal == enforceMinimal
    {
      this.data := data;
      this.enforceMinimal := enforceMinimal;
    }

    /** An error ends the iteration: the remaining bytes are dropped. */
    method Kill(e: Error) returns (r: Option<ScriptResult<Instruction>>)
      modifies this
      ensures data == [] && r == Some(Err(e))
    {
      data := [];
      return Some(Err(e));
    }

    /** The forms that carry an explicit length. */
    method NextPushData(p: PushDataOp) returns (r: Option<ScriptResult<Instruction>>)
      requires data != [] && PushDataFrom(data[0]) == Some(p)
      modifies this
      ensures Yields(ParseNext(old(data), enforceMinimal), r, old(data), data)
    {
      var size := DataSizeBytes(p);
      if |data| < size + 1 {
        r := Kill(EarlyEndOfScript);
        return;
      }
      var length := ReadUint(data[1..], size);
      assert data[1..][..size] == data[1..size + 1];
      assert length.Ok?;  // the length check above leaves `read_uint` no way to fail
      var body := data[size + 1..];
      if |body| < length.value {
        r := Kill(EarlyEndOfScript);
        return;
      }
      if enforceMinimal && length.value < DataSizeMin(p) {
        r := Kill(NonMinimalPush);
        return;
      }
      data := body[length.value..];
      r := Some(Ok(PushBytes(body[..length.value])));
    }

    method Next() returns (r: Option<ScriptResult<Instruction>>)
      modifies this
      ensures Yields(ParseNext(old(data), enforceMinimal), r, old(data), data)
    {
      if data == [] {
        return None;
      }
      match Classify(data[0]) {
        case PushBytesOp(n) =>
          if |data| < n + 1 {
            r := Kill(EarlyEndOfScript);
            return;
          }
          if enforceMinimal && n == 1 && (data[1] == 0x81 || (data[1] > 0 && data[1] <= 16)) {
            r := Kill(NonMinimalPush);
            return;
          }
          r := Some(Ok(PushBytes(data[1..n + 1])));
          data := data[n + 1..];
        case PushData(p) =>
          r := NextPushData(p);
        case _ =>
          r := Some(Ok(Op(data[0])));
          data := data[1..];
      }
    }
  }

  // ----- whole scripts

  /** An instruction together with the bytes that follow it. */
  datatype Located = Located(instr: Instruction, rest: Bytes)

  /** Everything the iterator yields: instructions, then possibly one error. */
  datatype Code = Code(body: seq<Located>, failure: Option<Error>)

  function Decode(data: Bytes, minimal: bool): Code
    decreases |data|
  {
    match ParseNext(data, minimal)
    case Finished => Code([], None)
    case Failed(e) => Code([], Some(e))
    case Item(instr, rest) =>
      var more := Decode(rest, minimal);
      Code([Located(instr, rest)] + more.body, more.failure)
  }

  function InstructionsOf(body: seq<Located>): seq<Instruction> {
    if body == [] then [] else [body[0].instr] + InstructionsOf(body[1..])
  }

  /** Collecting the iterator into a list, or the error it ends with. */
  function Parse(data: Bytes, minimal: bool): ScriptResult<seq<Instruction>> {
    var code := Decode(data, minimal);
    if code.failure.Some? then Err(code.failure.value) else Ok(InstructionsOf(code.body))
  }

  lemma ParseUnfolds(data: Bytes, minimal: bool)
    ensures Parse(data, minimal) ==
            match ParseNext(data, minimal)
            case Finished => Ok([])
            case Failed(e) => Err(e)
            case Item(instr, rest) =>
              match Parse(rest, minimal)
              case Ok(more) => Ok([instr] + more)
              case Err(e) => Err(e)
  {
    match ParseNext(data, minimal)
    case Item(instr, rest) =>
      var body := Decode(data, minimal).body;
      assert body[0] == Located(instr, rest) && body[1..] == Decode(rest, minimal).body;
    case _ =>
  }

  // ----- encoding

  /** The bytes in front of a push of `n` bytes, in the shortest form for that length. */
  function PushHeader(n: nat): Bytes
    requires n < 0x1_0000_0000
  {
    if n < OP_PUSHDATA1 then [n]
    else if n < 0x100 then [OP_PUSHDATA1, n]
    else if n < 0x1_0000 then [OP_PUSHDATA2, n % 0x100, n / 0x100]
    else [OP_PUSHDATA4, n % 0x100, (n / 0x100) % 0x100, (n / 0x1_0000) % 0x100, n / 0x100_0000]
  }

  /** What the builder can write: pushes below 4 GiB, and opcodes that push nothing from the script. */
  predicate Encodable(i: Instruction) {
    match i
    case PushBytes(d) => |d| < 0x1_0000_0000
    case Op(c) => c > OP_PUSHDATA4
  }

  /** What minimal mode admits. */
  predicate MinimalInstruction(i: Instruction) {
    Encodable(i) && (i.PushBytes? ==> !HasShortForm(i.data))
  }

  function Encode(i: Instruction): Bytes
    requires Encodable(i)
  {
    match i
    case PushBytes(d) => PushHeader(|d|) + d
    case Op(c) => [c]
  }

  function EncodeAll(list: seq<Instruction>): Bytes
    requires forall i :: i in list ==> Encodable(i)
  {
    if list == [] then [] else Encode(list[0]) + EncodeAll(list[1..])
  }

  function JoinBytes(b0: int, b1: int, b2: int, b3: int): int {
    b0 + 0x100 * b1 + 0x1_0000 * b2 + 0x100_0000 * b3
  }

  lemma LittleEndianFour(v: Bytes)
    ensures |v| == 1 ==> LittleEndian(v) == v[0]
    ensures |v| == 2 ==> LittleEndian(v) == JoinBytes(v[0], v[1], 0, 0)
    ensures |v| == 4 ==> LittleEndian(v) == JoinBytes(v[0], v[1], v[2], v[3])
  {
    if |v| == 2 {
      assert LittleEndian(v[1..]) == v[1];
    } else if |v| == 4 {
      assert LittleEndian(v[1..]) == v[1] + 256 * LittleEndian(v[1..][1..]);
      assert LittleEndian(v[1..][1..]) == v[2] + 256 * LittleEndian(v[1..][1..][1..]);
      assert LittleEndian(v[1..][1..][1..]) == v[3];
    }
  }

  lemma SplitJoined(b0: Byte, b1: Byte, b2: Byte, b3: Byte)
    ensures var n := JoinBytes(b0, b1, b2, b3);
            && n % 0x100 == b0 && (n / 0x100) % 0x100 == b1
            && (n / 0x1_0000) % 0x100 == b2 && n / 0x100_0000 == b3
            && (b2 == b3 == 0 ==> n / 0x100 == b1)
  {
    var n := JoinBytes(b0, b1, b2, b3);
    assert n / 0x100 == b1 + 0x100 * b2 + 0x1_0000 * b3;
    assert n / 0x1_0000 == b2 + 0x100 * b3;
  }

  lemma JoinSplit(n: nat)
    requires n < 0x1_0000_0000
    ensures n == JoinBytes(n % 0x100, (n / 0x100) % 0x100, (n / 0x1_0000) % 0x100, n / 0x100_0000)
  {
    assert n / 0x1_0000 == (n / 0x100) / 0x100;
    assert n / 0x100_0000 == (n / 0x1_0000) / 0x100;
  }

  /** The header of a long push names a form of the right size and holds the length. */
  lemma HeaderAnnounces(n: nat)
    requires OP_PUSHDATA1 <= n < 0x1_0000_0000
    ensures var h := PushHeader(n);
            && PushDataFrom(h[0]).Some?
            && var p := PushDataFrom(h[0]).value;
               |h| == DataSizeBytes(p) + 1
               && LittleEndian(h[1..]) == n && n >= DataSizeMin(p)
  {
    var len := PushHeader(n)[1..];
    LittleEndianFour(len);
    if n >= 0x1_0000 {
      JoinSplit(n);
      assert len == [n % 0x100, (n / 0x100) % 0x100, (n / 0x1_0000) % 0x100, n / 0x100_0000];
    } else if n >= 0x100 {
      assert len == [n % 0x100, n / 0x100];
    } else {
      assert len == [n];
    }
  }

  /** A length in its minimal form is what the header function would write. */
  lemma HeaderUnique(code: Byte, len: Bytes)
    requires PushDataFrom(code).Some?
    requires |len| == DataSizeBytes(PushDataFrom(code).value)
    requires LittleEndian(len) >= DataSizeMin(PushDataFrom(code).value)
    ensures LittleEndian(len) < 0x1_0000_0000
    ensures PushHeader(LittleEndian(len)) == [code] + len
  {
    LittleEndianFour(len);
    match PushDataFrom(code).value
    case OpPushData1 =>
    case OpPushData2 => SplitJoined(len[0], len[1], 0, 0);
    case OpPushData4 => SplitJoined(len[0], len[1], len[2], len[3]);
  }

  /** The header announces its length: parsing reads the push back and stops right after it. */
  lemma NextOfPush(d: Bytes, tail: Bytes, minimal: bool)
    requires |d| < 0x1_0000_0000
    requires minimal ==> !HasShortForm(d)
    ensures ParseNext(PushHeader(|d|) + d + tail, minimal) == Item(PushBytes(d), tail)
  {
    var n := |d|;
    var h := PushHeader(n);
    var data := h + d + tail;
    if n < OP_PUSHDATA1 {
      assert data[1..n + 1] == d && data[n + 1..] == tail;
    } else {
      HeaderAnnounces(n);
      var size := |h| - 1;
      assert data[1..size + 1] == h[1..];
      var body := data[size + 1..];
      assert body == d + tail;
      assert body[..n] == d && body[n..] == tail;
    }
  }

  lemma NextOfEncode(i: Instruction, tail: Bytes, minimal: bool)
    requires Encodable(i) && (minimal ==> MinimalInstruction(i))
    ensures ParseNext(Encode(i) + tail, minimal) == Item(i, tail)
  {
    match i
    case PushBytes(d) => NextOfPush(d, tail, minimal);
    case Op(c) => assert ([c] + tail)[1..] == tail;
  }

  /** In minimal mode the bytes taken are exactly the encoding of the instruction read. */
  lemma EncodeOfNext(data: Bytes)
    requires ParseNext(data, true).Item?
    ensures var Item(i, rest) := ParseNext(data, true);
            MinimalInstruction(i) && Encode(i) + rest == data
  {
    if data[0] < OP_PUSHDATA1 {
      var n := data[0];
      assert data == [data[0]] + data[1..n + 1] + data[n + 1..];
    } else if PushDataFrom(data[0]).Some? {
      HeaderOfPushData(data);
    } else {
      assert data == [data[0]] + data[1..];
    }
  }

  lemma HeaderOfPushData(data: Bytes)
    requires data != [] && PushDataFrom(data[0]).Some? && ParseNext(data, true).Item?
    ensures var Item(i, rest) := ParseNext(data, true);
            MinimalInstruction(i) && Encode(i) + rest == data
  {
    var size := DataSizeBytes(PushDataFrom(data[0]).value);
    var len := data[1..size + 1];
    HeaderUnique(data[0], len);
    var n := LittleEndian(len);
    var body := data[size + 1..];
    assert body == body[..n] + body[n..];
    assert data == [data[0]] + len + body;
  }

  /** Without minimal mode the encoding is never longer than the bytes taken. */
  lemma EncodeIsShortest(data: Bytes)
    requires ParseNext(data, false).Item?
    ensures var Item(i, rest) := ParseNext(data, false);
            Encodable(i) && |Encode(i)| + |rest| <= |data|
  {
    if PushDataFrom(data[0]).Some? {
      var size := DataSizeBytes(PushDataFrom(data[0]).value);
      if |data| >= size + 1 {
        LittleEndianFour(data[1..size + 1]);
      }
    }
  }

  // ----- the bijection

  /** Parsing an encoded list gives the list back, in either mode that admits it. */
  lemma {:induction false} ParseOfEncode(list: seq<Instruction>, minimal: bool)
    requires forall i :: i in list ==> Encodable(i) && (minimal ==> MinimalInstruction(i))
    ensures Parse(EncodeAll(list), minimal) == Ok(list)
  {
    if list != [] {
      NextOfEncode(list[0], EncodeAll(list[1..]), minimal);
      ParseUnfolds(EncodeAll(list), minimal);
      ParseOfEncode(list[1..], minimal);
      assert list == [list[0]] + list[1..];
    }
  }

  /** Re-encoding what minimal mode parsed gives the same bytes. */
  lemma {:induction false} EncodeOfParse(data: Bytes)
    requires Parse(data, true).Ok?
    ensures var list := Parse(data, true).value;
            (forall i :: i in list ==> MinimalInstruction(i)) && EncodeAll(list) == data
    decreases |data|
  {
    ParseUnfolds(data, true);
    match ParseNext(data, true)
    case Finished =>
    case Item(i, rest) =>
      EncodeOfNext(data);
      EncodeOfParse(rest);
      var list := Parse(data, true).value;
      assert list[0] == i && list[1..] == Parse(rest, true).value;
  }

  /** Minimal mode accepts exactly the byte strings that encode some minimal instruction list. */
  lemma MinimalModeAccepts(data: Bytes)
    ensures Parse(data, true).Ok? <==>
            exists list: seq<Instruction> ::
              (forall i :: i in list ==> MinimalInstruction(i)) && EncodeAll(list) == data
  {
    if Parse(data, true).Ok? {
      EncodeOfParse(data);
    }
    forall list: seq<Instruction> | (forall i :: i in list ==> MinimalInstruction(i)) && EncodeAll(list) == data
      ensures Parse(data, true).Ok?
    {
      ParseOfEncode(list, true);
    }
  }

  /** Re-encoding any script that parses at all never makes it longer, and means the same. */
  lemma {:induction false} ReencodingShrinks(data: Bytes)
    requires Parse(data, false).Ok?
    ensures var list := Parse(data, false).value;
            (forall i :: i in list ==> Encodable(i)) && |EncodeAll(list)| <= |data|
            && Parse(EncodeAll(list), false) == Ok(list)
    decreases |data|
  {
    ParseUnfolds(data, false);
    match ParseNext(data, false)
    case Finished =>
    case Item(i, rest) =>
      EncodeIsShortest(data);
      ReencodingShrinks(rest);
      var list := Parse(data, false).value;
      assert list[0] == i && list[1..] == Parse(rest, false).value;
      ParseOfEncode(list, false);
  }
}
