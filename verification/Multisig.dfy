/** The environment a script runs in: limits, policy switches and foreign cryptography. */
module ScriptContext {
  import opened Outcomes
  import opened ScriptTypes

  datatype ParseResult<+T> = Parsed(value: T) | Malformed | Reserved

  type Digest20 = b: Bytes | |b| == 20 witness seq(20, _ => 0)
  type Digest32 = b: Bytes | |b| == 32 witness seq(32, _ => 0)

  /** Parsed keys and signatures, represented by bytes. */
  type PublicKey = Bytes
  type SignatureData = Bytes

  /** The `Context` trait. Keys, signatures, time locks and hashes are arbitrary functions. */
  datatype Context = Context(
    maxElementSize: nat,
    maxStackElements: nat,
    maxPubkeys: nat,
    maxScriptSize: nat,
    enforceMinimalPush: bool,
    enforceMinimalIf: bool,
    parsePubkey: Bytes -> ParseResult<PublicKey>,
    parseSignature: (PublicKey, Bytes) -> Option<SignatureData>,
    verifySignature: (SignatureData, Bytes, nat) -> bool,
    checkLockTime: int -> bool,
    checkSequence: int -> bool,
    ripemd160: Bytes -> Digest20,
    sha1: Bytes -> Digest20,
    sha256: Bytes -> Digest32
  )
}

/** Multi-signature checking: greedy matching of signatures to keys. */
module Multisig {
  import opened Outcomes
  import opened ScriptTypes
  import opened ScriptContext

  /** A context with the script position that signatures commit to. */
  datatype Judge = Judge(ctx: Context, subscript: Bytes, codesep: nat) {
    predicate Rejects(key: Bytes) {
      ctx.parsePubkey(key).Malformed?
    }

    /** A reserved key type accepts any signature. */
    predicate Accepts(key: Bytes, sig: Bytes) {
      match ctx.parsePubkey(key)
      case Malformed => false
      case Reserved => true
      case Parsed(pk) =>
        var data := ctx.parseSignature(pk, sig);
        data.Some? && ctx.verifySignature(data.value, subscript, codesep)
    }
  }

  /** The loop of `check_multisig`, as recursion over what is left of both iterators. */
  function Greedy(j: Judge, sigs: seq<Bytes>, keys: seq<Bytes>): ScriptResult<bool>
    decreases |keys|
  {
    if sigs == [] then Ok(true)
    else if |keys| < |sigs| then Ok(false)
    else if j.Rejects(keys[0]) then Err(PubkeyFormat)
    else if j.Accepts(keys[0], sigs[0]) then Greedy(j, sigs[1..], keys[1..])
    else Greedy(j, sigs, keys[1..])
  }

  /** `check_multisig`, advancing two iterators. */
  method CheckMultisig(j: Judge, sigs: seq<Bytes>, keys: seq<Bytes>) returns (r: ScriptResult<bool>)
    ensures r == Greedy(j, sigs, keys)
  {
    var s, k := 0, 0;  // how far each iterator has advanced
    while s < |sigs|
      invariant 0 <= s <= |sigs| && 0 <= k <= |keys|
      invariant Greedy(j, sigs, keys) == Greedy(j, sigs[s..], keys[k..])
    {
      var sig := sigs[s];
      s := s + 1;
      while true
        invariant 0 < s <= |sigs| && 0 <= k <= |keys| && sig == sigs[s - 1]
        invariant Greedy(j, sigs, keys) == Greedy(j, sigs[s - 1..], keys[k..])
        decreases |keys| - k
      {
        if |keys| - k < |sigs| - s + 1 {
          return Ok(false);
        }
        var key := j.ctx.parsePubkey(keys[k]);
        assert keys[k..][1..] == keys[k + 1..] && sigs[s - 1..][1..] == sigs[s..];
        k := k + 1;
        match key {
          case Malformed =>
            return Err(PubkeyFormat);
          case Reserved =>
            break;
          case Parsed(pk) =>
            var data := j.ctx.parseSignature(pk, sig);
            if data.Some? && j.ctx.verifySignature(data.value, j.subscript, j.codesep) {
              break;
            }
        }
      }
    }
    return Ok(true);
  }

  // ----- what the loop decides

  /** `m` sends each signature to a key that accepts it, in strictly increasing order. */
  ghost predicate IsMatching(j: Judge, sigs: seq<Bytes>, keys: seq<Bytes>, m: seq<nat>) {
    && |m| == |sigs|
    && (forall i :: 0 <= i < |m| ==> m[i] < |keys| && j.Accepts(keys[m[i]], sigs[i]))
    && (forall a, b :: 0 <= a < b < |m| ==> m[a] < m[b])
  }

  ghost predicate Matchable(j: Judge, sigs: seq<Bytes>, keys: seq<Bytes>) {
    exists m :: IsMatching(j, sigs, keys, m)
  }

  lemma NothingToMatch(j: Judge, keys: seq<Bytes>)
    ensures Matchable(j, [], keys)
  {
    assert IsMatching(j, [], keys, []);
  }

  lemma {:induction false} IncreasingGrows(m: seq<nat>, i: nat)
    requires i < |m|
    requires forall a, b :: 0 <= a < b < |m| ==> m[a] < m[b]
    ensures m[i] >= i
  {
    if i > 0 {
      IncreasingGrows(m, i - 1);
    }
  }

  lemma TooFewKeys(j: Judge, sigs: seq<Bytes>, keys: seq<Bytes>)
    requires |keys| < |sigs|
    ensures !Matchable(j, sigs, keys)
  {
    forall m | IsMatching(j, sigs, keys, m) ensures false {
      IncreasingGrows(m, |m| - 1);
    }
  }

  function ShiftUp(m: seq<nat>): seq<nat> {
    seq(|m|, i requires 0 <= i < |m| => m[i] + 1)
  }

  function ShiftDown(m: seq<nat>): seq<nat>
    requires forall i :: 0 <= i < |m| ==> m[i] > 0
  {
    seq(|m|, i requires 0 <= i < |m| => m[i] - 1)
  }

  /** A key that refuses the first signature can be dropped. */
  lemma SkipKey(j: Judge, sigs: seq<Bytes>, keys: seq<Bytes>)
    requires sigs != [] && keys != [] && !j.Accepts(keys[0], sigs[0])
    ensures Matchable(j, sigs, keys) <==> Matchable(j, sigs, keys[1..])
  {
    forall m | IsMatching(j, sigs, keys, m) ensures Matchable(j, sigs, keys[1..]) {
      assert m[0] != 0;
      assert IsMatching(j, sigs, keys[1..], ShiftDown(m));
    }
    forall m | IsMatching(j, sigs, keys[1..], m) ensures Matchable(j, sigs, keys) {
      assert IsMatching(j, sigs, keys, ShiftUp(m));
    }
  }

  /** A key that accepts the first signature may as well be spent on it. */
  lemma TakeKey(j: Judge, sigs: seq<Bytes>, keys: seq<Bytes>)
    requires sigs != [] && keys != [] && j.Accepts(keys[0], sigs[0])
    ensures Matchable(j, sigs, keys) <==> Matchable(j, sigs[1..], keys[1..])
  {
    forall m | IsMatching(j, sigs, keys, m) ensures Matchable(j, sigs[1..], keys[1..]) {
      assert forall i :: 0 < i < |m| ==> m[0] < m[i];
      assert IsMatching(j, sigs[1..], keys[1..], ShiftDown(m[1..]));
    }
    forall m | IsMatching(j, sigs[1..], keys[1..], m) ensures Matchable(j, sigs, keys) {
      assert IsMatching(j, sigs, keys, [0] + ShiftUp(m));
    }
  }

  /** Greedy matching with its early exit answers exactly whether an increasing matching exists. */
  lemma {:induction false} GreedyDecidesMatching(j: Judge, sigs: seq<Bytes>, keys: seq<Bytes>)
    ensures Greedy(j, sigs, keys).Ok? ==> (Greedy(j, sigs, keys).value <==> Matchable(j, sigs, keys))
    decreases |keys|
  {
    if sigs == [] {
      NothingToMatch(j, keys);
    } else if |keys| < |sigs| {
      TooFewKeys(j, sigs, keys);
    } else if j.Rejects(keys[0]) {
    } else if j.Accepts(keys[0], sigs[0]) {
      TakeKey(j, sigs, keys);
      GreedyDecidesMatching(j, sigs[1..], keys[1..]);
    } else {
      SkipKey(j, sigs, keys);
      GreedyDecidesMatching(j, sigs, keys[1..]);
    }
  }

  /** Signatures that must already be matched when `k` keys are spent, or the loop has given up. */
  function Overdue(sigs: seq<Bytes>, keys: seq<Bytes>, k: nat): (n: nat)
    requires k <= |keys|
    ensures n <= |sigs|
  {
    if |sigs| <= |keys| - k then 0 else |sigs| - (|keys| - k)
  }

  /**
   Key `k` is the first malformed one, the keys before it do not settle the question with "yes",
   and they match enough signatures for the loop not to have given up.
   */
  ghost predicate Stuck(j: Judge, sigs: seq<Bytes>, keys: seq<Bytes>, k: nat) {
    && k < |keys|
    && j.Rejects(keys[k])
    && (forall i :: 0 <= i < k ==> !j.Rejects(keys[i]))
    && !Matchable(j, sigs, keys[..k])
    && Matchable(j, sigs[..Overdue(sigs, keys, k)], keys[..k])
  }

  lemma StuckAfterTake(j: Judge, sigs: seq<Bytes>, keys: seq<Bytes>, k: nat)
    requires sigs != [] && keys != [] && !j.Rejects(keys[0]) && j.Accepts(keys[0], sigs[0])
    requires 0 < k
    ensures Stuck(j, sigs, keys, k) <==> Stuck(j, sigs[1..], keys[1..], k - 1)
  {
    if k < |keys| {
      assert keys[..k][1..] == keys[1..][..k - 1];
      TakeKey(j, sigs, keys[..k]);
      forall i | 0 <= i < k ensures i > 0 ==> keys[i] == keys[1..][i - 1] {}
      assert (forall i :: 0 <= i < k ==> !j.Rejects(keys[i])) <==>
             (forall i :: 0 <= i < k - 1 ==> !j.Rejects(keys[1..][i]));
      var n := Overdue(sigs, keys, k);
      if n > 0 {
        TakeKey(j, sigs[..n], keys[..k]);
        assert sigs[..n][1..] == sigs[1..][..n - 1];
      } else {
        NothingToMatch(j, keys[..k]);
        NothingToMatch(j, keys[1..][..k - 1]);
      }
    }
  }

  lemma StuckAfterSkip(j: Judge, sigs: seq<Bytes>, keys: seq<Bytes>, k: nat)
    requires sigs != [] && keys != [] && !j.Rejects(keys[0]) && !j.Accepts(keys[0], sigs[0])
    requires 0 < k
    ensures Stuck(j, sigs, keys, k) <==> Stuck(j, sigs, keys[1..], k - 1)
  {
    if k < |keys| {
      assert keys[..k][1..] == keys[1..][..k - 1];
      SkipKey(j, sigs, keys[..k]);
      forall i | 0 <= i < k ensures i > 0 ==> keys[i] == keys[1..][i - 1] {}
      assert (forall i :: 0 <= i < k ==> !j.Rejects(keys[i])) <==>
             (forall i :: 0 <= i < k - 1 ==> !j.Rejects(keys[1..][i]));
      var n := Overdue(sigs, keys, k);
      if n > 0 {
        SkipKey(j, sigs[..n], keys[..k]);
      } else {
        NothingToMatch(j, keys[..k]);
        NothingToMatch(j, keys[1..][..k - 1]);
      }
    }
  }

  /** The check fails exactly when the loop runs into a malformed key before it can decide. */
  lemma {:induction false} GreedyFailsExactly(j: Judge, sigs: seq<Bytes>, keys: seq<Bytes>)
    ensures Greedy(j, sigs, keys).Err? <==> exists k :: Stuck(j, sigs, keys, k)
    ensures Greedy(j, sigs, keys).Err? ==> Greedy(j, sigs, keys) == Err(PubkeyFormat)
    decreases |keys|
  {
    if sigs == [] {
      forall k: nat | k < |keys| ensures !Stuck(j, sigs, keys, k) {
        NothingToMatch(j, keys[..k]);
      }
    } else if |keys| < |sigs| {
      forall k: nat | k < |keys| ensures !Stuck(j, sigs, keys, k) {
        TooFewKeys(j, sigs[..Overdue(sigs, keys, k)], keys[..k]);
      }
    } else if j.Rejects(keys[0]) {
      TooFewKeys(j, sigs, keys[..0]);
      assert sigs[..0] == [];
      NothingToMatch(j, keys[..0]);
      assert Stuck(j, sigs, keys, 0);
    } else if j.Accepts(keys[0], sigs[0]) {
      GreedyFailsExactly(j, sigs[1..], keys[1..]);
      forall k: nat | k > 0 { StuckAfterTake(j, sigs, keys, k); }
      forall k: nat | Stuck(j, sigs[1..], keys[1..], k) ensures Stuck(j, sigs, keys, k + 1) {
        StuckAfterTake(j, sigs, keys, k + 1);
      }
    } else {
      GreedyFailsExactly(j, sigs, keys[1..]);
      forall k: nat | k > 0 { StuckAfterSkip(j, sigs, keys, k); }
      forall k: nat | Stuck(j, sigs, keys[1..], k) ensures Stuck(j, sigs, keys, k + 1) {
        StuckAfterSkip(j, sigs, keys, k + 1);
      }
    }
  }
}
