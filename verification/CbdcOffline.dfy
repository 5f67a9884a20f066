/** Little-endian fixed-width integers, as `to_le_bytes` lays them out. */
module LittleEndian {
  import opened Common

  function Limit(width: nat): nat {
    if width == 0 then 1 else 256 * Limit(width - 1)
  }

  function Encode(x: nat, width: nat): (bytes: Bytes)
    ensures |bytes| == width
    decreases x, width
  {
    if width == 0 then [] else [x % 256] + Encode(x / 256, width - 1)
  }

  function Decode(bytes: Bytes): nat {
    if bytes == [] then 0 else bytes[0] + 256 * Decode(bytes[1..])
  }

  lemma {:induction false} DecodeEncode(x: nat, width: nat)
    requires x < Limit(width)
    ensures Decode(Encode(x, width)) == x
    decreases width
  {
    if width > 0 {
      DecodeEncode(x / 256, width - 1);
      assert Encode(x, width)[1..] == Encode(x / 256, width - 1);
    }
  }

  lemma Widths()
    ensures Limit(1) == 256 && Limit(4) == U32_MAX + 1 && Limit(16) == U128_MAX + 1
  {
    assert Limit(4) == 256 * 256 * 256 * 256 * Limit(0) by {
      assert Limit(1) == 256 * Limit(0);
      assert Limit(2) == 256 * Limit(1);
      assert Limit(3) == 256 * Limit(2);
    }
    assert Limit(8) == 256 * 256 * 256 * 256 * Limit(4) by {
      assert Limit(6) == 256 * Limit(5);
      assert Limit(7) == 256 * Limit(6);
    }
    assert Limit(12) == 256 * 256 * 256 * 256 * Limit(8) by {
      assert Limit(10) == 256 * Limit(9);
      assert Limit(11) == 256 * Limit(10);
    }
    assert Limit(16) == 256 * 256 * 256 * 256 * Limit(12) by {
      assert Limit(14) == 256 * Limit(13);
      assert Limit(15) == 256 * Limit(14);
    }
  }
}

/** Hash preimages of offline transactions and batches, and the integrity check. */
module CbdcOffline {
  import opened Common
  import opened LittleEndian

  type Id = b: Bytes | |b| == 32
    witness [0, 0, 0, 0, 0, 0, 0, 0, 0, 0, 0, 0, 0, 0, 0, 0, 0, 0, 0, 0, 0, 0, 0, 0, 0, 0, 0, 0, 0, 0, 0, 0]

  datatype Transaction = Transaction(
    id: Id, sourcePilot: byte, destPilot: byte, from: Address, to: Address,
    amountSource: u128, amountDest: u128, exchangeRate: u128, timestamp: u64,
    protocol: byte, privacyTier: byte, offlineStatus: Option<byte>, metadata: Bytes)

  /** The fields the transaction hash covers. */
  datatype Covered = Covered(
    id: Id, sourcePilot: byte, destPilot: byte,
    amountSource: u128, amountDest: u128, exchangeRate: u128, nonce: u32)

  datatype OfflineTransaction = OfflineTransaction(
    hash: Id, transaction: Transaction, signature: Bytes, signerKey: Bytes,
    status: byte, createdAt: u64, reconciledAt: Option<u64>, nonce: u32)

  datatype Error = EmptySignature | EmptyPublicKey | EmptyBatch | ZeroBatchAmount

  function Fields(t: Transaction, nonce: u32): Covered {
    Covered(t.id, t.sourcePilot, t.destPilot, t.amountSource, t.amountDest, t.exchangeRate, nonce)
  }

  function Preimage(c: Covered): Bytes {
    c.id + Encode(c.sourcePilot, 1) + Encode(c.destPilot, 1) + Encode(c.amountSource, 16)
    + Encode(c.amountDest, 16) + Encode(c.exchangeRate, 16) + Encode(c.nonce, 4)
  }

  /** The seven slices of an 86-byte preimage. */
  datatype Slices = Slices(id: Bytes, source: Bytes, dest: Bytes, paid: Bytes, received: Bytes, rate: Bytes, nonce: Bytes)

  function Split(b: Bytes): Option<Slices> {
    if |b| != 86 then None
    else
      var b5 := b[..82];
      var b4 := b5[..66];
      var b3 := b4[..50];
      var b2 := b3[..34];
      var b1 := b2[..33];
      Some(Slices(b1[..32], b1[32..], b2[33..], b3[34..], b4[50..], b5[66..], b[82..]))
  }

  lemma Peel(front: Bytes, last: Bytes)
    ensures (front + last)[..|front|] == front && (front + last)[|front|..] == last
  {
  }

  function Parse(b: Bytes): Option<Covered> {
    match Split(b)
    case None => None
    case Some(s) =>
      var source, dest, paid, received, rate, nonce :=
        Decode(s.source), Decode(s.dest), Decode(s.paid), Decode(s.received), Decode(s.rate), Decode(s.nonce);
      if source < 256 && dest < 256 && paid <= U128_MAX && received <= U128_MAX && rate <= U128_MAX && nonce <= U32_MAX
      then Some(Covered(s.id, source, dest, paid, received, rate, nonce))
      else None
  }

  /** The concatenation can be taken apart again: it determines every covered field. */
  lemma ParsePreimage(c: Covered)
    ensures Parse(Preimage(c)) == Some(c)
  {
    var b1 := c.id + Encode(c.sourcePilot, 1);
    var b2 := b1 + Encode(c.destPilot, 1);
    var b3 := b2 + Encode(c.amountSource, 16);
    var b4 := b3 + Encode(c.amountDest, 16);
    var b5 := b4 + Encode(c.exchangeRate, 16);
    Peel(c.id, Encode(c.sourcePilot, 1));
    Peel(b1, Encode(c.destPilot, 1));
    Peel(b2, Encode(c.amountSource, 16));
    Peel(b3, Encode(c.amountDest, 16));
    Peel(b4, Encode(c.exchangeRate, 16));
    Peel(b5, Encode(c.nonce, 4));
    DecodeFields(c);
  }

  lemma DecodeFields(c: Covered)
    ensures Decode(Encode(c.sourcePilot, 1)) == c.sourcePilot && Decode(Encode(c.destPilot, 1)) == c.destPilot
    ensures Decode(Encode(c.amountSource, 16)) == c.amountSource && Decode(Encode(c.amountDest, 16)) == c.amountDest
    ensures Decode(Encode(c.exchangeRate, 16)) == c.exchangeRate && Decode(Encode(c.nonce, 4)) == c.nonce
  {
    Widths();
    DecodeEncode(c.sourcePilot, 1);
    DecodeEncode(c.destPilot, 1);
    DecodeEncode(c.amountSource, 16);
    DecodeEncode(c.amountDest, 16);
    DecodeEncode(c.exchangeRate, 16);
    DecodeEncode(c.nonce, 4);
  }

  lemma PreimageInjective(c: Covered, d: Covered)
    ensures Preimage(c) == Preimage(d) <==> c == d
  {
    ParsePreimage(c);
    ParsePreimage(d);
  }

  ghost predicate Collision(sha: Bytes -> Id, x: Bytes, y: Bytes) {
    x != y && sha(x) == sha(y)
  }

  method ComputeOfflineTxHash(sha: Bytes -> Id, transaction: Transaction, nonce: u32) returns (hash: Id)
    ensures hash == sha(Preimage(Fields(transaction, nonce)))
  {
    var input: Bytes := [];
    input := input + transaction.id;
    assert input == transaction.id;
    input := input + Encode(transaction.sourcePilot, 1);
    input := input + Encode(transaction.destPilot, 1);
    input := input + Encode(transaction.amountSource, 16);
    input := input + Encode(transaction.amountDest, 16);
    input := input + Encode(transaction.exchangeRate, 16);
    input := input + Encode(nonce, 4);
    hash := sha(input);
  }

  function Created(sha: Bytes -> Id, now: u64, t: Transaction, signature: Bytes, key: Bytes, nonce: u32)
    : Result<OfflineTransaction, Error>
  {
    if signature == [] then Failure(EmptySignature)
    else if key == [] then Failure(EmptyPublicKey)
    else Success(OfflineTransaction(sha(Preimage(Fields(t, nonce))), t, signature, key, 0, now, None, nonce))
  }

  predicate Intact(sha: Bytes -> Id, tx: OfflineTransaction) {
    sha(Preimage(Fields(tx.transaction, tx.nonce))) == tx.hash
  }

  method VerifyTransactionIntegrity(sha: Bytes -> Id, tx: OfflineTransaction) returns (intact: bool)
    ensures intact <==> Intact(sha, tx)
  {
    var recomputed := ComputeOfflineTxHash(sha, tx.transaction, tx.nonce);
    intact := recomputed == tx.hash;
  }

  /** A created transaction whose contents were replaced while its hash was kept passes
      the check if and only if every covered field is unchanged, or the hash function
      has been seen to collide. Uncovered fields may differ freely. */
  lemma IntegrityIff(sha: Bytes -> Id, now: u64, t: Transaction, signature: Bytes, key: Bytes, nonce: u32,
                     changed: OfflineTransaction)
    requires signature != [] && key != []
    requires changed.hash == Created(sha, now, t, signature, key, nonce).value.hash
    ensures Intact(sha, changed) <==>
            || Fields(changed.transaction, changed.nonce) == Fields(t, nonce)
            || Collision(sha, Preimage(Fields(changed.transaction, changed.nonce)), Preimage(Fields(t, nonce)))
  {
    PreimageInjective(Fields(changed.transaction, changed.nonce), Fields(t, nonce));
  }

  // Batches

  function Concat(ids: seq<Id>): Bytes {
    if ids == [] then [] else ids[0] + Concat(ids[1..])
  }

  function Chunks(b: Bytes): seq<Id>
    decreases |b|
  {
    if |b| < 32 then [] else [b[..32]] + Chunks(b[32..])
  }

  lemma {:induction false} ChunksConcat(ids: seq<Id>)
    ensures Chunks(Concat(ids)) == ids
    decreases ids
  {
    if ids != [] {
      assert Concat(ids)[..32] == ids[0] && Concat(ids)[32..] == Concat(ids[1..]);
      ChunksConcat(ids[1..]);
    }
  }

  lemma {:induction false} ConcatSnoc(ids: seq<Id>, last: Id)
    ensures Concat(ids + [last]) == Concat(ids) + last
    decreases ids
  {
    if ids == [] {
      assert (ids + [last])[1..] == [];
    } else {
      assert (ids + [last])[1..] == ids[1..] + [last];
      ConcatSnoc(ids[1..], last);
    }
  }

  method ComputeBatchId(sha: Bytes -> Id, ids: seq<Id>) returns (batch: Id)
    ensures batch == sha(Concat(ids))
  {
    var input: Bytes := [];
    for i := 0 to |ids|
      invariant input == Concat(ids[..i])
    {
      ConcatSnoc(ids[..i], ids[i]);
      assert ids[..i + 1] == ids[..i] + [ids[i]];
      input := input + ids[i];
    }
    assert ids[..|ids|] == ids;
    batch := sha(input);
  }

  /** Two batches share an identifier only if they list the same transactions in the
      same order, or the hash function collides. */
  lemma BatchIdIff(sha: Bytes -> Id, xs: seq<Id>, ys: seq<Id>)
    ensures sha(Concat(xs)) == sha(Concat(ys)) <==> xs == ys || Collision(sha, Concat(xs), Concat(ys))
  {
    ChunksConcat(xs);
    ChunksConcat(ys);
  }
}
