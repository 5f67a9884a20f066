/** Merkle trees over an arbitrary combining function: levels are paired from the left
    and an odd last node is promoted unchanged. */
module MerkleTree {

  /** One step of an inclusion path. Position 0 means the sibling is on the left. */
  datatype Sibling<H> = Sibling(hash: H, position: nat)

  function NextLevel<H>(f: (H, H) -> H, hashes: seq<H>): (next: seq<H>)
    ensures |next| == (|hashes| + 1) / 2
  {
    if |hashes| < 2 then hashes
    else [f(hashes[0], hashes[1])] + NextLevel(f, hashes[2..])
  }

  function Root<H>(f: (H, H) -> H, hashes: seq<H>): H
    requires hashes != []
    decreases |hashes|
  {
    if |hashes| == 1 then hashes[0] else Root(f, NextLevel(f, hashes))
  }

  /** The siblings met on the way from leaf `i` to the root. */
  function Path<H>(f: (H, H) -> H, hashes: seq<H>, i: nat): seq<Sibling<H>>
    requires i < |hashes|
    decreases |hashes|
  {
    if |hashes| == 1 then []
    else
      var here := if i % 2 == 1 then [Sibling(hashes[i - 1], 0)]
                  else if i + 1 < |hashes| then [Sibling(hashes[i + 1], 1)]
                  else [];
      here + Path(f, NextLevel(f, hashes), i / 2)
  }

  function Climb<H>(f: (H, H) -> H, hash: H, path: seq<Sibling<H>>): H
    decreases path
  {
    if path == [] then hash
    else if path[0].position == 0 then Climb(f, f(path[0].hash, hash), path[1..])
    else Climb(f, f(hash, path[0].hash), path[1..])
  }

  lemma {:induction false} NextLevelAt<H>(f: (H, H) -> H, hashes: seq<H>, i: nat)
    requires i < |hashes|
    ensures NextLevel(f, hashes)[i / 2]
         == if i % 2 == 1 then f(hashes[i - 1], hashes[i])
            else if i + 1 < |hashes| then f(hashes[i], hashes[i + 1])
            else hashes[i]
    decreases hashes
  {
    if i >= 2 {
      var tail, rest := hashes[2..], NextLevel(f, hashes[2..]);
      NextLevelAt(f, tail, i - 2);
      assert (i - 2) / 2 == i / 2 - 1 && (i - 2) % 2 == i % 2;
      assert NextLevel(f, hashes)[i / 2] == rest[i / 2 - 1];
      assert i % 2 == 1 ==> tail[i - 3] == hashes[i - 1];
      assert i + 1 < |hashes| ==> tail[i - 1] == hashes[i + 1];
    }
  }

  /** Completeness: the path of every leaf leads to the root, whatever the combining
      function and however many leaves there are. */
  lemma {:induction false} PathReachesRoot<H>(f: (H, H) -> H, hashes: seq<H>, i: nat)
    requires i < |hashes|
    ensures Climb(f, hashes[i], Path(f, hashes, i)) == Root(f, hashes)
    decreases |hashes|
  {
    if |hashes| > 1 {
      NextLevelAt(f, hashes, i);
      PathReachesRoot(f, NextLevel(f, hashes), i / 2);
      var rest := Path(f, NextLevel(f, hashes), i / 2);
      if i % 2 == 1 {
        assert ([Sibling(hashes[i - 1], 0)] + rest)[1..] == rest;
      } else if i + 1 < |hashes| {
        assert ([Sibling(hashes[i + 1], 1)] + rest)[1..] == rest;
      } else {
        assert [] + rest == rest;
      }
    }
  }

  ghost predicate SameShape<H>(p: seq<Sibling<H>>, q: seq<Sibling<H>>) {
    |p| == |q| && forall k | 0 <= k < |p| :: (p[k].position == 0) == (q[k].position == 0)
  }

  ghost predicate SameHashes<H>(p: seq<Sibling<H>>, q: seq<Sibling<H>>) {
    |p| == |q| && forall k | 0 <= k < |p| :: p[k].hash == q[k].hash
  }

  /** What one step of an inclusion path combines. */
  function Operands<H>(hash: H, s: Sibling<H>): (H, H) {
    if s.position == 0 then (s.hash, hash) else (hash, s.hash)
  }

  function Combined<H>(f: (H, H) -> H, pair: (H, H)): H {
    f(pair.0, pair.1)
  }

  /** Two different climbs meet in a collision of `f` and go on alike from there. */
  ghost predicate Meet<H>(f: (H, H) -> H, a: H, p: seq<Sibling<H>>, b: H, q: seq<Sibling<H>>)
    requires |p| == |q|
    decreases p
  {
    p != [] &&
    var x, y := Operands(a, p[0]), Operands(b, q[0]);
    || (x != y && Combined(f, x) == Combined(f, y) && SameHashes(p[1..], q[1..]))
    || Meet(f, Combined(f, x), p[1..], Combined(f, y), q[1..])
  }

  lemma SameOperands<H>(a: H, p: seq<Sibling<H>>, b: H, q: seq<Sibling<H>>)
    requires SameShape(p, q) && p != []
    ensures Operands(a, p[0]) == Operands(b, q[0]) && SameHashes(p[1..], q[1..]) <==> a == b && SameHashes(p, q)
  {
    if Operands(a, p[0]) == Operands(b, q[0]) && SameHashes(p[1..], q[1..]) {
      forall k | 0 <= k < |p| ensures p[k].hash == q[k].hash {
        assert k > 0 ==> p[k] == p[1..][k - 1] && q[k] == q[1..][k - 1];
      }
    }
  }

  /** Two climbs of the same shape end alike if and only if they are the same or meet in
      a collision. */
  lemma {:induction false} ClimbsAgreeIff<H>(f: (H, H) -> H, a: H, p: seq<Sibling<H>>, b: H, q: seq<Sibling<H>>)
    requires SameShape(p, q)
    ensures Climb(f, a, p) == Climb(f, b, q) <==> (a == b && SameHashes(p, q)) || Meet(f, a, p, b, q)
    decreases p
  {
    if p != [] {
      SameOperands(a, p, b, q);
      ClimbsAgreeIff(f, Combined(f, Operands(a, p[0])), p[1..], Combined(f, Operands(b, q[0])), q[1..]);
    }
  }

  /** Binding: a path shaped like that of leaf `i` is accepted if and only if leaf and
      siblings are the tree's own, or it shows two different pairs that `f` combines alike. */
  lemma PathBindsLeaf<H>(f: (H, H) -> H, hashes: seq<H>, i: nat, hash: H, path: seq<Sibling<H>>)
    requires i < |hashes| && SameShape(path, Path(f, hashes, i))
    ensures Climb(f, hash, path) == Root(f, hashes) <==>
            || (hash == hashes[i] && SameHashes(path, Path(f, hashes, i)))
            || Meet(f, hash, path, hashes[i], Path(f, hashes, i))
  {
    PathReachesRoot(f, hashes, i);
    ClimbsAgreeIff(f, hash, path, hashes[i], Path(f, hashes, i));
  }

  ghost predicate Associative<H(!new)>(f: (H, H) -> H) {
    forall a, b, c :: f(f(a, b), c) == f(a, f(b, c))
  }

  /** The hashes combined one after the other, nested to the right, with no tree. */
  function Fold<H>(f: (H, H) -> H, hashes: seq<H>): H
    requires hashes != []
  {
    if |hashes| == 1 then hashes[0] else f(hashes[0], Fold(f, hashes[1..]))
  }

  lemma {:induction false} FoldNextLevel<H(!new)>(f: (H, H) -> H, hashes: seq<H>)
    requires Associative(f) && hashes != []
    ensures Fold(f, NextLevel(f, hashes)) == Fold(f, hashes)
    decreases hashes
  {
    if |hashes| > 2 {
      FoldNextLevel(f, hashes[2..]);
      assert NextLevel(f, hashes)[1..] == NextLevel(f, hashes[2..]);
      assert hashes[1..][1..] == hashes[2..];
    }
  }

  /** With an associative combining function the tree shape does not matter. */
  lemma {:induction false} RootIsFold<H(!new)>(f: (H, H) -> H, hashes: seq<H>)
    requires Associative(f) && hashes != []
    ensures Root(f, hashes) == Fold(f, hashes)
    decreases |hashes|
  {
    if |hashes| > 1 {
      FoldNextLevel(f, hashes);
      RootIsFold(f, NextLevel(f, hashes));
    }
  }
}

/** The proof builder and the inclusion check, with the byte-wise combination they use. */
module Disclosure {
  import opened Common
  import opened MerkleTree

  type Hash = h: seq<bv8> | |h| == 32 witness seq(32, _ => 0)

  const ZERO: Hash :=
    [0, 0, 0, 0, 0, 0, 0, 0, 0, 0, 0, 0, 0, 0, 0, 0,
     0, 0, 0, 0, 0, 0, 0, 0, 0, 0, 0, 0, 0, 0, 0, 0]

  datatype FieldHash = FieldHash(name: Symbol, hash: Hash, disclosed: bool)

  datatype FieldProof = FieldProof(name: Symbol, hash: Hash, siblings: seq<Hash>, positions: seq<u32>)

  datatype DisclosureProof = DisclosureProof(
    eventIndex: u32, disclosedRoot: Hash, completeRoot: Hash, disclosedFields: seq<Symbol>, merkleProof: seq<Hash>)

  datatype ProofError = MissingPosition

  function Xor(left: Hash, right: Hash): Hash {
    seq(32, i requires 0 <= i < 32 => left[i] ^ right[i])
  }

  method CombineHashes(left: Hash, right: Hash) returns (combined: Hash)
    ensures combined == Xor(left, right)
  {
    var result := new bv8[32](_ => 0);
    for i := 0 to 32
      invariant forall j | 0 <= j < i :: result[j] == left[j] ^ right[j]
    {
      result[i] := left[i] ^ right[i];
    }
    combined := result[..];
  }

  function Hashes(fields: seq<FieldHash>): seq<Hash> {
    seq(|fields|, i requires 0 <= i < |fields| => fields[i].hash)
  }

  function TreeRoot(hashes: seq<Hash>): Hash {
    if hashes == [] then ZERO else Root(Xor, hashes)
  }

  /** One level up: neighbours are combined, an odd last hash is promoted. */
  method CombineLevel(hashes: seq<Hash>) returns (nextLevel: seq<Hash>)
    ensures nextLevel == NextLevel(Xor, hashes)
  {
    nextLevel := [];
    var i := 0;
    while i < |hashes|
      invariant 0 <= i <= |hashes|
      invariant NextLevel(Xor, hashes) == nextLevel + NextLevel(Xor, hashes[i..])
    {
      if i + 1 < |hashes| {
        var combined := CombineHashes(hashes[i], hashes[i + 1]);
        ghost var rest := NextLevel(Xor, hashes[i + 2..]);
        assert NextLevel(Xor, hashes[i..]) == [combined] + rest by {
          assert hashes[i..][2..] == hashes[i + 2..];
        }
        assert nextLevel + ([combined] + rest) == (nextLevel + [combined]) + rest;
        nextLevel := nextLevel + [combined];
        i := i + 2;
      } else {
        assert NextLevel(Xor, hashes[i..]) == [hashes[i]] by {
          assert hashes[i..] == [hashes[i]];
        }
        assert NextLevel(Xor, hashes[i + 1..]) == [];
        nextLevel := nextLevel + [hashes[i]];
        i := i + 1;
      }
    }
  }

  datatype ProofBuilder = ProofBuilder(allFields: seq<FieldHash>, disclosedFields: seq<Symbol>) {

    function AddField(name: Symbol, hash: Hash, disclosed: bool): ProofBuilder {
      ProofBuilder(allFields + [FieldHash(name, hash, disclosed)],
                   if disclosed then disclosedFields + [name] else disclosedFields)
    }

    /** The level-by-level loop computes the root of the leaves' hashes. */
    method CalculateRoot() returns (root: Hash)
      ensures root == TreeRoot(Hashes(allFields))
    {
      if allFields == [] {
        return ZERO;
      }
      var hashes: seq<Hash> := [];
      for k := 0 to |allFields|
        invariant hashes == Hashes(allFields)[..k]
      {
        hashes := hashes + [allFields[k].hash];
      }
      assert hashes == Hashes(allFields);
      ghost var want := TreeRoot(hashes);
      while |hashes| > 1
        invariant hashes != []
        invariant Root(Xor, hashes) == want
        decreases |hashes|
      {
        var nextLevel := CombineLevel(hashes);
        hashes := nextLevel;
      }
      root := hashes[0];
    }
  }

  function FirstSteps(proof: FieldProof, n: nat): seq<Sibling<Hash>>
    requires n <= |proof.siblings| && n <= |proof.positions|
  {
    seq(n, i requires 0 <= i < n => Sibling(proof.siblings[i], proof.positions[i]))
  }

  /** The sibling path a field proof spells out; `None` when a position is missing. */
  function PathOf(proof: FieldProof): Option<seq<Sibling<Hash>>> {
    if |proof.positions| < |proof.siblings| then None
    else Some(FirstSteps(proof, |proof.siblings|))
  }

  lemma {:induction false} ClimbSnoc(hash: Hash, path: seq<Sibling<Hash>>, last: Sibling<Hash>)
    ensures Climb(Xor, hash, path + [last])
         == if last.position == 0 then Xor(last.hash, Climb(Xor, hash, path)) else Xor(Climb(Xor, hash, path), last.hash)
    decreases path
  {
    if path != [] {
      assert (path + [last])[1..] == path[1..] + [last];
      ClimbSnoc(if path[0].position == 0 then Xor(path[0].hash, hash) else Xor(hash, path[0].hash), path[1..], last);
    } else {
      assert (path + [last])[1..] == [];
    }
  }

  /** Accepts exactly the proofs whose path climbs to the expected root; a proof with
      fewer positions than siblings aborts. */
  method VerifyFieldInclusion(proof: FieldProof, expectedRoot: Hash) returns (valid: Result<bool, ProofError>)
    ensures match PathOf(proof)
            case Some(path) => valid == Success(Climb(Xor, proof.hash, path) == expectedRoot)
            case None => valid == Failure(MissingPosition)
  {
    var current := proof.hash;
    for i := 0 to |proof.siblings|
      invariant |proof.positions| >= i
      invariant current == Climb(Xor, proof.hash, FirstSteps(proof, i))
    {
      if i >= |proof.positions| {
        return Failure(MissingPosition);
      }
      var sibling, position := proof.siblings[i], proof.positions[i];
      ClimbSnoc(proof.hash, FirstSteps(proof, i), Sibling(sibling, position));
      assert FirstSteps(proof, i + 1) == FirstSteps(proof, i) + [Sibling(sibling, position)];
      if position == 0 {
        current := CombineHashes(sibling, current);
      } else {
        current := CombineHashes(current, sibling);
      }
    }
    valid := Success(current == expectedRoot);
  }

  method CreateDisclosureProof(eventIndex: u32, allFields: seq<FieldHash>, disclosedFields: seq<Symbol>, completeRoot: Hash)
    returns (proof: DisclosureProof)
    ensures proof == DisclosureProof(eventIndex, TreeRoot(Hashes(allFields)), completeRoot, disclosedFields, [])
  {
    var builder := ProofBuilder([], []);
    for k := 0 to |allFields|
      invariant Hashes(builder.allFields) == Hashes(allFields)[..k]
    {
      var field := allFields[k];
      builder := builder.AddField(field.name, field.hash, field.name in disclosedFields);
    }
    assert Hashes(builder.allFields) == Hashes(allFields);
    var root := builder.CalculateRoot();
    proof := DisclosureProof(eventIndex, root, completeRoot, disclosedFields, []);
  }

  predicate VerifyDisclosureProof(proof: DisclosureProof) {
    proof.disclosedFields != [] && proof.disclosedRoot != ZERO
  }

  function SiblingHashes(path: seq<Sibling<Hash>>): seq<Hash> {
    seq(|path|, k requires 0 <= k < |path| => path[k].hash)
  }

  function SiblingBits(path: seq<Sibling<Hash>>): seq<u32> {
    seq(|path|, k requires 0 <= k < |path| => if path[k].position == 0 then 0 else 1)
  }

  /** The field proof for leaf `i` read off the levels of the tree. */
  function ProofFor(fields: seq<FieldHash>, i: nat): FieldProof
    requires i < |fields|
  {
    FieldProof(fields[i].name, fields[i].hash,
               SiblingHashes(Path(Xor, Hashes(fields), i)), SiblingBits(Path(Xor, Hashes(fields), i)))
  }

  lemma {:induction false} PositionsAreBits<H>(f: (H, H) -> H, hashes: seq<H>, i: nat)
    requires i < |hashes|
    ensures forall s <- Path(f, hashes, i) :: s.position <= 1
    decreases |hashes|
  {
    if |hashes| > 1 {
      PositionsAreBits(f, NextLevel(f, hashes), i / 2);
    }
  }

  /** Every field of every event passes the code's own inclusion check. */
  lemma EveryFieldIsProvable(fields: seq<FieldHash>, i: nat)
    requires i < |fields|
    ensures var proof := ProofFor(fields, i);
            PathOf(proof).Some? && Climb(Xor, proof.hash, PathOf(proof).value) == TreeRoot(Hashes(fields))
  {
    PathReachesRoot(Xor, Hashes(fields), i);
    PositionsAreBits(Xor, Hashes(fields), i);
    assert PathOf(ProofFor(fields, i)).value == Path(Xor, Hashes(fields), i);
  }

  // Byte-wise exclusive or

  lemma XorLaws(a: Hash, b: Hash, c: Hash)
    ensures Xor(Xor(a, b), c) == Xor(a, Xor(b, c)) && Xor(a, b) == Xor(b, a)
    ensures Xor(a, ZERO) == a && Xor(a, a) == ZERO
  {
    forall i | 0 <= i < 32
      ensures Xor(Xor(a, b), c)[i] == Xor(a, Xor(b, c))[i] && Xor(a, b)[i] == Xor(b, a)[i]
      ensures Xor(a, ZERO)[i] == a[i] && Xor(a, a)[i] == ZERO[i]
    {
      ByteLaws(a[i], b[i], c[i]);
    }
  }

  lemma ByteLaws(x: bv8, y: bv8, z: bv8)
    ensures (x ^ y) ^ z == x ^ (y ^ z) && x ^ y == y ^ x && x ^ 0 == x && x ^ x == 0
  {
  }

  function XorAll(hashes: seq<Hash>): Hash {
    if hashes == [] then ZERO else Xor(hashes[0], XorAll(hashes[1..]))
  }

  lemma {:induction false} FoldIsXorAll(hashes: seq<Hash>)
    requires hashes != []
    ensures Fold(Xor, hashes) == XorAll(hashes)
    decreases hashes
  {
    if |hashes| == 1 {
      assert hashes[1..] == [];
      XorLaws(hashes[0], ZERO, ZERO);
    } else {
      FoldIsXorAll(hashes[1..]);
    }
  }

  /** The tree root is the exclusive or of the leaves: the levels refine one flat fold. */
  lemma TreeRootIsXor(hashes: seq<Hash>)
    ensures TreeRoot(hashes) == XorAll(hashes)
  {
    if hashes != [] {
      forall a, b, c ensures Xor(Xor(a, b), c) == Xor(a, Xor(b, c)) {
        XorLaws(a, b, c);
      }
      RootIsFold(Xor, hashes);
      FoldIsXorAll(hashes);
    }
  }

  /** Reordering the leaves in any way leaves the root alone. */
  lemma RootIgnoresOrder(xs: seq<Hash>, ys: seq<Hash>)
    requires multiset(xs) == multiset(ys)
    ensures TreeRoot(xs) == TreeRoot(ys)
  {
    TreeRootIsXor(xs);
    TreeRootIsXor(ys);
    XorAllPermuted(xs, ys);
  }

  lemma {:induction false} XorAllFront(before: seq<Hash>, a: Hash, after: seq<Hash>)
    ensures XorAll(before + [a] + after) == Xor(a, XorAll(before + after))
    decreases before
  {
    if before == [] {
      assert before + [a] + after == [a] + after && before + after == after;
    } else {
      var b, rest := before[0], XorAll(before[1..] + after);
      assert (before + [a] + after)[1..] == before[1..] + [a] + after && (before + after)[1..] == before[1..] + after;
      XorAllFront(before[1..], a, after);
      XorLaws(b, a, rest);
      XorLaws(a, b, rest);
    }
  }

  lemma DropShared<T>(xs: seq<T>, before: seq<T>, after: seq<T>)
    requires xs != [] && multiset(xs) == multiset(before + [xs[0]] + after)
    ensures multiset(xs[1..]) == multiset(before + after)
  {
    assert xs == [xs[0]] + xs[1..];
    assert multiset(xs[1..]) == multiset(xs) - multiset{xs[0]};
    assert multiset(before + after) == multiset(before + [xs[0]] + after) - multiset{xs[0]};
  }

  lemma {:induction false} XorAllPermuted(xs: seq<Hash>, ys: seq<Hash>)
    requires multiset(xs) == multiset(ys)
    ensures XorAll(xs) == XorAll(ys)
    decreases xs
  {
    if xs == [] {
      assert |ys| == |multiset(ys)| == |multiset(xs)| == 0;
    } else {
      assert xs[0] in multiset(ys);
      var i :| 0 <= i < |ys| && ys[i] == xs[0];
      var before, after := ys[..i], ys[i + 1..];
      assert ys == before + [xs[0]] + after;
      DropShared(xs, before, after);
      XorAllPermuted(xs[1..], before + after);
      XorAllFront(before, xs[0], after);
    }
  }

  /** With this combination the positions carry no information: the inclusion check
      asks only that leaf and siblings add up to the root. */
  lemma {:induction false} ClimbIsXor(hash: Hash, path: seq<Sibling<Hash>>)
    ensures Climb(Xor, hash, path) == Xor(hash, XorAll(SiblingHashes(path)))
    decreases path
  {
    var all := SiblingHashes(path);
    if path == [] {
      XorLaws(hash, hash, hash);
    } else {
      var s := path[0].hash;
      assert all[1..] == SiblingHashes(path[1..]);
      XorLaws(s, hash, s);
      XorLaws(hash, s, XorAll(all[1..]));
      ClimbIsXor(Xor(hash, s), path[1..]);
    }
  }

  /** So the inclusion check binds nothing: for every leaf and every root some one-step
      proof is accepted, and for every path whatever there is exactly one leaf that passes. */
  lemma InclusionBindsNothing(name: Symbol, hash: Hash, root: Hash, path: seq<Sibling<Hash>>)
    ensures Climb(Xor, hash, PathOf(FieldProof(name, hash, [Xor(hash, root)], [1])).value) == root
    ensures Climb(Xor, hash, path) == root <==> hash == Xor(root, XorAll(SiblingHashes(path)))
  {
    var proof := FieldProof(name, hash, [Xor(hash, root)], [1]);
    assert PathOf(proof).value == [Sibling(Xor(hash, root), 1)];
    assert PathOf(proof).value[1..] == [];
    Cancel(hash, root);
    var rest := XorAll(SiblingHashes(path));
    ClimbIsXor(hash, path);
    XorLaws(hash, rest, rest);
    XorLaws(root, rest, rest);
    XorLaws(rest, rest, rest);
  }

  lemma Cancel(a: Hash, b: Hash)
    ensures Xor(a, Xor(a, b)) == b
  {
    XorLaws(a, a, b);
    XorLaws(ZERO, b, b);
    XorLaws(b, ZERO, b);
  }

  /** What `CreateDisclosureProof` followed by `VerifyDisclosureProof` accepts: the root
      covers every field, disclosed or not, and an event whose field hashes cancel out
      is rejected. */
  lemma DisclosureVerifies(index: u32, fields: seq<FieldHash>, disclosed: seq<Symbol>, complete: Hash)
    ensures var proof := DisclosureProof(index, TreeRoot(Hashes(fields)), complete, disclosed, []);
            VerifyDisclosureProof(proof) <==> disclosed != [] && XorAll(Hashes(fields)) != ZERO
  {
    TreeRootIsXor(Hashes(fields));
  }
}
