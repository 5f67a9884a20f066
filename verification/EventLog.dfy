/** The hash-chained event log: appending, in-place update with re-chaining, verification. */
module EventLog {
  import opened Common

  /** A 32-byte digest; only equality matters. */
  type Digest(==, !new)

  /** The digests the ledger computes: of metadata, of an event's content together with
      its index, and of an event's place in the chain. `genesis` is the all-zero digest. */
  datatype Hashing = Hashing(
    genesis: Digest,
    sha: Bytes -> Digest,
    eventId: (Address, Symbol, Bytes, u64, u32) -> Digest,
    link: (Digest, Digest, u32, u64) -> Digest)

  datatype Event = Event(
    timestamp: u64, eventType: Symbol, category: Symbol, submitter: Address, metadata: Bytes, parent: Option<Digest>)

  datatype Entry = Entry(id: Digest, event: Event, prevHash: Digest, eventHash: Digest)

  type Log = s: seq<Entry> | |s| <= U32_MAX

  function HashBefore(h: Hashing, log: Log, i: nat): Digest
    requires i <= |log|
  {
    if i == 0 then h.genesis else log[i - 1].eventHash
  }

  predicate Linked(h: Hashing, log: Log, i: nat)
    requires i < |log|
  {
    && log[i].prevHash == HashBefore(h, log, i)
    && log[i].eventHash == h.link(log[i].id, log[i].prevHash, i, log[i].event.timestamp)
  }

  predicate ChainValid(h: Hashing, log: Log) {
    forall i | 0 <= i < |log| :: Linked(h, log, i)
  }

  predicate RangeValid(h: Hashing, log: Log, from: nat, to: nat) {
    && from <= |log| && (from < to ==> to <= |log|)
    && forall i | from <= i < to :: Linked(h, log, i)
  }

  /** Accepts exactly the ranges whose events exist and are linked to their predecessors. */
  method VerifyRange(h: Hashing, log: Log, from: u32, to: u32) returns (valid: bool)
    ensures valid <==> RangeValid(h, log, from, to)
  {
    var expected := h.genesis;
    if from > 0 {
      if from - 1 >= |log| {
        return false;
      }
      expected := log[from - 1].eventHash;
    }
    var i: nat := from;
    while i < to
      invariant from <= i && from <= |log| && (from < i ==> i <= |log| && i <= to)
      invariant i <= |log| ==> expected == HashBefore(h, log, i)
      invariant forall j | from <= j < i :: Linked(h, log, j)
    {
      if i >= |log| {
        return false;
      }
      var entry := log[i];
      if entry.prevHash != expected {
        assert !Linked(h, log, i);
        return false;
      }
      if entry.eventHash != h.link(entry.id, entry.prevHash, i, entry.event.timestamp) {
        assert !Linked(h, log, i);
        return false;
      }
      expected := entry.eventHash;
      i := i + 1;
    }
    valid := true;
  }

  function Relink(h: Hashing, log: Log, i: u32): Entry
    requires i < |log|
  {
    var prev := HashBefore(h, log, i);
    log[i].(prevHash := prev, eventHash := h.link(log[i].id, prev, i, log[i].event.timestamp))
  }

  /** Relinking every entry from `i` on, in order. */
  function Rechain(h: Hashing, log: Log, i: nat): (chained: Log)
    ensures |chained| == |log|
    decreases |log| - i
  {
    if i >= |log| then log else Rechain(h, log[i := Relink(h, log, i)], i + 1)
  }

  function Reparented(entry: Entry, from: Digest, to: Digest): Entry {
    if entry.event.parent == Some(from) then entry.(event := entry.event.(parent := Some(to))) else entry
  }

  function Reparent(log: Log, from: Digest, to: Digest): Log {
    seq(|log|, i requires 0 <= i < |log| => Reparented(log[i], from, to))
  }

  /** The digest of an event's content and index. */
  function IdOf(h: Hashing, e: Event, index: u32): Digest {
    h.eventId(e.submitter, e.eventType, e.metadata, e.timestamp, index)
  }

  /** The log with another event at `index`, under its own id, relinked from there on. */
  function Replace(h: Hashing, log: Log, index: u32, event: Event): (replaced: Log)
    requires index < |log|
    ensures |replaced| == |log|
  {
    Rechain(h, log[index := Entry(IdOf(h, event, index), event, log[index].prevHash, log[index].eventHash)], index)
  }

  /** The log with new metadata in place: the event gets a new id, is relinked together
      with all later ones, and children of the old id follow to the new one. */
  function Update(h: Hashing, log: Log, index: u32, metadata: Bytes): (updated: Log)
    requires index < |log|
    ensures |updated| == |log|
  {
    var event := log[index].event.(metadata := metadata);
    if IdOf(h, event, index) == log[index].id then log
    else Reparent(Replace(h, log, index, event), log[index].id, IdOf(h, event, index))
  }

  /** The log with an earlier version of an event in place. Children keep pointing at the
      id they point at. */
  function Restore(h: Hashing, log: Log, index: u32, event: Event): (restored: Log)
    requires index < |log|
    ensures |restored| == |log|
  {
    if IdOf(h, event, index) == log[index].id then log else Replace(h, log, index, event)
  }

  /** The loop of both entry points: every entry after `index` is linked anew, in order. */
  method RelinkLater(h: Hashing, log: Log, index: u32) returns (updated: Log)
    requires index < |log|
    ensures updated == Rechain(h, log, index + 1)
  {
    updated := log;
    ghost var chained := Rechain(h, log, index + 1);
    var i, next := index + 1, log[index].eventHash;
    while i < |log|
      invariant index < i <= |log| == |updated|
      invariant Rechain(h, updated, i) == chained
      invariant next == updated[i - 1].eventHash
    {
      var later := updated[i];
      later := later.(prevHash := next);
      later := later.(eventHash := h.link(later.id, later.prevHash, i, later.event.timestamp));
      updated := updated[i := later];
      next := later.eventHash;
      i := i + 1;
    }
  }

  /** Puts another event at `index`, links it, and links the later ones. */
  method ReplaceEvent(h: Hashing, log: Log, index: u32, event: Event) returns (updated: Log)
    requires index < |log|
    ensures updated == Replace(h, log, index, event)
  {
    var id := h.eventId(event.submitter, event.eventType, event.metadata, event.timestamp, index);
    var prevHash := h.genesis;
    if index > 0 {
      prevHash := log[index - 1].eventHash;
    }
    var eventHash := h.link(id, prevHash, index, event.timestamp);
    ghost var replaced: Log := log[index := Entry(id, event, log[index].prevHash, log[index].eventHash)];
    updated := log[index := Entry(id, event, prevHash, eventHash)];
    assert replaced[index := Relink(h, replaced, index)] == updated;
    updated := RelinkLater(h, updated, index);
  }

  method UpdateEvent(h: Hashing, log: Log, index: u32, metadata: Bytes) returns (updated: Log)
    requires index < |log|
    ensures updated == Update(h, log, index, metadata)
  {
    var current := log[index];
    var newId := h.eventId(current.event.submitter, current.event.eventType, metadata, current.event.timestamp, index);
    if newId == current.id {
      return log;
    }
    updated := ReplaceEvent(h, log, index, current.event.(metadata := metadata));
    ghost var chained := updated;
    var i := 0;
    while i < |log|
      invariant 0 <= i <= |log| == |updated| == |chained|
      invariant forall j | 0 <= j < i :: updated[j] == Reparented(chained[j], current.id, newId)
      invariant forall j | i <= j < |log| :: updated[j] == chained[j]
    {
      var entry := updated[i];
      if entry.event.parent.Some? && entry.event.parent.value == current.id {
        updated := updated[i := entry.(event := entry.event.(parent := Some(newId)))];
      }
      i := i + 1;
    }
    assert updated == Reparent(chained, current.id, newId);
  }

  method RestoreEvent(h: Hashing, log: Log, index: u32, event: Event) returns (restored: Log)
    requires index < |log|
    ensures restored == Restore(h, log, index, event)
  {
    var newId := h.eventId(event.submitter, event.eventType, event.metadata, event.timestamp, index);
    if newId == log[index].id {
      return log;
    }
    restored := ReplaceEvent(h, log, index, event);
  }

  /** A new entry at the end of the log. */
  function Append(h: Hashing, log: Log, e: Event): Log
    requires |log| < U32_MAX
  {
    var id := h.eventId(e.submitter, e.eventType, e.metadata, e.timestamp, |log|);
    var prev := HashBefore(h, log, |log|);
    log + [Entry(id, e, prev, h.link(id, prev, |log|, e.timestamp))]
  }

  lemma {:induction false} RechainShape(h: Hashing, log: Log, i: nat)
    requires i <= |log|
    ensures var r := Rechain(h, log, i);
            && |r| == |log| && r[..i] == log[..i]
            && (forall k | i <= k < |r| :: Linked(h, r, k))
            && (forall k | 0 <= k < |r| :: r[k].id == log[k].id && r[k].event == log[k].event)
    decreases |log| - i
  {
    if i < |log| {
      var next: Log := log[i := Relink(h, log, i)];
      RechainShape(h, next, i + 1);
      var r := Rechain(h, log, i);
      assert r[i] == r[..i + 1][i] == next[i];
      assert HashBefore(h, r, i) == HashBefore(h, log, i) by {
        if i > 0 {
          assert r[i - 1] == r[..i + 1][i - 1] == next[i - 1];
        }
      }
      assert r[..i] == r[..i + 1][..i] == next[..i + 1][..i];
    }
  }

  /** Replacing an event keeps all other events and ids, and every earlier hash. */
  lemma ReplaceFrame(h: Hashing, log: Log, index: u32, event: Event, k: nat)
    requires index < |log| && k < |log|
    ensures var r := Replace(h, log, index, event);
            && r[k].event == (if k == index then event else log[k].event)
            && r[k].id == (if k == index then IdOf(h, event, index) else log[k].id)
            && (k < index ==> r[k] == log[k])
  {
    var replaced: Log := log[index := Entry(IdOf(h, event, index), event, log[index].prevHash, log[index].eventHash)];
    RechainShape(h, replaced, index);
    if k < index {
      assert Rechain(h, replaced, index)[k] == Rechain(h, replaced, index)[..index][k] == replaced[..index][k] == log[k];
    }
  }

  /** Updating keeps everything of an event but its own metadata, its parent pointer and
      its place in the chain; the other events keep their metadata and ids. */
  lemma UpdateFrame(h: Hashing, log: Log, index: u32, metadata: Bytes, k: nat)
    requires index < |log| && k < |log|
    ensures var e, e' := log[k].event, Update(h, log, index, metadata)[k].event;
            && |Update(h, log, index, metadata)| == |log|
            && e' == e.(metadata := e'.metadata, parent := e'.parent)
            && (k != index ==> e'.metadata == e.metadata && Update(h, log, index, metadata)[k].id == log[k].id)
            && (k < index ==> Update(h, log, index, metadata)[k].eventHash == log[k].eventHash)
    ensures var id := IdOf(h, log[index].event.(metadata := metadata), index);
            id != log[index].id ==>
              Update(h, log, index, metadata)[index].id == id && Update(h, log, index, metadata)[index].event.metadata == metadata
  {
    ReplaceFrame(h, log, index, log[index].event.(metadata := metadata), k);
    ReplaceFrame(h, log, index, log[index].event.(metadata := metadata), index);
  }

  /** Restoring a version puts exactly its event in place and touches no other event. */
  lemma RestoreFrame(h: Hashing, log: Log, index: u32, event: Event, k: nat)
    requires index < |log| && k < |log|
    ensures var e' := Restore(h, log, index, event)[k].event;
            e' == if k == index && IdOf(h, event, index) != log[index].id then event else log[k].event
    ensures k != index ==> Restore(h, log, index, event)[k].id == log[k].id
    ensures k < index ==> Restore(h, log, index, event)[k] == log[k]
  {
    ReplaceFrame(h, log, index, event, k);
  }

  lemma ReplaceChainIff(h: Hashing, log: Log, index: u32, event: Event)
    requires index < |log|
    ensures ChainValid(h, Replace(h, log, index, event)) <==> RangeValid(h, log, 0, index)
  {
    var replaced: Log := log[index := Entry(IdOf(h, event, index), event, log[index].prevHash, log[index].eventHash)];
    RechainShape(h, replaced, index);
    var chained := Rechain(h, replaced, index);
    forall i | 0 <= i < index ensures Linked(h, chained, i) <==> Linked(h, log, i) {
      assert chained[i] == chained[..index][i] == log[i];
      assert i > 0 ==> chained[i - 1] == chained[..index][i - 1] == log[i - 1];
    }
    if ChainValid(h, chained) {
      forall i | 0 <= i < index ensures Linked(h, log, i) {
        assert Linked(h, chained, i);
      }
    }
  }

  lemma ReparentChainIff(h: Hashing, log: Log, from: Digest, to: Digest)
    ensures ChainValid(h, Reparent(log, from, to)) <==> ChainValid(h, log)
  {
    var after := Reparent(log, from, to);
    forall i | 0 <= i < |log| ensures Linked(h, after, i) <==> Linked(h, log, i) {
    }
    if ChainValid(h, after) {
      forall i | 0 <= i < |log| ensures Linked(h, log, i) {
        assert Linked(h, after, i);
      }
    }
  }

  /** Tamper evidence survives an update: unless it is a no-op, the chain verifies
      afterwards if and only if it verified up to the updated event. */
  lemma UpdateChainIff(h: Hashing, log: Log, index: u32, metadata: Bytes)
    requires index < |log| && IdOf(h, log[index].event.(metadata := metadata), index) != log[index].id
    ensures ChainValid(h, Update(h, log, index, metadata)) <==> RangeValid(h, log, 0, index)
  {
    var event := log[index].event.(metadata := metadata);
    ReplaceChainIff(h, log, index, event);
    ReparentChainIff(h, Replace(h, log, index, event), log[index].id, IdOf(h, event, index));
  }

  lemma UpdateKeepsChain(h: Hashing, log: Log, index: u32, metadata: Bytes)
    requires index < |log| && ChainValid(h, log)
    ensures ChainValid(h, Update(h, log, index, metadata))
  {
    if IdOf(h, log[index].event.(metadata := metadata), index) != log[index].id {
      UpdateChainIff(h, log, index, metadata);
    }
  }

  lemma RestoreKeepsChain(h: Hashing, log: Log, index: u32, event: Event)
    requires index < |log| && ChainValid(h, log)
    ensures ChainValid(h, Restore(h, log, index, event))
  {
    ReplaceChainIff(h, log, index, event);
  }

  /** Every id is the digest of the content stored under it. */
  predicate IdsMatch(h: Hashing, log: Log) {
    forall i | 0 <= i < |log| :: log[i].id == IdOf(h, log[i].event, i)
  }

  /** Two contents of one event that differ in their metadata only share an id. */
  predicate IdCollision(h: Hashing, e: Event, index: u32, metadata: Bytes) {
    metadata != e.metadata && IdOf(h, e.(metadata := metadata), index) == IdOf(h, e, index)
  }

  /** No content shares its id with the same content without metadata. */
  ghost predicate BindsEmpty(h: Hashing) {
    forall a, t, m, ts, i :: h.eventId(a, t, m, ts, i) == h.eventId(a, t, [], ts, i) ==> m == []
  }

  lemma UpdateKeepsIds(h: Hashing, log: Log, index: u32, metadata: Bytes)
    requires index < |log| && IdsMatch(h, log)
    ensures IdsMatch(h, Update(h, log, index, metadata))
  {
    var after := Update(h, log, index, metadata);
    forall k | 0 <= k < |after| ensures after[k].id == IdOf(h, after[k].event, k) {
      UpdateFrame(h, log, index, metadata, k);
    }
  }

  lemma RestoreKeepsIds(h: Hashing, log: Log, index: u32, event: Event)
    requires index < |log| && IdsMatch(h, log)
    ensures IdsMatch(h, Restore(h, log, index, event))
  {
    var after := Restore(h, log, index, event);
    forall k | 0 <= k < |after| ensures after[k].id == IdOf(h, after[k].event, k) {
      ReplaceFrame(h, log, index, event, k);
    }
  }

  /** The metadata is really replaced, unless the update was skipped over an id that
      collides with the one in place. */
  lemma UpdateSetsMetadata(h: Hashing, log: Log, index: u32, metadata: Bytes)
    requires index < |log| && IdsMatch(h, log)
    ensures Update(h, log, index, metadata)[index].event.metadata == metadata <==>
            !IdCollision(h, log[index].event, index, metadata)
  {
    UpdateFrame(h, log, index, metadata, index);
  }

  /** Appending keeps the chain as it is, valid or not. */
  lemma AppendKeepsChain(h: Hashing, log: Log, e: Event)
    requires |log| < U32_MAX
    ensures ChainValid(h, Append(h, log, e)) <==> ChainValid(h, log)
  {
    var after := Append(h, log, e);
    forall i | 0 <= i < |log| ensures Linked(h, after, i) <==> Linked(h, log, i) {
      assert after[i] == log[i] && (i > 0 ==> after[i - 1] == log[i - 1]);
    }
    if ChainValid(h, after) {
      forall i | 0 <= i < |log| ensures Linked(h, log, i) {
        assert Linked(h, after, i);
      }
    }
  }

  lemma AppendKeepsIds(h: Hashing, log: Log, e: Event)
    requires |log| < U32_MAX
    ensures IdsMatch(h, Append(h, log, e)) <==> IdsMatch(h, log)
  {
    var after := Append(h, log, e);
    if IdsMatch(h, after) {
      forall i | 0 <= i < |log| ensures log[i].id == IdOf(h, log[i].event, i) {
        assert after[i] == log[i];
      }
    }
  }
}
