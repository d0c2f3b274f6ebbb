/**
 * Last-writer-wins resolution of synchronised records. Timestamps and device
 * ids stand for their rank in string order.
 */
module Sync {

  datatype SyncRecord = SyncRecord(version: int, updatedAt: int, deviceId: int, payload: string)

  function ResolveScalarConflict(local: SyncRecord, remote: SyncRecord): SyncRecord {
    if remote.version != local.version then (if remote.version > local.version then remote else local)
    else if remote.updatedAt != local.updatedAt then (if remote.updatedAt > local.updatedAt then remote else local)
    else if remote.deviceId != local.deviceId then (if remote.deviceId < local.deviceId then remote else local)
    else local
  }

  predicate SameKey(a: SyncRecord, b: SyncRecord) {
    a.version == b.version && a.updatedAt == b.updatedAt && a.deviceId == b.deviceId
  }

  /** `a` is no worse than `b`: newer version, then later time, then smaller device. */
  predicate NoWorse(a: SyncRecord, b: SyncRecord) {
    || a.version > b.version
    || (a.version == b.version && a.updatedAt > b.updatedAt)
    || (a.version == b.version && a.updatedAt == b.updatedAt && a.deviceId <= b.deviceId)
  }

  /** How replicas come together: each leaf is a record, each fork one resolution. */
  datatype Merge = Replica(record: SyncRecord) | Merged(local: Merge, remote: Merge)
  {
    function Winner(): SyncRecord {
      match this
      case Replica(r) => r
      case Merged(l, r) => ResolveScalarConflict(l.Winner(), r.Winner())
    }

    function Records(): set<SyncRecord> {
      match this
      case Replica(r) => {r}
      case Merged(l, r) => l.Records() + r.Records()
    }
  }

  /** The winner is one of the records and no record beats it. */
  lemma {:induction false} WinnerIsBest(m: Merge)
    ensures m.Winner() in m.Records()
    ensures forall r :: r in m.Records() ==> NoWorse(m.Winner(), r)
  {
    if m.Merged? {
      WinnerIsBest(m.local);
      WinnerIsBest(m.remote);
    }
  }

  /**
   * Convergence: two replicas that have seen the same records agree on the
   * winning key, in whatever order, grouping and multiplicity they saw them.
   */
  lemma MergesConverge(a: Merge, b: Merge)
    requires a.Records() == b.Records()
    ensures SameKey(a.Winner(), b.Winner())
  {
    WinnerIsBest(a);
    WinnerIsBest(b);
    assert NoWorse(a.Winner(), b.Winner()) && NoWorse(b.Winner(), a.Winner());
  }

  /** They agree on the record itself when no two records share the whole key. */
  lemma DistinctKeysConverge(a: Merge, b: Merge)
    requires a.Records() == b.Records()
    requires forall r, s :: r in a.Records() && s in a.Records() && SameKey(r, s) ==> r == s
    ensures a.Winner() == b.Winner()
  {
    MergesConverge(a, b);
    WinnerIsBest(a);
    WinnerIsBest(b);
  }

  /** Order matters for the record, not the key, exactly on a full tie of different records. */
  lemma CommutesIff(a: SyncRecord, b: SyncRecord)
    ensures SameKey(ResolveScalarConflict(a, b), ResolveScalarConflict(b, a))
    ensures ResolveScalarConflict(a, b) == ResolveScalarConflict(b, a) <==> !SameKey(a, b) || a == b
  {
  }

  /** Folding a list of incoming records into a local one. */
  function Folded(local: SyncRecord, incoming: seq<SyncRecord>): Merge {
    if incoming == [] then Replica(local)
    else Merged(Folded(local, incoming[..|incoming|-1]), Replica(incoming[|incoming|-1]))
  }

  lemma {:induction false} FoldedRecords(local: SyncRecord, incoming: seq<SyncRecord>)
    ensures Folded(local, incoming).Records() == {local} + set r | r in incoming
  {
    if incoming != [] {
      var n := |incoming| - 1;
      FoldedRecords(local, incoming[..n]);
      assert incoming == incoming[..n] + [incoming[n]];
    }
  }

  /** Any two deliveries of the same records leave the same winning key. */
  lemma DeliveriesConverge(a: SyncRecord, before: seq<SyncRecord>, b: SyncRecord, after: seq<SyncRecord>)
    requires {a} + (set r | r in before) == {b} + set r | r in after
    ensures SameKey(Folded(a, before).Winner(), Folded(b, after).Winner())
  {
    FoldedRecords(a, before);
    FoldedRecords(b, after);
    MergesConverge(Folded(a, before), Folded(b, after));
  }

  // ------------------------------------------------------------------
  // Ties
  // ------------------------------------------------------------------

  /** On a full tie the local record stays. */
  lemma TieKeepsLocal(local: SyncRecord, remote: SyncRecord)
    requires SameKey(local, remote)
    ensures ResolveScalarConflict(local, remote) == local
  {
  }

  /** The local record, then the incoming ones in order. */
  function Line(local: SyncRecord, incoming: seq<SyncRecord>): seq<SyncRecord> {
    [local] + incoming
  }

  lemma {:induction false} WinnerInLine(local: SyncRecord, incoming: seq<SyncRecord>) returns (j: nat)
    ensures j <= |incoming| && Folded(local, incoming).Winner() == Line(local, incoming)[j]
  {
    j := 0;
    if incoming != [] {
      var n := |incoming| - 1;
      var k := WinnerInLine(local, incoming[..n]);
      assert Line(local, incoming)[k] == Line(local, incoming[..n])[k];
      j := if Folded(local, incoming).Winner() == Folded(local, incoming[..n]).Winner() then k else n + 1;
    }
  }

  /** Of the records no other beats, the one that came first wins: among tied records the first is kept. */
  lemma {:induction false} FirstBestWins(local: SyncRecord, incoming: seq<SyncRecord>, i: nat)
    requires i <= |incoming|
    requires forall j :: 0 <= j <= |incoming| ==> NoWorse(Line(local, incoming)[i], Line(local, incoming)[j])
    requires forall j :: 0 <= j < i ==> !NoWorse(Line(local, incoming)[j], Line(local, incoming)[i])
    ensures Folded(local, incoming).Winner() == Line(local, incoming)[i]
  {
    if incoming != [] {
      var n := |incoming| - 1;
      var line, front := Line(local, incoming), Line(local, incoming[..n]);
      assert forall j :: 0 <= j <= n ==> front[j] == line[j];
      if i <= n {
        FirstBestWins(local, incoming[..n], i);
        assert NoWorse(line[i], line[n+1]);
      } else {
        var j := WinnerInLine(local, incoming[..n]);
        assert !NoWorse(line[j], line[i]);
      }
    }
  }
}
