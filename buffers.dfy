/**
 * Flat attribute buffers: entity i of a buffer with three components per entity
 * occupies the entries 3i, 3i + 1 and 3i + 2.
 */
module Buffers {
  import opened Geometry

  /** The triple (a, b, c) is stored at slot `slot` of `buf`. */
  predicate StoredTriple(buf: seq<real>, slot: nat, a: real, b: real, c: real)
  {
    3 * slot + 3 <= |buf| && buf[3 * slot] == a && buf[3 * slot + 1] == b && buf[3 * slot + 2] == c
  }

  /** The entries of `r` and `buf` agree everywhere outside the slot `slot`. */
  predicate SameOutsideTriple(buf: seq<real>, r: seq<real>, slot: nat)
  {
    |r| == |buf| && forall k :: 0 <= k < |buf| && (k < 3 * slot || 3 * slot + 3 <= k) ==> r[k] == buf[k]
  }

  /** Writing the three entries of one slot. */
  function WriteTriple(buf: seq<real>, slot: nat, a: real, b: real, c: real): (r: seq<real>)
    requires 3 * slot + 3 <= |buf|
    ensures StoredTriple(r, slot, a, b, c)
    ensures SameOutsideTriple(buf, r, slot)
  {
    buf[3 * slot := a][3 * slot + 1 := b][3 * slot + 2 := c]
  }

  /** Writes the three entries of slot `slot` of an array in place. */
  method StoreTriple(buf: array<real>, slot: nat, a: real, b: real, c: real)
    requires 3 * slot + 3 <= buf.Length
    modifies buf
    ensures buf[..] == WriteTriple(old(buf[..]), slot, a, b, c)
  {
    buf[slot * 3] := a;
    buf[slot * 3 + 1] := b;
    buf[slot * 3 + 2] := c;
  }

  /** A write to one slot leaves the triple of every other slot where it was. */
  lemma WriteTripleKeepsOthers(buf: seq<real>, slot: nat, a: real, b: real, c: real, j: nat, x: real, y: real, z: real)
    requires 3 * slot + 3 <= |buf|
    requires j != slot && StoredTriple(buf, j, x, y, z)
    ensures StoredTriple(WriteTriple(buf, slot, a, b, c), j, x, y, z)
  {
    var r := WriteTriple(buf, slot, a, b, c);
    assert j < slot || slot < j;
    assert r[3 * j] == buf[3 * j] && r[3 * j + 1] == buf[3 * j + 1] && r[3 * j + 2] == buf[3 * j + 2];
  }

  /** Slot j of `buf` holds the j-th vector of `run`, for every j. */
  predicate StoresRun(buf: seq<real>, run: seq<Vec3>)
  {
    forall j :: 0 <= j < |run| ==> StoredTriple(buf, j, run[j].x, run[j].y, run[j].z)
  }

  /** Writing the next vector after a stored run extends the run by it. */
  lemma WriteTripleNext(buf: seq<real>, run: seq<Vec3>, v: Vec3)
    requires 3 * |run| + 3 <= |buf| && StoresRun(buf, run)
    ensures StoresRun(WriteTriple(buf, |run|, v.x, v.y, v.z), run + [v])
  {
    var r := WriteTriple(buf, |run|, v.x, v.y, v.z);
    forall j | 0 <= j < |run| + 1
      ensures StoredTriple(r, j, (run + [v])[j].x, (run + [v])[j].y, (run + [v])[j].z)
    {
      if j < |run| {
        WriteTripleKeepsOthers(buf, |run|, v.x, v.y, v.z, j, run[j].x, run[j].y, run[j].z);
      }
    }
  }
}
