/**
 * The in-memory dedup store of store.go: a grow-only set of accepted unique
 * IDs with first-seen-wins insertion. The store is an object passed to its
 * callers rather than a package-level global.
 */
module Store {
  import opened Wrappers

  /** The one error Accept reports: the ID was accepted before. */
  datatype StoreError = DuplicatedData

  /** One Accept on a set of keys: the error it reports and the keys afterwards. */
  function Insert(kv: set<int>, uniqueId: int): (r: (Outcome<StoreError>, set<int>))
    ensures r.0 == Pass <==> uniqueId !in kv
    ensures r.0 != Pass ==> r.0 == Fail(DuplicatedData) && r.1 == kv
    ensures r.1 == kv + {uniqueId}
  {
    if uniqueId in kv then (Fail(DuplicatedData), kv) else (Pass, kv + {uniqueId})
  }

  /** Successive Accepts of the given IDs: whether each succeeded, and the keys afterwards. */
  function AcceptAll(kv: set<int>, ids: seq<int>): (r: (seq<bool>, set<int>))
    ensures |r.0| == |ids|
    // the keys only grow, by exactly the IDs offered
    ensures r.1 == kv + (set x | x in ids)
    decreases |ids|
  {
    if ids == [] then ([], kv)
    else
      var (o, kv') := Insert(kv, ids[0]);
      var (rest, last) := AcceptAll(kv', ids[1..]);
      assert (set x | x in ids) == {ids[0]} + (set x | x in ids[1..]);
      ([o == Pass] + rest, last)
  }

  /** First seen wins: the i-th Accept succeeds iff its ID was neither stored before nor offered earlier. */
  lemma {:induction false} FirstSeenWins(kv: set<int>, ids: seq<int>)
    ensures forall i :: 0 <= i < |ids| ==>
              (AcceptAll(kv, ids).0[i] <==> ids[i] !in kv && ids[i] !in ids[..i])
    decreases |ids|
  {
    if ids != [] {
      var kv' := Insert(kv, ids[0]).1;
      FirstSeenWins(kv', ids[1..]);
      var r := AcceptAll(kv, ids);
      assert r.0 == [Insert(kv, ids[0]).0 == Pass] + AcceptAll(kv', ids[1..]).0;
      forall i | 1 <= i < |ids|
        ensures r.0[i] <==> ids[i] !in kv && ids[i] !in ids[..i]
      {
        assert r.0[i] == AcceptAll(kv', ids[1..]).0[i - 1];
        assert ids[1..][i - 1] == ids[i];
        assert ids[..i] == [ids[0]] + ids[1..][..i - 1];
      }
    }
  }

  /** Once an ID has been offered, every later Accept of it fails, whatever was accepted in between. */
  lemma RepeatIsRejected(kv: set<int>, ids: seq<int>, i: int, j: int)
    requires 0 <= i < j < |ids| && ids[i] == ids[j]
    ensures !AcceptAll(kv, ids).0[j]
  {
    FirstSeenWins(kv, ids);
    assert ids[..j][i] == ids[j];
  }

  /** MemoryStore: the set `kv` of accepted IDs (the Go map's keys; its values carry nothing). */
  class MemoryStore {
    var kv: set<int>

    /** newMemoryStore: a fresh store is empty. */
    constructor ()
      ensures kv == {}
    {
      kv := {};
    }

    /** Reject an ID already present with DuplicatedData; otherwise insert it. */
    method Accept(uniqueId: int) returns (err: Outcome<StoreError>)
      modifies this
      ensures (err, kv) == Insert(old(kv), uniqueId)
      ensures err == Pass <==> uniqueId !in old(kv)
      ensures err != Pass ==> err == Fail(DuplicatedData)
      ensures kv == old(kv) + {uniqueId}
    {
      if uniqueId in kv {
        return Fail(DuplicatedData);
      }
      kv := kv + {uniqueId};
      return Pass;
    }
  }
}
