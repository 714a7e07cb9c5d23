// What the write-back cache holds: one object per remote path, and the byte
// totals the cache reports about them.
module Objects {
  import opened Prelude

  type Path = string

  /** An object's position in the write-back lifecycle. */
  datatype State = Dirty | Uploading | Clean {
    /** Losing an unsent object would lose the user's data. */
    predicate Unsent() { Dirty? || Uploading? }
  }

  /** One cached file. `storedAt` is when its content landed and identifies the version. */
  datatype Object = Object(
    remotePath: Path,
    size: nat,
    hash: string,
    state: State,
    folderID: string,
    name: string,
    upstreamFileID: string,
    storedAt: nat,
    lastAccess: nat,
    flushAttempts: nat,
    lastError: string)

  type Index = map<Path, Object>

  /** Equal but for the access time, which only steers eviction. */
  predicate Same(a: Object, b: Object) {
    a.(lastAccess := 0) == b.(lastAccess := 0)
  }

  /** Every object is filed under its own, non-empty, path. */
  ghost predicate WellKeyed(objs: Index) {
    forall p :: p in objs ==> p != "" && objs[p].remotePath == p
  }

  /** A lifecycle transition as a flush makes it on the live index. */
  function Transitioned(o: Object, state: State, lastErr: string, attempts: nat): Object {
    o.(state := state, lastError := lastErr, flushAttempts := attempts)
  }

  // ------------------------------------------------------------ byte totals

  /** What one object adds to a total: its size, or its size only while unsent. */
  function Weight(o: Object, unsentOnly: bool): nat {
    if unsentOnly && !o.state.Unsent() then 0 else o.size
  }

  /** The bytes of a whole index, or of its unsent part. */
  ghost function Total(objs: Index, unsentOnly: bool): nat
  {
    if objs == map[] then 0
    else
      var p :| p in objs;
      Weight(objs[p], unsentOnly) + Total(objs - {p}, unsentOnly)
  }

  /** Any object can be taken out of a total first. */
  lemma {:induction false} TotalTake(objs: Index, p: Path, u: bool)
    requires p in objs
    ensures Total(objs, u) == Weight(objs[p], u) + Total(objs - {p}, u)
    decreases |objs|
  {
    var q :| q in objs && Total(objs, u) == Weight(objs[q], u) + Total(objs - {q}, u);
    if q != p {
      assert |objs - {q}| == |objs| - 1 by { assert (objs - {q}).Keys == objs.Keys - {q}; }
      assert |objs - {p}| == |objs| - 1 by { assert (objs - {p}).Keys == objs.Keys - {p}; }
      TotalTake(objs - {q}, p, u);
      TotalTake(objs - {p}, q, u);
      assert (objs - {q}) - {p} == (objs - {p}) - {q};
    }
  }

  /** Filing an object under a path adds its weight to the rest. */
  lemma TotalPut(objs: Index, p: Path, o: Object, u: bool)
    ensures Total(objs[p := o], u) == Weight(o, u) + Total(objs - {p}, u)
  {
    TotalTake(objs[p := o], p, u);
    assert objs[p := o] - {p} == objs - {p};
  }

  lemma TotalDrop(objs: Index, p: Path, u: bool)
    ensures Total(objs, u) == Total(objs - {p}, u) + (if p in objs then Weight(objs[p], u) else 0)
  {
    if p in objs {
      TotalTake(objs, p, u);
    } else {
      assert objs - {p} == objs;
    }
  }

  /** The total of a part is never more than the total of the whole. */
  lemma {:induction false} TotalUnsentLe(objs: Index)
    ensures Total(objs, true) <= Total(objs, false)
    decreases |objs|
  {
    if objs != map[] {
      var p :| p in objs;
      assert |objs - {p}| == |objs| - 1 by { assert (objs - {p}).Keys == objs.Keys - {p}; }
      TotalTake(objs, p, true);
      TotalTake(objs, p, false);
      TotalUnsentLe(objs - {p});
    }
  }

  /** No unsent object means no unsent bytes. */
  lemma {:induction false} TotalNoneUnsent(objs: Index)
    requires forall p :: p in objs ==> !objs[p].state.Unsent()
    ensures Total(objs, true) == 0
    decreases |objs|
  {
    if objs != map[] {
      var p :| p in objs;
      assert |objs - {p}| == |objs| - 1 by { assert (objs - {p}).Keys == objs.Keys - {p}; }
      TotalTake(objs, p, true);
      TotalNoneUnsent(objs - {p});
    }
  }
}
