// The cache of folder ids by path: what a lookup may answer, what an invalidation drops,
// and how the size bound is kept. Paths are compared by whole segments.
module PathCaches {
  import opened Prelude

  // ------------------------------------------------------------ paths

  /** `p` is `q` or lies under it, as the code tests it: by the prefix up to a slash. */
  predicate AtOrBelow(p: string, q: string) {
    q != "" && (p == q || Below(p, q))
  }

  predicate Below(p: string, q: string) {
    HasPrefix(p, if q == "/" then q else q + "/")
  }

  function Join(segments: seq<string>): string {
    if segments == [] then "" else "/" + segments[0] + Join(segments[1..])
  }

  /** The path with these segments; the root has none. */
  function PathOf(segments: seq<string>): string {
    if segments == [] then "/" else Join(segments)
  }

  predicate Plain(segments: seq<string>) {
    forall i :: 0 <= i < |segments| ==> segments[i] != "" && '/' !in segments[i]
  }

  /** A name ends where its slash is. */
  lemma NamesEndAtSlash(a: string, x: string, b: string, y: string)
    requires '/' !in a && '/' !in b && x != "" && x[0] == '/' && y != "" && y[0] == '/'
    requires a + x <= b + y
    ensures a == b && x <= y
  {
    assert (b + y)[|a|] == (a + x)[|a|] == '/' && (b + y)[|b|] == '/';
    assert forall k :: 0 <= k < |a| ==> (b + y)[k] == (a + x)[k] == a[k];
    assert forall k :: 0 <= k < |b| ==> (b + y)[k] == b[k];
    assert |a| == |b|;
    assert (b + y)[..|a|] == (a + x)[..|a|] == a && (b + y)[..|b|] == b;
    assert (a + x)[|a|..] == x && (b + y)[|a|..] == y;
  }

  lemma {:induction false} JoinPrefix(s: seq<string>, t: seq<string>)
    requires Plain(s) && Plain(t)
    ensures Join(t) + "/" <= Join(s) + "/" <==> t <= s
    decreases |t|
  {
    var js, jt := Join(s) + "/", Join(t) + "/";
    if t == [] {
      assert jt == "/" && js[0] == '/';
    } else if s == [] {
      assert |jt| >= 3;
      assert |js| == 1;
    } else {
      var x, y := Join(t[1..]) + "/", Join(s[1..]) + "/";
      JoinPrefix(s[1..], t[1..]);
      assert jt == "/" + (t[0] + x) && js == "/" + (s[0] + y);
      assert x[0] == '/' && y[0] == '/';
      if jt <= js {
        assert jt[1..] == t[0] + x && js[1..] == s[0] + y;
        NamesEndAtSlash(t[0], x, s[0], y);
        assert t == [t[0]] + t[1..] && s == [s[0]] + s[1..];
      }
      if t <= s {
        assert t[0] == s[0] && t[1..] <= s[1..];
      }
    }
  }

  /**
   * The test by prefix is the test by segments: exactly the folder and its descendants,
   * never a sibling whose name merely begins the same way.
   */
  lemma CoversDescendants(s: seq<string>, t: seq<string>)
    requires Plain(s) && Plain(t)
    ensures AtOrBelow(PathOf(s), PathOf(t)) <==> t <= s
  {
    var p, q := PathOf(s), PathOf(t);
    if t == [] {
      assert p[0] == '/';
      assert q <= p;
    } else {
      JoinPrefix(s, t);
      assert |q| >= 2;
      if s != [] {
        SlashPrefix(p, q);
      }
    }
  }

  lemma SlashPrefix(p: string, q: string)
    ensures q + "/" <= p + "/" <==> p == q || q + "/" <= p
  {
    if q + "/" <= p + "/" {
      assert q == (p + "/")[..|q|];
      if |q| < |p| {
        assert q + "/" == (p + "/")[..|q| + 1] == p[..|q| + 1];
      } else {
        assert (p + "/")[..|q|] == p;
      }
    }
  }

  // ------------------------------------------------------------ the history

  /** The calls that decide what a lookup may answer. */
  datatype Call =
    | Stored(path: string, id: string, at: int)
    | Invalidated(path: string)   // with everything below it, by path or by the id it was stored under
    | ChangedBelow(path: string)  // a folder seen to have changed
    | WasReset

  /** A call after which what was stored for `p` no longer counts. */
  predicate Ends(c: Call, p: string) {
    match c
    case Stored(q, _, _) => p == q
    case Invalidated(q) => Covers(q, true, p)
    case ChangedBelow(q) => Covers(q, false, p)
    case WasReset => true
  }

  /** The call at `i` stored `p`, and nothing has ended that since. */
  ghost predicate Stands(log: seq<Call>, i: nat, p: string) {
    && i < |log| && log[i].Stored? && log[i].path == p
    && forall j :: i < j < |log| ==> !Ends(log[j], p)
  }

  /** The path an id was last stored under. */
  ghost function LastUnder(log: seq<Call>, id: string): Option<string> {
    if log == [] then None
    else
      var c := log[|log| - 1];
      if c.Stored? && c.id == id then Some(c.path) else LastUnder(log[..|log| - 1], id)
  }

  lemma LastUnderGrows(log: seq<Call>, c: Call, id: string)
    ensures LastUnder(log + [c], id) == if c.Stored? && c.id == id then Some(c.path) else LastUnder(log, id)
  {
    assert (log + [c])[..|log|] == log;
  }

  // ------------------------------------------------------------ the cache

  datatype Entry = Entry(id: string, expires: int, lastUsed: int)

  /** An entry is what some call that still stands stored, with its expiry. */
  ghost predicate EntryOk(log: seq<Call>, ttl: nat, p: string, e: Entry) {
    exists i: nat :: Stands(log, i, p) && log[i].id == e.id && e.expires == log[i].at + ttl
  }

  ghost predicate Sound(log: seq<Call>, ttl: nat, entries: map<string, Entry>) {
    forall p :: p in entries ==> EntryOk(log, ttl, p, entries[p])
  }

  lemma LogGrows(log: seq<Call>, c: Call, ttl: nat, entries: map<string, Entry>)
    requires Sound(log, ttl, entries) && forall p :: p in entries ==> !Ends(c, p)
    ensures Sound(log + [c], ttl, entries)
  {
    forall p | p in entries ensures EntryOk(log + [c], ttl, p, entries[p]) {
      assert EntryOk(log, ttl, p, entries[p]);
      var i: nat :| Stands(log, i, p) && log[i].id == entries[p].id && entries[p].expires == log[i].at + ttl;
      assert Stands(log + [c], i, p);
    }
  }

  /** What a call leaves of the entries when it drops all it ends. */
  function LeftBy(c: Call, entries: map<string, Entry>): map<string, Entry> {
    map p | p in entries && !Ends(c, p) :: entries[p]
  }

  lemma DroppedIsSound(log: seq<Call>, c: Call, ttl: nat, entries: map<string, Entry>)
    requires Sound(log, ttl, entries)
    ensures Sound(log + [c], ttl, LeftBy(c, entries)) && |LeftBy(c, entries)| <= |entries|
  {
    var left := LeftBy(c, entries);
    forall p | p in left ensures EntryOk(log, ttl, p, left[p]) {
      assert EntryOk(log, ttl, p, entries[p]);
    }
    LogGrows(log, c, ttl, left);
    Fewer(left, entries);
  }

  lemma SoundPart(log: seq<Call>, ttl: nat, whole: map<string, Entry>, part: map<string, Entry>, gone: set<string>)
    requires Sound(log, ttl, whole) && part == whole - gone
    ensures Sound(log, ttl, part) && forall p :: p in part ==> p in whole && p !in gone
  {
    forall p | p in part ensures EntryOk(log, ttl, p, part[p]) {
      assert EntryOk(log, ttl, p, whole[p]);
    }
  }

  /** Some call that still stands stored this answer, at most one TTL ago. */
  ghost predicate Answers(log: seq<Call>, ttl: nat, p: string, id: string, now: int) {
    exists i: nat :: Stands(log, i, p) && log[i].id == id && now - log[i].at <= ttl
  }

  lemma UsedStillSound(log: seq<Call>, ttl: nat, entries: map<string, Entry>, p: string, now: int)
    requires Sound(log, ttl, entries) && p in entries
    ensures Sound(log, ttl, entries[p := entries[p].(lastUsed := now)])
    ensures |entries[p := entries[p].(lastUsed := now)]| == |entries|
    ensures now <= entries[p].expires ==> Answers(log, ttl, p, entries[p].id, now)
  {
    var after := entries[p := entries[p].(lastUsed := now)];
    assert after.Keys == entries.Keys && |after| == |after.Keys|;
    assert EntryOk(log, ttl, p, entries[p]);
    forall q | q in after ensures EntryOk(log, ttl, q, after[q]) {
      assert EntryOk(log, ttl, q, entries[q]);
    }
  }

  /** A store is sound whatever stood before. */
  lemma StoreIsSound(log: seq<Call>, ttl: nat, entries: map<string, Entry>, p: string, id: string, at: int)
    requires Sound(log, ttl, entries)
    ensures Sound(log + [Stored(p, id, at)], ttl, entries[p := Entry(id, at + ttl, at)])
  {
    var log' := log + [Stored(p, id, at)];
    LogGrows(log, Stored(p, id, at), ttl, entries - {p});
    assert Stands(log', |log|, p);
    assert EntryOk(log', ttl, p, Entry(id, at + ttl, at));
    forall q | q in entries && q != p ensures EntryOk(log', ttl, q, entries[q]) {
      assert EntryOk(log', ttl, q, (entries - {p})[q]);
    }
  }

  /** `after` is `before` cut down to the bound: as few as need be have gone, none used later than any that stays. */
  ghost predicate Trimmed(before: map<string, Entry>, after: map<string, Entry>, gone: set<string>, bound: nat) {
    && gone <= before.Keys && after == before - gone
    && (gone != {} ==> |after| >= bound)
    && forall p, q :: p in gone && q in after ==> before[p].lastUsed <= before[q].lastUsed
  }

  lemma TrimmedMore(before: map<string, Entry>, after: map<string, Entry>, gone: set<string>, bound: nat, p: string)
    requires Trimmed(before, after, gone, bound) && |after| > bound
    requires p in after && forall q :: q in after ==> after[p].lastUsed <= after[q].lastUsed
    ensures Trimmed(before, after - {p}, gone + {p}, bound) && |gone + {p}| == |gone| + 1
    ensures |after - {p}| == |after| - 1
  {
    Shrinks(after, p);
    assert after - {p} == before - (gone + {p});
  }

  lemma Fewer(a: map<string, Entry>, b: map<string, Entry>)
    requires a.Keys <= b.Keys
    ensures |a| <= |b|
  {
    var rest := b.Keys - a.Keys;
    assert b.Keys == a.Keys + rest;
    assert |b.Keys| == |a.Keys| + |rest|;
  }

  /** The way back from an id leads to the path last stored under it, and is there while that is cached. */
  ghost predicate WayBack(log: seq<Call>, entries: map<string, Entry>, byID: map<string, string>) {
    && (forall id :: id in byID ==> LastUnder(log, id) == Some(byID[id]))
    && (forall p :: p in entries && LastUnder(log, entries[p].id) == Some(p) ==> entries[p].id in byID)
  }

  lemma WayBackGrows(log: seq<Call>, c: Call, entries: map<string, Entry>, byID: map<string, string>)
    requires WayBack(log, entries, byID) && !c.Stored?
    ensures WayBack(log + [c], entries, byID)
  {
    forall id ensures LastUnder(log + [c], id) == LastUnder(log, id) {
      LastUnderGrows(log, c, id);
    }
  }

  lemma WayBackStored(log: seq<Call>, entries: map<string, Entry>, byID: map<string, string>, p: string, e: Entry, at: int)
    requires WayBack(log, entries, byID)
    ensures WayBack(log + [Stored(p, e.id, at)], entries[p := e], byID[e.id := p])
  {
    forall id ensures LastUnder(log + [Stored(p, e.id, at)], id) == if id == e.id then Some(p) else LastUnder(log, id) {
      LastUnderGrows(log, Stored(p, e.id, at), id);
    }
  }

  lemma WayBackTo(log: seq<Call>, entries: map<string, Entry>, byID: map<string, string>, p: string)
    requires WayBack(log, entries, byID) && p in entries && LastUnder(log, entries[p].id) == Some(p)
    ensures Get(byID, entries[p].id) == Some(p)
  {
  }

  class PathCache {
    const ttl: nat
    const maxEntries: nat
    var byPath: map<string, Entry>
    var byID: map<string, string>
    var updated: map<string, int>
    var hits: nat
    var misses: nat
    var evictions: nat
    ghost var log: seq<Call>

    /** Every entry is what the last store of its path left, and there are not too many. */
    ghost predicate Valid()
      reads this
    {
      && maxEntries > 0 && |byPath| <= maxEntries && "" !in byPath
      && Sound(log, ttl, byPath) && WayBack(log, byPath, byID)
    }

    constructor (ttl: nat, maxEntries: nat)
      requires maxEntries > 0
      ensures Valid() && byPath == map[] && log == []
      ensures this.ttl == ttl && this.maxEntries == maxEntries
    {
      this.ttl, this.maxEntries := ttl, maxEntries;
      byPath, byID, updated := map[], map[], map[];
      hits, misses, evictions, log := 0, 0, 0, [];
    }

    /** Answers only what the last Store of the path said, at most one TTL ago, nothing having dropped it since. */
    method Lookup(path: string, now: int) returns (id: Option<string>)
      requires Valid()
      modifies this`byPath, this`byID, this`updated, this`hits, this`misses
      ensures Valid()
      ensures id.Some? ==> Answers(log, ttl, path, id.value, now)
      ensures id == if path in old(byPath) && now <= old(byPath)[path].expires then Some(old(byPath)[path].id) else None
      ensures byPath == if id.Some? then old(byPath)[path := old(byPath)[path].(lastUsed := now)] else old(byPath) - {path}
      ensures id.None? && path in old(byPath) ==> Get(byID, old(byPath)[path].id) != Some(path)
      ensures hits + misses == old(hits) + old(misses) + 1 && (hits == old(hits) + 1 <==> id.Some?)
    {
      if path !in byPath {
        Miss(path);
        return None;
      }
      if now > byPath[path].expires {
        Expire(path);
        return None;
      }
      var found := Hit(path, now);
      id := Some(found);
    }

    method Miss(ghost path: string)
      requires Valid() && path !in byPath
      modifies this`misses
      ensures Valid() && byPath - {path} == byPath && misses == old(misses) + 1
    {
      misses := misses + 1;
    }

    /** Drops an entry that has expired. */
    method Expire(path: string)
      requires Valid() && path in byPath
      modifies this`byPath, this`byID, this`updated, this`misses
      ensures Valid() && byPath == old(byPath) - {path} && misses == old(misses) + 1
      ensures Get(byID, old(byPath)[path].id) != Some(path)
    {
      DropPath(path);
      SoundPart(log, ttl, old(byPath), byPath, {path});
      misses := misses + 1;
    }

    /** Notes the use of an entry that has not expired. */
    method Hit(path: string, now: int) returns (id: string)
      requires Valid() && path in byPath && now <= byPath[path].expires
      modifies this`byPath, this`hits
      ensures Valid() && Answers(log, ttl, path, id, now) && hits == old(hits) + 1
      ensures id == old(byPath)[path].id
      ensures byPath == old(byPath)[path := old(byPath)[path].(lastUsed := now)]
    {
      var e := byPath[path];
      UsedStillSound(log, ttl, byPath, path, now);
      byPath := byPath[path := e.(lastUsed := now)];
      hits := hits + 1;
      id := e.id;
    }

    method Store(path: string, id: string, now: int) returns (ghost gone: set<string>)
      requires Valid()
      modifies this`byPath, this`byID, this`updated, this`evictions, this`log
      ensures Valid()
      ensures path == "" || id == "" ==> byPath == old(byPath) && log == old(log) && gone == {}
      ensures path != "" && id != "" ==> log == old(log) + [Stored(path, id, now)]
      ensures path != "" && id != "" && path in byPath ==> Get(byID, id) == Some(path)
      ensures path != "" && id != "" ==> Trimmed(old(byPath)[path := Entry(id, now + ttl, now)], byPath, gone, maxEntries)
    {
      gone := {};
      if path == "" || id == "" {
        return;
      }
      gone := FileAndTrim(path, id, now);
    }

    /** Files an entry and evicts what is over the bound. */
    method FileAndTrim(path: string, id: string, now: int) returns (ghost gone: set<string>)
      requires Valid() && path != "" && id != ""
      modifies this`byPath, this`byID, this`updated, this`evictions, this`log
      ensures Valid() && log == old(log) + [Stored(path, id, now)]
      ensures path in byPath ==> Get(byID, id) == Some(path)
      ensures Trimmed(old(byPath)[path := Entry(id, now + ttl, now)], byPath, gone, maxEntries)
    {
      StoreIsSound(log, ttl, byPath, path, id, now);
      WayBackStored(log, byPath, byID, path, Entry(id, now + ttl, now), now);
      log := log + [Stored(path, id, now)];
      byPath := byPath[path := Entry(id, now + ttl, now)];
      byID := byID[id := path];
      ghost var filed := byPath;
      gone := Evict();
      SoundPart(log, ttl, filed, byPath, gone);
      if path in byPath {
        LastUnderGrows(old(log), Stored(path, id, now), id);
        WayBackTo(log, byPath, byID, path);
      }
    }

    /** Records when a folder was last seen to change; a change drops what is cached below it. */
    method Observe(id: string, dirUpdateTime: int)
      requires Valid()
      modifies this`byPath, this`byID, this`updated, this`log
      ensures Valid()
      ensures var moved := id != "" && dirUpdateTime != 0 && id in old(updated) && old(updated)[id] != dirUpdateTime;
              if moved && id in old(byID) then
                Dropped(old(byPath), byPath, old(log), log, ChangedBelow(old(byID)[id]))
              else
                && byPath == old(byPath) && log == old(log)
                && updated == if id != "" && dirUpdateTime != 0 then old(updated)[id := dirUpdateTime] else old(updated)
    {
      if id == "" || dirUpdateTime == 0 {
        return;
      }
      var seen := id in updated;
      var previous := if seen then updated[id] else 0;
      updated := updated[id := dirUpdateTime];
      if seen && previous != dirUpdateTime {
        if id in byID {
          DropSubtree(byID[id], false);
        }
      }
    }

    /** Drops a path and everything under it, and nothing else. */
    method InvalidatePath(path: string)
      requires Valid()
      modifies this`byPath, this`byID, this`updated, this`log
      ensures Valid() && Dropped(old(byPath), byPath, old(log), log, Invalidated(path))
    {
      DropSubtree(path, true);
    }

    /**
     * Drops the folder last stored under an id, and everything under it, exactly while there is
     * a way back to it, as there is when that folder itself is cached, or nothing to drop.
     */
    method InvalidateID(id: string)
      requires Valid()
      modifies this`byPath, this`byID, this`updated, this`log
      ensures Valid()
      ensures id in old(byID) ==>
                && LastUnder(old(log), id) == Some(old(byID)[id])
                && Dropped(old(byPath), byPath, old(log), log, Invalidated(old(byID)[id]))
      ensures id !in old(byID) ==> byPath == old(byPath) && log == old(log)
      ensures forall q :: LastUnder(old(log), id) == Some(q) ==>
                (byPath == LeftBy(Invalidated(q), old(byPath)) <==>
                  id in old(byID) || LeftBy(Invalidated(q), old(byPath)) == old(byPath))
      ensures forall q :: q in old(byPath) && old(byPath)[q].id == id && LastUnder(old(log), id) == Some(q) ==>
                old(byID)[id] == q
      ensures id !in updated
      ensures id in old(byID) ==>
                var parent := ParentOf(old(byID)[id]);
                parent.Some? && parent.value in byPath ==> byPath[parent.value].id !in updated
    {
      updated := updated - {id};
      if id !in byID {
        return;
      }
      var path := byID[id];
      DropSubtree(path, true);
      var i := LastSlash(path);
      if i > 0 && path[..i] in byPath {
        updated := updated - {byPath[path[..i]].id};
      }
    }

    method Reset()
      requires Valid()
      modifies this`byPath, this`byID, this`updated, this`log
      ensures Valid() && byPath == map[] && log == old(log) + [WasReset]
    {
      byPath, byID, updated := map[], map[], map[];
      log := log + [WasReset];
    }

    // ---------------------------------------------------------- internals

    /** Removes a path and its descendants, or its descendants alone. */
    method DropSubtree(path: string, includeSelf: bool)
      requires Valid()
      modifies this`byPath, this`byID, this`updated, this`log
      ensures Valid() && Dropped(old(byPath), byPath, old(log), log, Drops(path, includeSelf))
      ensures updated.Keys <= old(updated).Keys
    {
      ghost var c := Drops(path, includeSelf);
      DroppedIsSound(log, c, ttl, byPath);
      if path == "" {
        NothingUnderNoPath(includeSelf, byPath);
      } else {
        DropCovered(path, includeSelf);
      }
      WayBackGrows(log, c, byPath, byID);
      log := log + [c];
    }

    /** Goes through the entries and removes those of a subtree. */
    method DropCovered(path: string, includeSelf: bool)
      requires WayBack(log, byPath, byID)
      modifies this`byPath, this`byID, this`updated
      ensures byPath == LeftBy(Drops(path, includeSelf), old(byPath)) && WayBack(log, byPath, byID)
      ensures updated.Keys <= old(updated).Keys
    {
      ghost var c := Drops(path, includeSelf);
      SweptEnds(byPath, c);
      var todo := byPath.Keys;
      while todo != {}
        invariant todo <= old(byPath).Keys && updated.Keys <= old(updated).Keys
        invariant byPath == Swept(old(byPath), todo, c) && WayBack(log, byPath, byID)
        decreases todo
      {
        var p :| p in todo;
        SweptOne(old(byPath), todo, c, p);
        todo := todo - {p};
        if Covers(path, includeSelf, p) {
          DropPath(p);
        }
      }
    }

    /** Removes one entry, and what is kept by its id. */
    method DropPath(path: string)
      requires WayBack(log, byPath, byID)
      modifies this`byPath, this`byID, this`updated
      ensures byPath == old(byPath) - {path} && |byPath| <= |old(byPath)|
      ensures WayBack(log, byPath, byID)
      ensures updated.Keys <= old(updated).Keys
      ensures path in old(byPath) ==> old(byPath)[path].id !in updated
      ensures forall id :: id in byID ==> id in old(byID) && byID[id] == old(byID)[id]
      ensures path in old(byPath) ==> Get(byID, old(byPath)[path].id) != Some(path)
      ensures forall id :: id in old(byID) && old(byID)[id] != path ==> id in byID
    {
      if path !in byPath {
        assert byPath - {path} == byPath;
        return;
      }
      var e := byPath[path];
      Fewer(byPath - {path}, byPath);
      byPath := byPath - {path};
      if e.id in byID && byID[e.id] == path {
        byID := byID - {e.id};
      }
      updated := updated - {e.id};
    }

    /** The entry used longest ago. */
    method Oldest() returns (oldestPath: string)
      requires "" !in byPath && byPath != map[]
      ensures oldestPath in byPath && forall q :: q in byPath ==> byPath[oldestPath].lastUsed <= byPath[q].lastUsed
    {
      oldestPath := "";
      var oldestTime := 0;
      var todo := byPath.Keys;
      while todo != {}
        invariant todo <= byPath.Keys
        invariant oldestPath == "" ==> todo == byPath.Keys
        invariant oldestPath != "" ==> oldestPath in byPath && byPath[oldestPath].lastUsed == oldestTime
        invariant oldestPath != "" ==> forall q :: q in byPath && q !in todo ==> oldestTime <= byPath[q].lastUsed
        decreases todo
      {
        var p :| p in todo;
        todo := todo - {p};
        if oldestPath == "" || byPath[p].lastUsed < oldestTime {
          oldestPath, oldestTime := p, byPath[p].lastUsed;
        }
      }
    }

    /** Enforces the size bound, oldest use first. */
    method Evict() returns (ghost gone: set<string>)
      requires "" !in byPath && maxEntries > 0 && WayBack(log, byPath, byID)
      modifies this`byPath, this`byID, this`updated, this`evictions
      ensures Trimmed(old(byPath), byPath, gone, maxEntries) && |byPath| <= maxEntries
      ensures WayBack(log, byPath, byID)
      ensures evictions == old(evictions) + |gone|
    {
      gone := {};
      assert byPath - gone == byPath;
      while |byPath| > maxEntries
        invariant "" !in byPath && Trimmed(old(byPath), byPath, gone, maxEntries)
        invariant evictions == old(evictions) + |gone| && WayBack(log, byPath, byID)
        decreases |byPath|
      {
        gone := EvictOne(old(byPath), gone);
      }
    }

    /** Drops the entry used longest ago, the next of those evicted. */
    method EvictOne(ghost before: map<string, Entry>, ghost gone: set<string>) returns (ghost more: set<string>)
      requires "" !in byPath && |byPath| > maxEntries && WayBack(log, byPath, byID)
      requires Trimmed(before, byPath, gone, maxEntries)
      modifies this`byPath, this`byID, this`updated, this`evictions
      ensures "" !in byPath && |byPath| == |old(byPath)| - 1 && WayBack(log, byPath, byID)
      ensures Trimmed(before, byPath, more, maxEntries) && |more| == |gone| + 1
      ensures evictions == old(evictions) + 1
    {
      var oldestPath := Oldest();
      TrimmedMore(before, byPath, gone, maxEntries, oldestPath);
      DropPath(oldestPath);
      more := gone + {oldestPath};
      evictions := evictions + 1;
    }
  }

  /**
   * A folder that has expired and been looked up: what lies below it is answered even after
   * the folder is invalidated by its id.
   */
  method ExpiredFolderKeepsChild() returns (id: Option<string>)
    ensures id == Some("B")
  {
    var c := new PathCache(60, 4096);
    ghost var gone := c.Store("/a", "A", 0);
    gone := c.Store("/a/b", "B", 50);
    id := c.Lookup("/a", 61);
    LastUnderGrows([Stored("/a", "A", 0)], Stored("/a/b", "B", 50), "A");
    LastUnderGrows([], Stored("/a", "A", 0), "A");
    c.InvalidateID("A");
    id := c.Lookup("/a/b", 61);
  }

  /** Below the bound nothing is evicted. */
  lemma NothingGone(entries: map<string, Entry>, p: string, e: Entry, after: map<string, Entry>, gone: set<string>, bound: nat)
    requires Trimmed(entries[p := e], after, gone, bound) && |entries| + 1 < bound
    ensures gone == {} && after == entries[p := e] && |after| <= |entries| + 1
  {
    assert entries[p := e].Keys == entries.Keys + {p};
    Fewer(after, entries[p := e]);
  }

  /** Stores where there is room. */
  method StoreWithRoom(c: PathCache, path: string, id: string, now: int)
    requires c.Valid() && |c.byPath| + 1 < c.maxEntries && path != "" && id != ""
    modifies c
    ensures c.Valid() && |c.byPath| <= |old(c.byPath)| + 1
    ensures c.byPath == old(c.byPath)[path := Entry(id, now + c.ttl, now)] && Get(c.byID, id) == Some(path)
  {
    ghost var gone := c.Store(path, id, now);
    NothingGone(old(c.byPath), path, Entry(id, now + c.ttl, now), c.byPath, gone, c.maxEntries);
  }

  /** A cache in which one id has been stored under two paths, one after the other. */
  method TwoPathsOneId() returns (c: PathCache)
    ensures fresh(c) && c.Valid() && c.ttl == 60
    ensures Get(c.byPath, "/a") == Some(Entry("A", 60, 0)) && Get(c.byID, "A") == Some("/b")
  {
    c := new PathCache(60, 4096);
    StoreWithRoom(c, "/a", "A", 0);
    StoreWithRoom(c, "/b", "A", 1);
  }

  /** Invalidating by that id leaves the older path answered. */
  method OlderPathStays() returns (older: Option<string>)
    ensures older == Some("A")
  {
    var c := TwoPathsOneId();
    assert !Ends(Invalidated("/b"), "/a");
    c.InvalidateID("A");
    older := c.Lookup("/a", 2);
  }

  /** What is there while a sweep for what `c` ends has still to look at `todo`. */
  function Swept(m: map<string, Entry>, todo: set<string>, c: Call): map<string, Entry> {
    map p | p in m && (p in todo || !Ends(c, p)) :: m[p]
  }

  lemma SweptEnds(m: map<string, Entry>, c: Call)
    ensures Swept(m, m.Keys, c) == m && Swept(m, {}, c) == LeftBy(c, m)
  {
  }

  lemma SweptOne(m: map<string, Entry>, todo: set<string>, c: Call, p: string)
    requires todo <= m.Keys && p in todo
    ensures Swept(m, todo - {p}, c) == if Ends(c, p) then Swept(m, todo, c) - {p} else Swept(m, todo, c)
  {
  }

  lemma NothingUnderNoPath(includeSelf: bool, m: map<string, Entry>)
    ensures LeftBy(Drops("", includeSelf), m) == m
  {
  }

  lemma Shrinks(m: map<string, Entry>, p: string)
    requires p in m
    ensures |m - {p}| == |m| - 1
  {
    assert (m - {p}).Keys == m.Keys - {p};
  }

  /** Whether dropping the subtree of `path` takes `p`. */
  predicate Covers(path: string, includeSelf: bool, p: string) {
    AtOrBelow(p, path) && (includeSelf || p != path)
  }

  /** One call has dropped what it ends and nothing else, and is the latest in the history. */
  ghost predicate Dropped(before: map<string, Entry>, after: map<string, Entry>, logBefore: seq<Call>, log: seq<Call>, c: Call) {
    && log == logBefore + [c]
    && after == LeftBy(c, before)
  }

  /** The call that dropping a subtree stands for. */
  function Drops(path: string, includeSelf: bool): Call {
    if includeSelf then Invalidated(path) else ChangedBelow(path)
  }

  /** Where the last slash is, or -1. */
  function LastSlash(p: string): (i: int)
    ensures -1 <= i < |p|
    ensures i >= 0 ==> p[i] == '/'
    ensures forall j :: i < j < |p| ==> p[j] != '/'
  {
    if p == "" then -1 else if p[|p| - 1] == '/' then |p| - 1 else LastSlash(p[..|p| - 1])
  }

  /** The folder a path lies in, unless that is the root. */
  function ParentOf(p: string): Option<string> {
    if LastSlash(p) > 0 then Some(p[..LastSlash(p)]) else None
  }
}
