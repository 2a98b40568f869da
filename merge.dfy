/** The profile-list assembly shared by both pages: the insertion-ordered `Map` keyed by id
    that later sources overwrite, the sort by creation time, the id-to-image table and the
    choice of the profile to show. */
module Merge {
  import opened Common
  import opened Profiles

  // ---------------------------------------------------------------------------
  // `mergedMap`: a JavaScript Map keeps each key at the position of its first insertion;
  // setting an existing key replaces the value in place.

  /** `mergedMap.set(p.id, p)`, the Map seen as the list of its values: an existing key keeps
      its position and takes the new value, a new key goes last. */
  function MapSet(m: seq<Profile>, p: Profile): seq<Profile> {
    if p.id in Ids(m) then seq(|m|, i requires 0 <= i < |m| => if m[i].id == p.id then p else m[i])
    else m + [p]
  }

  /** After the set, the Map holds `p` and every other entry it held before, and nothing else. */
  lemma MapSetMembers(m: seq<Profile>, p: Profile)
    ensures forall q :: q in MapSet(m, p) <==> q == p || (q in m && q.id != p.id)
  {
    var r := MapSet(m, p);
    if p.id in Ids(m) {
      forall q | q in r ensures q == p || (q in m && q.id != p.id) {
        var i :| 0 <= i < |r| && r[i] == q;
      }
      forall q | q in m && q.id != p.id ensures q in r {
        var i :| 0 <= i < |m| && m[i] == q;
        assert r[i] == q;
      }
      var k :| 0 <= k < |m| && m[k].id == p.id;
      assert r[k] == p;
    }
  }

  /** Setting a key adds it to the key set. */
  lemma MapSetIds(m: seq<Profile>, p: Profile)
    ensures Ids(MapSet(m, p)) == Ids(m) + {p.id}
  {
    var r := MapSet(m, p);
    if p.id !in Ids(m) {
      IdsAppend(m, [p]);
    } else {
      MapSetKeepsIds(m, p);
      SameIdsAtSameIds(r, m);
    }
  }

  /** Lists with the same id at every index have the same id set. */
  lemma SameIdsAtSameIds(a: seq<Profile>, b: seq<Profile>)
    requires |a| == |b| && forall k :: 0 <= k < |a| ==> a[k].id == b[k].id
    ensures Ids(a) == Ids(b)
  {
    forall x | x in Ids(a) ensures x in Ids(b) {
      var i :| 0 <= i < |a| && a[i].id == x;
      assert b[i].id == x;
    }
    forall x | x in Ids(b) ensures x in Ids(a) {
      var i :| 0 <= i < |b| && b[i].id == x;
      assert a[i].id == x;
    }
  }

  /** A Map never holds a key twice. */
  lemma MapSetDistinct(m: seq<Profile>, p: Profile)
    requires DistinctIds(m)
    ensures DistinctIds(MapSet(m, p))
  {
    if p.id !in Ids(m) {
      var r := m + [p];
      forall i, j | 0 <= i < j < |r| ensures r[i].id != r[j].id {
        if j == |m| { assert r[i] == m[i]; }
      }
    }
  }

  /** The Map after setting every profile of `ps` in order. */
  function MergedOf(ps: seq<Profile>): (r: seq<Profile>)
    ensures DistinctIds(r)
    ensures Ids(r) == Ids(ps)
  {
    if ps == [] then []
    else
      var n := |ps| - 1;
      assert ps == ps[..n] + [ps[n]];
      IdsAppend(ps[..n], [ps[n]]);
      MapSetIds(MergedOf(ps[..n]), ps[n]);
      MapSetDistinct(MergedOf(ps[..n]), ps[n]);
      MapSet(MergedOf(ps[..n]), ps[n])
  }

  /** The index of the first profile of `ps` with id `x`. */
  function FirstIdIndex(ps: seq<Profile>, x: string): (k: nat)
    requires x in Ids(ps)
    ensures k < |ps| && ps[k].id == x
    ensures forall j :: 0 <= j < k ==> ps[j].id != x
  {
    if ps[0].id == x then 0 else 1 + FirstIdIndex(ps[1..], x)
  }

  /** An id already present in a prefix is first found where the prefix first has it. */
  lemma FirstIdIndexPrefix(ps: seq<Profile>, n: nat, x: string)
    requires n <= |ps| && x in Ids(ps[..n])
    ensures x in Ids(ps) && FirstIdIndex(ps, x) == FirstIdIndex(ps[..n], x) < n
  {
    var k := FirstIdIndex(ps[..n], x);
    assert ps[k] == ps[..n][k];
    var k' := FirstIdIndex(ps, x);
    assert k' <= k;
    assert ps[..n][k'] == ps[k'];
  }

  /** An id new at index `n` is first found there. */
  lemma FirstIdIndexNew(ps: seq<Profile>, n: nat)
    requires n < |ps| && ps[n].id !in Ids(ps[..n])
    ensures FirstIdIndex(ps, ps[n].id) == n
  {
    assert forall k :: 0 <= k < n ==> ps[..n][k] == ps[k];
  }

  /** The entries of `m` come in the order in which their ids first occur in `ps`. */
  predicate InFirstOrder(ps: seq<Profile>, m: seq<Profile>) {
    Ids(m) <= Ids(ps) &&
    forall i, j :: 0 <= i < j < |m| ==> FirstIdIndex(ps, m[i].id) < FirstIdIndex(ps, m[j].id)
  }

  /** Order by first occurrence in a prefix is order by first occurrence in the whole. */
  lemma InFirstOrderExtend(ps: seq<Profile>, n: nat, m: seq<Profile>)
    requires n <= |ps| && Ids(m) == Ids(ps[..n]) && InFirstOrder(ps[..n], m)
    ensures InFirstOrder(ps, m)
  {
    forall i, j | 0 <= i < j < |m| ensures FirstIdIndex(ps, m[i].id) < FirstIdIndex(ps, m[j].id) {
      FirstIdIndexPrefix(ps, n, m[i].id);
      FirstIdIndexPrefix(ps, n, m[j].id);
    }
    forall x | x in Ids(m) ensures x in Ids(ps) {
      FirstIdIndexPrefix(ps, n, x);
    }
  }

  /** `Map.set` of the next source keeps the order by first occurrence. */
  lemma MapSetFirstOrder(ps: seq<Profile>, n: nat, m: seq<Profile>)
    requires n < |ps| && Ids(m) == Ids(ps[..n]) && InFirstOrder(ps[..n], m)
    ensures InFirstOrder(ps, MapSet(m, ps[n]))
  {
    assert InFirstOrder(ps, m) by { InFirstOrderExtend(ps, n, m); }
    if ps[n].id in Ids(m) {
      MapSetIds(m, ps[n]);
      MapSetKeepsIds(m, ps[n]);
      SameIdsSameOrder(ps, m, MapSet(m, ps[n]));
    } else {
      AppendNewInOrder(ps, n, m);
    }
  }

  /** Setting a key already present changes no entry's key. */
  lemma MapSetKeepsIds(m: seq<Profile>, p: Profile)
    requires p.id in Ids(m)
    ensures |MapSet(m, p)| == |m| && forall k :: 0 <= k < |m| ==> MapSet(m, p)[k].id == m[k].id
  {
  }

  /** Replacing entries by entries with the same ids keeps the order. */
  lemma SameIdsSameOrder(ps: seq<Profile>, m: seq<Profile>, r: seq<Profile>)
    requires InFirstOrder(ps, m) && Ids(r) <= Ids(ps)
    requires |r| == |m| && forall k :: 0 <= k < |m| ==> r[k].id == m[k].id
    ensures InFirstOrder(ps, r)
  {
  }

  /** An id first seen at index `n` goes after every id seen before. */
  lemma AppendNewInOrder(ps: seq<Profile>, n: nat, m: seq<Profile>)
    requires n < |ps| && Ids(m) == Ids(ps[..n]) && ps[n].id !in Ids(m) && InFirstOrder(ps, m)
    ensures InFirstOrder(ps, m + [ps[n]])
  {
    var r := m + [ps[n]];
    FirstIdIndexNew(ps, n);
    IdsAppend(m, [ps[n]]);
    forall i, j | 0 <= i < j < |r| ensures FirstIdIndex(ps, r[i].id) < FirstIdIndex(ps, r[j].id) {
      assert r[i] == m[i];
      if j == |m| {
        FirstIdIndexPrefix(ps, n, m[i].id);
      } else {
        assert r[j] == m[j];
      }
    }
  }

  /** A Map keeps every key where it was first set: the merged entries come in the order in
      which their ids first occur among the sources, however often later sources overwrite them. */
  lemma {:induction false} MergedOfFirstOrder(ps: seq<Profile>)
    ensures InFirstOrder(ps, MergedOf(ps))
  {
    if ps != [] {
      var n := |ps| - 1;
      MergedOfFirstOrder(ps[..n]);
      MapSetFirstOrder(ps, n, MergedOf(ps[..n]));
    }
  }

  /** The last profile of `ps` with id `x`. */
  function LastWithId(ps: seq<Profile>, x: string): (r: Option<Profile>)
    ensures r.None? <==> x !in Ids(ps)
    ensures r.Some? ==> r.value.id == x && r.value in ps
  {
    if ps == [] then None
    else
      var n := |ps| - 1;
      assert ps == ps[..n] + [ps[n]];
      IdsAppend(ps[..n], [ps[n]]);
      if ps[n].id == x then Some(ps[n]) else LastWithId(ps[..n], x)
  }

  /** Later sources win: each entry of the merged Map is the last record with its id. */
  lemma {:induction false} MergedOfLastWins(ps: seq<Profile>)
    ensures forall q :: q in MergedOf(ps) ==> LastWithId(ps, q.id) == Some(q)
  {
    if ps != [] {
      var n := |ps| - 1;
      MergedOfLastWins(ps[..n]);
      MapSetMembers(MergedOf(ps[..n]), ps[n]);
    }
  }

  /** Sources whose ids are already distinct come out of the Map unchanged, in their order. */
  lemma {:induction false} MergedOfDistinct(ps: seq<Profile>)
    requires DistinctIds(ps)
    ensures MergedOf(ps) == ps
  {
    if ps != [] {
      var n := |ps| - 1;
      assert DistinctIds(ps[..n]);
      MergedOfDistinct(ps[..n]);
      assert ps[n].id !in Ids(ps[..n]);
      assert ps == ps[..n] + [ps[n]];
    }
  }

  /** The loop `for (const p of sources) mergedMap.set(p.id, p)`. */
  method MergeById(sources: seq<Profile>) returns (merged: seq<Profile>)
    ensures merged == MergedOf(sources)
  {
    merged := [];
    var i := 0;
    while i < |sources|
      invariant 0 <= i <= |sources|
      invariant merged == MergedOf(sources[..i])
    {
      MergedOfStep(sources, i);
      merged := MapSet(merged, sources[i]);
      i := i + 1;
    }
    assert sources[..i] == sources;
  }

  /** One more source is one more `Map.set`. */
  lemma MergedOfStep(sources: seq<Profile>, i: nat)
    requires i < |sources|
    ensures MergedOf(sources[..i + 1]) == MapSet(MergedOf(sources[..i]), sources[i])
  {
    assert sources[..i + 1][..i] == sources[..i];
  }

  // ---------------------------------------------------------------------------
  // `.sort((a, b) => b.createdAt - a.createdAt)`, stable.

  predicate SortedByCreated(s: seq<Profile>) {
    forall i, j :: 0 <= i < j < |s| ==> s[i].createdAt >= s[j].createdAt
  }

  function InsertByCreated(x: Profile, t: seq<Profile>): (r: seq<Profile>)
    ensures multiset(r) == multiset(t) + multiset{x}
  {
    if t == [] || t[0].createdAt - x.createdAt <= 0 then [x] + t
    else
      assert t == [t[0]] + t[1..];
      [t[0]] + InsertByCreated(x, t[1..])
  }

  /** The sort of the merged profiles: newest first, equal times in Map order. */
  function SortByCreated(s: seq<Profile>): (r: seq<Profile>)
    ensures multiset(r) == multiset(s)
    ensures |r| == |s|
  {
    if s == [] then []
    else
      assert s == [s[0]] + s[1..];
      InsertByCreated(s[0], SortByCreated(s[1..]))
  }

  /** Lists with the same elements have the same ids. */
  lemma SameElementsSameIds(a: seq<Profile>, b: seq<Profile>)
    requires multiset(a) == multiset(b)
    ensures Ids(a) == Ids(b)
  {
    forall x | x in Ids(a) ensures x in Ids(b) {
      var i :| 0 <= i < |a| && a[i].id == x;
      assert a[i] in multiset(b);
      var j :| 0 <= j < |b| && b[j] == a[i];
    }
    forall x | x in Ids(b) ensures x in Ids(a) {
      var j :| 0 <= j < |b| && b[j].id == x;
      assert b[j] in multiset(a);
      var i :| 0 <= i < |a| && a[i] == b[j];
    }
  }

  /** A newest-first list stays so with a profile in front that is no older than any of it. */
  lemma SortedByCreatedCons(h: Profile, t: seq<Profile>)
    requires SortedByCreated(t)
    requires forall j :: 0 <= j < |t| ==> h.createdAt >= t[j].createdAt
    ensures SortedByCreated([h] + t)
  {
    var r := [h] + t;
    forall a, b | 0 <= a < b < |r| ensures r[a].createdAt >= r[b].createdAt {
      assert r[b] == t[b - 1];
      if a > 0 { assert r[a] == t[a - 1]; }
    }
  }

  /** In a newest-first list the head is no older than anything in the tail. */
  lemma HeadNewest(t: seq<Profile>, y: Profile)
    requires SortedByCreated(t) && t != [] && y in t[1..]
    ensures t[0].createdAt >= y.createdAt
  {
    var m :| 0 <= m < |t[1..]| && t[1..][m] == y;
    assert t[m + 1] == y;
  }

  lemma {:induction false} InsertByCreatedSorted(x: Profile, t: seq<Profile>)
    requires SortedByCreated(t)
    ensures SortedByCreated(InsertByCreated(x, t))
  {
    if !(t == [] || t[0].createdAt - x.createdAt <= 0) {
      var rest := InsertByCreated(x, t[1..]);
      assert SortedByCreated(rest) by { InsertByCreatedSorted(x, t[1..]); }
      forall j | 0 <= j < |rest| ensures t[0].createdAt >= rest[j].createdAt {
        assert rest[j] in multiset(rest);
        if rest[j] != x {
          assert rest[j] in multiset(t[1..]);
          HeadNewest(t, rest[j]);
        }
      }
      SortedByCreatedCons(t[0], rest);
    }
  }

  lemma {:induction false} InsertByCreatedDistinct(x: Profile, t: seq<Profile>)
    requires DistinctIds(t) && x.id !in Ids(t)
    ensures DistinctIds(InsertByCreated(x, t))
  {
    if t == [] || t[0].createdAt - x.createdAt <= 0 {
      DistinctCons(x, t);
    } else {
      var rest := InsertByCreated(x, t[1..]);
      assert DistinctIds(t[1..]) && t[0].id !in Ids(t[1..]) by { DistinctHead(t); }
      assert x.id !in Ids(t[1..]) && x.id != t[0].id by {
        assert t == [t[0]] + t[1..];
        IdsAppend([t[0]], t[1..]);
      }
      assert DistinctIds(rest) by { InsertByCreatedDistinct(x, t[1..]); }
      assert t[0].id !in Ids(rest) by {
        IdsAppend([x], t[1..]);
        SameElementsSameIds(rest, [x] + t[1..]);
      }
      DistinctCons(t[0], rest);
    }
  }

  /** The merged list is ordered newest first. */
  lemma {:induction false} SortByCreatedSorted(s: seq<Profile>)
    ensures SortedByCreated(SortByCreated(s))
  {
    if s != [] {
      SortByCreatedSorted(s[1..]);
      InsertByCreatedSorted(s[0], SortByCreated(s[1..]));
    }
  }

  /** Sorting cannot create duplicates. */
  lemma {:induction false} SortByCreatedDistinct(s: seq<Profile>)
    requires DistinctIds(s)
    ensures DistinctIds(SortByCreated(s))
  {
    if s != [] {
      DistinctHead(s);
      SortByCreatedDistinct(s[1..]);
      SameElementsSameIds(SortByCreated(s[1..]), s[1..]);
      InsertByCreatedDistinct(s[0], SortByCreated(s[1..]));
    }
  }

  /** The profiles of `s` created at time `t`, in their order in `s`. */
  function CreatedAt(s: seq<Profile>, t: int): seq<Profile> {
    if s == [] then [] else (if s[0].createdAt == t then [s[0]] else []) + CreatedAt(s[1..], t)
  }

  lemma CreatedAtCons(h: Profile, t: seq<Profile>, c: int)
    ensures CreatedAt([h] + t, c) == (if h.createdAt == c then [h] else []) + CreatedAt(t, c)
  {
    assert ([h] + t)[1..] == t;
  }

  lemma {:induction false} InsertByCreatedStable(x: Profile, t: seq<Profile>, c: int)
    ensures CreatedAt(InsertByCreated(x, t), c) == if x.createdAt == c then [x] + CreatedAt(t, c) else CreatedAt(t, c)
  {
    if t == [] || t[0].createdAt - x.createdAt <= 0 {
      CreatedAtCons(x, t, c);
    } else {
      InsertByCreatedStable(x, t[1..], c);
      CreatedAtCons(t[0], InsertByCreated(x, t[1..]), c);
      assert t == [t[0]] + t[1..];
      CreatedAtCons(t[0], t[1..], c);
    }
  }

  /** Profiles created at the same instant keep their Map order. */
  lemma {:induction false} SortByCreatedStable(s: seq<Profile>, c: int)
    ensures CreatedAt(SortByCreated(s), c) == CreatedAt(s, c)
  {
    if s != [] {
      SortByCreatedStable(s[1..], c);
      InsertByCreatedStable(s[0], SortByCreated(s[1..]), c);
    }
  }

  /** What `loadProfiles` shows, from its sources in overwrite order (owned, shared, link). */
  function MergedProfiles(sources: seq<Profile>): seq<Profile> {
    SortByCreated(MergedOf(sources))
  }

  /** The merged list has pairwise-distinct ids, exactly the ids of the sources, is newest
      first, and holds for each id the record of the latest source that has it. */
  lemma MergedProfilesFacts(sources: seq<Profile>)
    ensures DistinctIds(MergedProfiles(sources))
    ensures Ids(MergedProfiles(sources)) == Ids(sources)
    ensures SortedByCreated(MergedProfiles(sources))
    ensures forall q :: q in MergedProfiles(sources) ==> LastWithId(sources, q.id) == Some(q)
  {
    var m := MergedOf(sources);
    SameElementsSameIds(SortByCreated(m), m);
    SortByCreatedDistinct(m);
    SortByCreatedSorted(m);
    MergedOfLastWins(sources);
    forall q | q in MergedProfiles(sources) ensures LastWithId(sources, q.id) == Some(q) {
      assert q in multiset(SortByCreated(m));
      assert q in multiset(m);
    }
  }

  /** One unfolding of `LastWithId`: the last record decides, or the ones before it. */
  lemma LastWithIdStep(ps: seq<Profile>, x: string)
    requires ps != []
    ensures LastWithId(ps, x) == if ps[|ps| - 1].id == x then Some(ps[|ps| - 1]) else LastWithId(ps[..|ps| - 1], x)
  {
  }

  /** A later source overrides an earlier one: a record of `late` beats every record of
      `early` with the same id (owned < shared < link on the character page, owned < shared
      on the home page). */
  lemma {:induction false} LaterSourceWins(early: seq<Profile>, late: seq<Profile>, q: Profile)
    requires q in late
    ensures LastWithId(early + late, q.id).Some?
    ensures LastWithId(early + late, q.id).value in late
  {
    var init := late[..|late| - 1];
    var last := late[|late| - 1];
    DropLastOfAppend(early, late);
    LastWithIdStep(early + late, q.id);
    if last.id != q.id {
      DropLastKeeps(late, q);
      LaterSourceWins(early, init, q);
      DropLastWithin(late, LastWithId(early + init, q.id).value);
    }
  }

  lemma DropLastOfAppend<T>(a: seq<T>, b: seq<T>)
    requires b != []
    ensures (a + b)[..|a + b| - 1] == a + b[..|b| - 1]
    ensures (a + b)[|a + b| - 1] == b[|b| - 1]
  {
  }

  lemma DropLastKeeps<T>(s: seq<T>, x: T)
    requires x in s && x != s[|s| - 1]
    ensures x in s[..|s| - 1]
  {
    var k :| 0 <= k < |s| && s[k] == x;
    assert s[..|s| - 1][k] == x;
  }

  lemma DropLastWithin<T>(s: seq<T>, x: T)
    requires s != [] && x in s[..|s| - 1]
    ensures x in s
  {
    var k :| 0 <= k < |s| - 1 && s[..|s| - 1][k] == x;
    assert s[k] == x;
  }

  // ---------------------------------------------------------------------------
  // `images[profile.id] = profile.imageData` for every profile with a truthy image.

  function ImageMap(ps: seq<Profile>): (m: map<string, string>)
    ensures m.Keys == (set i | 0 <= i < |ps| && Truthy(ps[i].imageData) :: ps[i].id)
  {
    if ps == [] then map[]
    else
      var n := |ps| - 1;
      var m := ImageMap(ps[..n]);
      assert forall i :: 0 <= i < n ==> ps[..n][i] == ps[i];
      if Truthy(ps[n].imageData) then m[ps[n].id := ps[n].imageData.value] else m
  }

  /** With distinct ids, every profile with an image appears under its id with that image. */
  lemma {:induction false} ImageMapValues(ps: seq<Profile>)
    requires DistinctIds(ps)
    ensures forall i :: 0 <= i < |ps| && Truthy(ps[i].imageData) ==> ImageMap(ps)[ps[i].id] == ps[i].imageData.value
  {
    if ps != [] {
      var n := |ps| - 1;
      assert DistinctIds(ps[..n]);
      ImageMapValues(ps[..n]);
      forall i | 0 <= i < n && Truthy(ps[i].imageData)
        ensures ImageMap(ps)[ps[i].id] == ps[i].imageData.value
      {
        assert ps[..n][i] == ps[i];
        assert ps[i].id != ps[n].id;
      }
    }
  }

  /** No profile with an image, no entry. */
  lemma ImageMapEmpty(ps: seq<Profile>)
    requires forall i :: 0 <= i < |ps| ==> ps[i].imageData.None?
    ensures ImageMap(ps) == map[]
  {
    assert ImageMap(ps).Keys == {};
  }

  /** The loop `for (const profile of merged) if (profile.imageData) images[profile.id] = …`. */
  method BuildImageMap(ps: seq<Profile>) returns (images: map<string, string>)
    ensures images == ImageMap(ps)
  {
    images := map[];
    var i := 0;
    while i < |ps|
      invariant 0 <= i <= |ps|
      invariant images == ImageMap(ps[..i])
    {
      assert ps[..i + 1][..i] == ps[..i];
      if Truthy(ps[i].imageData) {
        images := images[ps[i].id := ps[i].imageData.value];
      }
      i := i + 1;
    }
    assert ps[..i] == ps;
  }

  /** `mergeProfilesById` followed by the image loop of `loadProfiles`: the list the page
      shows and the image table it caches, as `MergedProfiles` and `ImageMap` define them. */
  method MergeAndIndex(sources: seq<Profile>) returns (merged: seq<Profile>, images: map<string, string>)
    ensures merged == MergedProfiles(sources)
    ensures images == ImageMap(merged)
  {
    var byId := MergeById(sources);
    merged := SortByCreated(byId);
    images := BuildImageMap(merged);
  }

  // ---------------------------------------------------------------------------
  // Which profile to show

  /** A stored pointer counts when it is truthy and names a profile of the list. */
  predicate StoredIsValid(stored: Option<string>, ps: seq<Profile>) {
    Truthy(stored) && stored.value in Ids(ps)
  }

  /** The outcome of the selection at the end of `loadProfiles` on the character page:
      the profile to show and whether its id is written back as the stored pointer. */
  datatype Choice = Choice(current: Option<string>, storePointer: bool)

  function ChooseAfterLoad(link: Option<Profile>, stored: Option<string>, merged: seq<Profile>): (c: Choice)
    ensures link.Some? ==> c == Choice(Some(link.value.id), false)
    ensures link.None? && StoredIsValid(stored, merged) ==> c == Choice(stored, false)
    ensures link.None? ==> (c.current.Some? ==> c.current.value in Ids(merged))
    ensures c.current.None? <==> link.None? && merged == []
    ensures c.storePointer <==> link.None? && !StoredIsValid(stored, merged) && merged != []
    ensures c.storePointer ==> c.current == Some(merged[0].id)
  {
    if link.Some? then Choice(Some(link.value.id), false)
    else if StoredIsValid(stored, merged) then Choice(stored, false)
    else if |merged| > 0 then Choice(Some(merged[0].id), true)
    else Choice(None, false)
  }

  /** The home page's rule, run only when the list is not empty: keep the stored id if it
      names a loaded profile, otherwise take the first. */
  function NextProfileId(stored: Option<string>, ps: seq<Profile>): (id: string)
    requires ps != []
    ensures id in Ids(ps)
    ensures StoredIsValid(stored, ps) ==> id == stored.value
    ensures !StoredIsValid(stored, ps) ==> id == ps[0].id
  {
    if StoredIsValid(stored, ps) then stored.value else ps[0].id
  }

  /** Both pages pick the same profile when there is no shared link: a user who lands on the
      home page and is redirected sees the profile the character page would choose. */
  lemma HomeAndCharacterAgree(stored: Option<string>, ps: seq<Profile>)
    requires ps != []
    ensures ChooseAfterLoad(None, stored, ps).current == Some(NextProfileId(stored, ps))
  {
  }
}
