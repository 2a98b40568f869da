/** The `Profile` record of app/types.ts, the database row it is read from, and the
    whole-array updates the pages apply to the profile list. */
module Profiles {
  import opened Common

  datatype Visibility = Public | Private

  /** A profile as the pages hold it in memory. */
  datatype Profile = Profile(
    id: string,
    ownerId: UserId,
    name: string,
    description: Option<string>,
    visibility: Visibility,
    imageData: Option<string>,
    createdAt: int,
    punchCount: int,
    hugCount: int,
    kissCount: int,
    notesCount: int)

  /** A row of the `profiles` table as the client library returns it. `None` is SQL
      `null` or a column that was not selected; `createdAt` is the parsed `created_at`
      timestamp in milliseconds, `None` when the column is null or empty. */
  datatype ProfileRow = ProfileRow(
    id: string,
    ownerId: UserId,
    name: string,
    description: Option<string>,
    visibility: string,
    imageData: Option<string>,
    createdAt: Option<int>,
    punchCount: Option<int>,
    hugCount: Option<int>,
    kissCount: Option<int>,
    notesCount: Option<int>)

  /** `a ?? 0` */
  function OrZero(a: Option<int>): int {
    if a.Some? then a.value else 0
  }

  /** `s || undefined` / `s || null`: an empty string collapses to absent. */
  function NonEmpty(s: Option<string>): (r: Option<string>)
    ensures r.Some? <==> Truthy(s)
    ensures r.Some? ==> r == s
  {
    if Truthy(s) then s else None
  }

  /** What `mapProfile` can produce: no present-but-empty description or image. */
  predicate WellFormed(p: Profile) {
    p.description != Some("") && p.imageData != Some("")
  }

  /** `mapProfile`: the row's fields with SQL nulls replaced by defaults. `now` is the
      value `Date.now()` returns when the row has no creation time. */
  function MapProfile(row: ProfileRow, now: int): (p: Profile)
    ensures WellFormed(p)
    ensures p.id == row.id && p.ownerId == row.ownerId && p.name == row.name
  {
    Profile(
      row.id,
      row.ownerId,
      row.name,
      NonEmpty(row.description),
      if row.visibility == "public" then Public else Private,
      NonEmpty(row.imageData),
      if row.createdAt.Some? then row.createdAt.value else now,
      OrZero(row.punchCount),
      OrZero(row.hugCount),
      OrZero(row.kissCount),
      OrZero(row.notesCount))
  }

  /** The defaults of `mapProfile`, for every row: a null counter reads as 0 and a present one
      as itself, only the exact text "public" makes a profile public (any other text, "PUBLIC"
      or "" included, makes it private), a row without a creation time takes the clock, and
      an empty description or image reads as absent. */
  lemma MapProfileDefaults(row: ProfileRow, now: int)
    ensures var p := MapProfile(row, now);
      && (row.punchCount.None? ==> p.punchCount == 0) && (row.punchCount.Some? ==> p.punchCount == row.punchCount.value)
      && (row.hugCount.None? ==> p.hugCount == 0) && (row.hugCount.Some? ==> p.hugCount == row.hugCount.value)
      && (row.kissCount.None? ==> p.kissCount == 0) && (row.kissCount.Some? ==> p.kissCount == row.kissCount.value)
      && (row.notesCount.None? ==> p.notesCount == 0) && (row.notesCount.Some? ==> p.notesCount == row.notesCount.value)
      && (p.visibility == Public <==> row.visibility == "public")
      && (row.createdAt.None? ==> p.createdAt == now) && (row.createdAt.Some? ==> p.createdAt == row.createdAt.value)
      && (p.description.Some? <==> Truthy(row.description)) && (p.description.Some? ==> p.description == row.description)
      && (p.imageData.Some? <==> Truthy(row.imageData)) && (p.imageData.Some? ==> p.imageData == row.imageData)
  {
  }

  function VisibilityColumn(v: Visibility): string {
    match v
    case Public => "public"
    case Private => "private"
  }

  /** The row the store holds for a profile: every column present. */
  function ToRow(p: Profile): (row: ProfileRow)
    ensures row.id == p.id && row.createdAt == Some(p.createdAt)
  {
    ProfileRow(p.id, p.ownerId, p.name, p.description, VisibilityColumn(p.visibility),
               p.imageData, Some(p.createdAt), Some(p.punchCount), Some(p.hugCount),
               Some(p.kissCount), Some(p.notesCount))
  }

  /** Reading back the row of a well-formed profile gives the same profile, whatever the clock says. */
  lemma MapProfileOfRow(p: Profile, now: int)
    requires WellFormed(p)
    ensures MapProfile(ToRow(p), now) == p
  {
    match p.visibility
    case Public =>
    case Private => assert VisibilityColumn(p.visibility) != "public";
  }

  /** Mapping is a normalisation: mapping the row of a mapped row changes nothing. */
  lemma MapProfileNormalises(row: ProfileRow, now: int, later: int)
    ensures MapProfile(ToRow(MapProfile(row, now)), later) == MapProfile(row, now)
  {
    MapProfileOfRow(MapProfile(row, now), later);
  }

  /** The columns `createProfile` and `handleCreateProfile` insert. */
  datatype InsertPayload = InsertPayload(
    ownerId: UserId, name: string, description: Option<string>, visibility: string, imageData: Option<string>)

  /** The payload both pages send: trimmed name, `description.trim() || null`, the
      visibility flag as text, the image as chosen, and all counters 0. */
  function CreatePayload(owner: UserId, name: string, desc: string, isPublic: bool, image: Option<string>): InsertPayload
  {
    InsertPayload(owner, Trim(name), NonEmpty(Some(Trim(desc))),
                  if isPublic then "public" else "private", image)
  }

  /** The row an insert returns when the store keeps the payload and assigns `id` and `created_at`. */
  function InsertedRow(pl: InsertPayload, id: string, createdAt: int): ProfileRow {
    ProfileRow(id, pl.ownerId, pl.name, pl.description, pl.visibility, pl.imageData,
               Some(createdAt), Some(0), Some(0), Some(0), Some(0))
  }

  /** A freshly created profile belongs to its creator, carries the trimmed name, the
      chosen visibility and zero counters (so `notesCount` starts at 0). */
  lemma CreatedProfileShape(owner: UserId, name: string, desc: string, isPublic: bool,
                            image: Option<string>, id: string, createdAt: int, now: int)
    ensures var p := MapProfile(InsertedRow(CreatePayload(owner, name, desc, isPublic, image), id, createdAt), now);
      && p.ownerId == owner && p.name == Trim(name) && p.createdAt == createdAt
      && (p.visibility == Public <==> isPublic)
      && (p.description.Some? <==> Trim(desc) != "")
      && p.punchCount == 0 && p.hugCount == 0 && p.kissCount == 0 && p.notesCount == 0
  {
    var pl := CreatePayload(owner, name, desc, isPublic, image);
    assert isPublic <==> pl.visibility == "public";
  }

  /** The synthetic profile of guest mode (app/character/page.tsx:30-45). */
  function GuestProfile(seed: nat, now: int): (p: Profile)
    ensures p.id == "guest-profile" && p.ownerId == "guest" && p.visibility == Private
    ensures p.punchCount == 0 && p.hugCount == 0 && p.kissCount == 0 && p.notesCount == 0
    ensures Truthy(p.imageData)
  {
    Profile("guest-profile", "guest", "John Doe", Some("Guest mode"), Private,
            Some("https://i.pravatar.cc/900?img=" + DecimalString(seed % 70 + 1)),
            now, 0, 0, 0, 0)
  }

  // ---------------------------------------------------------------------------
  // The profile list

  /** The ids of a list of profiles. */
  function Ids(ps: seq<Profile>): (s: set<string>)
    ensures forall i :: 0 <= i < |ps| ==> ps[i].id in s
    ensures forall x :: x in s ==> exists i :: 0 <= i < |ps| && ps[i].id == x
  {
    if ps == [] then {} else {ps[0].id} + Ids(ps[1..])
  }

  lemma IdsAppend(a: seq<Profile>, b: seq<Profile>)
    ensures Ids(a + b) == Ids(a) + Ids(b)
  {
    forall x | x in Ids(a + b) ensures x in Ids(a) + Ids(b) {
      var i :| 0 <= i < |a + b| && (a + b)[i].id == x;
      if i >= |a| { assert b[i - |a|].id == x; }
    }
    forall x | x in Ids(a) ensures x in Ids(a + b) {
      var i :| 0 <= i < |a| && a[i].id == x;
      assert (a + b)[i].id == x;
    }
    forall x | x in Ids(b) ensures x in Ids(a + b) {
      var i :| 0 <= i < |b| && b[i].id == x;
      assert (a + b)[|a| + i].id == x;
    }
  }

  /** No two entries share an id. */
  predicate DistinctIds(ps: seq<Profile>) {
    forall i, j :: 0 <= i < j < |ps| ==> ps[i].id != ps[j].id
  }

  /** A distinct list stays distinct with a fresh id in front. */
  lemma DistinctCons(h: Profile, t: seq<Profile>)
    requires DistinctIds(t) && h.id !in Ids(t)
    ensures DistinctIds([h] + t)
  {
    var r := [h] + t;
    forall i, j | 0 <= i < j < |r| ensures r[i].id != r[j].id {
      assert r[j] == t[j - 1];
      if i > 0 { assert r[i] == t[i - 1]; }
    }
  }

  /** In a distinct list the head's id does not occur in the tail. */
  lemma DistinctHead(s: seq<Profile>)
    requires s != [] && DistinctIds(s)
    ensures DistinctIds(s[1..]) && s[0].id !in Ids(s[1..])
  {
    assert forall k :: 0 <= k < |s[1..]| ==> s[1..][k] == s[k + 1];
  }

  /** `profiles.find((p) => p.id === id)`. */
  function Find(ps: seq<Profile>, id: string): (r: Option<Profile>)
    ensures r.None? <==> id !in Ids(ps)
    ensures r.Some? ==> r.value.id == id && r.value in ps
    ensures r.Some? ==> exists i :: 0 <= i < |ps| && ps[i] == r.value
                                   && forall k :: 0 <= k < i ==> ps[k].id != id
  {
    if ps == [] then None
    else if ps[0].id == id then Some(ps[0])
    else
      var r := Find(ps[1..], id);
      if r.Some? then
        var i :| 0 <= i < |ps[1..]| && ps[1..][i] == r.value && forall k :: 0 <= k < i ==> ps[1..][k].id != id;
        assert ps[i + 1] == r.value;
        r
      else r
  }

  /** The counters a page can change. */
  datatype Counter = PunchCount | HugCount | KissCount | NotesCount

  function CounterOf(p: Profile, c: Counter): int {
    match c
    case PunchCount => p.punchCount
    case HugCount => p.hugCount
    case KissCount => p.kissCount
    case NotesCount => p.notesCount
  }

  function WithCounter(p: Profile, c: Counter, v: int): (q: Profile)
    ensures CounterOf(q, c) == v
    ensures forall d :: d != c ==> CounterOf(q, d) == CounterOf(p, d)
    ensures q.id == p.id
  {
    match c
    case PunchCount => p.(punchCount := v)
    case HugCount => p.(hugCount := v)
    case KissCount => p.(kissCount := v)
    case NotesCount => p.(notesCount := v)
  }

  /** `p` and `q` agree on everything except, possibly, counter `c`. */
  predicate SameExceptCounter(p: Profile, q: Profile, c: Counter) {
    WithCounter(p, c, 0) == WithCounter(q, c, 0)
  }

  /** `profiles.map((p) => p.id === id ? { ...p, <c>: p.<c> + 1 } : p)`. */
  function Increment(ps: seq<Profile>, id: string, c: Counter): (r: seq<Profile>)
    ensures |r| == |ps|
    ensures forall i :: 0 <= i < |ps| ==> SameExceptCounter(r[i], ps[i], c)
    ensures forall i :: 0 <= i < |ps| ==>
              CounterOf(r[i], c) == CounterOf(ps[i], c) + (if ps[i].id == id then 1 else 0)
  {
    seq(|ps|, i requires 0 <= i < |ps| =>
      if ps[i].id == id then WithCounter(ps[i], c, CounterOf(ps[i], c) + 1) else ps[i])
  }

  /** `Math.max(0, n - 1)` */
  function DecrementFloor(n: int): (r: int)
    ensures r >= 0
    ensures n >= 1 ==> r == n - 1
    ensures n <= 1 ==> r == 0
  {
    if n - 1 > 0 then n - 1 else 0
  }

  /** `profiles.map((p) => p.id === id ? { ...p, notesCount: Math.max(0, p.notesCount - 1) } : p)`. */
  function DecrementNotes(ps: seq<Profile>, id: string): (r: seq<Profile>)
    ensures |r| == |ps|
    ensures forall i :: 0 <= i < |ps| ==> SameExceptCounter(r[i], ps[i], NotesCount)
    ensures forall i :: 0 <= i < |ps| ==>
              r[i].notesCount == if ps[i].id == id then DecrementFloor(ps[i].notesCount) else ps[i].notesCount
  {
    seq(|ps|, i requires 0 <= i < |ps| =>
      if ps[i].id == id then ps[i].(notesCount := DecrementFloor(ps[i].notesCount)) else ps[i])
  }

  /** `profiles.map((p) => (p.id === id ? q : p))`. */
  function ReplaceById(ps: seq<Profile>, id: string, q: Profile): (r: seq<Profile>)
    ensures |r| == |ps|
    ensures forall i :: 0 <= i < |ps| ==> r[i] == if ps[i].id == id then q else ps[i]
  {
    seq(|ps|, i requires 0 <= i < |ps| => if ps[i].id == id then q else ps[i])
  }

  /** `profiles.map((p) => (p.id === id ? { ...p, imageData } : p))`. */
  function SetImage(ps: seq<Profile>, id: string, img: string): (r: seq<Profile>)
    ensures |r| == |ps|
    ensures forall i :: 0 <= i < |ps| ==> r[i].id == ps[i].id
    ensures forall i :: 0 <= i < |ps| ==> r[i] == if ps[i].id == id then ps[i].(imageData := Some(img)) else ps[i]
  {
    seq(|ps|, i requires 0 <= i < |ps| => if ps[i].id == id then ps[i].(imageData := Some(img)) else ps[i])
  }

  /** Setting an image keeps the ids. */
  lemma SetImageIds(ps: seq<Profile>, id: string, img: string)
    ensures Ids(SetImage(ps, id, img)) == Ids(ps)
  {
    var r := SetImage(ps, id, img);
    forall x | x in Ids(r) ensures x in Ids(ps) {
      var k :| 0 <= k < |r| && r[k].id == x;
    }
    forall x | x in Ids(ps) ensures x in Ids(r) {
      var k :| 0 <= k < |ps| && ps[k].id == x;
      assert r[k].id == x;
    }
  }

  /** The profile found under the id is the one found before, now carrying the image. */
  lemma {:induction false} SetImageFind(ps: seq<Profile>, id: string, img: string)
    requires Find(ps, id).Some?
    ensures Find(SetImage(ps, id, img), id) == Some(Find(ps, id).value.(imageData := Some(img)))
  {
    if ps[0].id == id {
      SetImageFindHead(ps, id, img);
    } else {
      SetImageFindTail(ps, id, img);
      SetImageFind(ps[1..], id, img);
    }
  }

  lemma SetImageFindHead(ps: seq<Profile>, id: string, img: string)
    requires ps != [] && ps[0].id == id
    ensures Find(ps, id) == Some(ps[0])
    ensures Find(SetImage(ps, id, img), id) == Some(ps[0].(imageData := Some(img)))
  {
    FindStep(ps, id);
    FindStep(SetImage(ps, id, img), id);
  }

  lemma SetImageFindTail(ps: seq<Profile>, id: string, img: string)
    requires ps != [] && ps[0].id != id
    ensures Find(ps, id) == Find(ps[1..], id)
    ensures Find(SetImage(ps, id, img), id) == Find(SetImage(ps[1..], id, img), id)
  {
    SetImageDropsHead(ps, id, img);
    FindStep(ps, id);
    FindStep(SetImage(ps, id, img), id);
  }

  lemma SetImageDropsHead(ps: seq<Profile>, id: string, img: string)
    requires ps != []
    ensures SetImage(ps, id, img)[1..] == SetImage(ps[1..], id, img)
  {
  }

  /** One unfolding of `Find`. */
  lemma FindStep(ps: seq<Profile>, id: string)
    requires ps != []
    ensures Find(ps, id) == if ps[0].id == id then Some(ps[0]) else Find(ps[1..], id)
  {
  }

  /** `profiles.filter((p) => p.id !== id)`. */
  function RemoveById(ps: seq<Profile>, id: string): (r: seq<Profile>)
    ensures Ids(r) == Ids(ps) - {id}
    ensures forall p :: p in r <==> p in ps && p.id != id
    ensures DistinctIds(ps) ==> DistinctIds(r)
    ensures |r| <= |ps|
  {
    if ps == [] then []
    else if ps[0].id == id then RemoveById(ps[1..], id)
    else
      var rest := RemoveById(ps[1..], id);
      var r := [ps[0]] + rest;
      assert r[1..] == rest;
      assert DistinctIds(ps) ==> DistinctIds(r) by {
        if DistinctIds(ps) { DistinctHead(ps); DistinctCons(ps[0], rest); }
      }
      r
  }

  /** Every profile in the list has a non-negative note counter. */
  predicate NotesCountsNonNegative(ps: seq<Profile>) {
    forall i :: 0 <= i < |ps| ==> ps[i].notesCount >= 0
  }

  /** Neither adding one note nor removing one can make a note counter negative. */
  lemma NotesCountStaysNonNegative(ps: seq<Profile>, id: string)
    requires NotesCountsNonNegative(ps)
    ensures NotesCountsNonNegative(Increment(ps, id, NotesCount))
    ensures NotesCountsNonNegative(DecrementNotes(ps, id))
  {
    var r := Increment(ps, id, NotesCount);
    forall i | 0 <= i < |ps| ensures r[i].notesCount >= 0 {
      assert CounterOf(r[i], NotesCount) == CounterOf(ps[i], NotesCount) + (if ps[i].id == id then 1 else 0);
    }
  }

  /** Whatever the counter held, one decrement leaves the profile with that id at or above 0. */
  lemma DecrementNeverNegative(ps: seq<Profile>, id: string)
    ensures forall i :: 0 <= i < |ps| && ps[i].id == id ==> DecrementNotes(ps, id)[i].notesCount >= 0
  {
  }

  /** A failed delete restores the snapshot, so decrementing and then restoring is the identity;
      incrementing and then decrementing a non-negative counter is the identity too. */
  lemma IncrementThenDecrement(ps: seq<Profile>, id: string)
    requires NotesCountsNonNegative(ps)
    ensures DecrementNotes(Increment(ps, id, NotesCount), id) == ps
  {
    var up := Increment(ps, id, NotesCount);
    var down := DecrementNotes(up, id);
    forall i | 0 <= i < |ps| ensures down[i] == ps[i] {
      assert CounterOf(up[i], NotesCount) == CounterOf(ps[i], NotesCount) + (if ps[i].id == id then 1 else 0);
      assert SameExceptCounter(up[i], ps[i], NotesCount);
      assert SameExceptCounter(down[i], up[i], NotesCount);
      assert WithCounter(down[i], NotesCount, 0) == WithCounter(ps[i], NotesCount, 0);
    }
  }
}
