/** Shared links and collaborators: who may open `?profile=<id>`, how a visitor is enrolled
    in `profile_collaborators`, and the collaborator list an owner sees. */
module Sharing {
  import opened Common
  import opened Profiles
  import opened Remote

  // ---------------------------------------------------------------------------
  // Opening a shared link

  /** What the link step of `loadProfiles` makes of the looked-up profile. */
  datatype LinkOutcome =
    | Denied                                  // `setAccessDenied(true)` and the load stops
    | Accepted(profile: Profile, enroll: bool) // merged in, shown, and the visitor enrolled when `enroll`

  /** The link lookup's row (`None` when the request errors or finds no row) judged for
      `viewer`: the owner always gets in, anyone else only when the profile is public,
      whether or not they are already a collaborator. */
  function ResolveLink(viewer: UserId, row: Option<ProfileRow>, now: int): (o: LinkOutcome)
    ensures o.Denied? <==> row.None? || (row.value.ownerId != viewer && row.value.visibility != "public")
    ensures o.Accepted? ==> o.profile == MapProfile(row.value, now)
    ensures o.Accepted? ==> (o.enroll <==> row.value.ownerId != viewer)
    ensures o.Accepted? && o.enroll ==> o.profile.visibility == Public
  {
    if row.None? then Denied
    else
      var p := MapProfile(row.value, now);
      var isLinkOwner := p.ownerId == viewer;
      if !isLinkOwner && p.visibility != Public then Denied
      else Accepted(p, !isLinkOwner)
  }

  /** Being a collaborator does not open a private profile: the link check never consults
      `profile_collaborators`, so the same row is refused to every non-owner. */
  lemma PrivateLinkRefusedToCollaborators(viewer: UserId, row: ProfileRow, now: int, table: seq<Enrolment>)
    requires row.ownerId != viewer && row.visibility != "public"
    requires Count(table, row.id, viewer) >= 1
    ensures ResolveLink(viewer, Some(row), now) == Denied
  {
  }

  // ---------------------------------------------------------------------------
  // `ensureCollaborator` against the `profile_collaborators` table

  /** A row of `profile_collaborators`, reduced to the pair the lookup matches on. */
  datatype Enrolment = Enrolment(profileId: string, userId: UserId)

  /** How many rows of the table enrol `userId` in `profileId`. */
  function Count(table: seq<Enrolment>, profileId: string, userId: UserId): (n: nat)
    ensures n <= |table|
    ensures n == 0 <==> Enrolment(profileId, userId) !in table
  {
    if table == [] then 0
    else
      var k := |table| - 1;
      assert table == table[..k] + [table[k]];
      Count(table[..k], profileId, userId) + (if table[k] == Enrolment(profileId, userId) then 1 else 0)
  }

  lemma CountAppend(table: seq<Enrolment>, e: Enrolment, profileId: string, userId: UserId)
    ensures Count(table + [e], profileId, userId)
            == Count(table, profileId, userId) + (if e == Enrolment(profileId, userId) then 1 else 0)
  {
    assert (table + [e])[..|table|] == table;
  }

  /** `maybeSingle()` finds the row only when the request succeeds and exactly one row
      matches; more than one row is an error, which leaves `existing` null. `lookup` is the
      number of matching rows the request saw, `None` when it failed. */
  predicate LookupFindsRow(lookup: Option<nat>) {
    lookup == Some(1)
  }

  /** The writes `ensureCollaborator` issues: nothing without a user or when the lookup
      found the row, otherwise one insert of the (profile, user) pair. */
  function EnsureCollaboratorWrites(user: Option<UserId>, profileId: string, lookup: Option<nat>): (ws: seq<RemoteWrite>)
    ensures ws != [] <==> user.Some? && !LookupFindsRow(lookup)
    ensures ws != [] ==> ws == [InsertCollaborator(profileId, user.value)]
  {
    if user.None? || LookupFindsRow(lookup) then [] else [InsertCollaborator(profileId, user.value)]
  }

  /** The table after `ensureCollaborator` runs for `userId` on `profileId`; `lookupOk` says
      whether the lookup request went through and `insertOk` whether the insert did. */
  function AfterVisit(table: seq<Enrolment>, profileId: string, userId: UserId, lookupOk: bool, insertOk: bool): seq<Enrolment> {
    var lookup := if lookupOk then Some(Count(table, profileId, userId)) else None;
    if EnsureCollaboratorWrites(Some(userId), profileId, lookup) != [] && insertOk
    then table + [Enrolment(profileId, userId)]
    else table
  }

  /** A first visit enrols the visitor once, and a visit with an intact table leaves at most
      one row. */
  lemma VisitEnrolsOnce(table: seq<Enrolment>, profileId: string, userId: UserId, insertOk: bool)
    requires Count(table, profileId, userId) <= 1
    ensures Count(AfterVisit(table, profileId, userId, true, insertOk), profileId, userId) <= 1
    ensures insertOk ==> Count(AfterVisit(table, profileId, userId, true, insertOk), profileId, userId) == 1
  {
    CountAppend(table, Enrolment(profileId, userId), profileId, userId);
  }

  /** Once enrolled, a visit whose lookup succeeds changes nothing. */
  lemma RepeatVisitAddsNothing(table: seq<Enrolment>, profileId: string, userId: UserId, insertOk: bool)
    requires Count(table, profileId, userId) == 1
    ensures AfterVisit(table, profileId, userId, true, insertOk) == table
  {
  }

  /** A lookup that fails is read as "not enrolled", so an enrolled visitor gets a second row. */
  lemma FailedLookupDuplicates(table: seq<Enrolment>, profileId: string, userId: UserId)
    requires Count(table, profileId, userId) == 1
    ensures Count(AfterVisit(table, profileId, userId, false, true), profileId, userId) == 2
  {
    CountAppend(table, Enrolment(profileId, userId), profileId, userId);
  }

  /** With two rows the lookup itself errors, so from then on every visit adds another row. */
  lemma DuplicatesKeepGrowing(table: seq<Enrolment>, profileId: string, userId: UserId, lookupOk: bool)
    requires Count(table, profileId, userId) >= 2
    ensures Count(AfterVisit(table, profileId, userId, lookupOk, true), profileId, userId)
            == Count(table, profileId, userId) + 1
  {
    CountAppend(table, Enrolment(profileId, userId), profileId, userId);
  }

  // ---------------------------------------------------------------------------
  // The collaborator list an owner manages

  /** A row of the collaborator list (`id, user_id, display_name, avatar_url`). */
  datatype Collaborator = Collaborator(id: string, userId: UserId, displayName: Option<string>, avatarUrl: Option<string>)

  /** `data.filter((c) => c.user_id !== owner)`: the owner never appears among the collaborators. */
  function FilterOutOwner(cs: seq<Collaborator>, owner: UserId): (r: seq<Collaborator>)
    ensures forall c :: c in r <==> c in cs && c.userId != owner
    ensures |r| <= |cs|
  {
    if cs == [] then []
    else (if cs[0].userId != owner then [cs[0]] else []) + FilterOutOwner(cs[1..], owner)
  }

  /** The filter keeps the rows it keeps in their order: with no owner row it changes nothing. */
  lemma {:induction false} FilterOutOwnerKeepsOthers(cs: seq<Collaborator>, owner: UserId)
    requires forall i :: 0 <= i < |cs| ==> cs[i].userId != owner
    ensures FilterOutOwner(cs, owner) == cs
  {
    if cs != [] {
      FilterOutOwnerKeepsOthers(cs[1..], owner);
      assert cs == [cs[0]] + cs[1..];
    }
  }

  /** `prev.filter((c) => c.id !== collabId)`. */
  function RemoveCollaboratorById(cs: seq<Collaborator>, collabId: string): (r: seq<Collaborator>)
    ensures forall c :: c in r <==> c in cs && c.id != collabId
    ensures |r| <= |cs|
  {
    if cs == [] then []
    else (if cs[0].id != collabId then [cs[0]] else []) + RemoveCollaboratorById(cs[1..], collabId)
  }

  /** Removing the same collaborator twice is removing it once. */
  lemma {:induction false} RemoveCollaboratorIdempotent(cs: seq<Collaborator>, collabId: string)
    ensures RemoveCollaboratorById(RemoveCollaboratorById(cs, collabId), collabId) == RemoveCollaboratorById(cs, collabId)
  {
    if cs != [] {
      RemoveCollaboratorIdempotent(cs[1..], collabId);
      var rest := RemoveCollaboratorById(cs[1..], collabId);
      if cs[0].id != collabId {
        assert ([cs[0]] + rest)[1..] == rest;
      } else {
        assert RemoveCollaboratorById(cs, collabId) == [] + rest == rest;
      }
    }
  }
}
