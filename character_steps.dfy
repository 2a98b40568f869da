/** The character page (app/character/page.tsx) as a state machine: the page's state as a
    record, and each event handler as a function from the state before to the state after.
    Handlers that await a request in the middle are split into a Begin step (what happens
    before the request, and the values the handler's closure captured) and a Complete step
    (what happens once the outcome is known). The class in character_page.dfy holds the same
    state in fields and is proved to follow these functions. */
module CharacterSteps {
  import opened Common
  import opened Profiles
  import opened Notes
  import opened Remote
  import opened Merge
  import opened Sharing
  import opened Storage

  /** Fixed for the page's lifetime: the signed-in user, `?guest=1` without a user, and `?profile=`. */
  datatype Session = Session(user: Option<UserId>, guestMode: bool, sharedProfileId: Option<string>)

  /** What the page shows. */
  datatype Data = Data(
    profiles: seq<Profile>,
    notes: seq<Note>,
    currentProfileId: Option<string>,
    profileImages: map<string, string>,
    collaborators: seq<Collaborator>,
    deletingNotes: map<string, bool>)   // deletingNotesRef.current

  /** The busy and error flags. */
  datatype Flags = Flags(
    accessDenied: bool,
    profilesLoading: bool,
    switchingProfile: bool,
    noteSaving: bool,
    profileSaving: bool,
    isPunching: bool,
    isHugging: bool,
    isKissing: bool)

  /** The note composer and the profile form. */
  datatype Form = Form(
    noteText: string,
    noteEmotion: Emotion,
    editingProfileId: Option<string>,
    newProfileName: string,
    newProfileDesc: string,
    newProfileImage: Option<string>,
    newProfileIsPublic: bool)

  /** The page state the handlers read and write, with the browser's `localStorage`. */
  datatype PageState = PageState(data: Data, flags: Flags, form: Form, storage: Store)

  /** A step's new state together with what it hands back (a result or the writes it sends). */
  datatype Outcome<T> = Outcome(state: PageState, out: T)

  /** The state of a freshly mounted page over the browser's existing storage. */
  function Initial(storage: Store): PageState {
    PageState(Data([], [], None, map[], [], map[]),
              Flags(false, false, false, false, false, false, false, false),
              Form("", Feelings, None, "", "", None, false),
              storage)
  }

  /** `profiles.find((p) => p.id === currentProfileId)`, or nothing without a current id. */
  function ActiveProfile(s: PageState): Option<Profile> {
    if Truthy(s.data.currentProfileId) then Find(s.data.profiles, s.data.currentProfileId.value) else None
  }

  /** `isOwner`: the signed-in user owns the active profile. */
  predicate IsOwner(e: Session, s: PageState) {
    ActiveProfile(s).Some? && e.user.Some? && ActiveProfile(s).value.ownerId == e.user.value
  }

  // ---------------------------------------------------------------------------
  // Guest mode (lines 146-157)

  function GuestEntered(e: Session, s: PageState, seed: nat, now: int): PageState {
    if !e.guestMode then s
    else
      var g := GuestProfile(seed, now);
      s.(data := s.data.(profiles := [g], profileImages := map[g.id := g.imageData.value],
                         currentProfileId := Some(g.id), notes := []),
         flags := s.flags.(profilesLoading := false))
  }

  /** Guest mode shows exactly the synthetic profile, selected, with its image and no notes. */
  lemma GuestModeShowsGuestProfile(e: Session, s: PageState, seed: nat, now: int)
    requires e.guestMode
    ensures var t := GuestEntered(e, s, seed, now);
      && t.data.profiles == [GuestProfile(seed, now)] && ActiveProfile(t) == Some(GuestProfile(seed, now))
      && t.data.notes == [] && t.data.profileImages.Keys == {"guest-profile"}
  {
    var g := GuestProfile(seed, now);
    assert Find([g], g.id) == Some(g);
  }

  // ---------------------------------------------------------------------------
  // `loadProfiles` (lines 387-563), first the synchronous paint from the cache

  /** The selection made from the cached list when no link is open. */
  function CachedSelection(e: Session, s: PageState, cached: seq<Profile>): PageState {
    var c := ChooseAfterLoad(None, ReadPointer(Get(s.storage, PointerKey(e.user))), cached);
    if c.current.None? then s
    else s.(data := s.data.(currentProfileId := c.current), flags := s.flags.(switchingProfile := true),
            storage := if c.storePointer then s.storage[PointerKey(e.user) := Pointer(c.current.value)] else s.storage)
  }

  /** Lines 393-426: paint the cached list, cached images and cached selection; a cache text
      that does not parse abandons the rest of the paint. */
  function Painted(e: Session, s: PageState): PageState {
    var pr := ReadProfiles(Get(s.storage, ProfilesKey(e.user)));
    var s1 := if pr.Hit? then s.(data := s.data.(profiles := pr.value)) else s;
    var s2 :=
      if pr.Throws? then s1
      else
        var ir := ReadImages(Get(s.storage, ImagesKey(e.user)));
        if ir.Throws? then s1
        else
          var s3 := if ir.Hit? then s1.(data := s1.data.(profileImages := ir.value)) else s1;
          if pr.Hit? && !Truthy(e.sharedProfileId) then CachedSelection(e, s3, pr.value) else s3;
    s2.(flags := s2.flags.(profilesLoading := !pr.Hit?, accessDenied := false))
  }

  function BeginLoad(e: Session, s: PageState): PageState {
    if e.user.None? || e.guestMode then s else Painted(e, s)
  }

  /** A cached, non-empty list with no link open selects one of its profiles at once, and
      the selection is what the pointer key holds afterwards; a valid stored pointer is kept. */
  lemma PaintSelectsCachedProfile(e: Session, s: PageState)
    requires e.user.Some? && !e.guestMode && !Truthy(e.sharedProfileId)
    requires ReadProfiles(Get(s.storage, ProfilesKey(e.user))).Hit?
    requires !ReadImages(Get(s.storage, ImagesKey(e.user))).Throws?
    ensures var cached := ReadProfiles(Get(s.storage, ProfilesKey(e.user))).value;
            var t := BeginLoad(e, s);
      && t.data.profiles == cached && !t.flags.profilesLoading
      && (cached != [] ==> t.data.currentProfileId.Some? && t.data.currentProfileId.value in Ids(cached)
                           && ReadPointer(Get(t.storage, PointerKey(e.user))) == t.data.currentProfileId)
      && (StoredIsValid(ReadPointer(Get(s.storage, PointerKey(e.user))), cached) ==>
            t.data.currentProfileId == ReadPointer(Get(s.storage, PointerKey(e.user))) && t.storage == s.storage)
  {
    var c := ChooseAfterLoad(None, ReadPointer(Get(s.storage, PointerKey(e.user))), ReadProfiles(Get(s.storage, ProfilesKey(e.user))).value);
    if c.storePointer {
      assert ReadPointer(Get(s.storage[PointerKey(e.user) := Pointer(c.current.value)], PointerKey(e.user))) == c.current;
    }
  }

  // ---------------------------------------------------------------------------
  // `loadProfiles`, after the requests

  /** The outcomes of the requests `loadProfiles` awaits. Rows are full `profiles` rows; the
      page selects every column but `image_data`. `None` stands for an error (or, for the
      link, also for no row); `linkLookup` is the number of rows `ensureCollaborator`'s
      lookup saw, `None` when it failed. */
  datatype LoadResponses = LoadResponses(
    owned: Option<seq<ProfileRow>>,
    sharedIds: Option<seq<string>>,
    shared: Option<seq<ProfileRow>>,
    link: Option<ProfileRow>,
    linkLookup: Option<nat>,
    now: int)

  /** The columns the page selects: every one but `image_data`. */
  function Selected(row: ProfileRow): ProfileRow {
    row.(imageData := None)
  }

  /** `(rows || []).map(mapProfile)` over the selected columns. */
  function MapRows(rows: seq<ProfileRow>, now: int): (ps: seq<Profile>)
    ensures |ps| == |rows|
    ensures forall i :: 0 <= i < |rows| ==> ps[i] == MapProfile(Selected(rows[i]), now)
  {
    seq(|rows|, i requires 0 <= i < |rows| => MapProfile(Selected(rows[i]), now))
  }

  /** Shared profiles: none when the id query fails or finds nothing, or the profile query fails. */
  function SharedSources(r: LoadResponses): seq<Profile> {
    if r.sharedIds.None? || |r.sharedIds.value| == 0 || r.shared.None? then [] else MapRows(r.shared.value, r.now)
  }

  function LinkOutcomeOf(e: Session, r: LoadResponses): LinkOutcome
    requires e.user.Some?
  {
    ResolveLink(e.user.value, if r.link.Some? then Some(Selected(r.link.value)) else None, r.now)
  }

  /** The link step refuses the visitor. */
  predicate LinkDenied(e: Session, r: LoadResponses)
    requires e.user.Some?
  {
    Truthy(e.sharedProfileId) && LinkOutcomeOf(e, r).Denied?
  }

  /** The profile the open link shows, once accepted. */
  function LinkProfile(e: Session, r: LoadResponses): Option<Profile>
    requires e.user.Some?
  {
    if Truthy(e.sharedProfileId) && LinkOutcomeOf(e, r).Accepted? then Some(LinkOutcomeOf(e, r).profile) else None
  }

  /** Everything set into `mergedMap`, in order: owned, shared, then the link profile. */
  function LoadSources(e: Session, r: LoadResponses): seq<Profile>
    requires e.user.Some? && r.owned.Some?
  {
    var link := LinkProfile(e, r);
    MapRows(r.owned.value, r.now) + SharedSources(r) + (if link.Some? then [link.value] else [])
  }

  /** The writes that enrol the visitor of an accepted link. */
  function LoadWrites(e: Session, r: LoadResponses): seq<RemoteWrite>
    requires e.user.Some?
  {
    var link := LinkProfile(e, r);
    if link.Some? && LinkOutcomeOf(e, r).enroll then EnsureCollaboratorWrites(e.user, link.value.id, r.linkLookup) else []
  }

  /** Lines 427-562. */
  function CompleteLoad(e: Session, s: PageState, r: LoadResponses): Outcome<seq<RemoteWrite>>
    requires e.user.Some?
  {
    if r.owned.None? then Outcome(s.(flags := s.flags.(profilesLoading := false)), [])
    else if LinkDenied(e, r) then Outcome(s.(flags := s.flags.(accessDenied := true, profilesLoading := false)), [])
    else
      var merged := MergedProfiles(LoadSources(e, r));
      var images := ImageMap(merged);
      var st := s.storage[ProfilesKey(e.user) := ProfileList(merged)][ImagesKey(e.user) := ImageTable(images)];
      var c := ChooseAfterLoad(LinkProfile(e, r), ReadPointer(Get(st, PointerKey(e.user))), merged);
      Outcome(s.(data := s.data.(profiles := merged, profileImages := images, currentProfileId := c.current),
                 flags := s.flags.(switchingProfile := c.current.Some?, profilesLoading := false),
                 storage := if c.storePointer then st[PointerKey(e.user) := Pointer(c.current.value)] else st),
              LoadWrites(e, r))
  }

  /** Every profile the load merges carries no image, since the page does not select the column. */
  lemma LoadSourcesCarryNoImage(e: Session, r: LoadResponses)
    requires e.user.Some? && r.owned.Some?
    ensures forall p :: p in LoadSources(e, r) ==> p.imageData.None?
  {
    var owned := MapRows(r.owned.value, r.now);
    var shared := SharedSources(r);
    var link := LinkProfile(e, r);
    var src := LoadSources(e, r);
    forall i | 0 <= i < |src| ensures src[i].imageData.None? {
      if i < |owned| {
      } else if i < |owned| + |shared| {
        assert src[i] == shared[i - |owned|];
      } else {
        assert src[i] == link.value;
      }
    }
  }

  /** Merging profiles that carry no image gives an empty image table. */
  lemma MergedHaveNoImage(src: seq<Profile>)
    requires forall p :: p in src ==> p.imageData.None?
    ensures forall p :: p in MergedProfiles(src) ==> p.imageData.None?
    ensures ImageMap(MergedProfiles(src)) == map[]
  {
    var merged := MergedProfiles(src);
    MergedProfilesFacts(src);
    forall i | 0 <= i < |merged| ensures merged[i].imageData.None? {
      assert merged[i] in merged;
      assert LastWithId(src, merged[i].id) == Some(merged[i]);
    }
    ImageMapEmpty(merged);
  }

  /** A load that gets past the owned query and the link check shows a list with distinct ids,
      exactly the ids of its sources, newest first, each the latest record with its id; with no
      image column selected the image table comes out empty; the selection is a listed
      profile, the link's when one is open. */
  lemma LoadedListFacts(e: Session, s: PageState, r: LoadResponses)
    requires e.user.Some? && r.owned.Some? && !LinkDenied(e, r)
    ensures var t := CompleteLoad(e, s, r).state;
      && DistinctIds(t.data.profiles)
      && Ids(t.data.profiles) == Ids(LoadSources(e, r))
      && SortedByCreated(t.data.profiles)
      && (forall q :: q in t.data.profiles ==> LastWithId(LoadSources(e, r), q.id) == Some(q))
      && t.data.profileImages == map[]
      && (t.data.currentProfileId.Some? ==> t.data.currentProfileId.value in Ids(t.data.profiles))
      && (t.data.currentProfileId.None? <==> t.data.profiles == [])
      && (LinkProfile(e, r).Some? ==> t.data.currentProfileId == Some(LinkProfile(e, r).value.id))
      && !t.flags.profilesLoading && t.flags.switchingProfile == t.data.currentProfileId.Some?
  {
    var src := LoadSources(e, r);
    var merged := MergedProfiles(src);
    MergedProfilesFacts(src);
    LoadSourcesCarryNoImage(e, r);
    MergedHaveNoImage(src);
    var link := LinkProfile(e, r);
    var st := s.storage[ProfilesKey(e.user) := ProfileList(merged)][ImagesKey(e.user) := ImageTable(ImageMap(merged))];
    var c := ChooseAfterLoad(link, ReadPointer(Get(st, PointerKey(e.user))), merged);
    if link.Some? {
      assert link.value == src[|src| - 1];
      assert link.value.id in Ids(src);
    }
    var t := CompleteLoad(e, s, r).state;
    assert t.data.profiles == merged && t.data.currentProfileId == c.current && t.data.profileImages == ImageMap(merged);
  }

  /** An error on the owned query stops the load: only the loading flag clears, nothing is
      written, and the list painted from the cache stays. */
  lemma OwnedErrorStopsLoad(e: Session, s: PageState, r: LoadResponses)
    requires e.user.Some? && r.owned.None?
    ensures CompleteLoad(e, s, r) == Outcome(s.(flags := s.flags.(profilesLoading := false)), [])
  {
  }

  /** A refused link stops the load with the access-denied screen and leaves the list as painted. */
  lemma DeniedLinkKeepsList(e: Session, s: PageState, r: LoadResponses)
    requires e.user.Some? && r.owned.Some? && Truthy(e.sharedProfileId)
    requires r.link.None? || (r.link.value.ownerId != e.user.value && r.link.value.visibility != "public")
    ensures var o := CompleteLoad(e, s, r);
      o.out == [] && o.state.data == s.data && o.state.storage == s.storage
      && o.state.flags == s.flags.(accessDenied := true, profilesLoading := false)
  {
  }

  /** Only a visitor who does not own the linked profile is enrolled, and only in that profile. */
  lemma EnrolOnlyNonOwners(e: Session, s: PageState, r: LoadResponses)
    requires e.user.Some?
    ensures var ws := CompleteLoad(e, s, r).out;
      ws != [] ==> && r.owned.Some? && LinkProfile(e, r).Some?
                   && LinkProfile(e, r).value.ownerId != e.user.value
                   && LinkProfile(e, r).value.visibility == Public
                   && ws == [InsertCollaborator(LinkProfile(e, r).value.id, e.user.value)]
  {
  }

  // ---------------------------------------------------------------------------
  // `loadProfileNotes` (lines 291-353) and the effect that runs it (566-580)

  function MapNoteRows(rows: seq<NoteRow>): (ns: seq<Note>)
    ensures |ns| == |rows|
    ensures forall i :: 0 <= i < |rows| ==> ns[i] == MapNote(rows[i])
  {
    seq(|rows|, i requires 0 <= i < |rows| => MapNote(rows[i]))
  }

  /** `fetched` is the notes query's rows, `None` when it fails. */
  function NotesLoaded(e: Session, s: PageState, profileId: string, fetched: Option<seq<NoteRow>>): PageState {
    if e.guestMode then s
    else if profileId == "" then s.(data := s.data.(notes := []))
    else
      var cached := ReadNotes(Get(s.storage, NotesKey(e.user, profileId)));
      var s1 := if cached.Hit? then s.(data := s.data.(notes := cached.value)) else s;
      if fetched.None? then s1
      else
        var sorted := SortNotesByDate(MapNoteRows(fetched.value));
        s1.(data := s1.data.(notes := sorted), storage := s1.storage[NotesKey(e.user, profileId) := NoteList(sorted)])
  }

  /** Loading notes touches only the notes and the notes cache of that profile. */
  lemma NotesLoadedFrame(e: Session, s: PageState, profileId: string, fetched: Option<seq<NoteRow>>)
    ensures var t := NotesLoaded(e, s, profileId, fetched);
      && t.data == s.data.(notes := t.data.notes) && t.flags == s.flags && t.form == s.form
      && forall k :: k != NotesKey(e.user, profileId) ==> Get(t.storage, k) == Get(s.storage, k)
  {
  }

  /** A fetch that succeeds shows exactly the fetched notes, newest first, and caches them. */
  lemma FetchedNotesShown(e: Session, s: PageState, profileId: string, rows: seq<NoteRow>)
    requires !e.guestMode && profileId != ""
    ensures var t := NotesLoaded(e, s, profileId, Some(rows));
      && multiset(t.data.notes) == multiset(MapNoteRows(rows)) && Sorted(t.data.notes)
      && ReadNotes(Get(t.storage, NotesKey(e.user, profileId))) == Hit(t.data.notes)
  {
    SortNotesByDateSorted(MapNoteRows(rows));
  }

  /** A failed fetch leaves the cached notes (or the previous ones) on screen. */
  lemma FailedFetchKeepsCache(e: Session, s: PageState, profileId: string)
    requires !e.guestMode && profileId != ""
    ensures var t := NotesLoaded(e, s, profileId, None);
      && t.storage == s.storage
      && t.data.notes == (var c := ReadNotes(Get(s.storage, NotesKey(e.user, profileId))); if c.Hit? then c.value else s.data.notes)
  {
  }

  /** Lines 566-580: when the current id names a listed profile, reload its notes unless a
      delete is in flight for it; either way the switch ends. */
  function ProfileChanged(e: Session, s: PageState, fetched: Option<seq<NoteRow>>): PageState {
    var cur := s.data.currentProfileId;
    if Truthy(cur) && |s.data.profiles| > 0 && cur.value in Ids(s.data.profiles) then
      var t := if cur.value in s.data.deletingNotes && s.data.deletingNotes[cur.value] then s
               else NotesLoaded(e, s, cur.value, fetched);
      t.(flags := t.flags.(switchingProfile := false))
    else s
  }

  /** Lines 751-761. */
  function SwitchedProfile(e: Session, s: PageState, profileId: string, fetched: Option<seq<NoteRow>>): PageState {
    NotesLoaded(e, s.(data := s.data.(currentProfileId := Some(profileId)),
                      flags := s.flags.(switchingProfile := true),
                      storage := s.storage[PointerKey(e.user) := Pointer(profileId)]), profileId, fetched)
  }

  /** A switch is remembered: the pointer key reads back the chosen id, and interactions stay
      blocked until the notes effect has run. */
  lemma SwitchRemembered(e: Session, s: PageState, profileId: string, fetched: Option<seq<NoteRow>>)
    ensures var t := SwitchedProfile(e, s, profileId, fetched);
      && t.data.currentProfileId == Some(profileId) && t.flags.switchingProfile
      && ReadPointer(Get(t.storage, PointerKey(e.user))) == Some(profileId)
      && t.data.profiles == s.data.profiles
  {
    var s1 := s.(data := s.data.(currentProfileId := Some(profileId)),
                 flags := s.flags.(switchingProfile := true),
                 storage := s.storage[PointerKey(e.user) := Pointer(profileId)]);
    NotesLoadedFrame(e, s1, profileId, fetched);
  }

  // ---------------------------------------------------------------------------
  // Punch, hug, kiss (lines 763-842)

  datatype Interaction = Punch | Hug | Kiss

  function CounterFor(k: Interaction): Counter {
    match k
    case Punch => PunchCount
    case Hug => HugCount
    case Kiss => KissCount
  }

  /** The five flags any of which blocks an interaction. */
  predicate Busy(f: Flags) {
    f.isPunching || f.isHugging || f.isKissing || f.noteSaving || f.switchingProfile
  }

  predicate Animating(f: Flags, k: Interaction) {
    match k
    case Punch => f.isPunching
    case Hug => f.isHugging
    case Kiss => f.isKissing
  }

  function WithAnimating(f: Flags, k: Interaction, b: bool): Flags {
    match k
    case Punch => f.(isPunching := b)
    case Hug => f.(isHugging := b)
    case Kiss => f.(isKissing := b)
  }

  /** At most one of the three animations runs. */
  predicate AtMostOneAnimating(f: Flags) {
    !(f.isPunching && f.isHugging) && !(f.isPunching && f.isKissing) && !(f.isHugging && f.isKissing)
  }

  /** What the `setTimeout` callback captured at press time. */
  datatype PendingInteraction = PendingInteraction(kind: Interaction, current: Option<string>, profiles: seq<Profile>)

  function StartInteraction(s: PageState, k: Interaction): Outcome<Option<PendingInteraction>> {
    if Busy(s.flags) then Outcome(s, None)
    else Outcome(s.(flags := WithAnimating(s.flags, k, true)),
                 Some(PendingInteraction(k, s.data.currentProfileId, s.data.profiles)))
  }

  /** The timer callback: the animation ends, the captured list gets the counter bump, and the
      new count is written to the store outside guest mode. */
  function FinishInteraction(e: Session, s: PageState, p: PendingInteraction): Outcome<seq<RemoteWrite>> {
    var s1 := s.(flags := WithAnimating(s.flags, p.kind, false));
    if !Truthy(p.current) then Outcome(s1, [])
    else
      var updated := Increment(p.profiles, p.current.value, CounterFor(p.kind));
      Outcome(s1.(data := s1.data.(profiles := updated)),
              if e.guestMode then [] else CounterWrite(updated, p.current.value, CounterFor(p.kind)))
  }

  /** A press is ignored while anything is busy; otherwise exactly its own animation starts,
      so the three animations never overlap, and none starts while a note saves or a profile
      switches. */
  lemma InteractionsExclusive(s: PageState, k: Interaction)
    requires AtMostOneAnimating(s.flags)
    ensures var o := StartInteraction(s, k);
      && AtMostOneAnimating(o.state.flags)
      && (o.out.None? <==> Busy(s.flags))
      && (o.out.None? ==> o.state == s)
      && (o.out.Some? ==> Animating(o.state.flags, k) && forall j :: j != k ==> !Animating(o.state.flags, j))
  {
  }

  /** The callback's counter write carries the new count of the current profile. */
  lemma InteractionWritesNewCount(e: Session, s: PageState, p: PendingInteraction, i: int)
    requires !e.guestMode && Truthy(p.current)
    requires 0 <= i < |p.profiles| && p.profiles[i].id == p.current.value
    requires forall j :: 0 <= j < i ==> p.profiles[j].id != p.current.value
    ensures FinishInteraction(e, s, p).out
            == [UpdateCounter(p.current.value, CounterFor(p.kind), CounterOf(p.profiles[i], CounterFor(p.kind)) + 1)]
  {
    var c := CounterFor(p.kind);
    var updated := Increment(p.profiles, p.current.value, c);
    var f := Find(updated, p.current.value);
    assert updated[i].id == p.current.value;
    var j :| 0 <= j < |updated| && updated[j] == f.value && forall k :: 0 <= k < j ==> updated[k].id != p.current.value;
    assert j == i;
  }

  /** Ending an animation keeps the animations exclusive. */
  lemma FinishKeepsExclusive(e: Session, s: PageState, p: PendingInteraction)
    requires AtMostOneAnimating(s.flags)
    ensures AtMostOneAnimating(FinishInteraction(e, s, p).state.flags)
    ensures !Animating(FinishInteraction(e, s, p).state.flags, p.kind)
  {
    assert FinishInteraction(e, s, p).state.flags == WithAnimating(s.flags, p.kind, false);
  }

  // ---------------------------------------------------------------------------
  // `handleSaveNote` (lines 848-925)

  /** What the handler captured before the insert: the target profile, the insert's fields,
      and the note and profile lists its later updates start from. */
  datatype PendingSave = PendingSave(profileId: string, user: UserId, text: string, emotion: Emotion,
                                     notes: seq<Note>, profiles: seq<Profile>)

  datatype SaveStart = SaveIgnored | SavedAsGuest | SaveRequested(pending: PendingSave)

  /** `now` is `Date.now()` for the guest note. */
  function BeginSaveNote(e: Session, s: PageState, now: nat): Outcome<SaveStart> {
    var cur := s.data.currentProfileId;
    if Trim(s.form.noteText) == [] || !Truthy(cur) || (e.user.None? && !e.guestMode) then
      Outcome(s, SaveIgnored)
    else if e.guestMode then
      var n := GuestNote(Trim(s.form.noteText), s.form.noteEmotion, now);
      Outcome(s.(data := s.data.(notes := SortNotesByDate(s.data.notes + [n]),
                                 profiles := Increment(s.data.profiles, cur.value, NotesCount)),
                 form := s.form.(noteText := ""), flags := s.flags.(noteSaving := false)), SavedAsGuest)
    else
      Outcome(s.(flags := s.flags.(noteSaving := true)),
              SaveRequested(PendingSave(cur.value, e.user.value, Trim(s.form.noteText),
                                        s.form.noteEmotion, s.data.notes, s.data.profiles)))
  }

  /** `inserted` is the row the insert returns, `None` on error or no data. */
  function CompleteSaveNote(e: Session, s: PageState, p: PendingSave, inserted: Option<NoteRow>, now: int): Outcome<seq<RemoteWrite>> {
    if inserted.None? then Outcome(s.(flags := s.flags.(noteSaving := false)), [])
    else
      var n := SavedNote(inserted.value, p.emotion, now);
      var ns := SortNotesByDate(p.notes + [n]);
      var ps := Increment(p.profiles, p.profileId, NotesCount);
      Outcome(s.(data := s.data.(notes := ns, profiles := ps),
                 storage := s.storage[NotesKey(e.user, p.profileId) := NoteList(ns)],
                 form := s.form.(noteText := "", noteEmotion := Feelings),
                 flags := s.flags.(noteSaving := false)),
              CounterWrite(ps, p.profileId, NotesCount))
  }

  /** Text made only of whitespace is never saved. */
  lemma BlankNoteIgnored(e: Session, s: PageState, now: nat)
    requires forall i :: 0 <= i < |s.form.noteText| ==> IsJsWhitespace(s.form.noteText[i])
    ensures BeginSaveNote(e, s, now) == Outcome(s, SaveIgnored)
  {
    TrimEmptyIffBlank(s.form.noteText);
  }

  /** Without a current profile, or signed out outside guest mode, a save does nothing. */
  lemma SaveNoteGuards(e: Session, s: PageState, now: nat)
    requires !Truthy(s.data.currentProfileId) || (e.user.None? && !e.guestMode)
    ensures BeginSaveNote(e, s, now) == Outcome(s, SaveIgnored)
  {
  }

  /** A failed insert changes nothing: the state is back where the press found it. */
  lemma FailedSaveChangesNothing(e: Session, s: PageState, now: nat, later: int)
    requires !s.flags.noteSaving
    requires BeginSaveNote(e, s, now).out.SaveRequested?
    ensures var b := BeginSaveNote(e, s, now);
            CompleteSaveNote(e, b.state, b.out.pending, None, later) == Outcome(s, [])
  {
  }

  /** A saved note joins the captured notes in date order, and only the target profile's note
      counter rises, by one. */
  lemma SavedNoteJoinsList(e: Session, s: PageState, p: PendingSave, row: NoteRow, now: int)
    ensures var t := CompleteSaveNote(e, s, p, Some(row), now).state;
      && multiset(t.data.notes) == multiset(p.notes) + multiset{SavedNote(row, p.emotion, now)}
      && Sorted(t.data.notes)
      && |t.data.profiles| == |p.profiles|
      && (forall i :: 0 <= i < |p.profiles| ==>
            SameExceptCounter(t.data.profiles[i], p.profiles[i], NotesCount)
            && t.data.profiles[i].notesCount == p.profiles[i].notesCount + (if p.profiles[i].id == p.profileId then 1 else 0))
      && ReadNotes(Get(t.storage, NotesKey(e.user, p.profileId))) == Hit(t.data.notes)
  {
    var ns := p.notes + [SavedNote(row, p.emotion, now)];
    SortNotesByDateSorted(ns);
    var ps := Increment(p.profiles, p.profileId, NotesCount);
    forall i | 0 <= i < |p.profiles|
      ensures ps[i].notesCount == p.profiles[i].notesCount + (if p.profiles[i].id == p.profileId then 1 else 0)
    {
      assert CounterOf(ps[i], NotesCount) == CounterOf(p.profiles[i], NotesCount) + (if p.profiles[i].id == p.profileId then 1 else 0);
    }
  }

  // ---------------------------------------------------------------------------
  // `handleDeleteNote` (lines 942-1000)

  /** The snapshot taken before the optimistic update, and the updated list the counter write uses. */
  datatype PendingDelete = PendingDelete(noteId: string, profileId: string, previousNotes: seq<Note>,
                                         previousProfiles: seq<Profile>, updatedProfiles: seq<Profile>)

  datatype DeleteStart = DeleteIgnored | DeletedAsGuest | DeleteRequested(pending: PendingDelete)

  /** Outside guest mode only the note's author may delete it (`authorId` is the author the
      list shows for the note). */
  predicate MayDelete(e: Session, authorId: UserId) {
    e.guestMode || (e.user.Some? && authorId == e.user.value)
  }

  function BeginDeleteNote(e: Session, s: PageState, id: string, authorId: UserId): Outcome<DeleteStart> {
    var cur := s.data.currentProfileId;
    if !Truthy(cur) || !MayDelete(e, authorId) then Outcome(s, DeleteIgnored)
    else
      var un := SortNotesByDate(RemoveNote(s.data.notes, id));
      var up := DecrementNotes(s.data.profiles, cur.value);
      if e.guestMode then
        Outcome(s.(data := s.data.(notes := un, profiles := up, deletingNotes := s.data.deletingNotes[cur.value := false])),
                DeletedAsGuest)
      else
        Outcome(s.(data := s.data.(notes := un, profiles := up, deletingNotes := s.data.deletingNotes[cur.value := true]),
                   storage := s.storage[NotesKey(e.user, cur.value) := NoteList(un)]),
                DeleteRequested(PendingDelete(id, cur.value, s.data.notes, s.data.profiles, up)))
  }

  /** `deleted` is whether the remote delete succeeded. */
  function CompleteDeleteNote(e: Session, s: PageState, p: PendingDelete, deleted: bool): Outcome<seq<RemoteWrite>> {
    if !deleted then
      Outcome(s.(data := s.data.(notes := p.previousNotes, profiles := p.previousProfiles,
                                 deletingNotes := s.data.deletingNotes[p.profileId := false]),
                 storage := s.storage[NotesKey(e.user, p.profileId) := NoteList(p.previousNotes)]), [])
    else
      Outcome(s.(data := s.data.(deletingNotes := s.data.deletingNotes[p.profileId := false])),
              CounterWrite(p.updatedProfiles, p.profileId, NotesCount))
  }

  /** The optimistic update removes every note with that id and shows the rest in date order
      (in their own order when the list was already sorted), and takes the current profile's
      note counter `n` to `max(0, n - 1)`, leaving every other profile as it was. */
  lemma DeleteRemovesNote(e: Session, s: PageState, id: string, authorId: UserId)
    requires BeginDeleteNote(e, s, id, authorId).out != DeleteIgnored
    ensures var t := BeginDeleteNote(e, s, id, authorId).state;
            var cur := s.data.currentProfileId.value;
      && multiset(t.data.notes) == multiset(RemoveNote(s.data.notes, id))
      && Sorted(t.data.notes)
      && (Sorted(s.data.notes) ==> t.data.notes == RemoveNote(s.data.notes, id))
      && (forall n :: n in t.data.notes ==> n.id != id)
      && t.data.profiles == DecrementNotes(s.data.profiles, cur)
      && |t.data.profiles| == |s.data.profiles|
      && (forall i :: 0 <= i < |s.data.profiles| && s.data.profiles[i].id == cur ==>
            && t.data.profiles[i].notesCount == DecrementFloor(s.data.profiles[i].notesCount)
            && t.data.profiles[i].notesCount >= 0
            && (s.data.profiles[i].notesCount > 0 ==> t.data.profiles[i].notesCount == s.data.profiles[i].notesCount - 1))
      && (forall i :: 0 <= i < |s.data.profiles| && s.data.profiles[i].id != cur ==> t.data.profiles[i] == s.data.profiles[i])
  {
    assert BeginDeleteNote(e, s, id, authorId).state.data.notes == SortNotesByDate(RemoveNote(s.data.notes, id));
    ShownAfterDelete(s.data.notes, id);
  }

  /** Outside guest mode only the signed-in author may delete a note; anyone else's press does
      nothing. */
  lemma NonAuthorCannotDelete(e: Session, s: PageState, id: string, authorId: UserId)
    requires !e.guestMode && (e.user.None? || authorId != e.user.value)
    ensures BeginDeleteNote(e, s, id, authorId) == Outcome(s, DeleteIgnored)
  {
  }

  /** A failed remote delete puts back exactly the notes and profiles the press found, whatever
      happened in between, and clears the in-flight flag. */
  lemma FailedDeleteRestores(e: Session, s: PageState, id: string, authorId: UserId, between: PageState)
    requires BeginDeleteNote(e, s, id, authorId).out.DeleteRequested?
    ensures var p := BeginDeleteNote(e, s, id, authorId).out.pending;
            var t := CompleteDeleteNote(e, between, p, false).state;
      && t.data.notes == s.data.notes && t.data.profiles == s.data.profiles
      && ReadNotes(Get(t.storage, NotesKey(e.user, p.profileId))) == Hit(s.data.notes)
      && t.data.deletingNotes[p.profileId] == false
  {
  }

  /** In guest mode nothing reaches the store or the cache: the interaction timer writes no
      counter, a note is saved locally, and a delete is never sent. */
  lemma GuestModeWritesNothing(e: Session, s: PageState, p: PendingInteraction, now: nat, id: string, authorId: UserId)
    requires e.guestMode
    ensures FinishInteraction(e, s, p).out == [] && FinishInteraction(e, s, p).state.storage == s.storage
    ensures !BeginSaveNote(e, s, now).out.SaveRequested? && BeginSaveNote(e, s, now).state.storage == s.storage
    ensures !BeginDeleteNote(e, s, id, authorId).out.DeleteRequested?
    ensures BeginDeleteNote(e, s, id, authorId).state.storage == s.storage
  {
  }

  /** The in-flight flag is set only while the remote delete is awaited and is false again on
      every way out. */
  lemma DeleteFlagCleared(e: Session, s: PageState, id: string, authorId: UserId, between: PageState, deleted: bool)
    requires BeginDeleteNote(e, s, id, authorId).out != DeleteIgnored
    ensures var b := BeginDeleteNote(e, s, id, authorId);
            var cur := s.data.currentProfileId.value;
      && (b.out.DeletedAsGuest? ==> b.state.data.deletingNotes[cur] == false)
      && (b.out.DeleteRequested? ==>
            b.state.data.deletingNotes[cur] == true
            && CompleteDeleteNote(e, between, b.out.pending, deleted).state.data.deletingNotes[cur] == false)
  {
  }

  /** While a delete is in flight the notes effect does not reload that profile's notes. */
  lemma InFlightDeleteSkipsReload(e: Session, s: PageState, fetched: Option<seq<NoteRow>>)
    requires Truthy(s.data.currentProfileId) && s.data.currentProfileId.value in s.data.deletingNotes
    requires s.data.deletingNotes[s.data.currentProfileId.value]
    ensures ProfileChanged(e, s, fetched).data == s.data
  {
  }

  // ---------------------------------------------------------------------------
  // `loadProfileImage` (lines 218-240) and the effect that calls it (582-592)

  /** `profileImages[id]` is truthy. */
  predicate HasImage(images: map<string, string>, id: string) {
    id in images && images[id] != ""
  }

  /** What `loadProfileImage` does before its query: nothing without an id or in guest mode,
      hand back the table's image when it has one, and otherwise ask the store. */
  datatype ImageStart = NoImage | CachedImage(image: string) | ImageRequested

  function BeginImageLoad(e: Session, s: PageState, profileId: string): ImageStart {
    if profileId == "" || e.guestMode then NoImage
    else if HasImage(s.data.profileImages, profileId) then CachedImage(s.data.profileImages[profileId])
    else ImageRequested
  }

  /** The query has answered: `fetched` is the row's `image_data` (`None` on error, no row or
      null). A truthy image goes into the table and into the listed profiles with that id, and
      is handed back to the effect. */
  function CompleteImageLoad(s: PageState, profileId: string, fetched: Option<string>): Outcome<Option<string>> {
    if !Truthy(fetched) then Outcome(s, None)
    else
      Outcome(s.(data := s.data.(profileImages := s.data.profileImages[profileId := fetched.value],
                                 profiles := SetImage(s.data.profiles, profileId, fetched.value))),
              fetched)
  }

  /** The effect's guard: a current id, a non-empty list, no guest mode, and the current profile
      listed with an image neither in its record nor in the table. */
  predicate ImageEffectRuns(e: Session, s: PageState) {
    var cur := s.data.currentProfileId;
    && Truthy(cur) && |s.data.profiles| > 0 && !e.guestMode
    && Find(s.data.profiles, cur.value).Some?
    && !Truthy(Find(s.data.profiles, cur.value).value.imageData)
    && !HasImage(s.data.profileImages, cur.value)
  }

  /** When the effect runs, `loadProfileImage` gets past its early returns and asks the store. */
  lemma ImageEffectQueries(e: Session, s: PageState)
    requires ImageEffectRuns(e, s)
    ensures BeginImageLoad(e, s, s.data.currentProfileId.value) == ImageRequested
  {
  }

  /** After a load that gets past the owned query and the link check, outside guest mode, the
      selected profile has no image in its record or in the table, so the effect asks for it. */
  lemma LoadedProfileAsksForImage(e: Session, s: PageState, r: LoadResponses)
    requires e.user.Some? && !e.guestMode && r.owned.Some? && !LinkDenied(e, r)
    ensures var t := CompleteLoad(e, s, r).state;
      Truthy(t.data.currentProfileId) ==> ImageEffectRuns(e, t)
  {
    var t := CompleteLoad(e, s, r).state;
    LoadedListFacts(e, s, r);
    LoadSourcesCarryNoImage(e, r);
    MergedHaveNoImage(LoadSources(e, r));
    assert t.data.profiles == MergedProfiles(LoadSources(e, r));
  }

  /** Until then no profile of a fresh load can be edited: the editor opens without an image,
      and `createProfile` returns at its image guard (line 655). */
  lemma LoadedEditRefusedUntilImage(e: Session, s: PageState, r: LoadResponses, id: string)
    requires e.user.Some? && r.owned.Some? && !LinkDenied(e, r)
    requires Find(CompleteLoad(e, s, r).state.data.profiles, id).Some?
    ensures BeginCreateProfile(e, OpenEditModal(CompleteLoad(e, s, r).state, id)).out == CreateIgnored
  {
    var t := CompleteLoad(e, s, r).state;
    LoadedListFacts(e, s, r);
    LoadSourcesCarryNoImage(e, r);
    MergedHaveNoImage(LoadSources(e, r));
    assert t.data.profiles == MergedProfiles(LoadSources(e, r));
    assert Find(t.data.profiles, id).value in t.data.profiles;
    assert id !in t.data.profileImages;
  }

  /** A truthy image that arrives is in the table and in the record of the profile with that
      id; every other profile, the notes, the selection, the flags, the form and the cache are
      untouched. A missing or empty image changes nothing. */
  lemma ImageArrivalRecorded(s: PageState, id: string, fetched: Option<string>)
    ensures var o := CompleteImageLoad(s, id, fetched);
      && (!Truthy(fetched) ==> o.state == s && o.out.None?)
      && (Truthy(fetched) ==>
            && o.out == fetched
            && o.state.data.profileImages == s.data.profileImages[id := fetched.value]
            && HasImage(o.state.data.profileImages, id)
            && Ids(o.state.data.profiles) == Ids(s.data.profiles)
            && (Find(s.data.profiles, id).Some? ==>
                  Find(o.state.data.profiles, id) == Some(Find(s.data.profiles, id).value.(imageData := fetched)))
            && |o.state.data.profiles| == |s.data.profiles|
            && (forall i :: 0 <= i < |s.data.profiles| && s.data.profiles[i].id != id ==>
                  o.state.data.profiles[i] == s.data.profiles[i])
            && o.state.data.notes == s.data.notes && o.state.data.currentProfileId == s.data.currentProfileId
            && o.state.flags == s.flags && o.state.form == s.form && o.state.storage == s.storage)
  {
    if Truthy(fetched) {
      SetImageIds(s.data.profiles, id, fetched.value);
      if Find(s.data.profiles, id).Some? {
        SetImageFind(s.data.profiles, id, fetched.value);
      }
    }
  }

  /** Once the image has arrived the effect does not ask again. */
  lemma ImageEffectSettles(e: Session, s: PageState, img: string)
    requires ImageEffectRuns(e, s) && img != ""
    ensures !ImageEffectRuns(e, CompleteImageLoad(s, s.data.currentProfileId.value, Some(img)).state)
  {
  }

  /** And the edit goes through: opening the editor on the current profile once its image has
      arrived, and saving it untouched, sends the update carrying that image whenever the name
      and description are within the form's limits. */
  lemma ImageArrivalEnablesEdit(e: Session, s: PageState, img: string)
    requires e.user.Some? && !e.guestMode && !s.flags.profileSaving && img != ""
    requires Truthy(s.data.currentProfileId) && Find(s.data.profiles, s.data.currentProfileId.value).Some?
    requires var p := Find(s.data.profiles, s.data.currentProfileId.value).value;
      && Trim(p.name) != [] && Utf16Length(Trim(p.name)) <= 30
      && Utf16Length(Trim(if p.description.Some? then p.description.value else "")) <= 50
    ensures var cur := s.data.currentProfileId.value;
            var b := BeginCreateProfile(e, OpenEditModal(CompleteImageLoad(s, cur, Some(img)).state, cur)).out;
      b.UpdateRequested? && b.edit.profileId == cur && b.edit.payload.imageData == Some(img)
  {
    var cur := s.data.currentProfileId.value;
    var u := OpenEditModal(CompleteImageLoad(s, cur, Some(img)).state, cur);
    EditorAfterImage(s, cur, img);
    EditorSaveRequested(e, u);
  }

  /** The editor opened once the image has arrived holds the profile's fields and the image. */
  lemma EditorAfterImage(s: PageState, cur: string, img: string)
    requires img != "" && Find(s.data.profiles, cur).Some?
    ensures var p := Find(s.data.profiles, cur).value;
            var u := OpenEditModal(CompleteImageLoad(s, cur, Some(img)).state, cur);
      && u.flags == s.flags
      && u.form.editingProfileId == Some(cur) && u.form.newProfileName == p.name
      && u.form.newProfileDesc == (if p.description.Some? then p.description.value else "")
      && u.form.newProfileImage == Some(img)
  {
    var t := CompleteImageLoad(s, cur, Some(img)).state;
    assert Find(t.data.profiles, cur) == Some(Find(s.data.profiles, cur).value.(imageData := Some(img))) by {
      SetImageFind(s.data.profiles, cur, img);
    }
  }

  /** Saving an editor whose form passes every guard sends the update for the edited id. */
  lemma EditorSaveRequested(e: Session, u: PageState)
    requires !u.flags.profileSaving && FormAccepted(e, u.form) && Truthy(u.form.editingProfileId)
    ensures var b := BeginCreateProfile(e, u).out;
      b.UpdateRequested? && b.edit.profileId == u.form.editingProfileId.value
      && b.edit.payload.imageData == u.form.newProfileImage
  {
  }

  // ---------------------------------------------------------------------------
  // `createProfile` (lines 653-749) and `openEditModal` (605-615)

  /** The columns an edit updates. */
  datatype EditPayload = EditPayload(name: string, description: Option<string>, visibility: string, imageData: Option<string>)

  function FormEditPayload(f: Form): EditPayload {
    EditPayload(Trim(f.newProfileName), NonEmpty(Some(Trim(f.newProfileDesc))),
                if f.newProfileIsPublic then "public" else "private", f.newProfileImage)
  }

  datatype PendingEdit = PendingEdit(profileId: string, payload: EditPayload, isPublic: bool,
                                     profiles: seq<Profile>, images: map<string, string>)
  datatype PendingCreate = PendingCreate(payload: InsertPayload, profiles: seq<Profile>, images: map<string, string>)

  datatype CreateStart =
    | CreateIgnored
    | NameTooLong
    | DescriptionTooLong
    | UpdateRequested(edit: PendingEdit)
    | InsertRequested(create: PendingCreate)

  /** The form is acceptable: a non-blank name of at most 30 UTF-16 units, a description of at
      most 50, an image, a signed-in user outside guest mode. */
  predicate FormAccepted(e: Session, f: Form) {
    && !e.guestMode && e.user.Some? && Truthy(f.newProfileImage)
    && Trim(f.newProfileName) != [] && Utf16Length(Trim(f.newProfileName)) <= 30
    && Utf16Length(Trim(f.newProfileDesc)) <= 50
  }

  function BeginCreateProfile(e: Session, s: PageState): Outcome<CreateStart> {
    var f := s.form;
    if s.flags.profileSaving then Outcome(s, CreateIgnored)
    else if e.guestMode || Trim(f.newProfileName) == [] || e.user.None? || !Truthy(f.newProfileImage) then
      Outcome(s, CreateIgnored)
    else if Utf16Length(Trim(f.newProfileName)) > 30 then Outcome(s, NameTooLong)
    else if Utf16Length(Trim(f.newProfileDesc)) > 50 then Outcome(s, DescriptionTooLong)
    else if Truthy(f.editingProfileId) then
      Outcome(s.(flags := s.flags.(profileSaving := true)),
              UpdateRequested(PendingEdit(f.editingProfileId.value, FormEditPayload(f), f.newProfileIsPublic,
                                          s.data.profiles, s.data.profileImages)))
    else
      Outcome(s.(flags := s.flags.(profileSaving := true)),
              InsertRequested(PendingCreate(CreatePayload(e.user.value, f.newProfileName, f.newProfileDesc,
                                                          f.newProfileIsPublic, f.newProfileImage),
                                            s.data.profiles, s.data.profileImages)))
  }

  /** `resetEditMode()` */
  function ResetForm(f: Form): Form {
    f.(editingProfileId := None, newProfileName := "", newProfileDesc := "", newProfileImage := None,
       newProfileIsPublic := false)
  }

  /** `returned` is the updated row, `None` on error or no data. */
  function CompleteEditProfile(e: Session, s: PageState, p: PendingEdit, returned: Option<ProfileRow>, now: int): Outcome<seq<RemoteWrite>> {
    if returned.None? then Outcome(s.(flags := s.flags.(profileSaving := false)), [])
    else
      var up := MapProfile(returned.value, now);
      Outcome(s.(data := s.data.(profiles := ReplaceById(p.profiles, p.profileId, up),
                                 profileImages := if Truthy(up.imageData) then p.images[p.profileId := up.imageData.value]
                                                  else s.data.profileImages),
                 form := ResetForm(s.form), flags := s.flags.(profileSaving := false)),
              if p.isPublic then [] else [DeleteCollaboratorsOf(p.profileId)])
  }

  /** `inserted` is the inserted row, `None` on error or no data. */
  function CompleteCreateProfile(e: Session, s: PageState, p: PendingCreate, inserted: Option<ProfileRow>, now: int): PageState {
    if inserted.None? then s.(flags := s.flags.(profileSaving := false))
    else
      var np := MapProfile(inserted.value, now);
      s.(data := s.data.(profiles := [np] + p.profiles, currentProfileId := Some(np.id), notes := [],
                         profileImages := if Truthy(np.imageData) then p.images[np.id := np.imageData.value]
                                          else s.data.profileImages),
         storage := s.storage[PointerKey(e.user) := Pointer(np.id)],
         form := ResetForm(s.form), flags := s.flags.(profileSaving := false))
  }

  /** A request goes out exactly when no save is running and the form is acceptable; an
      accepted name has at most 30 characters; a refused press changes nothing. */
  lemma CreateStartsOnlyWhenValid(e: Session, s: PageState)
    ensures var o := BeginCreateProfile(e, s).out;
      && ((o.UpdateRequested? || o.InsertRequested?) <==> !s.flags.profileSaving && FormAccepted(e, s.form))
      && (o.UpdateRequested? ==> Truthy(s.form.editingProfileId))
      && (o.InsertRequested? ==> !Truthy(s.form.editingProfileId))
      && (o.UpdateRequested? || o.InsertRequested? ==> |Trim(s.form.newProfileName)| <= 30)
      && (!(o.UpdateRequested? || o.InsertRequested?) ==> BeginCreateProfile(e, s).state == s)
  {
  }

  /** A failed insert or update changes nothing. */
  lemma FailedCreateChangesNothing(e: Session, s: PageState, now: int)
    requires !s.flags.profileSaving
    ensures var b := BeginCreateProfile(e, s);
      && (b.out.InsertRequested? ==> CompleteCreateProfile(e, b.state, b.out.create, None, now) == s)
      && (b.out.UpdateRequested? ==> CompleteEditProfile(e, b.state, b.out.edit, None, now) == Outcome(s, []))
  {
    var b := BeginCreateProfile(e, s);
    if b.out.InsertRequested? || b.out.UpdateRequested? {
      assert b.state == s.(flags := s.flags.(profileSaving := true));
    }
  }

  /** A created profile comes first, is selected, and is what the pointer key reads back; the
      rest of the list is the list the press saw. */
  lemma CreatedProfileSelected(e: Session, s: PageState, p: PendingCreate, row: ProfileRow, now: int)
    ensures var t := CompleteCreateProfile(e, s, p, Some(row), now);
      && t.data.profiles[0] == MapProfile(row, now) && t.data.profiles[1..] == p.profiles
      && t.data.currentProfileId == Some(row.id)
      && ReadPointer(Get(t.storage, PointerKey(e.user))) == Some(row.id)
      && t.data.notes == [] && !t.flags.profileSaving
  {
    assert ([MapProfile(row, now)] + p.profiles)[1..] == p.profiles;
  }

  /** An edit replaces only the edited profile, and making it private revokes every collaborator. */
  lemma EditReplacesOnlyEdited(e: Session, s: PageState, p: PendingEdit, row: ProfileRow, now: int)
    ensures var o := CompleteEditProfile(e, s, p, Some(row), now);
      && |o.state.data.profiles| == |p.profiles|
      && (forall i :: 0 <= i < |p.profiles| && p.profiles[i].id != p.profileId ==> o.state.data.profiles[i] == p.profiles[i])
      && (forall i :: 0 <= i < |p.profiles| && p.profiles[i].id == p.profileId ==> o.state.data.profiles[i] == MapProfile(row, now))
      && (DeleteCollaboratorsOf(p.profileId) in o.out <==> !p.isPublic)
  {
  }

  function OpenEditModal(s: PageState, profileId: string): PageState {
    var found := Find(s.data.profiles, profileId);
    if found.None? then s
    else
      var p := found.value;
      var images := s.data.profileImages;
      s.(form := s.form.(editingProfileId := Some(profileId), newProfileName := p.name,
                         newProfileDesc := if p.description.Some? then p.description.value else "",
                         newProfileIsPublic := p.visibility == Public,
                         newProfileImage := if Truthy(p.imageData) then p.imageData
                                            else if profileId in images && images[profileId] != "" then Some(images[profileId])
                                            else None))
  }

  /** Opening the editor and saving it untouched writes back the profile's own name,
      description and visibility, when they carry no surrounding whitespace. */
  lemma UntouchedEditRoundTrip(s: PageState, profileId: string)
    requires Find(s.data.profiles, profileId).Some?
    requires var p := Find(s.data.profiles, profileId).value;
      && WellFormed(p) && Trim(p.name) == p.name
      && (p.description.Some? ==> Trim(p.description.value) == p.description.value)
    ensures var p := Find(s.data.profiles, profileId).value;
            var pl := FormEditPayload(OpenEditModal(s, profileId).form);
      pl.name == p.name && pl.description == p.description && pl.visibility == VisibilityColumn(p.visibility)
  {
    var p := Find(s.data.profiles, profileId).value;
    var f := OpenEditModal(s, profileId).form;
    assert f.newProfileName == p.name;
    assert f.newProfileIsPublic == (p.visibility == Public);
    if p.description.None? {
      assert f.newProfileDesc == "";
      assert Trim("") == "";
    } else {
      assert f.newProfileDesc == p.description.value;
    }
  }

  // ---------------------------------------------------------------------------
  // `handleDeleteProfile` (lines 617-643)

  /** `fetched` is the outcome of the notes query for the profile shown next. The remote
      delete's own outcome is not looked at. */
  function DeleteProfile(e: Session, s: PageState, profileId: string, fetched: Option<seq<NoteRow>>): Outcome<seq<RemoteWrite>> {
    var updated := RemoveById(s.data.profiles, profileId);
    var s1 := s.(data := s.data.(profiles := updated, profileImages := s.data.profileImages - {profileId}));
    var t :=
      if s.data.currentProfileId != Some(profileId) then s1
      else if |updated| > 0 then
        NotesLoaded(e, s1.(data := s1.data.(currentProfileId := Some(updated[0].id)),
                           storage := s1.storage[PointerKey(e.user) := Pointer(updated[0].id)]), updated[0].id, fetched)
      else s1.(data := s1.data.(currentProfileId := None, notes := []), storage := s1.storage - {PointerKey(e.user)});
    Outcome(t, [DeleteProfileRow(profileId)])
  }

  /** After a delete the profile and its image are gone, and the selection, if any, names a
      remaining profile. */
  lemma DeletedProfileGone(e: Session, s: PageState, profileId: string, fetched: Option<seq<NoteRow>>)
    requires s.data.currentProfileId.Some? ==> s.data.currentProfileId.value in Ids(s.data.profiles)
    ensures var t := DeleteProfile(e, s, profileId, fetched).state;
      && profileId !in Ids(t.data.profiles) && profileId !in t.data.profileImages
      && (t.data.currentProfileId.Some? ==> t.data.currentProfileId.value in Ids(t.data.profiles))
      && (s.data.currentProfileId == Some(profileId) && t.data.currentProfileId.None? ==> Get(t.storage, PointerKey(e.user)).None?)
  {
    var updated := RemoveById(s.data.profiles, profileId);
    var s1 := s.(data := s.data.(profiles := updated, profileImages := s.data.profileImages - {profileId}));
    if s.data.currentProfileId == Some(profileId) && |updated| > 0 {
      assert updated[0].id in Ids(updated);
      var s2 := s1.(data := s1.data.(currentProfileId := Some(updated[0].id)),
                    storage := s1.storage[PointerKey(e.user) := Pointer(updated[0].id)]);
      NotesLoadedFrame(e, s2, updated[0].id, fetched);
    }
  }

  // ---------------------------------------------------------------------------
  // Collaborators (lines 1010-1025 and 1066-1074)

  /** `fetched` is the collaborator query's rows, `None` on error. */
  function LoadCollaborators(e: Session, s: PageState, fetched: Option<seq<Collaborator>>): PageState {
    if !IsOwner(e, s) || fetched.None? then s
    else s.(data := s.data.(collaborators := FilterOutOwner(fetched.value, ActiveProfile(s).value.ownerId)))
  }

  /** The owner never appears in their own collaborator list, and only the owner loads it. */
  lemma OwnerNotListed(e: Session, s: PageState, fetched: Option<seq<Collaborator>>)
    ensures var t := LoadCollaborators(e, s, fetched);
      && (t.data.collaborators != s.data.collaborators ==> IsOwner(e, s))
      && (IsOwner(e, s) && fetched.Some? ==> forall c :: c in t.data.collaborators ==> c.userId != e.user.value)
  {
  }

  /** The remote delete's outcome is not looked at. */
  function RemoveCollaborator(e: Session, s: PageState, collabId: string): Outcome<seq<RemoteWrite>> {
    if !IsOwner(e, s) then Outcome(s, [])
    else Outcome(s.(data := s.data.(collaborators := RemoveCollaboratorById(s.data.collaborators, collabId))),
                 [DeleteCollaboratorRow(collabId)])
  }

  /** Only the owner can revoke access; the revoked row leaves the list and the rest stay. */
  lemma RevokeOnlyByOwner(e: Session, s: PageState, collabId: string)
    ensures var o := RemoveCollaborator(e, s, collabId);
      && (o.out != [] <==> IsOwner(e, s))
      && (IsOwner(e, s) ==> forall c :: c in o.state.data.collaborators <==> c in s.data.collaborators && c.id != collabId)
      && (!IsOwner(e, s) ==> o.state == s)
  {
  }
}
