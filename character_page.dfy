/** The character page component: its `useState` hooks, `deletingNotesRef` and the
    browser's `localStorage` as the fields of one object, and its handlers as methods that
    update them in place. Each method is proved to move the page exactly as the matching
    step of `CharacterSteps` does, so the properties proved there hold of the page. */
module CharacterPage {
  import opened Common
  import opened Profiles
  import opened Notes
  import opened Remote
  import opened Merge
  import opened Sharing
  import opened Storage
  import opened CharacterSteps

  class Page {
    const user: Option<UserId>
    const guestMode: bool
    const sharedProfileId: Option<string>

    /** The displayed lists and selection, `deletingNotesRef.current` among them. */
    var data: Data
    /** The loading, saving, switching and animation flags. */
    var flags: Flags
    /** The note composer and the profile form. */
    var form: Form
    /** `localStorage`. */
    var storage: Store

    function Context(): CharacterSteps.Session {
      CharacterSteps.Session(user, guestMode, sharedProfileId)
    }

    /** The page's fields as one state record. */
    function State(): PageState
      reads this
    {
      PageState(data, flags, form, storage)
    }

    /** Guest mode only without a user, and at most one animation at a time. */
    predicate Valid()
      reads this
    {
      (guestMode ==> user.None?) && AtMostOneAnimating(flags)
    }

    /** `isGuestMode = searchParams.get("guest") === "1" && !user`. */
    constructor (user: Option<UserId>, guestParam: bool, sharedProfileId: Option<string>, storage: Store)
      ensures Valid()
      ensures Context() == CharacterSteps.Session(user, guestParam && user.None?, sharedProfileId)
      ensures State() == Initial(storage)
    {
      this.user := user;
      this.guestMode := guestParam && user.None?;
      this.sharedProfileId := sharedProfileId;
      data := Data([], [], None, map[], [], map[]);
      flags := Flags(false, false, false, false, false, false, false, false);
      form := Form("", Feelings, None, "", "", None, false);
      this.storage := storage;
    }

    /** Lines 146-157. */
    method EnterGuestMode(seed: nat, now: int)
      requires Valid()
      modifies this
      ensures Valid()
      ensures State() == GuestEntered(Context(), old(State()), seed, now)
    {
      if !guestMode {
        return;
      }
      var g := GuestProfile(seed, now);
      data := data.(profiles := [g], profileImages := map[g.id := g.imageData.value], currentProfileId := Some(g.id));
      data := data.(notes := []);
      flags := flags.(profilesLoading := false);
    }

    /** Lines 387-426: the paint from the cache before any request. */
    method StartLoadingProfiles()
      requires Valid()
      modifies this
      ensures Valid()
      ensures State() == CharacterSteps.BeginLoad(Context(), old(State()))
    {
      if user.None? || guestMode {
        return;
      }
      var pr := ReadProfiles(Get(storage, ProfilesKey(user)));
      if pr.Hit? {
        data := data.(profiles := pr.value);
      }
      if !pr.Throws? {
        var ir := ReadImages(Get(storage, ImagesKey(user)));
        if !ir.Throws? {
          if ir.Hit? {
            data := data.(profileImages := ir.value);
          }
          if pr.Hit? && !Truthy(sharedProfileId) {
            var c := ChooseAfterLoad(None, ReadPointer(Get(storage, PointerKey(user))), pr.value);
            if c.current.Some? {
              data := data.(currentProfileId := c.current);
              flags := flags.(switchingProfile := true);
              if c.storePointer {
                storage := storage[PointerKey(user) := Pointer(c.current.value)];
              }
            }
          }
        }
      }
      flags := flags.(profilesLoading := !pr.Hit?, accessDenied := false);
    }

    /** Lines 427-562: merge the fetched profiles by id, sort them newest first, rebuild the
        image table, cache both and choose the profile to show. */
    method FinishLoadingProfiles(r: LoadResponses) returns (writes: seq<RemoteWrite>)
      requires Valid() && user.Some?
      modifies this
      ensures Valid()
      ensures State() == CharacterSteps.CompleteLoad(Context(), old(State()), r).state
      ensures writes == CharacterSteps.CompleteLoad(Context(), old(State()), r).out
    {
      if r.owned.None? {
        flags := flags.(profilesLoading := false);
        return [];
      }
      if LinkDenied(Context(), r) {
        flags := flags.(accessDenied := true, profilesLoading := false);
        return [];
      }
      writes := ShowMergedProfiles(r);
    }

    /** The part of `loadProfiles` after a successful owned query and an accepted link. */
    method ShowMergedProfiles(r: LoadResponses) returns (writes: seq<RemoteWrite>)
      requires Valid() && user.Some? && r.owned.Some? && !LinkDenied(Context(), r)
      modifies this
      ensures Valid()
      ensures State() == CharacterSteps.CompleteLoad(Context(), old(State()), r).state
      ensures writes == CharacterSteps.CompleteLoad(Context(), old(State()), r).out
    {
      var merged, images := MergeAndIndex(LoadSources(Context(), r));
      var cached := storage[ProfilesKey(user) := ProfileList(merged)][ImagesKey(user) := ImageTable(images)];
      var c := ChooseAfterLoad(LinkProfile(Context(), r), ReadPointer(Get(cached, PointerKey(user))), merged);
      data := data.(profiles := merged, profileImages := images, currentProfileId := c.current);
      flags := flags.(switchingProfile := c.current.Some?, profilesLoading := false);
      storage := if c.storePointer then cached[PointerKey(user) := Pointer(c.current.value)] else cached;
      writes := LoadWrites(Context(), r);
    }

    /** `loadProfileNotes` (lines 291-353). */
    method LoadProfileNotes(profileId: string, fetched: Option<seq<NoteRow>>)
      requires Valid()
      modifies this
      ensures Valid()
      ensures State() == NotesLoaded(Context(), old(State()), profileId, fetched)
    {
      if guestMode {
        return;
      }
      if profileId == "" {
        data := data.(notes := []);
        return;
      }
      var cached := ReadNotes(Get(storage, NotesKey(user, profileId)));
      if cached.Hit? {
        data := data.(notes := cached.value);
      }
      if fetched.Some? {
        var sorted := SortNotesByDate(MapNoteRows(fetched.value));
        data := data.(notes := sorted);
        storage := storage[NotesKey(user, profileId) := NoteList(sorted)];
      }
    }

    /** The effect on `currentProfileId` and `profiles` (lines 566-580). */
    method OnProfileChanged(fetched: Option<seq<NoteRow>>)
      requires Valid()
      modifies this
      ensures Valid()
      ensures State() == ProfileChanged(Context(), old(State()), fetched)
    {
      var cur := data.currentProfileId;
      if Truthy(cur) && |data.profiles| > 0 && cur.value in Ids(data.profiles) {
        if !(cur.value in data.deletingNotes && data.deletingNotes[cur.value]) {
          LoadProfileNotes(cur.value, fetched);
        }
        flags := flags.(switchingProfile := false);
      }
    }

    /** `handleSwitchProfile` (lines 751-761). */
    method HandleSwitchProfile(profileId: string, fetched: Option<seq<NoteRow>>)
      requires Valid()
      modifies this
      ensures Valid()
      ensures State() == SwitchedProfile(Context(), old(State()), profileId, fetched)
    {
      data := data.(currentProfileId := Some(profileId));
      storage := storage[PointerKey(user) := Pointer(profileId)];
      flags := flags.(switchingProfile := true);
      LoadProfileNotes(profileId, fetched);
    }

    /** `handlePunch`, `handleHug`, `handleKiss` up to the timer (lines 763-842). */
    method HandleInteraction(k: Interaction) returns (pending: Option<PendingInteraction>)
      requires Valid()
      modifies this
      ensures Valid()
      ensures State() == StartInteraction(old(State()), k).state
      ensures pending == StartInteraction(old(State()), k).out
    {
      if flags.isPunching || flags.isHugging || flags.isKissing || flags.noteSaving || flags.switchingProfile {
        return None;
      }
      match k {
        case Punch => flags := flags.(isPunching := true);
        case Hug => flags := flags.(isHugging := true);
        case Kiss => flags := flags.(isKissing := true);
      }
      pending := Some(PendingInteraction(k, data.currentProfileId, data.profiles));
    }

    /** The timer callback of an interaction. */
    method InteractionTimerFired(p: PendingInteraction) returns (writes: seq<RemoteWrite>)
      requires Valid()
      modifies this
      ensures Valid()
      ensures State() == FinishInteraction(Context(), old(State()), p).state
      ensures writes == FinishInteraction(Context(), old(State()), p).out
    {
      FinishKeepsExclusive(Context(), State(), p);
      flags := WithAnimating(flags, p.kind, false);
      writes := [];
      if Truthy(p.current) {
        var updated := Increment(p.profiles, p.current.value, CounterFor(p.kind));
        data := data.(profiles := updated);
        if !guestMode {
          writes := CounterWrite(updated, p.current.value, CounterFor(p.kind));
        }
      }
    }

    /** `handleSaveNote` up to the insert (lines 848-880). */
    method HandleSaveNote(now: nat) returns (start: SaveStart)
      requires Valid()
      modifies this
      ensures Valid()
      ensures State() == BeginSaveNote(Context(), old(State()), now).state
      ensures start == BeginSaveNote(Context(), old(State()), now).out
    {
      var text := Trim(form.noteText);
      var cur := data.currentProfileId;
      if text == [] || !Truthy(cur) || (user.None? && !guestMode) {
        return SaveIgnored;
      }
      if guestMode {
        var n := GuestNote(text, form.noteEmotion, now);
        data := data.(notes := SortNotesByDate(data.notes + [n]), profiles := Increment(data.profiles, cur.value, NotesCount));
        form := form.(noteText := "");
        flags := flags.(noteSaving := false);
        return SavedAsGuest;
      }
      flags := flags.(noteSaving := true);
      start := SaveRequested(PendingSave(cur.value, user.value, text, form.noteEmotion, data.notes, data.profiles));
    }

    /** `handleSaveNote` after the insert (lines 881-925). */
    method SaveNoteCompleted(p: PendingSave, inserted: Option<NoteRow>, now: int) returns (writes: seq<RemoteWrite>)
      requires Valid()
      modifies this
      ensures Valid()
      ensures State() == CompleteSaveNote(Context(), old(State()), p, inserted, now).state
      ensures writes == CompleteSaveNote(Context(), old(State()), p, inserted, now).out
    {
      writes := [];
      if inserted.Some? {
        var n := SavedNote(inserted.value, p.emotion, now);
        var updatedNotes := SortNotesByDate(p.notes + [n]);
        data := data.(notes := updatedNotes);
        storage := storage[NotesKey(user, p.profileId) := NoteList(updatedNotes)];
        var updated := Increment(p.profiles, p.profileId, NotesCount);
        data := data.(profiles := updated);
        writes := CounterWrite(updated, p.profileId, NotesCount);
        form := form.(noteText := "", noteEmotion := Feelings);
      }
      flags := flags.(noteSaving := false);
    }

    /** `handleDeleteNote` up to the remote delete (lines 942-968). */
    method HandleDeleteNote(id: string, authorId: UserId) returns (start: DeleteStart)
      requires Valid()
      modifies this
      ensures Valid()
      ensures State() == BeginDeleteNote(Context(), old(State()), id, authorId).state
      ensures start == BeginDeleteNote(Context(), old(State()), id, authorId).out
    {
      if !Truthy(data.currentProfileId) || !MayDelete(Context(), authorId) {
        return DeleteIgnored;
      }
      var cur := data.currentProfileId.value;
      var previousNotes, previousProfiles := data.notes, data.profiles;
      var updatedNotes := SortNotesByDate(RemoveNote(previousNotes, id));
      var updatedProfiles := DecrementNotes(previousProfiles, cur);
      data := data.(notes := updatedNotes, profiles := updatedProfiles);
      if guestMode {
        data := data.(deletingNotes := data.deletingNotes[cur := false]);
        return DeletedAsGuest;
      }
      storage := storage[NotesKey(user, cur) := NoteList(updatedNotes)];
      data := data.(deletingNotes := data.deletingNotes[cur := true]);
      start := DeleteRequested(PendingDelete(id, cur, previousNotes, previousProfiles, updatedProfiles));
    }

    /** `handleDeleteNote` after the remote delete (lines 969-1000). */
    method DeleteNoteCompleted(p: PendingDelete, deleted: bool) returns (writes: seq<RemoteWrite>)
      requires Valid()
      modifies this
      ensures Valid()
      ensures State() == CompleteDeleteNote(Context(), old(State()), p, deleted).state
      ensures writes == CompleteDeleteNote(Context(), old(State()), p, deleted).out
    {
      if !deleted {
        data := data.(notes := p.previousNotes, profiles := p.previousProfiles);
        storage := storage[NotesKey(user, p.profileId) := NoteList(p.previousNotes)];
        writes := [];
      } else {
        writes := CounterWrite(p.updatedProfiles, p.profileId, NotesCount);
      }
      data := data.(deletingNotes := data.deletingNotes[p.profileId := false]);
    }

    /** `createProfile` up to the insert or update (lines 653-690). */
    method CreateProfile() returns (start: CreateStart)
      requires Valid()
      modifies this
      ensures Valid()
      ensures State() == BeginCreateProfile(Context(), old(State())).state
      ensures start == BeginCreateProfile(Context(), old(State())).out
    {
      if flags.profileSaving {
        return CreateIgnored;
      }
      var name := Trim(form.newProfileName);
      if guestMode || name == [] || user.None? || !Truthy(form.newProfileImage) {
        return CreateIgnored;
      }
      if Utf16Length(name) > 30 {
        return NameTooLong;
      }
      if Utf16Length(Trim(form.newProfileDesc)) > 50 {
        return DescriptionTooLong;
      }
      flags := flags.(profileSaving := true);
      if Truthy(form.editingProfileId) {
        start := UpdateRequested(PendingEdit(form.editingProfileId.value, FormEditPayload(form), form.newProfileIsPublic,
                                             data.profiles, data.profileImages));
      } else {
        start := InsertRequested(PendingCreate(CreatePayload(user.value, form.newProfileName, form.newProfileDesc,
                                                             form.newProfileIsPublic, form.newProfileImage),
                                               data.profiles, data.profileImages));
      }
    }

    /** `createProfile` after the update of an edited profile (lines 691-717). */
    method EditCompleted(p: PendingEdit, returned: Option<ProfileRow>, now: int) returns (writes: seq<RemoteWrite>)
      requires Valid()
      modifies this
      ensures Valid()
      ensures State() == CompleteEditProfile(Context(), old(State()), p, returned, now).state
      ensures writes == CompleteEditProfile(Context(), old(State()), p, returned, now).out
    {
      writes := [];
      if returned.Some? {
        if !p.isPublic {
          writes := [DeleteCollaboratorsOf(p.profileId)];
        }
        var updatedProfile := MapProfile(returned.value, now);
        data := data.(profiles := ReplaceById(p.profiles, p.profileId, updatedProfile));
        if Truthy(updatedProfile.imageData) {
          data := data.(profileImages := p.images[p.profileId := updatedProfile.imageData.value]);
        }
        form := ResetForm(form);
      }
      flags := flags.(profileSaving := false);
    }

    /** `createProfile` after the insert of a new profile (lines 718-749). */
    method CreateCompleted(p: PendingCreate, inserted: Option<ProfileRow>, now: int)
      requires Valid()
      modifies this
      ensures Valid()
      ensures State() == CompleteCreateProfile(Context(), old(State()), p, inserted, now)
    {
      if inserted.Some? {
        var newProfile := MapProfile(inserted.value, now);
        data := data.(profiles := [newProfile] + p.profiles, currentProfileId := Some(newProfile.id));
        storage := storage[PointerKey(user) := Pointer(newProfile.id)];
        if Truthy(newProfile.imageData) {
          data := data.(profileImages := p.images[newProfile.id := newProfile.imageData.value]);
        }
        form := ResetForm(form);
        data := data.(notes := []);
      }
      flags := flags.(profileSaving := false);
    }

    /** `loadProfileImage` (lines 218-240): `fetched` is the answer of the image query, looked
        at only when the query is sent. */
    method LoadProfileImage(profileId: string, fetched: Option<string>) returns (image: Option<string>)
      requires Valid()
      modifies this
      ensures Valid()
      ensures var b := BeginImageLoad(Context(), old(State()), profileId);
        && (b.NoImage? ==> State() == old(State()) && image.None?)
        && (b.CachedImage? ==> State() == old(State()) && image == Some(b.image))
        && (b.ImageRequested? ==> State() == CompleteImageLoad(old(State()), profileId, fetched).state
                                  && image == CompleteImageLoad(old(State()), profileId, fetched).out)
    {
      if profileId == "" || guestMode {
        return None;
      }
      if profileId in data.profileImages && data.profileImages[profileId] != "" {
        return Some(data.profileImages[profileId]);
      }
      if !Truthy(fetched) {
        return None;
      }
      data := data.(profileImages := data.profileImages[profileId := fetched.value]);
      data := data.(profiles := SetImage(data.profiles, profileId, fetched.value));
      image := fetched;
    }

    /** The effect at lines 582-592: the current profile has no image yet, so fetch it. */
    method LoadCurrentImage(fetched: Option<string>)
      requires Valid()
      modifies this
      ensures Valid()
      ensures !ImageEffectRuns(Context(), old(State())) ==> State() == old(State())
      ensures ImageEffectRuns(Context(), old(State())) ==>
                State() == CompleteImageLoad(old(State()), old(data.currentProfileId.value), fetched).state
    {
      if ImageEffectRuns(Context(), State()) {
        ImageEffectQueries(Context(), State());
        var image := LoadProfileImage(data.currentProfileId.value, fetched);
      }
    }

    /** `openEditModal` (lines 605-615). */
    method OpenEditor(profileId: string)
      requires Valid()
      modifies this
      ensures Valid()
      ensures State() == OpenEditModal(old(State()), profileId)
    {
      var found := Find(data.profiles, profileId);
      if found.None? {
        return;
      }
      var p := found.value;
      var image: Option<string>;
      if Truthy(p.imageData) {
        image := p.imageData;
      } else if profileId in data.profileImages && data.profileImages[profileId] != "" {
        image := Some(data.profileImages[profileId]);
      } else {
        image := None;
      }
      form := form.(editingProfileId := Some(profileId), newProfileName := p.name,
                    newProfileDesc := if p.description.Some? then p.description.value else "",
                    newProfileIsPublic := p.visibility == Public, newProfileImage := image);
    }

    /** `handleDeleteProfile` (lines 617-643). */
    method HandleDeleteProfile(profileId: string, fetched: Option<seq<NoteRow>>) returns (writes: seq<RemoteWrite>)
      requires Valid()
      modifies this
      ensures Valid()
      ensures State() == DeleteProfile(Context(), old(State()), profileId, fetched).state
      ensures writes == DeleteProfile(Context(), old(State()), profileId, fetched).out
    {
      writes := [DeleteProfileRow(profileId)];
      var wasCurrent := data.currentProfileId == Some(profileId);
      var updated := RemoveById(data.profiles, profileId);
      data := data.(profiles := updated, profileImages := data.profileImages - {profileId});
      if wasCurrent {
        if |updated| > 0 {
          data := data.(currentProfileId := Some(updated[0].id));
          storage := storage[PointerKey(user) := Pointer(updated[0].id)];
          LoadProfileNotes(updated[0].id, fetched);
        } else {
          data := data.(currentProfileId := None, notes := []);
          storage := storage - {PointerKey(user)};
        }
      }
    }

    /** `loadCollaborators` (lines 1010-1025). */
    method LoadCollaboratorList(fetched: Option<seq<Collaborator>>)
      requires Valid()
      modifies this
      ensures Valid()
      ensures State() == LoadCollaborators(Context(), old(State()), fetched)
    {
      if !IsOwner(Context(), State()) || fetched.None? {
        return;
      }
      data := data.(collaborators := FilterOutOwner(fetched.value, ActiveProfile(State()).value.ownerId));
    }

    /** `handleRemoveCollaborator` (lines 1066-1074). */
    method HandleRemoveCollaborator(collabId: string) returns (writes: seq<RemoteWrite>)
      requires Valid()
      modifies this
      ensures Valid()
      ensures State() == RemoveCollaborator(Context(), old(State()), collabId).state
      ensures writes == RemoveCollaborator(Context(), old(State()), collabId).out
    {
      if !IsOwner(Context(), State()) {
        return [];
      }
      writes := [DeleteCollaboratorRow(collabId)];
      data := data.(collaborators := RemoveCollaboratorById(data.collaborators, collabId));
    }
  }
}
