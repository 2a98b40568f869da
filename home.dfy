/** The home page (app/page.tsx): it loads the user's own and shared profiles (without the
    shared-link step of the character page), redirects to the character page once a profile
    is stored as current, and creates profiles with a laxer validation than the character
    page's form. */
module Home {
  import opened Common
  import opened Profiles
  import opened Merge
  import opened Storage
  import Notes
  import CharacterSteps

  /** Where `router.replace` / `router.push` sends the browser, if anywhere. */
  datatype Navigation = Stay | Replace(path: string) | Push(path: string)

  /** The create form: name, description, the uploaded image as a data URL, the public switch. */
  datatype CreateForm = CreateForm(name: string, desc: string, image: Option<string>, isPublic: bool)

  const EmptyForm := CreateForm("", "", None, false)

  // ---------------------------------------------------------------------------
  // Loading the list (lines 58-126)

  /** The outcomes of the requests `loadProfiles` awaits: `None` stands for an error. Every
      column is selected, `image_data` included. */
  datatype HomeResponses = HomeResponses(
    owned: Option<seq<ProfileRow>>,
    sharedIds: Option<seq<string>>,
    shared: Option<seq<ProfileRow>>,
    now: int)

  /** `(rows || []).map(mapProfile)`. */
  function MapAll(rows: seq<ProfileRow>, now: int): (ps: seq<Profile>)
    ensures |ps| == |rows|
    ensures forall i :: 0 <= i < |rows| ==> ps[i] == MapProfile(rows[i], now)
  {
    seq(|rows|, i requires 0 <= i < |rows| => MapProfile(rows[i], now))
  }

  /** The shared profiles: none when the id query fails (its `null` data reads as no ids),
      finds no id, or when the profile query fails. */
  function HomeShared(r: HomeResponses): seq<Profile> {
    if r.sharedIds.None? || |r.sharedIds.value| == 0 || r.shared.None? then [] else MapAll(r.shared.value, r.now)
  }

  /** Everything set into `mergedMap`, in order: owned, then shared. */
  function HomeSources(r: HomeResponses): seq<Profile>
    requires r.owned.Some?
  {
    MapAll(r.owned.value, r.now) + HomeShared(r)
  }

  /** The loaded list has distinct ids, exactly the owned and shared ids, newest first; a
      shared record replaces an owned one with its id; and the image table maps every
      profile with a truthy image to that image. */
  lemma HomeListFacts(r: HomeResponses)
    requires r.owned.Some?
    ensures var owned := MapAll(r.owned.value, r.now);
            var shared := HomeShared(r);
            var m := MergedProfiles(HomeSources(r));
      && DistinctIds(m) && SortedByCreated(m)
      && Ids(m) == Ids(owned) + Ids(shared)
      && (forall q :: q in m && q.id in Ids(shared) ==> q in shared)
      && (forall q :: q in m && q.id !in Ids(shared) ==> q in owned)
      && (forall i :: 0 <= i < |m| && Truthy(m[i].imageData) ==> ImageMap(m)[m[i].id] == m[i].imageData.value)
  {
    var owned := MapAll(r.owned.value, r.now);
    var shared := HomeShared(r);
    var src := HomeSources(r);
    var m := MergedProfiles(src);
    MergedProfilesFacts(src);
    IdsAppend(owned, shared);
    forall q | q in m
      ensures q.id in Ids(shared) ==> q in shared
      ensures q.id !in Ids(shared) ==> q in owned
    {
      assert LastWithId(src, q.id) == Some(q);
      if q.id in Ids(shared) {
        var k :| 0 <= k < |shared| && shared[k].id == q.id;
        LaterSourceWins(owned, shared, shared[k]);
      } else {
        assert q in src;
        assert q !in shared;
      }
    }
    ImageMapValues(m);
  }

  /** A failing collaborator-id or shared-profile query degrades to the owned list alone:
      with distinct owned ids, the page shows exactly the owned profiles. */
  lemma FailedSharedQueryShowsOwned(r: HomeResponses)
    requires r.owned.Some? && (r.sharedIds.None? || r.shared.None?)
    requires DistinctIds(MapAll(r.owned.value, r.now))
    ensures multiset(MergedProfiles(HomeSources(r))) == multiset(MapAll(r.owned.value, r.now))
  {
    var owned := MapAll(r.owned.value, r.now);
    assert HomeSources(r) == owned;
    MergedOfDistinct(owned);
  }

  // ---------------------------------------------------------------------------
  // The selection effect (lines 128-139)

  /** The effect does nothing while auth or the list is loading, without a user, or with no
      profile. */
  predicate SelectionRuns(authLoading: bool, user: Option<UserId>, profilesLoading: bool, profiles: seq<Profile>) {
    !authLoading && user.Some? && !profilesLoading && profiles != []
  }

  /** Running the effect again on the same list writes the same id: the rule is idempotent. */
  lemma NextProfileIdIdempotent(stored: Option<string>, ps: seq<Profile>)
    requires ps != []
    ensures NextProfileId(Some(NextProfileId(stored, ps)), ps) == NextProfileId(stored, ps)
  {
    var id := NextProfileId(stored, ps);
    if !StoredIsValid(Some(id), ps) {
      assert !StoredIsValid(stored, ps);
    }
  }

  /** The character page, loading the same list with no link open, shows the id the home page
      stored, and leaves the stored pointer alone unless that id is the empty string. */
  lemma CharacterPageKeepsHomeChoice(stored: Option<string>, ps: seq<Profile>)
    requires ps != []
    ensures var id := NextProfileId(stored, ps);
      && ChooseAfterLoad(None, Some(id), ps).current == Some(id)
      && (ChooseAfterLoad(None, Some(id), ps).storePointer <==> id == "")
  {
    var id := NextProfileId(stored, ps);
    if id == "" {
      assert !StoredIsValid(stored, ps);
    }
  }

  // ---------------------------------------------------------------------------
  // Creating a profile (lines 154-209)

  /** `!newProfileName.trim() || !user || imageUploading` refuses the press; nothing else is
      checked, not the lengths and not the image. */
  predicate CreateAllowed(user: Option<UserId>, f: CreateForm, imageUploading: bool) {
    Trim(f.name) != [] && user.Some? && !imageUploading
  }

  /** Whatever the character page's form accepts, the home page accepts too. */
  lemma CharacterRulesImplyHomeRules(e: CharacterSteps.Session, f: CharacterSteps.Form)
    requires CharacterSteps.FormAccepted(e, f)
    ensures CreateAllowed(e.user, CreateForm(f.newProfileName, f.newProfileDesc, f.newProfileImage, f.newProfileIsPublic), false)
  {
  }

  /** The converse fails: a 31-letter name is created from the home page but refused by the
      character page's form. */
  lemma HomeSkipsLengthLimit(owner: UserId, image: string)
    requires image != ""
    ensures var name := seq(31, _ => 'a');
      && CreateAllowed(Some(owner), CreateForm(name, "", Some(image), false), false)
      && !CharacterSteps.FormAccepted(CharacterSteps.Session(Some(owner), false, None),
                                      CharacterSteps.Form("", Notes.Feelings, None, name, "", Some(image), false))
  {
    var name: string := seq(31, _ => 'a');
    assert !IsJsWhitespace(name[0]);
    assert LeadingSpace(name) == 0;
    assert !IsJsWhitespace(name[30]);
    assert TrailingSpace(name) == 0;
    assert Trim(name) == name;
  }

  /** A new profile carries an image exactly when the form had a non-empty one. */
  lemma CreatedImageFromForm(user: UserId, f: CreateForm, id: string, createdAt: int, now: int)
    ensures var p := MapProfile(InsertedRow(CreatePayload(user, f.name, f.desc, f.isPublic, f.image), id, createdAt), now);
      Truthy(p.imageData) <==> Truthy(f.image)
  {
  }

  // ---------------------------------------------------------------------------
  // The page

  class HomePage {
    /** The signed-in user, absent before sign-in or after sign-out. */
    const user: Option<UserId>

    var profiles: seq<Profile>
    var profileImages: map<string, string>
    var profilesLoading: bool
    var imageUploading: bool
    var form: CreateForm
    var showCreateModal: bool
    var storage: Store

    constructor(user: Option<UserId>, storage: Store)
      ensures this.user == user && this.storage == storage
      ensures profiles == [] && profileImages == map[] && !profilesLoading && !imageUploading
      ensures form == EmptyForm && !showCreateModal
    {
      this.user := user;
      this.storage := storage;
      profiles := [];
      profileImages := map[];
      profilesLoading := false;
      imageUploading := false;
      form := EmptyForm;
      showCreateModal := false;
    }

    /** Lines 34-39: a settled auth state without a user goes to the login page. */
    method RedirectIfSignedOut(authLoading: bool) returns (nav: Navigation)
      ensures nav == Replace("/login") <==> !authLoading && user.None?
      ensures nav != Replace("/login") ==> nav == Stay
    {
      nav := if !authLoading && user.None? then Replace("/login") else Stay;
    }

    /** `loadProfiles` up to its first request: nothing without a user. */
    method StartLoadingProfiles()
      modifies this
      ensures profilesLoading == (user.Some? || old(profilesLoading))
      ensures profiles == old(profiles) && profileImages == old(profileImages) && storage == old(storage)
      ensures form == old(form) && imageUploading == old(imageUploading) && showCreateModal == old(showCreateModal)
    {
      if user.Some? {
        profilesLoading := true;
      }
    }

    /** `loadProfiles` once its requests are answered: an owned-query error keeps the list and
        images as they were; otherwise the merged list and its image table replace them. The
        `finally` clears the loading flag either way. */
    method FinishLoadingProfiles(r: HomeResponses)
      requires user.Some?
      modifies this
      ensures !profilesLoading
      ensures r.owned.None? ==> profiles == old(profiles) && profileImages == old(profileImages)
      ensures r.owned.Some? ==> profiles == MergedProfiles(HomeSources(r)) && profileImages == ImageMap(profiles)
      ensures storage == old(storage) && form == old(form)
      ensures imageUploading == old(imageUploading) && showCreateModal == old(showCreateModal)
    {
      if r.owned.Some? {
        var merged, images := MergeAndIndex(HomeSources(r));
        profiles := merged;
        profileImages := images;
      }
      profilesLoading := false;
    }

    /** The selection effect: once it runs, the stored id is kept if it names a loaded profile,
        otherwise the first profile's id replaces it; the id is written back either way and the
        browser moves to the character page. */
    method SelectCurrentProfile(authLoading: bool) returns (nav: Navigation)
      modifies this
      ensures !SelectionRuns(authLoading, user, profilesLoading, profiles) ==> nav == Stay && storage == old(storage)
      ensures SelectionRuns(authLoading, user, profilesLoading, profiles) ==>
                && nav == Replace("/character")
                && storage == old(storage)[PointerKey(user) :=
                     Pointer(NextProfileId(ReadPointer(Get(old(storage), PointerKey(user))), profiles))]
                && ReadPointer(Get(storage, PointerKey(user))).value in Ids(profiles)
      ensures profiles == old(profiles) && profileImages == old(profileImages) && profilesLoading == old(profilesLoading)
      ensures form == old(form) && imageUploading == old(imageUploading) && showCreateModal == old(showCreateModal)
    {
      if authLoading || user.None? || profilesLoading || |profiles| == 0 {
        return Stay;
      }
      var stored := ReadPointer(Get(storage, PointerKey(user)));
      var next := NextProfileId(stored, profiles);
      storage := storage[PointerKey(user) := Pointer(next)];
      nav := Replace("/character");
    }

    /** `handleImageUpload` up to `readAsDataURL`: a chosen file marks an upload in progress. */
    method StartImageUpload(fileChosen: bool)
      modifies this
      ensures imageUploading == (fileChosen || old(imageUploading))
      ensures form == old(form) && profiles == old(profiles) && profileImages == old(profileImages)
      ensures storage == old(storage) && profilesLoading == old(profilesLoading) && showCreateModal == old(showCreateModal)
    {
      if fileChosen {
        imageUploading := true;
      }
    }

    /** The reader's `onloadend`: the data URL becomes the form's image and the upload is over. */
    method ImageLoaded(dataUrl: string)
      modifies this
      ensures form == old(form).(image := Some(dataUrl)) && !imageUploading
      ensures profiles == old(profiles) && profileImages == old(profileImages)
      ensures storage == old(storage) && profilesLoading == old(profilesLoading) && showCreateModal == old(showCreateModal)
    {
      form := form.(image := Some(dataUrl));
      imageUploading := false;
    }

    /** `handleCreateProfile`, taken as one step: `request` is the payload sent when the press
        is accepted, and `inserted` the row the insert returned (`None` on error or no data).
        A refused press or a failed insert changes nothing; a successful one prepends the new
        profile, stores it as current, records its image, resets the form and navigates. */
    method HandleCreateProfile(inserted: Option<ProfileRow>, now: int) returns (request: Option<InsertPayload>, nav: Navigation)
      modifies this
      ensures request.Some? <==> CreateAllowed(user, old(form), imageUploading)
      ensures request.Some? ==> request.value == CreatePayload(user.value, old(form).name, old(form).desc, old(form).isPublic, old(form).image)
      ensures request.None? || inserted.None? ==>
                && nav == Stay && profiles == old(profiles) && profileImages == old(profileImages)
                && storage == old(storage) && form == old(form) && showCreateModal == old(showCreateModal)
      ensures request.Some? && inserted.Some? ==>
                var p := MapProfile(inserted.value, now);
                && nav == Push("/character")
                && profiles == [p] + old(profiles)
                && storage == old(storage)[PointerKey(user) := Pointer(p.id)]
                && profileImages == (if Truthy(p.imageData) then old(profileImages)[p.id := p.imageData.value] else old(profileImages))
                && form == EmptyForm && !showCreateModal
      ensures imageUploading == old(imageUploading) && profilesLoading == old(profilesLoading)
    {
      if Trim(form.name) == [] || user.None? || imageUploading {
        return None, Stay;
      }
      request := Some(CreatePayload(user.value, form.name, form.desc, form.isPublic, form.image));
      if inserted.None? {
        return request, Stay;
      }
      AddCreatedProfile(MapProfile(inserted.value, now));
      nav := Push("/character");
    }

    /** The success branch of `handleCreateProfile`: the new profile goes in front, becomes
        the stored current profile, its image is recorded and the form is reset. */
    method AddCreatedProfile(p: Profile)
      modifies this
      ensures profiles == [p] + old(profiles)
      ensures storage == old(storage)[PointerKey(user) := Pointer(p.id)]
      ensures ReadPointer(Get(storage, PointerKey(user))) == Some(p.id)
      ensures profileImages == if Truthy(p.imageData) then old(profileImages)[p.id := p.imageData.value] else old(profileImages)
      ensures form == EmptyForm && !showCreateModal
      ensures imageUploading == old(imageUploading) && profilesLoading == old(profilesLoading)
    {
      profiles := [p] + profiles;
      storage := storage[PointerKey(user) := Pointer(p.id)];
      if Truthy(p.imageData) {
        profileImages := profileImages[p.id := p.imageData.value];
      }
      form := EmptyForm;
      showCreateModal := false;
    }

    /** `handleSelectProfile`: store the chosen id as current and open the character page. */
    method HandleSelectProfile(profileId: string) returns (nav: Navigation)
      modifies this
      ensures storage == old(storage)[PointerKey(user) := Pointer(profileId)]
      ensures ReadPointer(Get(storage, PointerKey(user))) == Some(profileId)
      ensures nav == Push("/character")
      ensures profiles == old(profiles) && profileImages == old(profileImages) && profilesLoading == old(profilesLoading)
      ensures form == old(form) && imageUploading == old(imageUploading) && showCreateModal == old(showCreateModal)
    {
      storage := storage[PointerKey(user) := Pointer(profileId)];
      nav := Push("/character");
    }
  }
}
