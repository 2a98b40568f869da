/** The browser's `localStorage` as the pages use it: keys scoped by user id, and the
    cached values read back through `JSON.parse`. */
module Storage {
  import opened Common
  import opened Profiles
  import opened Notes

  /** What a key holds. The pages store the current-profile pointer as raw text and the
      caches as JSON; `Garbage` is any text that `JSON.parse` rejects. */
  datatype CacheEntry =
    | Pointer(id: string)
    | ProfileList(profiles: seq<Profile>)
    | ImageTable(images: map<string, string>)
    | NoteList(notes: seq<Note>)
    | Garbage(text: string)

  // ---------------------------------------------------------------------------
  // Keys

  /** The part of a key after the user id. */
  datatype Base = CurrentProfileId | ProfilesCache | ProfileImagesCache | NotesCache(profileId: string)

  /** A key as the pages build it: a user (absent before sign-in completes) and a base. */
  datatype Key = Key(user: Option<UserId>, base: Base)

  /** The browser's storage, indexed by keys. Keying by `Key` instead of by its text is
      faithful because the text form is injective for one user (`KeyTextInjective`) and
      separates users whose ids hold no ':' (`KeysSeparateUsers`). */
  type Store = map<Key, CacheEntry>

  /** `u:${user?.id}:${base}`: a missing user prints as "undefined". */
  function StorageKey(user: Option<UserId>, base: string): (k: string)
    ensures |k| == 3 + |UserPart(user)| + |base|
    ensures k[..2] == "u:" && k[2 + |UserPart(user)|] == ':'
    ensures k[3 + |UserPart(user)|..] == base
  {
    "u:" + UserPart(user) + ":" + base
  }

  function UserPart(user: Option<UserId>): string {
    if user.Some? then user.value else "undefined"
  }

  function BaseText(b: Base): string {
    match b
    case CurrentProfileId => "currentProfileId"
    case ProfilesCache => "profilesCache"
    case ProfileImagesCache => "profileImagesCache"
    case NotesCache(id) => "notesCache:" + id
  }

  function KeyText(k: Key): string {
    StorageKey(k.user, BaseText(k.base))
  }

  function PointerKey(user: Option<UserId>): Key { Key(user, CurrentProfileId) }
  function ProfilesKey(user: Option<UserId>): Key { Key(user, ProfilesCache) }
  function ImagesKey(user: Option<UserId>): Key { Key(user, ProfileImagesCache) }
  function NotesKey(user: Option<UserId>, profileId: string): Key { Key(user, NotesCache(profileId)) }

  /** For one user, keys are equal exactly when their bases are. */
  lemma BasesDistinguishKeys(user: Option<UserId>, a: string, b: string)
    ensures StorageKey(user, a) == StorageKey(user, b) <==> a == b
  {
    var n := 3 + |UserPart(user)|;
    assert a == StorageKey(user, a)[n..];
    assert b == StorageKey(user, b)[n..];
  }

  /** Different bases have different texts: the four kinds of key never collide, and every
      profile has its own notes cache. */
  lemma BaseTextInjective(a: Base, b: Base)
    ensures BaseText(a) == BaseText(b) <==> a == b
  {
    if a.NotesCache? && b.NotesCache? {
      assert a.profileId == BaseText(a)[11..];
      assert b.profileId == BaseText(b)[11..];
    } else if a != b {
      var ta, tb := BaseText(a), BaseText(b);
      if a.NotesCache? {
        assert ta[0] == 'n' && tb[0] != 'n';
      } else if b.NotesCache? {
        assert tb[0] == 'n' && ta[0] != 'n';
      } else {
        assert |ta| != |tb|;
      }
    }
  }

  /** For one user the text of a key determines the key. */
  lemma KeyTextInjective(k1: Key, k2: Key)
    requires k1.user == k2.user
    ensures KeyText(k1) == KeyText(k2) <==> k1 == k2
  {
    BasesDistinguishKeys(k1.user, BaseText(k1.base), BaseText(k2.base));
    BaseTextInjective(k1.base, k2.base);
  }

  /** Two users whose ids contain no ':' never share a key: one user's caches and pointer are
      invisible to the other on the same browser. */
  lemma KeysSeparateUsers(a: UserId, b: UserId, baseA: string, baseB: string)
    requires forall i :: 0 <= i < |a| ==> a[i] != ':'
    requires forall i :: 0 <= i < |b| ==> b[i] != ':'
    requires a != b
    ensures StorageKey(Some(a), baseA) != StorageKey(Some(b), baseB)
  {
    var ka := StorageKey(Some(a), baseA);
    var kb := StorageKey(Some(b), baseB);
    if |a| < |b| {
      assert ka[2 + |a|] == ':';
      assert kb[2 + |a|] == b[|a|];
    } else if |b| < |a| {
      assert kb[2 + |b|] == ':';
      assert ka[2 + |b|] == a[|b|];
    } else {
      var i :| 0 <= i < |a| && a[i] != b[i];
      assert ka[2 + i] == a[i];
      assert kb[2 + i] == b[i];
    }
  }

  // ---------------------------------------------------------------------------
  // Reading the caches back

  /** The outcome of `getItem` + `JSON.parse` + the shape test inside a `try`. */
  datatype Read<T> = Missing | Hit(value: T) | Throws

  /** The profiles cache: an array is used, a stored text that does not parse throws, and an
      absent or empty item is skipped. */
  function ReadProfiles(e: Option<CacheEntry>): (r: Read<seq<Profile>>)
    ensures r.Hit? <==> e.Some? && e.value.ProfileList?
    ensures r.Hit? ==> r.value == e.value.profiles
  {
    match e
    case None => Missing
    case Some(ProfileList(ps)) => Hit(ps)
    case Some(NoteList(_)) => Missing   // never stored under this key (BaseTextInjective)
    case Some(ImageTable(_)) => Missing // parses to an object, which is not an array
    case Some(Pointer(s)) => if s == "" then Missing else Throws
    case Some(Garbage(s)) => if s == "" then Missing else Throws
  }

  /** The image cache: any parsed object is used. */
  function ReadImages(e: Option<CacheEntry>): (r: Read<map<string, string>>)
    ensures r.Hit? <==> e.Some? && e.value.ImageTable?
    ensures r.Hit? ==> r.value == e.value.images
  {
    match e
    case None => Missing
    case Some(ImageTable(m)) => Hit(m)
    case Some(ProfileList(_)) => Missing // never stored under this key (BaseTextInjective)
    case Some(NoteList(_)) => Missing    // never stored under this key (BaseTextInjective)
    case Some(Pointer(s)) => if s == "" then Missing else Throws
    case Some(Garbage(s)) => if s == "" then Missing else Throws
  }

  /** A notes cache. */
  function ReadNotes(e: Option<CacheEntry>): (r: Read<seq<Note>>)
    ensures r.Hit? <==> e.Some? && e.value.NoteList?
    ensures r.Hit? ==> r.value == e.value.notes
  {
    match e
    case None => Missing
    case Some(NoteList(ns)) => Hit(ns)
    case Some(ProfileList(_)) => Missing // never stored under this key (BaseTextInjective)
    case Some(ImageTable(_)) => Missing  // parses to an object, which is not an array
    case Some(Pointer(s)) => if s == "" then Missing else Throws
    case Some(Garbage(s)) => if s == "" then Missing else Throws
  }

  /** `localStorage.getItem(storageKey("currentProfileId"))`: the raw text, no parsing. */
  function ReadPointer(e: Option<CacheEntry>): (r: Option<string>)
    ensures e.Some? && e.value.Pointer? ==> r == Some(e.value.id)
    ensures e.None? ==> r.None?
  {
    match e
    case Some(Pointer(s)) => Some(s)
    case Some(Garbage(s)) => Some(s)
    case _ => None   // JSON caches are never stored under the pointer key (BaseTextInjective)
  }

  function Get(s: Store, k: Key): Option<CacheEntry> {
    if k in s then Some(s[k]) else None
  }

  /** What a page wrote it reads back. */
  lemma WrittenIsRead(s: Store, k: Key, ps: seq<Profile>, m: map<string, string>, ns: seq<Note>, id: string)
    ensures ReadProfiles(Get(s[k := ProfileList(ps)], k)) == Hit(ps)
    ensures ReadImages(Get(s[k := ImageTable(m)], k)) == Hit(m)
    ensures ReadNotes(Get(s[k := NoteList(ns)], k)) == Hit(ns)
    ensures ReadPointer(Get(s[k := Pointer(id)], k)) == Some(id)
  {
  }
}
