/** The `Note` record of app/types.ts, the `profile_notes` row it is read from, the
    ordering `sortNotesByDate` imposes and the labels shown for each emotion. */
module Notes {
  import opened Common

  datatype Emotion = Anger | Feelings | Appreciation

  /** A note as the character page holds it. `createdAt` is optional in the record. */
  datatype Note = Note(
    id: string,
    text: string,
    authorId: UserId,
    emotionType: Option<Emotion>,
    createdAt: Option<int>)

  /** A row of `profile_notes`; `createdAt` is the parsed `created_at`, `None` when null or empty. */
  datatype NoteRow = NoteRow(
    id: string,
    text: string,
    userId: UserId,
    emotionType: Option<Emotion>,
    createdAt: Option<int>)

  /** The mapping in `loadProfileNotes`: a missing emotion reads as "feelings", a missing
      creation time stays missing. */
  function MapNote(row: NoteRow): (n: Note)
    ensures n.emotionType.Some?
    ensures n.id == row.id && n.text == row.text && n.authorId == row.userId && n.createdAt == row.createdAt
  {
    Note(row.id, row.text, row.userId,
         Some(if row.emotionType.Some? then row.emotionType.value else Feelings),
         row.createdAt)
  }

  /** The note `handleSaveNote` builds from the inserted row: a missing emotion falls back to
      the one the writer chose, a missing time to `now`. */
  function SavedNote(row: NoteRow, chosen: Emotion, now: int): (n: Note)
    ensures n.emotionType.Some? && n.createdAt.Some?
    ensures n.id == row.id && n.text == row.text && n.authorId == row.userId
  {
    Note(row.id, row.text, row.userId,
         Some(if row.emotionType.Some? then row.emotionType.value else chosen),
         Some(if row.createdAt.Some? then row.createdAt.value else now))
  }

  /** When the store returns the emotion and time it was given, the note added after a save
      is the very note a later load of the profile's notes produces. */
  lemma SavedNoteMatchesReload(row: NoteRow, chosen: Emotion, now: int)
    requires row.emotionType.Some? && row.createdAt.Some?
    ensures SavedNote(row, chosen, now) == MapNote(row)
  {
  }

  /** The insert `handleSaveNote` sends, echoed back by the store with an id and a time:
      the saved note keeps the emotion and the trimmed text that were written. */
  lemma SavedNoteKeepsWhatWasWritten(id: string, text: string, user: UserId, e: Emotion,
                                     createdAt: int, chosen: Emotion, now: int)
    ensures var n := SavedNote(NoteRow(id, Trim(text), user, Some(e), Some(createdAt)), chosen, now);
      n.emotionType == Some(e) && n.text == Trim(text) && n.createdAt == Some(createdAt) && n.authorId == user
  {
  }

  /** The note guest mode creates locally: id `guest-<now>`, author "guest". */
  function GuestNote(text: string, e: Emotion, now: nat): (n: Note)
    ensures n.authorId == "guest" && n.createdAt == Some(now as int) && n.emotionType == Some(e)
  {
    Note("guest-" + DecimalString(now), text, "guest", Some(e), Some(now))
  }

  // ---------------------------------------------------------------------------
  // Ordering

  /** The comparator of `sortNotesByDate`, as written: a note without a truthy `createdAt`
      (missing or 0) goes after one with it; otherwise the later time comes first. */
  function CompareNotes(a: Note, b: Note): int {
    var aTime := if a.createdAt.Some? then a.createdAt.value else 0;
    var bTime := if b.createdAt.Some? then b.createdAt.value else 0;
    if aTime == 0 && bTime == 0 then 0
    else if aTime == 0 then 1
    else if bTime == 0 then -1
    else bTime - aTime
  }

  /** What the comparator looks at: a truthy time, or nothing. */
  datatype SortKey = Timed(time: int) | Untimed

  function KeyOf(n: Note): SortKey {
    if n.createdAt.Some? && n.createdAt.value != 0 then Timed(n.createdAt.value) else Untimed
  }

  /** `a` may stand before `b`: timed before untimed, later time before earlier. */
  predicate KeyLe(a: SortKey, b: SortKey) {
    b.Untimed? || (a.Timed? && a.time >= b.time)
  }

  /** The comparator is exactly the order on keys, and it calls two notes equal exactly
      when their keys are equal. */
  lemma CompareIsKeyOrder(a: Note, b: Note)
    ensures CompareNotes(a, b) <= 0 <==> KeyLe(KeyOf(a), KeyOf(b))
    ensures CompareNotes(a, b) == 0 <==> KeyOf(a) == KeyOf(b)
  {
  }

  /** Every note may stand before every later one. */
  predicate Sorted(s: seq<Note>) {
    forall i, j :: 0 <= i < j < |s| ==> KeyLe(KeyOf(s[i]), KeyOf(s[j]))
  }

  /** The notes of `s` with key `k`, in their order in `s`. */
  function WithKey(s: seq<Note>, k: SortKey): (r: seq<Note>)
    ensures |r| <= |s|
  {
    if s == [] then [] else (if KeyOf(s[0]) == k then [s[0]] else []) + WithKey(s[1..], k)
  }

  /** One insertion step of a stable sort: `x` goes before the first note it may precede. */
  function Insert(x: Note, t: seq<Note>): (r: seq<Note>)
    ensures multiset(r) == multiset(t) + multiset{x}
  {
    if t == [] || CompareNotes(x, t[0]) <= 0 then [x] + t
    else
      assert t == [t[0]] + t[1..];
      [t[0]] + Insert(x, t[1..])
  }

  /** `sortNotesByDate`: a stable sort with `CompareNotes` that returns a new list. */
  function SortNotesByDate(s: seq<Note>): (r: seq<Note>)
    ensures multiset(r) == multiset(s)
    ensures |r| == |s|
  {
    if s == [] then []
    else
      assert s == [s[0]] + s[1..];
      Insert(s[0], SortNotesByDate(s[1..]))
  }

  /** In a sorted list the head may stand before every note of the tail. */
  lemma SortedHeadFirst(ns: seq<Note>, x: Note)
    requires Sorted(ns) && ns != [] && x in ns[1..]
    ensures KeyLe(KeyOf(ns[0]), KeyOf(x))
  {
    var m :| 0 <= m < |ns[1..]| && ns[1..][m] == x;
    assert ns[m + 1] == x;
  }

  /** A sorted list stays sorted with a note in front that may stand before all of it. */
  lemma SortedCons(h: Note, t: seq<Note>)
    requires Sorted(t)
    requires forall j :: 0 <= j < |t| ==> KeyLe(KeyOf(h), KeyOf(t[j]))
    ensures Sorted([h] + t)
  {
    var r := [h] + t;
    forall a, b | 0 <= a < b < |r| ensures KeyLe(KeyOf(r[a]), KeyOf(r[b])) {
      assert r[b] == t[b - 1];
      if a > 0 { assert r[a] == t[a - 1]; }
    }
  }

  lemma {:induction false} InsertSorted(x: Note, t: seq<Note>)
    requires Sorted(t)
    ensures Sorted(Insert(x, t))
  {
    if t == [] || CompareNotes(x, t[0]) <= 0 {
      CompareIsKeyOrder(x, if t == [] then x else t[0]);
      forall j | 0 <= j < |t| ensures KeyLe(KeyOf(x), KeyOf(t[j])) {
        if j > 0 { SortedHeadFirst(t, t[j]); }
      }
      SortedCons(x, t);
    } else {
      CompareIsKeyOrder(x, t[0]);
      var rest := Insert(x, t[1..]);
      assert Sorted(rest) by { InsertSorted(x, t[1..]); }
      forall j | 0 <= j < |rest| ensures KeyLe(KeyOf(t[0]), KeyOf(rest[j])) {
        assert rest[j] in multiset(rest);
        if rest[j] != x {
          assert rest[j] in multiset(t[1..]);
          SortedHeadFirst(t, rest[j]);
        }
      }
      SortedCons(t[0], rest);
    }
  }

  /** The result is ordered: timed notes first in non-increasing time, then every untimed one. */
  lemma {:induction false} SortNotesByDateSorted(s: seq<Note>)
    ensures Sorted(SortNotesByDate(s))
  {
    if s != [] {
      SortNotesByDateSorted(s[1..]);
      InsertSorted(s[0], SortNotesByDate(s[1..]));
    }
  }

  lemma WithKeyCons(h: Note, t: seq<Note>, k: SortKey)
    ensures WithKey([h] + t, k) == (if KeyOf(h) == k then [h] else []) + WithKey(t, k)
  {
    assert ([h] + t)[1..] == t;
  }

  lemma {:induction false} InsertStable(x: Note, t: seq<Note>, k: SortKey)
    ensures WithKey(Insert(x, t), k) == if KeyOf(x) == k then [x] + WithKey(t, k) else WithKey(t, k)
  {
    if t == [] || CompareNotes(x, t[0]) <= 0 {
      WithKeyCons(x, t, k);
    } else {
      var rest := Insert(x, t[1..]);
      var h := if KeyOf(t[0]) == k then [t[0]] else [];
      assert KeyOf(x) == k ==> h == [] by { CompareIsKeyOrder(x, t[0]); }
      assert WithKey(rest, k) == if KeyOf(x) == k then [x] + WithKey(t[1..], k) else WithKey(t[1..], k) by {
        InsertStable(x, t[1..], k);
      }
      assert WithKey(Insert(x, t), k) == h + WithKey(rest, k) by { WithKeyCons(t[0], rest, k); }
      assert WithKey(t, k) == h + WithKey(t[1..], k) by {
        assert t == [t[0]] + t[1..];
        WithKeyCons(t[0], t[1..], k);
      }
    }
  }

  /** Stability: the notes sharing a key keep their input order. */
  lemma {:induction false} SortNotesByDateStable(s: seq<Note>, k: SortKey)
    ensures WithKey(SortNotesByDate(s), k) == WithKey(s, k)
  {
    if s != [] {
      SortNotesByDateStable(s[1..], k);
      InsertStable(s[0], SortNotesByDate(s[1..]), k);
    }
  }

  /** Sorting an already sorted list returns it unchanged. */
  lemma {:induction false} SortNotesByDateOfSorted(s: seq<Note>)
    requires Sorted(s)
    ensures SortNotesByDate(s) == s
  {
    if s != [] {
      assert SortNotesByDate(s[1..]) == s[1..] by {
        assert Sorted(s[1..]);
        SortNotesByDateOfSorted(s[1..]);
      }
      assert Insert(s[0], s[1..]) == s by {
        if |s| > 1 {
          CompareIsKeyOrder(s[0], s[1]);
        }
        assert s == [s[0]] + s[1..];
      }
    }
  }

  /** Hence the sort is idempotent. */
  lemma SortNotesByDateIdempotent(s: seq<Note>)
    ensures SortNotesByDate(SortNotesByDate(s)) == SortNotesByDate(s)
  {
    SortNotesByDateSorted(s);
    SortNotesByDateOfSorted(SortNotesByDate(s));
  }

  /** A note strictly newer than every other (the usual case right after a save) is shown first. */
  lemma NewestNoteFirst(s: seq<Note>, x: Note)
    requires KeyOf(x).Timed?
    requires forall i :: 0 <= i < |s| ==> !KeyLe(KeyOf(s[i]), KeyOf(x))
    ensures SortNotesByDate(s + [x])[0] == x
  {
    var r := SortNotesByDate(s + [x]);
    SortNotesByDateSorted(s + [x]);
    assert x in multiset(s + [x]);
    assert x in multiset(r);
    var j :| 0 <= j < |r| && r[j] == x;
    assert r[0] in multiset(s + [x]);
  }

  // ---------------------------------------------------------------------------
  // Deleting

  /** `notes.filter((note) => note.id !== id)`. */
  function RemoveNote(ns: seq<Note>, id: string): (r: seq<Note>)
    ensures forall n :: n in r <==> n in ns && n.id != id
    ensures |r| <= |ns|
  {
    if ns == [] then []
    else if ns[0].id == id then RemoveNote(ns[1..], id)
    else [ns[0]] + RemoveNote(ns[1..], id)
  }

  lemma {:induction false} RemoveNoteKeepsSorted(ns: seq<Note>, id: string)
    requires Sorted(ns)
    ensures Sorted(RemoveNote(ns, id))
  {
    if ns != [] {
      assert Sorted(ns[1..]);
      RemoveNoteKeepsSorted(ns[1..], id);
      if ns[0].id != id {
        var rest := RemoveNote(ns[1..], id);
        forall j | 0 <= j < |rest| ensures KeyLe(KeyOf(ns[0]), KeyOf(rest[j])) {
          SortedHeadFirst(ns, rest[j]);
        }
        SortedCons(ns[0], rest);
      }
    }
  }

  /** Deleting from a sorted list and re-sorting, as `handleDeleteNote` does, is plain removal:
      every other note stays, in the same order. */
  lemma DeleteKeepsOrder(ns: seq<Note>, id: string)
    requires Sorted(ns)
    ensures SortNotesByDate(RemoveNote(ns, id)) == RemoveNote(ns, id)
  {
    RemoveNoteKeepsSorted(ns, id);
    SortNotesByDateOfSorted(RemoveNote(ns, id));
  }

  /** What the delete shows, whatever order the list had: the other notes, sorted by date, and
      in their own order when the list was sorted already. */
  lemma ShownAfterDelete(ns: seq<Note>, id: string)
    ensures var r := SortNotesByDate(RemoveNote(ns, id));
      && multiset(r) == multiset(RemoveNote(ns, id))
      && Sorted(r)
      && (Sorted(ns) ==> r == RemoveNote(ns, id))
      && (forall n :: n in r ==> n.id != id)
  {
    var r := SortNotesByDate(RemoveNote(ns, id));
    SortNotesByDateSorted(RemoveNote(ns, id));
    if Sorted(ns) {
      DeleteKeepsOrder(ns, id);
    }
    forall n | n in r ensures n.id != id {
      assert n in multiset(r);
    }
  }

  // ---------------------------------------------------------------------------
  // Labels

  /** `getNoteHeaderText`: a missing emotion reads like "feelings". */
  function NoteHeaderText(e: Option<Emotion>): string {
    match e
    case Some(Anger) => "messed up"
    case Some(Appreciation) => "lets go!!"
    case _ => "just saying"
  }

  /** `getNoteTagClasses`: a missing emotion is styled like "feelings". */
  function NoteTagClasses(e: Option<Emotion>): string {
    match e
    case Some(Anger) => "bg-red-100 text-red-700"
    case Some(Appreciation) => "bg-green-100 text-green-700"
    case _ => "bg-blue-100 text-blue-700"
  }

  /** Header and tag tell the three emotions apart and treat an absent emotion as "feelings". */
  lemma LabelsIdentifyEmotion(a: Emotion, b: Emotion)
    ensures NoteHeaderText(Some(a)) == NoteHeaderText(Some(b)) <==> a == b
    ensures NoteTagClasses(Some(a)) == NoteTagClasses(Some(b)) <==> a == b
    ensures NoteHeaderText(None) == NoteHeaderText(Some(Feelings))
    ensures NoteTagClasses(None) == NoteTagClasses(Some(Feelings))
  {
    assert "messed up" != "lets go!!" && "messed up" != "just saying" && "lets go!!" != "just saying" by {
      assert "messed up"[0] == 'm' && "lets go!!"[0] == 'l' && "just saying"[0] == 'j';
    }
    assert NoteTagClasses(Some(Anger))[3] == 'r';
    assert NoteTagClasses(Some(Appreciation))[3] == 'g';
    assert NoteTagClasses(Some(Feelings))[3] == 'b';
  }
}
