/**
 * The note store: one ordered list of notes and the five operations the board
 * calls on it. Each operation is a pure function on the list; the `Store`
 * class holds the list and replaces it with the function's result, then
 * persists it.
 */
module NotesContext {
  import opened Wrappers
  import opened NoteTypes

  /** Width and height given to every new note. */
  const DefaultWidth: int := 220
  const DefaultHeight: int := 220

  /**
   * A partial note: each supplied field replaces the note's own. The
   * identifier and the creation time are never part of an update.
   */
  datatype NoteUpdate = NoteUpdate(
    content: Option<string>,
    position: Option<Position>,
    size: Option<Size>,
    color: Option<NoteColor>,
    minimized: Option<bool>,
    zIndex: Option<int>)

  /** The update that supplies no field. */
  const NoChange: NoteUpdate := NoteUpdate(None, None, None, None, None, None)

  // ---------------------------------------------------------------------------
  // Stacking order

  /** The largest `zIndex` of a non-empty list. */
  function MaxZ(notes: seq<Note>): (r: int)
    requires |notes| > 0
    ensures forall i :: 0 <= i < |notes| ==> notes[i].zIndex <= r
    ensures exists i :: 0 <= i < |notes| && notes[i].zIndex == r
  {
    if |notes| == 1 then notes[0].zIndex
    else
      var rest := MaxZ(notes[1..]);
      assert forall i :: 1 <= i < |notes| ==> notes[i] == notes[1..][i - 1];
      if notes[0].zIndex >= rest then notes[0].zIndex else rest
  }

  /** The maximum `zIndex`, or 0 for an empty list. */
  function TopZ(notes: seq<Note>): (r: int)
    ensures notes == [] ==> r == 0
    ensures forall i :: 0 <= i < |notes| ==> notes[i].zIndex <= r
    ensures notes != [] ==> exists i :: 0 <= i < |notes| && notes[i].zIndex == r
  {
    if |notes| > 0 then MaxZ(notes) else 0
  }

  /** Every note is stacked strictly above the notes before it. */
  predicate StrictlyStacked(notes: seq<Note>) {
    forall i, j :: 0 <= i < j < |notes| ==> notes[i].zIndex < notes[j].zIndex
  }

  // ---------------------------------------------------------------------------
  // addNote

  /** The note `addNote` creates: default size, not minimised, above the rest. */
  function NewNote(notes: seq<Note>, id: NoteId, content: Option<string>, position: Position,
                   color: Option<NoteColor>, now: int): Note
  {
    Note(id, content.GetOr(""), position, Size(DefaultWidth, DefaultHeight),
         color.GetOr(Yellow), false, TopZ(notes) + 1, now, now)
  }

  /** The list after `addNote`. */
  function Add(notes: seq<Note>, id: NoteId, content: Option<string>, position: Position,
               color: Option<NoteColor>, now: int): seq<Note>
  {
    notes + [NewNote(notes, id, content, position, color, now)]
  }

  /** `addNote` appends one note built from its arguments and leaves the others in place. */
  lemma AddAppends(notes: seq<Note>, id: NoteId, content: Option<string>, position: Position,
                   color: Option<NoteColor>, now: int)
    ensures var r := Add(notes, id, content, position, color, now);
      && |r| == |notes| + 1
      && r[..|notes|] == notes
      && r[|notes|].id == id
      && r[|notes|].content == (if content.Some? then content.value else "")
      && r[|notes|].position == position
      && r[|notes|].size == Size(220, 220)
      && r[|notes|].color == (if color.Some? then color.value else Yellow)
      && !r[|notes|].minimized
      && r[|notes|].createdAt == r[|notes|].updatedAt == now
  {
  }

  /** The new note is stacked strictly above every existing note, at maximum + 1 (1 on an empty board). */
  lemma AddOnTop(notes: seq<Note>, id: NoteId, content: Option<string>, position: Position,
                 color: Option<NoteColor>, now: int)
    ensures var r := Add(notes, id, content, position, color, now);
      && (notes == [] ==> r[|notes|].zIndex == 1)
      && (notes != [] ==> exists i :: 0 <= i < |notes| && r[|notes|].zIndex == notes[i].zIndex + 1)
      && forall i :: 0 <= i < |notes| ==> r[i].zIndex < r[|notes|].zIndex
  {
    var r := Add(notes, id, content, position, color, now);
    assert r[|notes|].zIndex == TopZ(notes) + 1;
    assert forall i :: 0 <= i < |notes| ==> r[i] == notes[i];
  }

  /** A fresh identifier keeps the identifiers unique. */
  lemma AddKeepsIdsUnique(notes: seq<Note>, id: NoteId, content: Option<string>, position: Position,
                          color: Option<NoteColor>, now: int)
    requires UniqueIds(notes) && !HasId(notes, id)
    ensures UniqueIds(Add(notes, id, content, position, color, now))
  {
    var r := Add(notes, id, content, position, color, now);
    forall i, j | 0 <= i < j < |r| ensures r[i].id != r[j].id {
      assert r[i] == notes[i];
      if j < |notes| { assert r[j] == notes[j]; }
    }
  }

  /** Notes created one after another are stacked in creation order. */
  lemma AddKeepsStacked(notes: seq<Note>, id: NoteId, content: Option<string>, position: Position,
                        color: Option<NoteColor>, now: int)
    requires StrictlyStacked(notes)
    ensures StrictlyStacked(Add(notes, id, content, position, color, now))
  {
    var r := Add(notes, id, content, position, color, now);
    forall i, j | 0 <= i < j < |r| ensures r[i].zIndex < r[j].zIndex {
      assert r[i] == notes[i];
      if j < |notes| { assert r[j] == notes[j]; }
    }
  }

  // ---------------------------------------------------------------------------
  // Rewriting the notes that carry one identifier

  /** `notes` with `f` applied to every note whose identifier is `id`. */
  function MapMatching(notes: seq<Note>, id: NoteId, f: Note -> Note): seq<Note>
  {
    if notes == [] then []
    else [if notes[0].id == id then f(notes[0]) else notes[0]] + MapMatching(notes[1..], id, f)
  }

  /** Positionwise view: same length, matching notes rewritten, all others as they were. */
  lemma {:induction false} MapMatchingAt(notes: seq<Note>, id: NoteId, f: Note -> Note)
    ensures |MapMatching(notes, id, f)| == |notes|
    ensures forall k :: 0 <= k < |notes| ==>
      MapMatching(notes, id, f)[k] == if notes[k].id == id then f(notes[k]) else notes[k]
  {
    if notes != [] {
      MapMatchingAt(notes[1..], id, f);
      forall k | 1 <= k < |notes|
        ensures MapMatching(notes, id, f)[k] == MapMatching(notes[1..], id, f)[k - 1]
      {
      }
    }
  }

  /** With no matching note the list is returned as it was. */
  lemma MapMatchingAbsent(notes: seq<Note>, id: NoteId, f: Note -> Note)
    requires !HasId(notes, id)
    ensures MapMatching(notes, id, f) == notes
  {
    MapMatchingAt(notes, id, f);
  }

  // ---------------------------------------------------------------------------
  // updateNote

  /** Merges `u` into `n`: supplied fields replace, the rest are kept; the update time is refreshed. */
  function Apply(n: Note, u: NoteUpdate, now: int): (r: Note)
    ensures r.id == n.id && r.createdAt == n.createdAt && r.updatedAt == now
    ensures r.content == (if u.content.Some? then u.content.value else n.content)
    ensures r.position == (if u.position.Some? then u.position.value else n.position)
    ensures r.size == (if u.size.Some? then u.size.value else n.size)
    ensures r.color == (if u.color.Some? then u.color.value else n.color)
    ensures r.minimized == (if u.minimized.Some? then u.minimized.value else n.minimized)
    ensures r.zIndex == (if u.zIndex.Some? then u.zIndex.value else n.zIndex)
  {
    n.(content := u.content.GetOr(n.content),
       position := u.position.GetOr(n.position),
       size := u.size.GetOr(n.size),
       color := u.color.GetOr(n.color),
       minimized := u.minimized.GetOr(n.minimized),
       zIndex := u.zIndex.GetOr(n.zIndex),
       updatedAt := now)
  }

  /** The list after `updateNote(id, u)`. */
  function Update(notes: seq<Note>, id: NoteId, u: NoteUpdate, now: int): seq<Note>
  {
    MapMatching(notes, id, n => Apply(n, u, now))
  }

  /** Only the matching notes change, and each exactly by merging `u`; length and order are kept. */
  lemma UpdateAt(notes: seq<Note>, id: NoteId, u: NoteUpdate, now: int)
    ensures |Update(notes, id, u, now)| == |notes|
    ensures forall k :: 0 <= k < |notes| && notes[k].id != id ==> Update(notes, id, u, now)[k] == notes[k]
    ensures forall k :: 0 <= k < |notes| && notes[k].id == id ==> Update(notes, id, u, now)[k] == Apply(notes[k], u, now)
  {
    MapMatchingAt(notes, id, n => Apply(n, u, now));
  }

  /** An update that supplies nothing still refreshes the update time, and only that. */
  lemma ApplyNothing(n: Note, now: int)
    ensures Apply(n, NoChange, now) == n.(updatedAt := now)
  {
  }

  /** Updating an unknown identifier leaves the list unchanged. */
  lemma UpdateAbsent(notes: seq<Note>, id: NoteId, u: NoteUpdate, now: int)
    requires !HasId(notes, id)
    ensures Update(notes, id, u, now) == notes
  {
    MapMatchingAbsent(notes, id, n => Apply(n, u, now));
  }

  /** Updates never change identifiers, so they keep them unique. */
  lemma UpdateKeepsIds(notes: seq<Note>, id: NoteId, u: NoteUpdate, now: int)
    ensures Ids(Update(notes, id, u, now)) == Ids(notes)
    ensures UniqueIds(notes) ==> UniqueIds(Update(notes, id, u, now))
  {
    UpdateAt(notes, id, u, now);
  }

  // ---------------------------------------------------------------------------
  // deleteNote and deleteAllNotes

  /** The list after `deleteNote(id)`: every note with that identifier filtered out. */
  function Delete(notes: seq<Note>, id: NoteId): (r: seq<Note>)
    ensures |r| <= |notes|
  {
    if notes == [] then []
    else (if notes[0].id == id then [] else [notes[0]]) + Delete(notes[1..], id)
  }

  /** A note survives the delete exactly when it was present under another identifier. */
  lemma {:induction false} DeleteMembers(notes: seq<Note>, id: NoteId)
    ensures forall n :: n in Delete(notes, id) <==> n in notes && n.id != id
  {
    if notes != [] {
      DeleteMembers(notes[1..], id);
      assert notes == [notes[0]] + notes[1..];
    }
  }

  /** Filtering distributes over concatenation, which is what keeps the survivors in order. */
  lemma {:induction false} DeleteConcat(a: seq<Note>, b: seq<Note>, id: NoteId)
    ensures Delete(a + b, id) == Delete(a, id) + Delete(b, id)
  {
    if a == [] {
      assert a + b == b;
    } else {
      assert (a + b)[1..] == a[1..] + b;
      DeleteConcat(a[1..], b, id);
    }
  }

  /** Deleting an unknown identifier leaves the list unchanged. */
  lemma {:induction false} DeleteAbsent(notes: seq<Note>, id: NoteId)
    requires !HasId(notes, id)
    ensures Delete(notes, id) == notes
  {
    if notes != [] {
      assert !HasId(notes[1..], id) by {
        forall i | 0 <= i < |notes[1..]| ensures notes[1..][i].id != id {
          assert notes[1..][i] == notes[i + 1];
        }
      }
      DeleteAbsent(notes[1..], id);
    }
  }

  /** After a delete no note carries the identifier. */
  lemma DeleteLeavesNone(notes: seq<Note>, id: NoteId)
    ensures !HasId(Delete(notes, id), id)
  {
    var r := Delete(notes, id);
    DeleteMembers(notes, id);
    forall i | 0 <= i < |r| ensures r[i].id != id {
      assert r[i] in r;
    }
  }

  /** Deleting twice is the same as deleting once. */
  lemma DeleteIdempotent(notes: seq<Note>, id: NoteId)
    ensures Delete(Delete(notes, id), id) == Delete(notes, id)
  {
    DeleteLeavesNone(notes, id);
    DeleteAbsent(Delete(notes, id), id);
  }

  /** With unique identifiers, deleting the note at `k` removes exactly that element. */
  lemma DeleteUnique(notes: seq<Note>, id: NoteId, k: nat)
    requires UniqueIds(notes) && k < |notes| && notes[k].id == id
    ensures Delete(notes, id) == notes[..k] + notes[k + 1..]
  {
    var head, tail := notes[..k], notes[k + 1..];
    assert notes == (head + [notes[k]]) + tail;
    assert !HasId(head, id) by {
      forall i | 0 <= i < |head| ensures head[i].id != id {
        assert head[i] == notes[i];
      }
    }
    assert !HasId(tail, id) by {
      forall i | 0 <= i < |tail| ensures tail[i].id != id {
        assert tail[i] == notes[k + 1 + i];
      }
    }
    assert Delete([notes[k]], id) == [] by {
      assert [notes[k]][1..] == [];
    }
    calc {
      Delete(notes, id);
      { DeleteConcat(head + [notes[k]], tail, id); }
      Delete(head + [notes[k]], id) + Delete(tail, id);
      { DeleteConcat(head, [notes[k]], id); }
      Delete(head, id) + Delete([notes[k]], id) + Delete(tail, id);
      { DeleteAbsent(head, id); DeleteAbsent(tail, id); }
      head + [] + tail;
    }
    assert head + [] + tail == head + tail;
  }

  /** Filtering keeps unique identifiers unique. */
  lemma {:induction false} DeleteKeepsIdsUnique(notes: seq<Note>, id: NoteId)
    requires UniqueIds(notes)
    ensures UniqueIds(Delete(notes, id))
  {
    if notes != [] {
      var tail := notes[1..];
      assert UniqueIds(tail) by {
        forall i, j | 0 <= i < j < |tail| ensures tail[i].id != tail[j].id {
          assert tail[i] == notes[i + 1] && tail[j] == notes[j + 1];
        }
      }
      DeleteKeepsIdsUnique(tail, id);
      if notes[0].id != id {
        var r := Delete(notes, id);
        assert r == [notes[0]] + Delete(tail, id);
        DeleteMembers(tail, id);
        forall i, j | 0 <= i < j < |r| ensures r[i].id != r[j].id {
          if i == 0 {
            assert r[j] in Delete(tail, id);
            var m :| 0 <= m < |tail| && tail[m] == r[j];
            assert notes[m + 1] == r[j];
          } else {
            assert r[i] == Delete(tail, id)[i - 1] && r[j] == Delete(tail, id)[j - 1];
          }
        }
      }
    }
  }

  /** A delete followed by an update of the same identifier does nothing further. */
  lemma DeleteThenUpdate(notes: seq<Note>, id: NoteId, u: NoteUpdate, now: int)
    ensures Update(Delete(notes, id), id, u, now) == Delete(notes, id)
  {
    DeleteLeavesNone(notes, id);
    UpdateAbsent(Delete(notes, id), id, u, now);
  }

  /** After `deleteAllNotes` the next note starts the stacking order again at 1. */
  lemma DeleteAllThenAdd(id: NoteId, content: Option<string>, position: Position,
                         color: Option<NoteColor>, now: int)
    ensures |Add([], id, content, position, color, now)| == 1
    ensures Add([], id, content, position, color, now)[0].zIndex == 1
  {
  }

  // ---------------------------------------------------------------------------
  // bringToFront

  /**
   * The list after `bringToFront(id)`: the matching note goes to maximum + 1.
   * The source takes the maximum of an empty list as negative infinity, but
   * then has no note to rewrite; the guard gives the same empty result.
   */
  function Raise(notes: seq<Note>, id: NoteId, now: int): seq<Note>
  {
    if notes == [] then []
    else
      var z := MaxZ(notes) + 1;
      MapMatching(notes, id, (n: Note) => n.(zIndex := z, updatedAt := now))
  }

  /** Raising an unknown identifier, or raising on an empty board, leaves the list unchanged. */
  lemma RaiseAbsent(notes: seq<Note>, id: NoteId, now: int)
    requires !HasId(notes, id)
    ensures Raise(notes, id, now) == notes
  {
    if notes != [] {
      var z := MaxZ(notes) + 1;
      MapMatchingAbsent(notes, id, (n: Note) => n.(zIndex := z, updatedAt := now));
    }
  }

  /**
   * Positionwise view, for any list: every note with the identifier goes to
   * maximum + 1 with a fresh update time; every other note is unchanged.
   */
  lemma RaiseAt(notes: seq<Note>, id: NoteId, now: int)
    requires notes != []
    ensures |Raise(notes, id, now)| == |notes|
    ensures forall k :: 0 <= k < |notes| ==>
      Raise(notes, id, now)[k] == if notes[k].id == id then notes[k].(zIndex := MaxZ(notes) + 1, updatedAt := now) else notes[k]
  {
    var z := MaxZ(notes) + 1;
    MapMatchingAt(notes, id, (n: Note) => n.(zIndex := z, updatedAt := now));
  }

  /**
   * With unique identifiers, the raised note gets maximum + 1 and a fresh
   * update time, is strictly above every other note, and every other note is
   * unchanged. Repeated identifiers would all be raised to the same value.
   */
  lemma RaiseOnTop(notes: seq<Note>, id: NoteId, now: int, k: nat)
    requires UniqueIds(notes) && k < |notes| && notes[k].id == id
    ensures |Raise(notes, id, now)| == |notes|
    ensures Raise(notes, id, now)[k] == notes[k].(zIndex := MaxZ(notes) + 1, updatedAt := now)
    ensures forall j :: 0 <= j < |notes| && j != k ==> Raise(notes, id, now)[j] == notes[j]
    ensures forall j :: 0 <= j < |notes| && j != k ==>
      Raise(notes, id, now)[j].zIndex < Raise(notes, id, now)[k].zIndex
  {
    RaiseAt(notes, id, now);
  }

  /** Raising the front note again keeps it in front, one step higher. */
  lemma RaiseAgain(notes: seq<Note>, id: NoteId, t1: int, t2: int, k: nat)
    requires UniqueIds(notes) && k < |notes| && notes[k].id == id
    ensures var once := Raise(notes, id, t1);
      && |once| == |notes|
      && |Raise(once, id, t2)| == |notes|
      && Raise(once, id, t2)[k].zIndex == once[k].zIndex + 1
      && forall j :: 0 <= j < |notes| && j != k ==> Raise(once, id, t2)[j].zIndex < Raise(once, id, t2)[k].zIndex
  {
    var once := Raise(notes, id, t1);
    RaiseOnTop(notes, id, t1, k);
    assert UniqueIds(once) by {
      forall i, j | 0 <= i < j < |once| ensures once[i].id != once[j].id {
        assert once[i].id == notes[i].id && once[j].id == notes[j].id;
      }
    }
    assert MaxZ(once) == once[k].zIndex by {
      var m :| 0 <= m < |once| && once[m].zIndex == MaxZ(once);
      if m != k { assert once[m].zIndex < once[k].zIndex; }
    }
    RaiseOnTop(once, id, t2, k);
  }

  // ---------------------------------------------------------------------------
  // The store object

  /**
   * The provider's state: the current list and the snapshot last written to
   * storage. Every operation replaces the list and writes it through.
   */
  class Store {
    var notes: seq<Note>
    var persisted: seq<Note>

    /** The stored snapshot and the list agree after every operation. */
    predicate Valid()
      reads this
    {
      persisted == notes
    }

    /** Starts from the snapshot found in storage, or from an empty board. */
    constructor (saved: Option<seq<Note>>)
      ensures Valid()
      ensures notes == (if saved.Some? then saved.value else [])
    {
      notes := saved.GetOr([]);
      persisted := notes;
    }

    method AddNote(id: NoteId, content: Option<string>, position: Position, color: Option<NoteColor>, now: int)
      requires !HasId(notes, id)
      modifies this
      ensures Valid()
      ensures notes == Add(old(notes), id, content, position, color, now)
      ensures UniqueIds(old(notes)) ==> UniqueIds(notes)
    {
      if UniqueIds(notes) {
        AddKeepsIdsUnique(notes, id, content, position, color, now);
      }
      notes := Add(notes, id, content, position, color, now);
      persisted := notes;
    }

    method UpdateNote(id: NoteId, u: NoteUpdate, now: int)
      modifies this
      ensures Valid()
      ensures notes == Update(old(notes), id, u, now)
      ensures Ids(notes) == Ids(old(notes))
    {
      UpdateKeepsIds(notes, id, u, now);
      notes := Update(notes, id, u, now);
      persisted := notes;
    }

    method DeleteNote(id: NoteId)
      modifies this
      ensures Valid()
      ensures notes == Delete(old(notes), id)
      ensures !HasId(notes, id)
      ensures UniqueIds(old(notes)) ==> UniqueIds(notes)
    {
      DeleteLeavesNone(notes, id);
      if UniqueIds(notes) {
        DeleteKeepsIdsUnique(notes, id);
      }
      notes := Delete(notes, id);
      persisted := notes;
    }

    method DeleteAllNotes()
      modifies this
      ensures Valid()
      ensures notes == []
    {
      notes := [];
      persisted := notes;
    }

    method BringToFront(id: NoteId, now: int)
      modifies this
      ensures Valid()
      ensures notes == Raise(old(notes), id, now)
      ensures Ids(notes) == Ids(old(notes))
    {
      if notes != [] {
        var z := MaxZ(notes) + 1;
        MapMatchingAt(notes, id, (n: Note) => n.(zIndex := z, updatedAt := now));
      }
      notes := Raise(notes, id, now);
      persisted := notes;
    }
  }

  /**
   * Two notes on an empty board get stacking 1 and 2; raising the first puts
   * it at 3 above the second; deleting the second leaves only the first;
   * clearing empties the board.
   */
  method Scenario(a: NoteId, b: NoteId, t: int)
    requires a != b
  {
    var store := new Store(None);
    store.AddNote(a, Some(""), Position(10, 20), None, t);
    assert store.notes[0].zIndex == 1;
    store.AddNote(b, Some(""), Position(30, 40), None, t);
    assert store.notes[1].zIndex == 2;
    assert UniqueIds(store.notes);
    ghost var twoNotes := store.notes;
    store.BringToFront(a, t);
    RaiseOnTop(twoNotes, a, t, 0);
    assert store.notes[0].zIndex == 3 && store.notes[1].zIndex == 2;
    ghost var raised := store.notes;
    assert UniqueIds(raised);
    store.DeleteNote(b);
    DeleteUnique(raised, b, 1);
    assert store.notes == [raised[0]] && store.notes[0].id == a;
    store.DeleteAllNotes();
    assert store.notes == [];
  }
}
