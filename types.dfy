/** Optional values: an absent field of a partial record, or an omitted argument. */
module Wrappers {
  datatype Option<+T> = None | Some(value: T) {
    /** The carried value, or `default` when absent. */
    function GetOr(default: T): T {
      match this
      case Some(v) => v
      case None => default
    }
  }
}

/** The note record shared by the store and the note component. */
module NoteTypes {

  /** The fixed palette a note may take. */
  datatype NoteColor = Yellow | Blue | Green | Pink | Purple

  /** A point on the board, in pixels. */
  datatype Position = Position(x: int, y: int)

  /** The on-screen dimensions of a note, in pixels. */
  datatype Size = Size(width: int, height: int)

  /** Notes are told apart by an opaque identifier. */
  type NoteId = string

  /**
   * One sticky note. Timestamps are clock values; `minimized` is read by the
   * note component although the record type in the source does not declare it.
   */
  datatype Note = Note(
    id: NoteId,
    content: string,
    position: Position,
    size: Size,
    color: NoteColor,
    minimized: bool,
    zIndex: int,
    createdAt: int,
    updatedAt: int)

  /** True when some note in `notes` carries identifier `id`. */
  predicate HasId(notes: seq<Note>, id: NoteId) {
    exists i :: 0 <= i < |notes| && notes[i].id == id
  }

  /** No two notes in `notes` share an identifier. */
  predicate UniqueIds(notes: seq<Note>) {
    forall i, j :: 0 <= i < j < |notes| ==> notes[i].id != notes[j].id
  }

  /** The identifiers of `notes`, in list order. */
  function Ids(notes: seq<Note>): seq<NoteId>
  {
    seq(|notes|, i requires 0 <= i < |notes| => notes[i].id)
  }
}
