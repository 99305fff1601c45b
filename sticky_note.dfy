/**
 * The sticky-note component's own logic: the updates it hands to the store
 * (content edit, drag, minimise toggle, colour pick, resize) and its local
 * gesture state (resizing or idle, the pointer and size recorded when a resize
 * starts, and whether the colour picker is open).
 */
module StickyNote {
  import opened Wrappers
  import opened NoteTypes
  import opened NotesContext

  /** The smallest note a resize can produce. */
  const MinWidth: int := 150
  const MinHeight: int := 120

  function Max(a: int, b: int): int {
    if a >= b then a else b
  }

  // ---------------------------------------------------------------------------
  // Single-field updates

  /** Editing the text: an update that supplies only the content. */
  function ContentEdit(text: string): (u: NoteUpdate)
    ensures forall n: Note, now: int :: Apply(n, u, now) == n.(content := text, updatedAt := now)
  {
    NoChange.(content := Some(text))
  }

  /** Dragging to `(x, y)`: an update that supplies only the position. */
  function DragTo(x: int, y: int): (u: NoteUpdate)
    ensures forall n: Note, now: int :: Apply(n, u, now) == n.(position := Position(x, y), updatedAt := now)
  {
    NoChange.(position := Some(Position(x, y)))
  }

  /** The minimise button: an update that supplies only the flipped `minimized` flag. */
  function ToggleMinimized(note: Note): (u: NoteUpdate)
    ensures forall n: Note, now: int :: Apply(n, u, now) == n.(minimized := !note.minimized, updatedAt := now)
  {
    NoChange.(minimized := Some(!note.minimized))
  }

  /** Picking a swatch: an update that supplies only the colour. */
  function ColorPick(c: NoteColor): (u: NoteUpdate)
    ensures forall n: Note, now: int :: Apply(n, u, now) == n.(color := c, updatedAt := now)
  {
    NoChange.(color := Some(c))
  }

  /** A resize step: an update that supplies only the size. */
  function Resize(s: Size): (u: NoteUpdate)
    ensures forall n: Note, now: int :: Apply(n, u, now) == n.(size := s, updatedAt := now)
  {
    NoChange.(size := Some(s))
  }

  /** Minimising keeps the content, and a second toggle restores the note but for its update time. */
  lemma ToggleTwice(note: Note, t1: int, t2: int)
    ensures Apply(note, ToggleMinimized(note), t1).content == note.content
    ensures Apply(note, ToggleMinimized(note), t1).minimized == !note.minimized
    ensures var once := Apply(note, ToggleMinimized(note), t1);
      Apply(once, ToggleMinimized(once), t2) == note.(updatedAt := t2)
  {
  }

  // ---------------------------------------------------------------------------
  // Resize arithmetic

  /**
   * The size for a pointer displacement `(dx, dy)` from where the resize
   * started: the recorded start size plus the displacement, floored at
   * 150 by 120.
   */
  function ResizedSize(start: Size, dx: int, dy: int): (r: Size)
    ensures r.width >= MinWidth && r.width >= start.width + dx
    ensures r.width == MinWidth || r.width == start.width + dx
    ensures r.height >= MinHeight && r.height >= start.height + dy
    ensures r.height == MinHeight || r.height == start.height + dy
  {
    Size(Max(MinWidth, start.width + dx), Max(MinHeight, start.height + dy))
  }

  /** A displacement that keeps the note at or above the floor is applied exactly. */
  lemma ResizeExactAboveFloor(start: Size, dx: int, dy: int)
    requires start.width + dx >= MinWidth && start.height + dy >= MinHeight
    ensures ResizedSize(start, dx, dy) == Size(start.width + dx, start.height + dy)
  {
  }

  /** A resize step stored in the list never leaves a dimension below the floor. */
  lemma ResizeStoredAboveFloor(notes: seq<Note>, id: NoteId, start: Size, dx: int, dy: int, now: int, k: nat)
    requires k < |notes| && notes[k].id == id
    ensures var r := Update(notes, id, Resize(ResizedSize(start, dx, dy)), now);
      |r| == |notes| && r[k].size.width >= MinWidth && r[k].size.height >= MinHeight
  {
    UpdateAt(notes, id, Resize(ResizedSize(start, dx, dy)), now);
  }

  // ---------------------------------------------------------------------------
  // Component state

  /** The component's local state for one rendered note. */
  class NoteView {
    var resizing: bool
    var startPos: Position
    var startSize: Size
    var showColorPicker: bool

    /** Idle, with the zero pointer and size the component starts from, picker closed. */
    constructor ()
      ensures !resizing && startPos == Position(0, 0) && startSize == Size(0, 0) && !showColorPicker
    {
      resizing := false;
      startPos := Position(0, 0);
      startSize := Size(0, 0);
      showColorPicker := false;
    }

    /** Pressing the resize handle: enter resizing, record the pointer and the note's current size. */
    method ResizeStart(clientX: int, clientY: int, note: Note)
      modifies this
      ensures resizing
      ensures startPos == Position(clientX, clientY) && startSize == note.size
      ensures showColorPicker == old(showColorPicker)
    {
      resizing := true;
      startPos := Position(clientX, clientY);
      startSize := note.size;
    }

    /**
     * A pointer move: while idle nothing is issued; while resizing, an update
     * of the size alone, computed from the recorded start and the current
     * pointer only.
     */
    method MouseMove(clientX: int, clientY: int) returns (u: Option<NoteUpdate>)
      ensures !resizing ==> u == None
      ensures resizing ==> u == Some(Resize(ResizedSize(startSize, clientX - startPos.x, clientY - startPos.y)))
    {
      if !resizing {
        return None;
      }
      var dx := clientX - startPos.x;
      var dy := clientY - startPos.y;
      var newWidth := Max(MinWidth, startSize.width + dx);
      var newHeight := Max(MinHeight, startSize.height + dy);
      u := Some(Resize(Size(newWidth, newHeight)));
    }

    /** Releasing the pointer returns to idle; the recorded start is kept. */
    method MouseUp()
      modifies this
      ensures !resizing
      ensures startPos == old(startPos) && startSize == old(startSize)
      ensures showColorPicker == old(showColorPicker)
    {
      resizing := false;
    }

    /** The palette button opens or closes the colour picker. */
    method TogglePicker()
      modifies this
      ensures showColorPicker == !old(showColorPicker)
      ensures resizing == old(resizing) && startPos == old(startPos) && startSize == old(startSize)
    {
      showColorPicker := !showColorPicker;
    }

    /** Choosing a swatch issues a colour-only update and closes the picker. */
    method PickColor(c: NoteColor) returns (u: NoteUpdate)
      modifies this
      ensures u == ColorPick(c)
      ensures !showColorPicker
      ensures resizing == old(resizing) && startPos == old(startPos) && startSize == old(startSize)
    {
      u := ColorPick(c);
      showColorPicker := false;
    }
  }

  /**
   * A resize gesture on a 220 by 220 note: the sizes follow the pointer from
   * the recorded start, clamp at the floor, return to the start size when the
   * pointer does, and nothing is issued once the pointer is released.
   */
  method ResizeScenario(note: Note)
    requires note.size == Size(220, 220)
  {
    var view := new NoteView();
    var idle := view.MouseMove(500, 500);
    assert idle == None;
    view.ResizeStart(100, 100, note);
    var grow := view.MouseMove(130, 110);
    assert grow == Some(Resize(Size(250, 230)));
    var floor := view.MouseMove(0, 0);
    assert floor == Some(Resize(Size(150, 120)));
    var back := view.MouseMove(100, 100);
    assert back == Some(Resize(Size(220, 220)));
    view.MouseUp();
    var after := view.MouseMove(130, 110);
    assert after == None;
  }
}
