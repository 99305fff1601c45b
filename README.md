# Sticky-note board: a Dafny model of the note store

This project models the core of a single-page sticky-note board. It covers three things:

- **The note store** (`NotesContext`). It holds one ordered list of notes and offers five operations: `addNote`, `updateNote`, `deleteNote`, `deleteAllNotes` and `bringToFront`.
  - Each operation is a pure function on the list: `Add`, `Update`, `Delete` and `Raise`, with the empty list standing for delete-all.
  - The `Store` class holds the list and a `persisted` copy, standing for the snapshot written to browser storage. Every method replaces the list with the function's result and writes it through.
- **The keyboard-shortcut matcher** (`KeyboardShortcut.Fires`). A key press fires a shortcut when the key is equal ignoring case and each of shift, alt, ctrl and meta is held exactly when the combination asks for it.
- **The sticky-note component's own logic** (`StickyNote`):
  - the single-field updates it sends to the store: content edit, drag, minimise toggle, colour pick and resize;
  - the resize gesture: the size is clamped at 150×120 and always computed from the pointer and size recorded when the gesture started;
  - the colour-picker flag, kept with the resize state in the `NoteView` class.

The note record is in `NoteTypes.Note`. It includes `minimized`: the record type in `src/types/index.ts` does not declare that field, but the component reads and writes it. The note `addNote` builds has no `minimized` key at all (src/context/NotesContext.tsx:44-53); every read of the flag treats that unset value as false (src/components/StickyNote.tsx:100, 122, 147, 164, 177), so the model gives a new note `minimized == false`.

Modelling choices:
- Coordinates, sizes and `zIndex` are `int`.
- Timestamps are integer clock values passed in as `now`.
- The uuid generator is replaced by an `id` argument. `Store.AddNote` requires that no existing note already has that id.
- A partial update (`NoteUpdate`) has optional content, position, size, colour, `minimized` and `zIndex`. The source's `Partial<Note>` type also admits `id`, `createdAt` and `updatedAt`. The model assumes callers never supply those, and no caller in the source does.
- `addNote` reads the clock twice, once for `createdAt` and once for `updatedAt` (src/context/NotesContext.tsx:50-51). The model uses one `now` for both, so the new note has `createdAt == updatedAt`.
- `bringToFront` takes `Math.max` of the stacking values with no guard for an empty list (src/context/NotesContext.tsx:81). On an empty list that gives negative infinity, but there is then no note to rewrite, so the result is the empty list. `Raise` guards the empty case explicitly and returns the same empty result.
- Loading: the code parses the saved snapshot with no error handling (src/context/NotesContext.tsx:22-29), so a corrupt snapshot throws. Parsing is left out (see below), and the `Store` constructor takes the decoded snapshot or `None`.
- The resize floor is 150 wide and 120 high (src/components/StickyNote.tsx:54-55).

Two client methods with no contracts replay typical sequences through the verified specifications:
- `NotesContext.Scenario`: two creations, a bring-to-front, a delete and a clear.
- `StickyNote.ResizeScenario`: one resize gesture.

## Model

| member | source | states |
|---|---|---|
| NotesContext.MaxZ | src/context/NotesContext.tsx:81 | the result is at least every note's `zIndex` and equal to some note's, on a non-empty list |
| NotesContext.TopZ | src/context/NotesContext.tsx:42 | 0 on an empty list; otherwise the maximum `zIndex`: an upper bound that some note reaches |
| NotesContext.AddAppends | src/context/NotesContext.tsx:37-55 | `addNote` grows the list by one and leaves the old notes unchanged and in order. The new note has the given id and position. Its content defaults to "" and its colour to yellow. Its size is 220×220, it is not minimised, and `createdAt == updatedAt == now` |
| NotesContext.AddOnTop | src/context/NotesContext.tsx:42-52 | the new note's `zIndex` is 1 on an empty board and otherwise some existing `zIndex` + 1. It is strictly above every existing note |
| NotesContext.AddKeepsIdsUnique | src/context/NotesContext.tsx:44-55 | with a fresh id, unique ids stay unique after `addNote` |
| NotesContext.AddKeepsStacked | src/context/NotesContext.tsx:42-55 | a list whose `zIndex` strictly increases in list order keeps that property after `addNote`, so successive creations are stacked in call order |
| NotesContext.MapMatchingAt | src/context/NotesContext.tsx:59-68 | rewriting the notes with a given id keeps the length. It changes exactly the matching positions, and leaves every other note as it was |
| NotesContext.MapMatchingAbsent | src/context/NotesContext.tsx:59-68 | rewriting with an id no note has returns the list unchanged |
| NotesContext.Apply | src/context/NotesContext.tsx:62-66 | merging a partial update replaces exactly the fields supplied and keeps every other field. It keeps `id` and `createdAt` and sets `updatedAt := now` |
| NotesContext.ApplyNothing | src/context/NotesContext.tsx:62-66 | an update that supplies no field changes only `updatedAt` |
| NotesContext.UpdateAt | src/context/NotesContext.tsx:58-70 | `updateNote` keeps length and order. Each note with the id becomes the merge of the update into it. Every other note is unchanged |
| NotesContext.UpdateAbsent | src/context/NotesContext.tsx:59-68 | `updateNote` with an unknown id leaves the list unchanged |
| NotesContext.UpdateKeepsIds | src/context/NotesContext.tsx:58-70 | `updateNote` leaves the id sequence unchanged and so keeps ids unique |
| NotesContext.Delete | src/context/NotesContext.tsx:72-74 | `deleteNote` never lengthens the list |
| NotesContext.DeleteMembers | src/context/NotesContext.tsx:73 | a note is in the result of `deleteNote(id)` iff it was in the list with a different id |
| NotesContext.DeleteConcat | src/context/NotesContext.tsx:73 | filtering a concatenation is the concatenation of the filtered parts, which is what keeps the survivors in their original relative order |
| NotesContext.DeleteAbsent | src/context/NotesContext.tsx:73 | `deleteNote` with an unknown id leaves the list unchanged |
| NotesContext.DeleteLeavesNone | src/context/NotesContext.tsx:73 | after `deleteNote(id)` no note has that id |
| NotesContext.DeleteIdempotent | src/context/NotesContext.tsx:72-74 | deleting twice equals deleting once |
| NotesContext.DeleteUnique | src/context/NotesContext.tsx:72-74 | with unique ids, deleting the id of the note at position k yields the list without exactly that element: `notes[..k] + notes[k+1..]` |
| NotesContext.DeleteKeepsIdsUnique | src/context/NotesContext.tsx:72-74 | `deleteNote` keeps unique ids unique |
| NotesContext.DeleteThenUpdate | src/context/NotesContext.tsx:58-74 | `updateNote(id, …)` after `deleteNote(id)` changes nothing |
| NotesContext.DeleteAllThenAdd | src/context/NotesContext.tsx:76-78 | after `deleteAllNotes` the list is empty, and the next `addNote` yields a one-note list whose note has `zIndex` 1 |
| NotesContext.RaiseAbsent | src/context/NotesContext.tsx:80-90 | `bringToFront` with an unknown id, including on an empty board, leaves the list unchanged |
| NotesContext.RaiseAt | src/context/NotesContext.tsx:80-90 | on any non-empty list, repeated ids included, `bringToFront` keeps the length. Every note with the id gets previous maximum + 1 and a fresh `updatedAt`, and every other note is unchanged |
| NotesContext.RaiseOnTop | src/context/NotesContext.tsx:80-90 | with unique ids, the target note gets previous maximum + 1 and a fresh `updatedAt`. It is strictly above every other note, and every other note is unchanged |
| NotesContext.RaiseAgain | src/context/NotesContext.tsx:80-90 | bringing the front note to the front again raises it by exactly one and keeps it strictly above every other note |
| NotesContext.Store.constructor | src/context/NotesContext.tsx:21-31 | the store starts from the saved snapshot, or empty when there is none. The snapshot and the list agree |
| NotesContext.Store.AddNote | src/context/NotesContext.tsx:37-56 | the new list is `Add` of the old one and is persisted. Unique ids stay unique |
| NotesContext.Store.UpdateNote | src/context/NotesContext.tsx:58-70 | the new list is `Update` of the old one and is persisted. The id sequence is unchanged |
| NotesContext.Store.DeleteNote | src/context/NotesContext.tsx:72-74 | the new list is `Delete` of the old one and is persisted. No note keeps the id, and unique ids stay unique |
| NotesContext.Store.DeleteAllNotes | src/context/NotesContext.tsx:76-78 | the list becomes empty and is persisted |
| NotesContext.Store.BringToFront | src/context/NotesContext.tsx:80-90 | the new list is `Raise` of the old one and is persisted. The id sequence is unchanged |
| KeyboardShortcut.LowerAt | src/utils/useKeyboardShortcut.ts:18 | lower-casing keeps the length and lower-cases each character in place |
| KeyboardShortcut.LowerEqualIff | src/utils/useKeyboardShortcut.ts:18 | the lowered keys are equal iff the keys agree character by character up to case |
| KeyboardShortcut.LowerOfUpper | src/utils/useKeyboardShortcut.ts:18 | upper-casing a key does not change its lowered form |
| KeyboardShortcut.LowerIdempotent | src/utils/useKeyboardShortcut.ts:18 | lowering twice is lowering once |
| KeyboardShortcut.FiresIff | src/utils/useKeyboardShortcut.ts:17-27 | the callback fires iff the keys agree up to case and each of the four modifiers is held exactly when the combination sets it to true |
| KeyboardShortcut.FiresIgnoresCase | src/utils/useKeyboardShortcut.ts:18 | upper- or lower-casing the event key or the combination key never changes whether the shortcut fires |
| KeyboardShortcut.OmittedIsFalse | src/utils/useKeyboardShortcut.ts:19-22 | omitting any one modifier from the combination behaves exactly like setting it to false |
| KeyboardShortcut.ModifiersExact | src/utils/useKeyboardShortcut.ts:19-22 | when the shortcut fires, each modifier is held iff the combination requires it |
| KeyboardShortcut.ShiftNExample | src/utils/useKeyboardShortcut.ts:17-27 | a Shift+N combination with key "n" fires on Shift+"N" and Shift+"n". It does not fire on Ctrl+Shift+"N" or on "N" without Shift |
| StickyNote.ContentEdit | src/components/StickyNote.tsx:26-28 | the text-change update changes only the content (and `updatedAt`) of any note |
| StickyNote.DragTo | src/components/StickyNote.tsx:31-34 | the drag update changes only the position (and `updatedAt`) of any note |
| StickyNote.ToggleMinimized | src/components/StickyNote.tsx:120-123 | the minimise update changes only `minimized`, to the negation of the note's flag (and `updatedAt`) |
| StickyNote.ColorPick | src/components/StickyNote.tsx:152-155 | the colour update changes only the colour (and `updatedAt`) |
| StickyNote.Resize | src/components/StickyNote.tsx:57 | the resize update changes only the size (and `updatedAt`) |
| StickyNote.ToggleTwice | src/components/StickyNote.tsx:122 | minimising keeps the content, and toggling twice restores the note apart from `updatedAt` |
| StickyNote.ResizedSize | src/components/StickyNote.tsx:51-55 | each dimension is at least its floor (150 wide, 120 high) and at least start + delta, and it equals one of the two. So it is their maximum |
| StickyNote.ResizeExactAboveFloor | src/components/StickyNote.tsx:54-55 | when start + delta is at or above the floor, exactly that sum is used |
| StickyNote.ResizeStoredAboveFloor | src/components/StickyNote.tsx:54-57 | a resize step applied to the store never leaves a stored dimension below 150×120 |
| StickyNote.NoteView.constructor | src/components/StickyNote.tsx:15-18 | the component starts idle, with zero start pointer and size, and the picker closed |
| StickyNote.NoteView.ResizeStart | src/components/StickyNote.tsx:37-43 | enters resizing. Records the pointer and the note's current size |
| StickyNote.NoteView.MouseMove | src/components/StickyNote.tsx:47-58 | sends nothing while idle and changes no state. While resizing, sends a size-only update computed from the recorded start and the current pointer alone |
| StickyNote.NoteView.MouseUp | src/components/StickyNote.tsx:60-62 | returns to idle and keeps the recorded start and the picker flag |
| StickyNote.NoteView.TogglePicker | src/components/StickyNote.tsx:108-111 | flips the colour-picker flag and leaves the resize state unchanged |
| StickyNote.NoteView.PickColor | src/components/StickyNote.tsx:152-155 | sends a colour-only update and closes the picker |

## Left out

- Loading from and saving to browser storage (src/context/NotesContext.tsx:21-35) is left out: JSON encoding and decoding and the re-creation of `Date` objects are not modelled. The store keeps an abstract `persisted` copy that equals the list after every operation. The constructor takes an already-decoded snapshot, so the model does not capture that a corrupt snapshot makes decoding throw.
- The uuid generator and the clock are replaced by an `id` argument and a `now` argument.
- React plumbing is left out: state hooks, effects, the context provider, and the error `useNotes` throws outside a provider (src/context/NotesContext.tsx:99-104).
- Registering and removing event listeners is left out (src/utils/useKeyboardShortcut.ts:30-35, src/components/StickyNote.tsx:64-72). So are `preventDefault`/`stopPropagation` and the callback itself; `Fires` says whether the callback would be called.
- React update batching is left out. `addNote` and `bringToFront` read the rendered `notes` rather than the pending list (src/context/NotesContext.tsx:42, 81). The model applies operations one at a time, where the two are the same.
- The board's own Shift+N handler (src/components/NoteBoard.tsx:10-20) does not go through the shortcut hook. It compares `e.key === 'N'` case-sensitively and ignores ctrl, alt and meta, so it does fire on Ctrl+Shift+N. The board is not part of this model; `KeyboardShortcut.ShiftNExample` describes the hook's matcher only.
- Case mapping is modelled for ASCII letters only. JavaScript's `toLowerCase` also maps non-ASCII letters.
- Numbers are unbounded integers; the source's floating-point coordinates and stacking values are not modelled.
- Rendering is left out: JSX, styles, the 40-pixel height of a minimised note, and hiding the picker and resize handle while minimised. Clicking a note calls `bringToFront`, which the store models.
- The drag libraries (react-draggable in src/components/StickyNote.tsx:86-94, and the drag-end handler in src/App.tsx:9-21) are library wiring. Only the position update they send is modelled (`StickyNote.DragTo`).
- The header, board and empty-board components (dark mode, random placement, DOM hit-testing, layout arithmetic) are not part of this model.
- NotesContext.Delete: its own contract states only that the list does not grow. What it removes and what it keeps are in `DeleteMembers`, `DeleteConcat` and `DeleteUnique`.
