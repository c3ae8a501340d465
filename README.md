# Memento pattern: editor, snapshot and history

This project models a small C++ illustration of the Memento design pattern
(`memento.cpp`) and proves its behaviour in Dafny.

- `Editor`, the originator, holds one mutable text. It has a getter and a setter.
  `createSnapshot` copies the text into a snapshot, and `restoreSnapshot` overwrites
  the text from any snapshot.
- `Editor::Snapshot`, the memento, is an immutable copy of a text with one read accessor.
- `History`, the caretaker, is an append-only vector of snapshots.
  `addSnapshot` appends to it. `getLastSnapshot` returns the last entry, or throws
  `logic_error("History is empty")` when the vector is empty.
- `main` runs a fixed script: print, save, edit, print, restore the last snapshot, print.

Module `Memento` (`memento.dfy`) holds the snapshot datatype and the two classes.
`Editor` and `History` are classes because the source overwrites their fields in place.
The throw becomes an explicit `Result` whose error is `LogicError("History is empty")`.

Module `MementoDemo` (`demo.dfy`) holds the client side.
- A value-level semantics covers the four kinds of statement `main` is built from.
  Printing is `Show`, line 72 is `Save`, line 75 is `SetText` and line 80 is `Undo`.
  `Step` and `Run` execute them over a state of text, history entries and printed
  lines; a run stops at the first error, as the uncaught exception stops the program.
- `Execute` performs one statement on real `Editor` and `History` objects, and
  `ExecuteAll` performs a whole sequence of them with a loop over `Execute`.
  Both are proved to produce exactly the state that `Step` and `Run` compute, which
  ties the classes to the semantics.
- The induction lemmas about `Run` state the pattern's promises for every sequence
  of the four statements over one editor and one history: append-only history,
  last-in restore, and exactly when the error occurs. Through `ExecuteAll` they hold
  of the objects too.
- `MainScenario` is `main`: it runs the demonstration's statements through
  `ExecuteAll` on a new editor and history, and gets its printed lines from
  `MainScriptOutput`.

## Model

| member | source | states |
|---|---|---|
| `Memento.Snapshot.GetText` | memento.cpp:24-26 | the accessor returns the text the snapshot was built from; a snapshot is determined by its text |
| `Memento.Editor.constructor` | memento.cpp:9 | a new editor holds the given initial text, `""` when none is given |
| `Memento.Editor.SetText` | memento.cpp:11-13 | the text becomes the argument, unconditionally |
| `Memento.Editor.GetText` | memento.cpp:15-17 | the text read is exactly what a snapshot taken at that moment would hold |
| `Memento.Editor.CreateSnapshot` | memento.cpp:33-35 | the new snapshot's text equals the editor's current text; the editor is only read |
| `Memento.Editor.RestoreSnapshot` | memento.cpp:38-40 | the text becomes the snapshot's text, whatever editor made the snapshot; a snapshot taken right after equals the restored one |
| `Memento.History.constructor` | memento.cpp:62 | a new history has no entries |
| `Memento.History.AddSnapshot` | memento.cpp:50-52 | the entries become the old entries followed by the snapshot; the length grows by exactly one |
| `Memento.History.GetLastSnapshot` | memento.cpp:55-59 | succeeds exactly when the history is non-empty, then with the last entry; otherwise fails with "History is empty"; the history is only read |
| `MementoDemo.RunConcat` | memento.cpp:65-83 | running one statement list and then another is running their concatenation, and an error in the first stops the rest |
| `MementoDemo.RunGrows` | memento.cpp:50-52 | over any successful run the old entries stay a prefix of the history, one entry is added per save, and printed lines are only appended |
| `MementoDemo.NeverEmptyOnceSaved` | memento.cpp:55-59 | once the history holds a snapshot, no later sequence of statements can hit the empty-history error |
| `MementoDemo.OnlyEmptyHistoryFails` | memento.cpp:56-57 | every failing run fails with the "History is empty" logic error |
| `MementoDemo.FailsIffUndoBeforeSave` | memento.cpp:55-59 | from an empty history, a run fails if and only if a restore comes before the first save |
| `MementoDemo.EditsKeepHistory` | memento.cpp:11-17 | any number of set-text and print statements never fail and leave the history unchanged |
| `MementoDemo.UndoRestoresLastSave` | memento.cpp:33-40 | saving, then setting and printing any number of times, then restoring the last snapshot gives back the saved text; later edits do not reach the snapshot |
| `MementoDemo.UndoTakesLastEntry` | memento.cpp:38-40 | after any sequence of statements, a following restore succeeds exactly when that sequence succeeded with a non-empty history, and then sets the text to the last entry's text and changes nothing else |
| `MementoDemo.UndoIdempotent` | memento.cpp:38-40 | restoring the last snapshot twice has the same effect as restoring it once |
| `MementoDemo.MainScriptOutput` | memento.cpp:65-83 | the demonstration prints "Hello, world!", "Goodbye, world!", "Hello, world!" and does not fail |
| `MementoDemo.Execute` | memento.cpp:65-83 | one statement on real editor and history objects yields the object state and printed lines that `Step` computes; on the error, neither object changes |
| `MementoDemo.ExecuteAll` | memento.cpp:65-83 | a sequence of statements on real editor and history objects yields the object state and printed lines that `Run` computes, and fails exactly when `Run` fails |
| `MementoDemo.MainScenario` | memento.cpp:65-83 | the demonstration, run on a new editor and history, prints the three lines "Hello, world!", "Goodbye, world!", "Hello, world!"; its one retrieval cannot fail |
| `MementoDemo.DefaultEditorIsEmpty` | memento.cpp:9 | an editor constructed without an argument reads back the empty text |
| `MementoDemo.CaptureEditRestore` | memento.cpp:33-40 | after set(s1), capture, set(s2): the snapshot still reads s1, the editor reads s2, and restoring makes the editor read s1 |
| `MementoDemo.RestoreFromOtherEditor` | memento.cpp:38-40 | a snapshot made by one editor restores into another editor, which then reads that snapshot's text |
| `MementoDemo.LastAddedIsReturned` | memento.cpp:50-59 | after adding a and then b, retrieval returns b, the later one |
| `MementoDemo.EmptyHistoryFails` | memento.cpp:55-57 | retrieval from a new history fails with the "History is empty" logic error |

## Left out

- Writing to standard output (memento.cpp:69, 77, 82): the printed texts are returned as a sequence of strings instead.
- C++ exception propagation (memento.cpp:57): the throw is an `Err` result. The program's abnormal termination is modelled only as a run that stops at that error.
- Run: a failed run returns only the error, not the lines printed before it. The C++ program would already have written and flushed those lines (`endl` at memento.cpp:69) before the throw ends it. `ExecuteAll` inherits this and also says nothing about the objects' state after an error.
- Memory management inside `std::string` and `std::vector`: they are Dafny `string` and `seq` values. The copy a snapshot makes is value semantics of a datatype.
- C++ access control (`private` members): Dafny fields are visible to the proof. The snapshot's immutability comes from its being a datatype value.
- The explanatory comment blocks at memento.cpp:85-121 are prose and are not modelled.
