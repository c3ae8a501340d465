/** The Memento pattern: an originator (Editor) whose text can be captured
    into immutable mementos (Snapshot) and later restored from them, and a
    caretaker (History) that keeps an append-only list of mementos. */
module Memento {

  /** The memento: an immutable copy of an editor's text. Being a datatype
      value, it shares nothing with the editor that produced it. */
  datatype Snapshot = Snapshot(text: string) {

    /** The read accessor, the only operation a snapshot offers: it gives
        back exactly the text the snapshot was built from. */
    function GetText(): (r: string)
      ensures Snapshot(r) == this
    {
      text
    }
  }

  /** The one kind of failure in the system: a logic error with a message. */
  datatype Error = LogicError(message: string)

  /** The error raised when the last snapshot of an empty history is asked for. */
  const EmptyHistory: Error := LogicError("History is empty")

  datatype Result<T> = Ok(value: T) | Err(error: Error)

  /** The most recent entry of a snapshot list, or the empty-history error. */
  function Last(entries: seq<Snapshot>): (r: Result<Snapshot>)
  {
    if |entries| == 0 then Err(EmptyHistory) else Ok(entries[|entries| - 1])
  }

  /** The originator: one piece of mutable text. */
  class Editor {
    var text: string

    constructor (initial: string := "")
      ensures text == initial
    {
      text := initial;
    }

    /** Replaces the text unconditionally. */
    method SetText(t: string)
      modifies this
      ensures text == t
    {
      text := t;
    }

    /** The current text; it is exactly what a snapshot taken now would hold. */
    function GetText(): (r: string)
      reads this
      ensures Snapshot(r) == CreateSnapshot()
    {
      text
    }

    /** A fresh memento of the current text. Reading only, it leaves the
        editor as it is. */
    function CreateSnapshot(): (sn: Snapshot)
      reads this
      ensures sn.GetText() == text
    {
      Snapshot(text)
    }

    /** Adopts the text of any snapshot, whichever editor produced it; a
        snapshot taken right after restoring equals the one restored from. */
    method RestoreSnapshot(sn: Snapshot)
      modifies this
      ensures text == sn.GetText()
      ensures CreateSnapshot() == sn
    {
      text := sn.GetText();
    }
  }

  /** The caretaker: an append-only list of snapshots, oldest first. */
  class History {
    var entries: seq<Snapshot>

    constructor ()
      ensures entries == []
    {
      entries := [];
    }

    /** Appends a snapshot at the end; earlier entries keep their values and order. */
    method AddSnapshot(sn: Snapshot)
      modifies this
      ensures entries == old(entries) + [sn]
      ensures |entries| == |old(entries)| + 1
    {
      entries := entries + [sn];
    }

    /** The most recently added snapshot, or the "History is empty" error
        when nothing was ever added. Reading only, it leaves the history as it is. */
    function GetLastSnapshot(): (r: Result<Snapshot>)
      reads this
      ensures r.Ok? <==> |entries| > 0
      ensures r.Ok? ==> r.value == entries[|entries| - 1]
      ensures r.Err? ==> r.error == EmptyHistory
    {
      Last(entries)
    }
  }
}
