/** The client side of the pattern: the demonstration program that drives an
    Editor and a History, and a value-level semantics of the statements it is
    made of, about which whole sequences of calls can be reasoned. */
module MementoDemo {
  import opened Memento

  /** One statement of the demonstration program:
      Show    prints the editor's text,
      Save    is history.addSnapshot(editor.createSnapshot()),
      SetText is editor.setText(t),
      Undo    is editor.restoreSnapshot(history.getLastSnapshot()). */
  datatype Command = Show | Save | SetText(t: string) | Undo

  /** The editor's text, the history's entries and the lines printed so far. */
  datatype State = State(text: string, entries: seq<Snapshot>, out: seq<string>)

  /** An editor just constructed with `initial`, an empty history, nothing printed. */
  function Start(initial: string): (s: State)
  {
    State(initial, [], [])
  }

  /** The effect of one statement; Undo on an empty history raises the
      empty-history error before the editor is touched. */
  function Step(s: State, c: Command): (r: Result<State>)
  {
    match c
    case Show => Ok(s.(out := s.out + [s.text]))
    case Save => Ok(s.(entries := s.entries + [Snapshot(s.text)]))
    case SetText(t) => Ok(s.(text := t))
    case Undo =>
      match Last(s.entries)
      case Err(e) => Err(e)
      case Ok(sn) => Ok(s.(text := sn.GetText()))
  }

  /** The effect of a sequence of statements; the first error ends the run,
      as the uncaught exception ends the program. */
  function Run(s: State, cmds: seq<Command>): (r: Result<State>)
    decreases |cmds|
  {
    if cmds == [] then Ok(s)
    else
      match Step(s, cmds[0])
      case Err(e) => Err(e)
      case Ok(s1) => Run(s1, cmds[1..])
  }

  /** Continues a possibly failed run with more statements. */
  function Then(prev: Result<State>, cmds: seq<Command>): (r: Result<State>)
  {
    match prev
    case Err(e) => Err(e)
    case Ok(s) => Run(s, cmds)
  }

  /** A statement that touches neither the history nor the error path. */
  predicate IsEdit(c: Command)
  {
    c.Show? || c.SetText?
  }

  /** Some Undo comes before the first Save. */
  predicate UndoBeforeSave(cmds: seq<Command>)
    decreases |cmds|
  {
    |cmds| > 0 && (cmds[0].Undo? || (!cmds[0].Save? && UndoBeforeSave(cmds[1..])))
  }

  /** The number of Save statements. */
  function SaveCount(cmds: seq<Command>): (n: nat)
    decreases |cmds|
  {
    if cmds == [] then 0 else (if cmds[0].Save? then 1 else 0) + SaveCount(cmds[1..])
  }

  /** The statements of the demonstration program, in order. */
  const MainScript: seq<Command> :=
    [Show, Save, SetText("Goodbye, world!"), Show, Undo, Show]

  /** Running two sequences one after the other is running their concatenation. */
  lemma {:induction false} RunConcat(s: State, a: seq<Command>, b: seq<Command>)
    ensures Run(s, a + b) == Then(Run(s, a), b)
    decreases |a|
  {
    if a == [] {
      assert a + b == b;
    } else {
      assert (a + b)[0] == a[0];
      assert (a + b)[1..] == a[1..] + b;
      match Step(s, a[0])
      case Err(e) =>
      case Ok(s1) => RunConcat(s1, a[1..], b);
    }
  }

  /** The history is append-only: a successful run keeps every earlier entry
      in place, adds exactly one entry per Save, and only adds printed lines. */
  lemma {:induction false} RunGrows(s: State, cmds: seq<Command>)
    ensures Run(s, cmds).Ok? ==>
              s.entries <= Run(s, cmds).value.entries &&
              |Run(s, cmds).value.entries| == |s.entries| + SaveCount(cmds) &&
              s.out <= Run(s, cmds).value.out
    decreases |cmds|
  {
    if cmds != [] {
      match Step(s, cmds[0])
      case Err(e) =>
      case Ok(s1) => RunGrows(s1, cmds[1..]);
    }
  }

  /** Once a snapshot has been stored, no sequence of statements can hit
      the empty-history error. */
  lemma {:induction false} NeverEmptyOnceSaved(s: State, cmds: seq<Command>)
    requires |s.entries| > 0
    ensures Run(s, cmds).Ok?
    decreases |cmds|
  {
    if cmds != [] {
      match Step(s, cmds[0])
      case Err(e) =>
      case Ok(s1) => NeverEmptyOnceSaved(s1, cmds[1..]);
    }
  }

  /** The empty-history error is the only way a run can fail. */
  lemma {:induction false} OnlyEmptyHistoryFails(s: State, cmds: seq<Command>)
    ensures Run(s, cmds).Err? ==> Run(s, cmds).error == EmptyHistory
    decreases |cmds|
  {
    if cmds != [] {
      match Step(s, cmds[0])
      case Err(e) =>
      case Ok(s1) => OnlyEmptyHistoryFails(s1, cmds[1..]);
    }
  }

  /** Starting with an empty history, a run fails exactly when an Undo comes
      before the first Save. */
  lemma {:induction false} FailsIffUndoBeforeSave(s: State, cmds: seq<Command>)
    requires s.entries == []
    ensures Run(s, cmds).Err? <==> UndoBeforeSave(cmds)
    decreases |cmds|
  {
    if cmds != [] {
      match cmds[0]
      case Undo =>
      case Save => NeverEmptyOnceSaved(Step(s, Save).value, cmds[1..]);
      case Show => FailsIffUndoBeforeSave(Step(s, Show).value, cmds[1..]);
      case SetText(t) => FailsIffUndoBeforeSave(Step(s, SetText(t)).value, cmds[1..]);
    }
  }

  /** Statements that only edit and print never fail and leave the history as it is. */
  lemma {:induction false} EditsKeepHistory(s: State, edits: seq<Command>)
    requires forall i | 0 <= i < |edits| :: IsEdit(edits[i])
    ensures Run(s, edits).Ok? && Run(s, edits).value.entries == s.entries
    decreases |edits|
  {
    if edits != [] {
      assert IsEdit(edits[0]);
      EditsKeepHistory(Step(s, edits[0]).value, edits[1..]);
    }
  }

  /** The capture/restore round trip: saving, then editing any number of
      times, then undoing brings back exactly the text that was saved and
      leaves the saved snapshot as the last history entry. The later edits
      do not reach the snapshot. */
  lemma {:induction false} UndoRestoresLastSave(s: State, edits: seq<Command>)
    requires forall i | 0 <= i < |edits| :: IsEdit(edits[i])
    ensures Run(s, [Save] + edits + [Undo]).Ok?
    ensures Run(s, [Save] + edits + [Undo]).value.text == s.text
    ensures Run(s, [Save] + edits + [Undo]).value.entries == s.entries + [Snapshot(s.text)]
  {
    var s1 := Step(s, Save).value;
    assert Run(s, [Save]) == Ok(s1);
    RunConcat(s, [Save], edits);
    RunConcat(s, [Save] + edits, [Undo]);
    EditsKeepHistory(s1, edits);
  }

  /** Last-in restore after any sequence of statements: an Undo appended to a
      run succeeds exactly when that run succeeded with a non-empty history,
      and then sets the text to the text of the history's last entry,
      leaving entries and printed lines as they were. */
  lemma {:induction false} UndoTakesLastEntry(s: State, cmds: seq<Command>)
    ensures Run(s, cmds + [Undo]).Ok? <==> Run(s, cmds).Ok? && |Run(s, cmds).value.entries| > 0
    ensures Run(s, cmds + [Undo]).Ok? ==>
              var before := Run(s, cmds).value;
              Run(s, cmds + [Undo]).value ==
                before.(text := before.entries[|before.entries| - 1].GetText())
  {
    RunConcat(s, cmds, [Undo]);
    assert [Undo][1..] == [];
  }

  /** Undoing twice in a row has the same effect as undoing once. */
  lemma UndoIdempotent(s: State)
    ensures Run(s, [Undo, Undo]) == Run(s, [Undo])
  {
  }

  /** The demonstration prints "Hello, world!", "Goodbye, world!" and
      "Hello, world!", and never hits the empty-history error. */
  lemma MainScriptOutput()
    ensures Run(Start("Hello, world!"), MainScript) ==
            Ok(State("Hello, world!", [Snapshot("Hello, world!")],
                     ["Hello, world!", "Goodbye, world!", "Hello, world!"]))
  {
    var s0 := Start("Hello, world!");
    var sn := Snapshot("Hello, world!");
    var s1 := State("Hello, world!", [], ["Hello, world!"]);
    var s2 := State("Hello, world!", [sn], ["Hello, world!"]);
    var s3 := State("Goodbye, world!", [sn], ["Hello, world!"]);
    var s4 := State("Goodbye, world!", [sn], ["Hello, world!", "Goodbye, world!"]);
    var s5 := State("Hello, world!", [sn], ["Hello, world!", "Goodbye, world!"]);
    var s6 := State("Hello, world!", [sn], ["Hello, world!", "Goodbye, world!", "Hello, world!"]);
    assert Step(s0, Show) == Ok(s1) by { assert [] + ["Hello, world!"] == ["Hello, world!"]; }
    assert Step(s1, Save) == Ok(s2) by { assert [] + [sn] == [sn]; }
    assert Step(s2, SetText("Goodbye, world!")) == Ok(s3);
    assert Step(s3, Show) == Ok(s4) by {
      var o := s3.out + [s3.text];
      assert |o| == 2 && o[0] == s4.out[0] && o[1] == s4.out[1];
      assert o == s4.out;
    }
    assert Step(s4, Undo) == Ok(s5);
    assert Step(s5, Show) == Ok(s6) by {
      var o := s5.out + [s5.text];
      assert |o| == 3 && o[0] == s6.out[0] && o[1] == s6.out[1] && o[2] == s6.out[2];
      assert o == s6.out;
    }
    var rest := MainScript;
    assert rest[1..] == [Save, SetText("Goodbye, world!"), Show, Undo, Show];
    assert rest[2..] == [SetText("Goodbye, world!"), Show, Undo, Show];
    assert rest[3..] == [Show, Undo, Show];
    assert rest[4..] == [Undo, Show];
    assert rest[5..] == [Show];
    assert rest[6..] == [];
  }

  /** Performs one statement on a real editor and history, given the lines
      printed so far; the new object state and printed lines are those that
      Step computes, and on the error the objects are left untouched. */
  method Execute(editor: Editor, history: History, out: seq<string>, c: Command)
    returns (r: Result<seq<string>>)
    modifies editor, history
    ensures Step(State(old(editor.text), old(history.entries), out), c) ==
            (if r.Ok? then Ok(State(editor.text, history.entries, r.value)) else Err(r.error))
    ensures r.Err? ==> editor.text == old(editor.text) && history.entries == old(history.entries)
  {
    match c
    case Show =>
      r := Ok(out + [editor.GetText()]);
    case Save =>
      history.AddSnapshot(editor.CreateSnapshot());
      r := Ok(out);
    case SetText(t) =>
      editor.SetText(t);
      r := Ok(out);
    case Undo =>
      var last := history.GetLastSnapshot();
      if last.Err? {
        r := Err(last.error);
      } else {
        editor.RestoreSnapshot(last.value);
        r := Ok(out);
      }
  }

  /** Performs a sequence of statements on a real editor and history,
      starting with nothing printed; the objects end in the state, and the
      printed lines are those, that Run computes, and the run fails exactly
      when Run does. */
  method ExecuteAll(editor: Editor, history: History, cmds: seq<Command>)
    returns (r: Result<seq<string>>)
    modifies editor, history
    ensures Run(State(old(editor.text), old(history.entries), []), cmds) ==
            (if r.Ok? then Ok(State(editor.text, history.entries, r.value)) else Err(r.error))
  {
    ghost var s0 := State(editor.text, history.entries, []);
    var out: seq<string> := [];
    var i := 0;
    while i < |cmds|
      invariant 0 <= i <= |cmds|
      invariant Run(s0, cmds[..i]) == Ok(State(editor.text, history.entries, out))
    {
      ghost var pre := State(editor.text, history.entries, out);
      var step := Execute(editor, history, out, cmds[i]);
      assert [cmds[i]][1..] == [];
      assert cmds[..i + 1] == cmds[..i] + [cmds[i]];
      RunConcat(s0, cmds[..i], [cmds[i]]);
      if step.Err? {
        assert cmds == cmds[..i + 1] + cmds[i + 1..];
        RunConcat(s0, cmds[..i + 1], cmds[i + 1..]);
        r := Err(step.error);
        return;
      }
      assert Run(pre, [cmds[i]]) == Ok(State(editor.text, history.entries, step.value));
      out := step.value;
      i := i + 1;
    }
    assert cmds[..i] == cmds;
    r := Ok(out);
  }

  /** The demonstration program, run statement by statement on a new editor
      and history; it returns the three lines it prints, and the retrieval
      it makes cannot fail. */
  method MainScenario() returns (lines: seq<string>)
    ensures lines == ["Hello, world!", "Goodbye, world!", "Hello, world!"]
  {
    var editor := new Editor("Hello, world!");
    var history := new History();
    var r := ExecuteAll(editor, history, MainScript);
    MainScriptOutput();
    lines := r.value;
  }

  /** An editor constructed without an argument holds the empty text. */
  method DefaultEditorIsEmpty() returns (t: string)
    ensures t == ""
  {
    var editor := new Editor();
    t := editor.GetText();
  }

  /** Capture, edit, restore on objects: the snapshot keeps the text it was
      taken from while the editor moves on, and restoring brings it back. */
  method CaptureEditRestore(s1: string, s2: string)
    returns (captured: string, edited: string, restored: string)
    ensures captured == s1 && edited == s2 && restored == s1
  {
    var editor := new Editor();
    editor.SetText(s1);
    var sn := editor.CreateSnapshot();
    editor.SetText(s2);
    captured, edited := sn.GetText(), editor.GetText();
    editor.RestoreSnapshot(sn);
    restored := editor.GetText();
  }

  /** Restoring does not check provenance: a snapshot of one editor can be
      restored into another. */
  method RestoreFromOtherEditor(s: string, t: string) returns (u: string)
    ensures u == s
  {
    var first := new Editor(s);
    var second := new Editor(t);
    second.RestoreSnapshot(first.CreateSnapshot());
    u := second.GetText();
  }

  /** The history hands back the most recently added snapshot, not the first. */
  method LastAddedIsReturned(a: Snapshot, b: Snapshot) returns (r: Result<Snapshot>)
    ensures r == Ok(b)
  {
    var history := new History();
    history.AddSnapshot(a);
    history.AddSnapshot(b);
    r := history.GetLastSnapshot();
  }

  /** A fresh history has nothing to hand back. */
  method EmptyHistoryFails() returns (r: Result<Snapshot>)
    ensures r == Err(LogicError("History is empty"))
  {
    var history := new History();
    r := history.GetLastSnapshot();
  }
}
