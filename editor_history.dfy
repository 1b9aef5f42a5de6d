/**
 * Immutability with copies: an editor state whose fields never change, a
 * `copyWith` that builds a new state from a partial update, and a history of
 * saved states with undo and redo.
 */
module EditorHistory {
  import opened Wrappers

  /** `CodeEditorState`: its three fields are readonly, so it is a value. */
  datatype EditorState = EditorState(content: string, cursorPosition: int, unsavedChanges: bool)

  /** The `Partial<CodeEditorState>` argument of `copyWith`; an omitted field is `None`. */
  datatype Patch = Patch(content: Option<string>, cursorPosition: Option<int>, unsavedChanges: Option<bool>)

  const NoChange: Patch := Patch(None, None, None)

  /** `a ?? b` for a field that is either supplied or left out. */
  function Supplied<T>(field: Option<T>, fallback: T): T {
    if field.Some? then field.value else fallback
  }

  /** `copyWith(patch)`: each field from the patch when supplied, else from `s`. */
  function CopyWith(s: EditorState, patch: Patch): EditorState {
    EditorState(Supplied(patch.content, s.content),
                Supplied(patch.cursorPosition, s.cursorPosition),
                Supplied(patch.unsavedChanges, s.unsavedChanges))
  }

  /** A supplied field is taken from the patch; an omitted one is kept from the receiver. */
  lemma CopyWithReplacesExactlySupplied(s: EditorState, patch: Patch)
    ensures patch.content.Some? ==> CopyWith(s, patch).content == patch.content.value
    ensures patch.content.None? ==> CopyWith(s, patch).content == s.content
    ensures patch.cursorPosition.Some? ==> CopyWith(s, patch).cursorPosition == patch.cursorPosition.value
    ensures patch.cursorPosition.None? ==> CopyWith(s, patch).cursorPosition == s.cursorPosition
    ensures patch.unsavedChanges.Some? ==> CopyWith(s, patch).unsavedChanges == patch.unsavedChanges.value
    ensures patch.unsavedChanges.None? ==> CopyWith(s, patch).unsavedChanges == s.unsavedChanges
  {
  }

  /** A copy with nothing supplied is field-wise equal to the receiver. */
  lemma CopyWithNothingIsEqual(s: EditorState)
    ensures CopyWith(s, NoChange) == s
  {
  }

  /** The second of two patches wins field by field. */
  function Then(first: Patch, second: Patch): Patch {
    Patch(if second.content.Some? then second.content else first.content,
          if second.cursorPosition.Some? then second.cursorPosition else first.cursorPosition,
          if second.unsavedChanges.Some? then second.unsavedChanges else first.unsavedChanges)
  }

  /** Copying twice is copying once with the merged patch; applying one patch twice changes nothing more. */
  lemma CopyWithComposes(s: EditorState, first: Patch, second: Patch)
    ensures CopyWith(CopyWith(s, first), second) == CopyWith(s, Then(first, second))
    ensures CopyWith(CopyWith(s, first), first) == CopyWith(s, first)
  {
  }

  /** The history's value: the saved states and the index of the current one. */
  datatype Timeline = Timeline(history: seq<EditorState>, currentIndex: int)

  /** The index points at a saved state, and is -1 exactly while nothing has been saved. */
  predicate WellFormed(t: Timeline) {
    -1 <= t.currentIndex < |t.history| && (t.currentIndex == -1 <==> t.history == [])
  }

  const EmptyTimeline: Timeline := Timeline([], -1)

  /** States after the current one, the ones `redo` can still reach. */
  function RedoDepth(t: Timeline): int {
    |t.history| - 1 - t.currentIndex
  }

  /** `save(state)`: the states after the current one are dropped, then `state` becomes the new last and current one. */
  function SaveOp(t: Timeline, state: EditorState): (r: Timeline)
    requires WellFormed(t)
    ensures WellFormed(r)
    ensures r.currentIndex == t.currentIndex + 1 && r.history[r.currentIndex] == state
    ensures r.history[..r.currentIndex] == t.history[..t.currentIndex + 1]
    ensures RedoDepth(r) == 0
  {
    var kept := if t.currentIndex < |t.history| - 1 then t.history[..t.currentIndex + 1] else t.history;
    assert kept[..|kept|] == kept;
    Timeline(kept + [state], t.currentIndex + 1)
  }

  /** What `undo` or `redo` leaves behind and what it returns (`None` for `null`). */
  datatype Step = Step(timeline: Timeline, returned: Option<EditorState>)

  /** `redo()`: moves one state forward when there is one and returns it, else returns nothing and moves nothing. */
  function RedoOp(t: Timeline): (r: Step)
    requires WellFormed(t)
    ensures WellFormed(r.timeline) && r.timeline.history == t.history
    ensures r.returned.Some? <==> RedoDepth(t) > 0
    ensures r.returned.Some? ==> r.timeline.currentIndex == t.currentIndex + 1
                                 && r.returned.value == t.history[t.currentIndex + 1]
    ensures r.returned.None? ==> r.timeline == t
  {
    if t.currentIndex < |t.history| - 1 then
      Step(Timeline(t.history, t.currentIndex + 1), Some(t.history[t.currentIndex + 1]))
    else Step(t, None)
  }

  /** `undo()`: moves one state back unless at the first one, and returns it; never moves before the first state. */
  function UndoOp(t: Timeline): (r: Step)
    requires WellFormed(t)
    ensures WellFormed(r.timeline) && r.timeline.history == t.history
    ensures r.returned.Some? <==> t.currentIndex > 0
    ensures r.returned.Some? ==> r.timeline.currentIndex == t.currentIndex - 1
                                 && r.returned.value == t.history[t.currentIndex - 1]
    ensures r.returned.None? ==> r.timeline == t
    ensures t.history != [] ==> r.timeline.currentIndex >= 0
  {
    if t.currentIndex > 0 then
      Step(Timeline(t.history, t.currentIndex - 1), Some(t.history[t.currentIndex - 1]))
    else Step(t, None)
  }

  /** A successful undo followed by a redo restores the timeline and returns the state that was current before the undo. */
  lemma UndoThenRedo(t: Timeline)
    requires WellFormed(t) && t.currentIndex > 0
    ensures RedoOp(UndoOp(t).timeline) == Step(t, Some(t.history[t.currentIndex]))
  {
  }

  /** A successful redo followed by an undo restores the timeline. */
  lemma RedoThenUndo(t: Timeline)
    requires WellFormed(t) && RedoDepth(t) > 0
    ensures UndoOp(RedoOp(t).timeline) == Step(t, Some(t.history[t.currentIndex]))
  {
  }

  /** Saving after an undo discards the undone states: the next redo returns nothing. */
  lemma SaveClearsRedo(t: Timeline, state: EditorState)
    requires WellFormed(t)
    ensures RedoOp(SaveOp(t, state)).returned == None
    ensures UndoOp(t).returned.Some? ==> RedoOp(SaveOp(UndoOp(t).timeline, state)).returned == None
  {
  }

  /** The operations a caller can apply to a history. */
  datatype Command = Save(state: EditorState) | Undo | Redo

  function Apply(t: Timeline, c: Command): (r: Timeline)
    requires WellFormed(t)
    ensures WellFormed(r)
  {
    match c
    case Save(state) => SaveOp(t, state)
    case Undo => UndoOp(t).timeline
    case Redo => RedoOp(t).timeline
  }

  function Run(t: Timeline, commands: seq<Command>): (r: Timeline)
    requires WellFormed(t)
    ensures WellFormed(r)
    decreases |commands|
  {
    if commands == [] then t else Run(Apply(t, commands[0]), commands[1..])
  }

  /**
   * Whatever is done to a new history, the index stays within it, and once
   * something has been saved there is always a current state.
   */
  lemma {:induction false} RunStaysWellFormed(t: Timeline, commands: seq<Command>)
    requires WellFormed(t)
    ensures t.history != [] ==> Run(t, commands).currentIndex >= 0
    ensures (exists i | 0 <= i < |commands| :: commands[i].Save?) ==> Run(t, commands).currentIndex >= 0
    decreases |commands|
  {
    if commands != [] {
      var next := Apply(t, commands[0]);
      RunStaysWellFormed(next, commands[1..]);
      if exists i | 0 <= i < |commands| :: commands[i].Save? {
        var i :| 0 <= i < |commands| && commands[i].Save?;
        if i > 0 {
          assert commands[1..][i - 1].Save?;
        } else {
          assert next.history != [];
        }
      }
    }
  }

  /**
   * `CodeEditorHistory`: the saved states and the current index, updated in
   * place by `save`, `undo` and `redo`.
   */
  class CodeEditorHistory {
    var history: seq<EditorState>
    var currentIndex: int

    ghost predicate Valid()
      reads this
    {
      WellFormed(Snapshot())
    }

    function Snapshot(): Timeline
      reads this
    {
      Timeline(history, currentIndex)
    }

    constructor ()
      ensures Valid() && Snapshot() == EmptyTimeline
    {
      history := [];
      currentIndex := -1;
    }

    method Save(state: EditorState)
      requires Valid()
      modifies this
      ensures Valid() && Snapshot() == SaveOp(old(Snapshot()), state)
    {
      if currentIndex < |history| - 1 {
        history := history[..currentIndex + 1];
      }
      history := history + [state];
      currentIndex := currentIndex + 1;
    }

    method Redo() returns (state: Option<EditorState>)
      requires Valid()
      modifies this
      ensures Valid() && Step(Snapshot(), state) == RedoOp(old(Snapshot()))
    {
      if currentIndex < |history| - 1 {
        currentIndex := currentIndex + 1;
        return Some(history[currentIndex]);
      }
      return None;
    }

    method Undo() returns (state: Option<EditorState>)
      requires Valid()
      modifies this
      ensures Valid() && Step(Snapshot(), state) == UndoOp(old(Snapshot()))
    {
      if currentIndex > 0 {
        currentIndex := currentIndex - 1;
        return Some(history[currentIndex]);
      }
      return None;
    }
  }

  /**
   * The editor session of the example: three saves, an undo that returns the
   * second state and a redo that returns the third.
   */
  method EditorSession() returns (afterUndo: EditorState, afterRedo: EditorState)
    ensures afterUndo == EditorState("console.log(\"Hello, world! Updated\");", 3, true)
    ensures afterRedo == EditorState("console.log(\"Hello, world! Updated\");", 5, true)
  {
    var history := new CodeEditorHistory();
    var editorState := EditorState("console.log(\"Hello, world!\");", 2, false);
    history.Save(editorState);
    editorState := CopyWith(editorState, Patch(Some("console.log(\"Hello, world! Updated\");"), Some(3), Some(true)));
    history.Save(editorState);
    editorState := CopyWith(editorState, Patch(None, Some(5), None));
    history.Save(editorState);
    var undone := history.Undo();
    afterUndo := undone.value;
    var redone := history.Redo();
    afterRedo := redone.value;
  }
}
