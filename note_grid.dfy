/**
 * The sequencer's note grid and its store reducer: a flat dictionary from
 * keys "<step>:<note>" to note records, a pause flag, and the two actions
 * that change them.
 */
module NoteGrid {
  import opened Wrappers
  import opened Decimal
  import opened NoteKey

  const Steps: nat := 64
  const NotesPerStep: nat := 13

  datatype Note = Note(stepPos: nat, notePos: nat, isActive: bool)

  datatype State = State(isPaused: bool, notes: map<string, Note>)

  /** `Other` is every action type this reducer has no case for. */
  datatype Action = PlayPause | ToggleNote(id: string) | Other

  /** Toggling an id that is not a key reads `.isActive` of `undefined`, which throws. */
  datatype Error = UndefinedNote(id: string)

  /** The dictionary key of the note at (`step`, `note`): `${step}:${note}`. */
  function Key(step: nat, note: nat): (k: string)
    ensures 3 <= |k| && |NatToString(step)| < |k| - 1 && k[|NatToString(step)|] == ':'
  {
    NatToString(step) + ":" + NatToString(note)
  }

  // ---------------------------------------------------------------------------
  // Keys and the note-key pattern

  /** A key is two runs of digits around its only ':'. */
  lemma KeyShape(step: nat, note: nat)
    ensures var k, d := Key(step, note), |NatToString(step)|;
      && 0 < d < |k| - 1 && k[d] == ':'
      && AllDigits(k[..d]) && AllDigits(k[d + 1..])
      && forall t :: 0 <= t < |k| && k[t] == ':' ==> t == d
  {
    var a, b := NatToString(step), NatToString(note);
    var k := Key(step, note);
    assert k[..|a|] == a;
    SuffixOfKey(a, b);
    forall t | 0 <= t < |k| && t != |a|
      ensures IsDigit(k[t])
    {
      if t < |a| {
        assert k[t] == a[t];
      } else {
        assert k[t] == k[|a| + 1..][t - |a| - 1];
      }
    }
  }

  /** The note-key pattern recovers both numbers from a key. */
  lemma KeyRoundTrip(step: nat, note: nat)
    ensures NoteRegexExec(Key(step, note)) == Some(NoteMatch(0, NatToString(step), NatToString(note)))
    ensures DigitsValue(NatToString(step)) == step && DigitsValue(NatToString(note)) == note
  {
    DigitsColonDigits(NatToString(step), NatToString(note));
    ValueOfNatToString(step);
    ValueOfNatToString(note);
  }

  /** Distinct (step, note) pairs have distinct keys. */
  lemma KeyInjective(i: nat, j: nat, a: nat, b: nat)
    ensures Key(i, j) == Key(a, b) ==> i == a && j == b
  {
    KeyRoundTrip(i, j);
    KeyRoundTrip(a, b);
  }

  // ---------------------------------------------------------------------------
  // The initial grid

  /** The keys of the first `i` steps and of the first `j` notes of step `i`. */
  ghost function Filled(i: nat, j: nat): set<string> {
    set a: nat, b: nat | a < Steps && b < NotesPerStep && (a < i || (a == i && b < j)) :: Key(a, b)
  }

  /** Every key of the full grid. */
  ghost function GridKeys(): set<string> {
    set a: nat, b: nat | a < Steps && b < NotesPerStep :: Key(a, b)
  }

  /** Every key of the grid maps to its own inactive note, and there is nothing else. */
  ghost predicate IsInitialNotes(notes: map<string, Note>) {
    && notes.Keys == GridKeys()
    && forall a: nat, b: nat | a < Steps && b < NotesPerStep ::
         Key(a, b) in notes && notes[Key(a, b)] == Note(a, b, false)
  }

  /** Filling one more note adds exactly its key, which was not there yet. */
  lemma FilledNext(i: nat, j: nat)
    requires i < Steps && j < NotesPerStep
    ensures Key(i, j) !in Filled(i, j)
    ensures Filled(i, j + 1) == Filled(i, j) + {Key(i, j)}
  {
    forall a: nat, b: nat | a < Steps && b < NotesPerStep && (a < i || (a == i && b < j))
      ensures Key(a, b) != Key(i, j)
    {
      KeyInjective(a, b, i, j);
    }
  }

  /** A full row of notes is the same as the start of the next step. */
  lemma FilledRow(i: nat)
    requires i < Steps
    ensures Filled(i, NotesPerStep) == Filled(i + 1, 0)
  {
  }

  /** The full grid has 64 * 13 = 832 distinct keys. */
  lemma GridKeysCount()
    ensures |GridKeys()| == Steps * NotesPerStep
  {
    WrittenKeys(Steps, 0);
    WrittenCount(Steps, 0);
    assert GridKeys() == Filled(Steps, 0) == Written(Steps, 0).Keys;
  }

  /** Every entry is inactive and filed under the key of the position it records. */
  ghost predicate EntriesAtOwnKeys(notes: map<string, Note>) {
    forall k | k in notes :: k == Key(notes[k].stepPos, notes[k].notePos) && !notes[k].isActive
  }

  /** Entries filed under their own keys, over exactly the grid's keys, make the initial grid. */
  lemma EntriesMakeInitialNotes(notes: map<string, Note>)
    requires notes.Keys == GridKeys() && EntriesAtOwnKeys(notes)
    ensures IsInitialNotes(notes)
  {
    forall a: nat, b: nat | a < Steps && b < NotesPerStep
      ensures Key(a, b) in notes && notes[Key(a, b)] == Note(a, b, false)
    {
      var v := notes[Key(a, b)];
      KeyInjective(a, b, v.stepPos, v.notePos);
    }
  }

  /** The notes the two loops of `createInitialNoteState` have written after `i` steps and `j` notes. */
  ghost function Written(i: nat, j: nat): map<string, Note>
    requires (i < Steps && j <= NotesPerStep) || (i == Steps && j == 0)
    decreases i, j
  {
    if j > 0 then Written(i, j - 1)[Key(i, j - 1) := Note(i, j - 1, false)]
    else if i > 0 then Written(i - 1, NotesPerStep)
    else map[]
  }

  /** What has been written covers exactly the filled keys. */
  lemma {:induction false} WrittenKeys(i: nat, j: nat)
    requires (i < Steps && j <= NotesPerStep) || (i == Steps && j == 0)
    ensures Written(i, j).Keys == Filled(i, j)
    decreases i, j
  {
    if j > 0 {
      WrittenKeys(i, j - 1);
      FilledNext(i, j - 1);
    } else if i > 0 {
      WrittenKeys(i - 1, NotesPerStep);
      FilledRow(i - 1);
    } else {
      assert Filled(0, 0) == {};
    }
  }

  /** Each note writes a key not written before, so after `i` steps and `j` notes there are `13 * i + j`. */
  lemma {:induction false} WrittenCount(i: nat, j: nat)
    requires (i < Steps && j <= NotesPerStep) || (i == Steps && j == 0)
    ensures |Written(i, j)| == 13 * i + j
    decreases i, j
  {
    if j > 0 {
      WrittenCount(i, j - 1);
      WrittenKeys(i, j - 1);
      FilledNext(i, j - 1);
      assert Key(i, j - 1) !in Written(i, j - 1);
      assert |Written(i, j)| == |Written(i, j - 1)| + 1;
    } else if i > 0 {
      WrittenCount(i - 1, NotesPerStep);
      assert Written(i, 0) == Written(i - 1, NotesPerStep);
    }
  }

  /** Every note written is inactive and filed under the key of its own position. */
  lemma {:induction false} WrittenAtOwnKeys(i: nat, j: nat)
    requires (i < Steps && j <= NotesPerStep) || (i == Steps && j == 0)
    ensures EntriesAtOwnKeys(Written(i, j))
    decreases i, j
  {
    if j > 0 {
      WrittenAtOwnKeys(i, j - 1);
      var before := Written(i, j - 1);
      var after := Written(i, j);
      assert after == before[Key(i, j - 1) := Note(i, j - 1, false)];
      forall k | k in after
        ensures k == Key(after[k].stepPos, after[k].notePos) && !after[k].isActive
      {
        if k != Key(i, j - 1) {
          assert after[k] == before[k];
        }
      }
    } else if i > 0 {
      WrittenAtOwnKeys(i - 1, NotesPerStep);
    }
  }

  /** `createInitialNoteState`: one inactive note per step and note position. */
  method CreateInitialNoteState() returns (notes: map<string, Note>)
    ensures IsInitialNotes(notes)
    ensures |notes| == Steps * NotesPerStep
  {
    notes := map[];
    for i := 0 to Steps
      invariant notes == Written(i, 0)
    {
      for j := 0 to NotesPerStep
        invariant notes == Written(i, j)
      {
        notes := notes[Key(i, j) := Note(i, j, false)];
      }
    }
    WrittenKeys(Steps, 0);
    WrittenCount(Steps, 0);
    WrittenAtOwnKeys(Steps, 0);
    assert GridKeys() == Filled(Steps, 0);
    EntriesMakeInitialNotes(notes);
  }

  /** `initialState`: paused, with the initial grid. */
  method InitialState() returns (s: State)
    ensures s.isPaused
    ensures IsInitialNotes(s.notes) && |s.notes| == Steps * NotesPerStep
  {
    var notes := CreateInitialNoteState();
    s := State(true, notes);
  }

  // ---------------------------------------------------------------------------
  // The reducer

  /** `after` differs from `before` only in the `isActive` flag of `id`, which is negated. */
  ghost predicate FlippedOnlyAt(before: map<string, Note>, after: map<string, Note>, id: string) {
    && id in before
    && after.Keys == before.Keys
    && after[id].stepPos == before[id].stepPos
    && after[id].notePos == before[id].notePos
    && after[id].isActive == !before[id].isActive
    && forall k | k in before && k != id :: after[k] == before[k]
  }

  /** The `mandachord` reducer; `Err` is the exception a missing note id raises. */
  function Mandachord(state: State, action: Action): (r: Result<State, Error>)
    ensures action.PlayPause? ==>
      r.Ok? && r.value.isPaused == !state.isPaused && r.value.notes == state.notes
    ensures action.ToggleNote? ==> (r.Ok? <==> action.id in state.notes)
    ensures action.ToggleNote? && r.Ok? ==>
      r.value.isPaused == state.isPaused && FlippedOnlyAt(state.notes, r.value.notes, action.id)
    ensures action.ToggleNote? && r.Err? ==> r.error == UndefinedNote(action.id)
    ensures action.Other? ==> r == Ok(state)
  {
    match action
    case PlayPause =>
      Ok(state.(isPaused := !state.isPaused))
    case ToggleNote(id) =>
      if id in state.notes then
        var note := state.notes[id];
        Ok(state.(notes := state.notes[id := note.(isActive := !note.isActive)]))
      else
        Err(UndefinedNote(id))
    case Other =>
      Ok(state)
  }

  /** Toggling the same note twice gives back the original state. */
  lemma ToggleTwice(state: State, id: string)
    requires id in state.notes
    ensures Mandachord(state, ToggleNote(id)).Ok?
    ensures Mandachord(Mandachord(state, ToggleNote(id)).value, ToggleNote(id)) == Ok(state)
  {
    var once := Mandachord(state, ToggleNote(id)).value;
    var twice := Mandachord(once, ToggleNote(id)).value;
    assert twice.notes == state.notes;
  }

  /** Pausing twice gives back the original state. */
  lemma PlayPauseTwice(state: State)
    ensures Mandachord(Mandachord(state, PlayPause).value, PlayPause) == Ok(state)
  {
  }

  /** A grid with exactly the 832 keys, each entry carrying its own position. */
  ghost predicate WellFormed(state: State) {
    && state.notes.Keys == GridKeys()
    && forall a: nat, b: nat | a < Steps && b < NotesPerStep ::
         Key(a, b) in state.notes
         && state.notes[Key(a, b)].stepPos == a && state.notes[Key(a, b)].notePos == b
  }

  /** The initial state is well formed, with 832 notes. */
  lemma InitialWellFormed(state: State)
    requires IsInitialNotes(state.notes)
    ensures WellFormed(state) && |state.notes| == Steps * NotesPerStep
  {
    GridKeysCount();
  }

  /**
   * Every transition of a well-formed state that does not throw keeps it well
   * formed, so no note is ever created or destroyed; toggling a note of the
   * grid never throws.
   */
  lemma ReducerKeepsWellFormed(state: State, action: Action)
    requires WellFormed(state)
    ensures action.ToggleNote? ==>
      (Mandachord(state, action).Ok? <==> exists a: nat, b: nat :: a < Steps && b < NotesPerStep && action.id == Key(a, b))
    ensures Mandachord(state, action).Ok? ==>
      WellFormed(Mandachord(state, action).value) && |Mandachord(state, action).value.notes| == Steps * NotesPerStep
  {
    GridKeysCount();
    var r := Mandachord(state, action);
    if r.Ok? {
      var after := r.value;
      forall a: nat, b: nat | a < Steps && b < NotesPerStep
        ensures Key(a, b) in after.notes
        ensures after.notes[Key(a, b)].stepPos == a && after.notes[Key(a, b)].notePos == b
      {
      }
      assert after.notes.Keys == state.notes.Keys;
    }
  }

  /**
   * From the initial grid, toggling (0, 0) makes that note active and leaves
   * all 831 others inactive.
   */
  lemma ToggleFirstNote(state: State)
    requires IsInitialNotes(state.notes)
    ensures Mandachord(state, ToggleNote(Key(0, 0))).Ok?
    ensures var after := Mandachord(state, ToggleNote(Key(0, 0))).value.notes;
      && after[Key(0, 0)].isActive
      && forall a: nat, b: nat | a < Steps && b < NotesPerStep && (a, b) != (0, 0) ::
           Key(a, b) in after && !after[Key(a, b)].isActive
  {
    var after := Mandachord(state, ToggleNote(Key(0, 0))).value.notes;
    forall a: nat, b: nat | a < Steps && b < NotesPerStep && (a, b) != (0, 0)
      ensures Key(a, b) in after && !after[Key(a, b)].isActive
    {
      KeyInjective(a, b, 0, 0);
    }
  }
}
