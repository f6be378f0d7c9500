/**
 * One step of the disc: its 13 note slots, toggled in place, and the view it
 * draws (note keys and flags, the bar line with its dash pattern and label).
 */
module StepComponent {
  import opened Wrappers

  const NotesPerStep: nat := 13

  /** `s` with slot `p` negated: the array after `splice(p, 1, !s[p])`. */
  function Flipped(s: seq<bool>, p: nat): (r: seq<bool>)
    requires p < |s|
    ensures |r| == |s| && r[p] == !s[p]
    ensures forall k :: 0 <= k < |s| && k != p ==> r[k] == s[k]
  {
    s[p := !s[p]]
  }

  /** Flipping a slot twice restores the array. */
  lemma FlipTwice(s: seq<bool>, p: nat)
    requires p < |s|
    ensures Flipped(Flipped(s, p), p) == s
  {
    var r := Flipped(Flipped(s, p), p);
    assert forall k :: 0 <= k < |s| ==> r[k] == s[k];
  }

  /** A `MandachordStep` component: its `pos` prop and its `notesState` array. */
  class MandachordStep {
    const pos: nat
    const notesState: array<bool>

    ghost predicate Valid() {
      notesState.Length == NotesPerStep
    }

    /** The constructor: 13 slots, all off. */
    constructor (pos: nat)
      ensures Valid() && fresh(notesState) && this.pos == pos
      ensures forall k :: 0 <= k < notesState.Length ==> !notesState[k]
    {
      this.pos := pos;
      notesState := new bool[NotesPerStep](_ => false);
    }

    /** `modifyStepNotes`: negates slot `p` of `notesState` in place. */
    method ModifyStepNotes(p: int)
      requires Valid() && 0 <= p < notesState.Length
      modifies notesState
      ensures notesState[..] == Flipped(old(notesState[..]), p)
    {
      notesState[p] := !notesState[p];
    }

    /** `render`: the view `drawStep` builds from the props and the current slots. */
    function Render(): (v: StepView)
      requires Valid()
      reads notesState
      ensures |v.notes| == NotesPerStep
      ensures forall i :: 0 <= i < NotesPerStep ==> v.notes[i].isActive == notesState[i]
    {
      DrawStep(pos, notesState[..])
    }
  }

  /** One `MandachordNote` element: its React key, its slot and whether it is on. */
  datatype NoteView = NoteView(key: int, pos: nat, isActive: bool)

  /** The bar line: its dash pattern and the bar number written beside it. */
  datatype BarLine = BarLine(dash: seq<int>, barNumber: real)

  datatype StepView = StepView(notes: seq<NoteView>, barLine: Option<BarLine>)

  /** The React key of note `i` in step `pos`: `(pos * i) + i`. */
  function NoteKeyOf(pos: nat, i: nat): (k: int)
    ensures k == (pos + 1) * i && i <= k
  {
    pos * i + i
  }

  /**
   * `isLoopPoint`: JavaScript's `/` divides exactly, so `pos / 16 === 0`
   * holds at step 0 only.
   */
  predicate IsLoopPoint(pos: nat)
    ensures IsLoopPoint(pos) <==> pos == 0
  {
    pos as real / 16.0 == 0.0
  }

  /** The condition under which the bar line is drawn: `pos % 16 === 0`, on every multiple of 16. */
  predicate HasBarLine(pos: nat)
    ensures HasBarLine(pos) <==> pos == 16 * (pos / 16)
  {
    pos % 16 == 0
  }

  /** `drawStep`: 13 notes, then the bar line on steps that start a bar. */
  function DrawStep(pos: nat, notesState: seq<bool>): (v: StepView)
    requires |notesState| == NotesPerStep
    ensures |v.notes| == NotesPerStep
    ensures forall i :: 0 <= i < NotesPerStep ==>
      v.notes[i].pos == i && v.notes[i].isActive == notesState[i] && v.notes[i].key == (pos + 1) * i
    ensures v.barLine.Some? <==> pos % 16 == 0
    ensures v.barLine.Some? ==> v.barLine.value.barNumber == (pos / 16 + 1) as real
    ensures v.barLine.Some? ==> v.barLine.value.dash == (if pos == 0 then [3, 1] else [])
  {
    var notes := seq(NotesPerStep, i requires 0 <= i < NotesPerStep => NoteView(NoteKeyOf(pos, i), i, notesState[i]));
    var dash := if IsLoopPoint(pos) then [3, 1] else [];
    var barLine := BarLine(dash, pos as real / 16.0 + 1.0);
    StepView(notes, if HasBarLine(pos) then Some(barLine) else None)
  }

  /** Within one step the note keys strictly increase, so no two notes share a key. */
  lemma {:induction false} NoteKeysIncrease(pos: nat, i: nat, j: nat)
    requires i < j
    ensures NoteKeyOf(pos, i) < NoteKeyOf(pos, j)
    decreases j - i
  {
    assert NoteKeyOf(pos, j) == NoteKeyOf(pos, j - 1) + pos + 1 by {
      assert pos * j == pos * (j - 1) + pos;
    }
    if i < j - 1 {
      NoteKeysIncrease(pos, i, j - 1);
    }
  }

  /**
   * On the 64 steps, bar lines fall on steps 0, 16, 32 and 48, numbered 1 to
   * 4, while the dashed loop-point pattern is only on step 0: the two tests
   * disagree on steps 16, 32 and 48.
   */
  lemma BarLinesOnTheDisc(pos: nat)
    requires pos < 64
    ensures HasBarLine(pos) <==> pos in {0, 16, 32, 48}
    ensures HasBarLine(pos) ==> 1 <= pos / 16 + 1 <= 4
    ensures HasBarLine(pos) && !IsLoopPoint(pos) <==> pos in {16, 32, 48}
  {
  }
}
