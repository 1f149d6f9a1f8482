/** Carrying an editor's crop and its undo history over to another template. */
module Reproject {
  import opened Basics
  import opened Crop
  import opened CropLaws
  import opened Fit

  datatype Capabilities = Capabilities(mirrorForbidden: bool, rotateForbidden: bool)

  datatype EditorState = EditorState(transform: EditTransform, undo: seq<EditTransform>, redo: seq<EditTransform>)

  datatype Note = Refit | Reset | MirrorCleared | RotationCleared

  function Normalized(t: EditTransform, may: Capabilities): EditTransform {
    t.(flipX := t.flipX && !may.mirrorForbidden,
    rotation := if may.rotateForbidden then UPRIGHT else t.rotation)
  }

  /** `out` is the template's render size, if it has one. */
  function Projected(t: EditTransform, src: Rect, may: Capabilities, out: Option<Rect>): EditTransform
    requires ProperRect(src)
  {
    var next := Normalized(t, may);
    if out == None then next
    else
      var fitted := Fitted(next, src, out.value, MAX_SCALE);
      if IsValid(fitted, src, out.value) then fitted else IDENTITY_TRANSFORM
  }

  function AllProjected(
    ts: seq<EditTransform>, src: Rect, may: Capabilities, out: Option<Rect>): (r: seq<EditTransform>)
    requires ProperRect(src)
    ensures |r| == |ts| && forall i :: 0 <= i < |ts| ==> r[i] == Projected(ts[i], src, may, out)
  {
    if ts == [] then [] else [Projected(ts[0], src, may, out)] + AllProjected(ts[1..], src, may, out)
  }

  predicate SameTransform(a: EditTransform, b: EditTransform) {
    && a.translateX == b.translateX && a.translateY == b.translateY && a.scale == b.scale
    && a.rotation.deg == b.rotation.deg && a.flipX == b.flipX
  }

  predicate Sound(ts: seq<EditTransform>) {
    forall t <- ts :: Proper(t)
  }

  predicate SoundState(state: EditorState) {
    Proper(state.transform) && Sound(state.undo) && Sound(state.redo)
  }

  predicate SoundTarget(src: Rect, out: Option<Rect>) {
    ProperRect(src) && (out.Some? ==> ProperRect(out.value))
  }

  /** The notes that tell the user what the switch did to the current crop. */
  function NotesFor(t: EditTransform, src: Rect, may: Capabilities, out: Option<Rect>): seq<Note>
    requires ProperRect(src)
  {
    var next := Normalized(t, may);
    (if t.flipX && may.mirrorForbidden then [MirrorCleared] else [])
    + (if t.rotation.deg != 0.0 && may.rotateForbidden then [RotationCleared] else [])
    + (if out == None then []
       else
         var fitted := Fitted(next, src, out.value, MAX_SCALE);
         (if fitted != next then [Refit] else []) + (if IsValid(fitted, src, out.value) then [] else [Reset]))
  }

  function Switched(state: EditorState, src: Rect, may: Capabilities, out: Option<Rect>): EditorState
    requires ProperRect(src)
  {
    EditorState(
      Projected(state.transform, src, may, out),
      AllProjected(state.undo, src, may, out), AllProjected(state.redo, src, may, out))
  }

  method ReprojectEditorState(state: EditorState, src: Rect, may: Capabilities, out: Option<Rect>)
    returns (projected: EditorState, notes: seq<Note>)
    requires SoundState(state) && SoundTarget(src, out)
    ensures projected == Switched(state, src, may, out)
    ensures notes == NotesFor(state.transform, src, may, out)
  {
    hide IsValid, Fitted, CoverScale;
    notes := [];
    var transform := Normalized(state.transform, may);
    if state.transform.flipX && may.mirrorForbidden {
      notes := notes + [MirrorCleared];
    }
    if state.transform.rotation.deg != 0.0 && may.rotateForbidden {
      notes := notes + [RotationCleared];
    }
    if out.Some? {
      FittedIsValid(transform, src, out.value, MAX_SCALE);
      var fitted := FitTransform(transform, src, out.value, MAX_SCALE);
      if !SameTransform(fitted, transform) {
        transform := fitted;
        notes := notes + [Refit];
      }
      if !IsValid(transform, src, out.value) {
        transform := IDENTITY_TRANSFORM;
        notes := notes + [Reset];
      }
    }
    projected := EditorState(
      transform, AllProjected(state.undo, src, may, out), AllProjected(state.redo, src, may, out));
  }

  // ----- what a projection achieves -----

  /** The crop may be used with the template. */
  predicate Suits(t: EditTransform, src: Rect, may: Capabilities, out: Option<Rect>)
    requires ProperRect(src)
  {
    && Proper(t)
    && (may.mirrorForbidden ==> !t.flipX) && (may.rotateForbidden ==> t.rotation == UPRIGHT)
    && (out.Some? ==> IsValid(t, src, out.value))
  }

  lemma NormalizedIsProper(t: EditTransform, may: Capabilities)
    requires Proper(t)
    ensures Proper(Normalized(t, may))
  {
  }

  /** A projected crop suits its template, and one that suits is left alone without a note. */
  lemma ProjectedSuits(t: EditTransform, src: Rect, may: Capabilities, out: Option<Rect>)
    requires Proper(t) && SoundTarget(src, out)
    ensures Suits(Projected(t, src, may, out), src, may, out)
    ensures Suits(t, src, may, out) ==> Projected(t, src, may, out) == t && NotesFor(t, src, may, out) == []
  {
    hide IsValid, Fitted;
    NormalizedIsProper(t, may);
    if out.Some? {
      FittedIsValid(Normalized(t, may), src, out.value, MAX_SCALE);
      IdentityIsValid(src, out.value);
    }
  }

  /** A crop is reset exactly when its angle fits the new template neither at the present nor at the largest scale. */
  lemma ResetExactlyWhenAngleCannotFit(t: EditTransform, src: Rect, may: Capabilities, out: Rect)
    requires Proper(t) && SoundTarget(src, Some(out))
    ensures
      var next := Normalized(t, may);
      (Reset in NotesFor(t, src, may, Some(out)) <==>
       !Fits(next, next.scale, src, out) && !Fits(next, 8.0, src, out))
      && (Reset in NotesFor(t, src, may, Some(out)) ==> Projected(t, src, may, Some(out)) == IDENTITY_TRANSFORM)
  {
    hide IsValid, Fitted, Fits;
    NormalizedIsProper(t, may);
    FittedIsValid(Normalized(t, may), src, out, MAX_SCALE);
  }

  /**
   Unless the crop is reset, the mirror is cleared only where forbidden, the rotation likewise,
   the scale is never lowered and the translation is at most shortened; where that alone makes
   the crop valid, or the template has no size, nothing else changes.
   */
  lemma ProjectionKeepsTheRest(t: EditTransform, src: Rect, may: Capabilities, out: Option<Rect>)
    requires Proper(t) && SoundTarget(src, out)
    ensures
      var p := Projected(t, src, may, out);
      var cleared := t.(
        flipX := if may.mirrorForbidden then false else t.flipX,
        rotation := if may.rotateForbidden then UPRIGHT else t.rotation);
      && (Reset !in NotesFor(t, src, may, out) ==>
            t.scale <= p.scale && exists r :: 0.0 <= r <= 1.0 && p == Along(cleared.(scale := p.scale), r))
      && (out == None || IsValid(cleared, src, out.value) ==> p == cleared)
  {
    hide IsValid, Fitted, Fits, Along;
    NormalizedIsProper(t, may);
    var next := Normalized(t, may);
    var cleared := t.(
      flipX := if may.mirrorForbidden then false else t.flipX,
      rotation := if may.rotateForbidden then UPRIGHT else t.rotation);
    assert next == cleared;
    AlongEnds(next);
    if out == None {
      assert next.(scale := next.scale) == next;
      assert Projected(t, src, may, out) == Along(next.(scale := next.scale), 1.0);
    } else {
      FittedIsValid(next, src, out.value, MAX_SCALE);
      FittedIsNearest(next, src, out.value, MAX_SCALE);
      var f := Fitted(next, src, out.value, MAX_SCALE);
      var r :| 0.0 <= r <= 1.0 && f == Along(next.(scale := f.scale), r);
      if IsValid(f, src, out.value) {
        assert Projected(t, src, may, out) == Along(cleared.(scale := f.scale), r);
      } else {
        assert Reset in NotesFor(t, src, may, out);
      }
    }
  }

  /** The notes say what happened: none exactly when the crop suits as it is, and each exactly when it is due. */
  lemma NotesTellExactly(t: EditTransform, src: Rect, may: Capabilities, out: Option<Rect>)
    requires Proper(t) && SoundTarget(src, out)
    ensures
      var notes, p := NotesFor(t, src, may, out), Projected(t, src, may, out);
      && (notes == [] <==> Suits(t, src, may, out)) && (notes == [] <==> p == t)
      && (MirrorCleared in notes <==> may.mirrorForbidden && t.flipX)
      && (RotationCleared in notes <==> may.rotateForbidden && t.rotation != UPRIGHT)
      && (Refit in notes && Reset !in notes ==>
            p.translateX != t.translateX || p.translateY != t.translateY || t.scale < p.scale)
  {
    hide IsValid, Fitted;
    NormalizedIsProper(t, may);
    ProjectedSuits(t, src, may, out);
    if out.Some? {
      FittedIsValid(Normalized(t, may), src, out.value, MAX_SCALE);
    }
  }

  predicate AllSuit(ts: seq<EditTransform>, src: Rect, may: Capabilities, out: Option<Rect>)
    requires ProperRect(src)
  {
    forall i :: 0 <= i < |ts| ==> Suits(ts[i], src, may, out)
  }

  lemma AllProjectedSuit(ts: seq<EditTransform>, src: Rect, may: Capabilities, out: Option<Rect>)
    requires Sound(ts) && SoundTarget(src, out)
    ensures AllSuit(AllProjected(ts, src, may, out), src, may, out)
    ensures AllSuit(ts, src, may, out) ==> AllProjected(ts, src, may, out) == ts
  {
    hide Suits, Projected, Proper, NotesFor;
    forall i | 0 <= i < |ts|
      ensures Suits(Projected(ts[i], src, may, out), src, may, out)
      ensures Suits(ts[i], src, may, out) ==> Projected(ts[i], src, may, out) == ts[i]
    {
      ProjectedSuits(ts[i], src, may, out);
    }
  }

  /**
   After a template switch the current crop and every undo and redo entry suit the new
   template, the stacks keep their lengths, and switching to it again changes nothing and
   says nothing.
   */
  lemma SwitchingSettles(state: EditorState, src: Rect, may: Capabilities, out: Option<Rect>)
    requires SoundState(state) && SoundTarget(src, out)
    ensures
      var once := Switched(state, src, may, out);
      && Suits(once.transform, src, may, out)
      && AllSuit(once.undo, src, may, out) && AllSuit(once.redo, src, may, out)
      && |once.undo| == |state.undo| && |once.redo| == |state.redo|
      && Switched(once, src, may, out) == once && NotesFor(once.transform, src, may, out) == []
  {
    hide Projected, NotesFor, IsValid;
    var once := Switched(state, src, may, out);
    ProjectedSuits(state.transform, src, may, out);
    AllProjectedSuit(state.undo, src, may, out);
    AllProjectedSuit(state.redo, src, may, out);
    ProjectedSuits(once.transform, src, may, out);
    AllProjectedSuit(once.undo, src, may, out);
    AllProjectedSuit(once.redo, src, may, out);
  }
}
