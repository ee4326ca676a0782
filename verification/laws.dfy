/** Properties of the edit state machine across several actions. */
module EditorLaws {
  import opened Options
  import opened Geometry
  import opened Raster
  import opened Vision
  import opened Editor

  /** Every action keeps `edited` and `filtered` filled together, and keeps
      `original` filled only alongside them. */
  lemma StepPreservesValid(s: State, a: Action, lib: Library)
    requires Valid(s)
    ensures Valid(Step(s, a, lib))
  {
  }

  lemma {:induction false} RunPreservesValid(s: State, actions: seq<Action>, lib: Library)
    requires Valid(s)
    ensures Valid(Run(s, actions, lib))
    decreases |actions|
  {
    if |actions| > 0 {
      StepPreservesValid(s, actions[0], lib);
      RunPreservesValid(Step(s, actions[0], lib), actions[1..], lib);
    }
  }

  /** `original` is written only by upload. */
  lemma OnlyUploadWritesOriginal(s: State, a: Action, lib: Library)
    requires !a.Upload?
    ensures Step(s, a, lib).original == s.original
  {
  }

  predicate NoUpload(actions: seq<Action>) {
    forall i | 0 <= i < |actions| :: !actions[i].Upload?
  }

  lemma {:induction false} RunKeepsOriginal(s: State, actions: seq<Action>, lib: Library)
    requires NoUpload(actions)
    ensures Run(s, actions, lib).original == s.original
    decreases |actions|
  {
    if |actions| > 0 {
      OnlyUploadWritesOriginal(s, actions[0], lib);
      assert NoUpload(actions[1..]) by {
        forall i | 0 <= i < |actions[1..]|
          ensures !actions[1..][i].Upload?
        {
          assert actions[1..][i] == actions[i + 1];
        }
      }
      RunKeepsOriginal(Step(s, actions[0], lib), actions[1..], lib);
    }
  }

  /** Running two sequences one after the other is running their
      concatenation. */
  lemma {:induction false} RunAppend(s: State, xs: seq<Action>, ys: seq<Action>, lib: Library)
    ensures Run(s, xs + ys, lib) == Run(Run(s, xs, lib), ys, lib)
    decreases |xs|
  {
    if |xs| == 0 {
      assert xs + ys == ys;
    } else {
      assert (xs + ys)[0] == xs[0];
      assert (xs + ys)[1..] == xs[1..] + ys;
      RunAppend(Step(s, xs[0], lib), xs[1..], ys, lib);
    }
  }

  /** Whatever was previewed, applied or cancelled since the last upload,
      revert brings both working slots back to the uploaded image. */
  lemma RevertUndoesAllEdits(s: State, actions: seq<Action>, img: Image, lib: Library)
    requires s.original == Some(img)
    requires NoUpload(actions)
    ensures Run(s, actions + [Revert], lib).edited == Some(img)
    ensures Run(s, actions + [Revert], lib).filtered == Some(img)
  {
    RunAppend(s, actions, [Revert], lib);
    RunKeepsOriginal(s, actions, lib);
  }

  /** Upload, preview black-and-white, apply, revert: the applied result is
      back to the uploaded image, which the filter never touched. */
  lemma GrayApplyRevertScenario(img: Image, lib: Library)
    ensures var t := Run(Initial, [Upload(Decoded(img)), Open(FilterMenu), Preview(BlackAndWhiteButton), Apply, Revert], lib);
      t.original == Some(img) && t.edited == Some(img) && t.filtered == Some(img)
  {
    var acts := [Upload(Decoded(img)), Open(FilterMenu), Preview(BlackAndWhiteButton), Apply, Revert];
    var edits := [Open(FilterMenu), Preview(BlackAndWhiteButton), Apply];
    var s1 := UploadAction(Initial, Decoded(img));
    assert Run(Initial, acts, lib) == Run(s1, acts[1..], lib);
    assert acts[1..] == edits + [Revert];
    RevertUndoesAllEdits(s1, edits, img, lib);
    RunKeepsOriginal(s1, edits + [Revert], lib);
  }

  /** Cancelling straight after applying keeps the applied result. */
  lemma ApplyThenCancel(s: State)
    ensures CancelAction(ApplyAction(s)).edited == ApplyAction(s).edited
    ensures CancelAction(ApplyAction(s)).filtered == ApplyAction(s).filtered
  {
  }

  /** After an upload whose file does not decode, the guard refuses every
      menu and footer action, although `edited` and `filtered` still hold
      the previous work. */
  lemma FailedUploadLocksActions(s: State, menu: Menu, lib: Library)
    ensures var t := UploadAction(s, Unreadable);
      && t.edited == s.edited && t.filtered == s.filtered
      && MenuAction(t, menu, lib) == t && ApplyAction(t) == t
      && CancelAction(t) == t && RevertAction(t) == t
  {
  }

  /** Side-panel controls that read `edited` work without the guard: after
      a failed upload they still preview the previous work. */
  lemma PreviewIgnoresGuard(s: State, b: Button, e: Image, out: Image, lib: Library)
    requires s.original.None? && s.edited == Some(e)
    requires ReadsEdited(b) && lib(Request(b), e) == Some(out)
    ensures PreviewAction(s, b, lib).filtered == Some(out)
  {
  }

  /** Emboss and sepia read `original`, so after a failed upload they do
      nothing: the library call on the missing buffer raises. */
  lemma EmbossNeedsOriginal(s: State, lib: Library)
    requires s.original.None?
    ensures PreviewAction(s, EmbossButton, lib) == s
    ensures PreviewAction(s, SepiaButton, lib) == s
  {
  }

  /** Emboss and sepia preview the library's result on `original`, whatever
      `edited` holds. */
  lemma EmbossReadsOriginal(s: State, o: Image, out: Image, b: Button, lib: Library)
    requires b == EmbossButton || b == SepiaButton
    requires s.original == Some(o) && lib(Request(b), o) == Some(out)
    ensures PreviewAction(s, b, lib).filtered == Some(out)
    ensures PreviewAction(s, b, lib).edited == s.edited
  {
  }

  /** Opening the adjust panel runs the brightness command at 1.0 and then
      the saturation command at 0.0, both on `edited`; the saturation
      preview is the one left in `filtered`. */
  lemma OpeningAdjustPreviewsSaturation(s: State, e: Image, out: Image, lib: Library)
    requires Loaded(s) && s.edited == Some(e) && RefreshCompletes(s)
    requires lib(Saturation(0.0), e) == Some(out)
    ensures MenuAction(s, AdjustMenu, lib).filtered == Some(out)
    ensures MenuAction(s, AdjustMenu, lib).edited == Some(e)
  {
  }

  /** A rotation previewed before opening the adjust panel is replaced by
      the panel's slider previews, so applying afterwards commits saturation
      0.0 of `edited`, not the rotation. */
  lemma AdjustMenuDropsRotation(s: State, e: Image, out: Image, lib: Library)
    requires Loaded(s) && s.edited == Some(e) && RefreshCompletes(s)
    requires lib(Saturation(0.0), e) == Some(out)
    ensures ApplyAction(MenuAction(PreviewAction(s, RotateLeftButton, lib), AdjustMenu, lib)).edited == Some(out)
  {
    var s1 := PreviewAction(s, RotateLeftButton, lib);
    assert s1.edited == Some(e) && Loaded(s1) && RefreshCompletes(s1);
    OpeningAdjustPreviewsSaturation(s1, e, out, lib);
  }

  /** Opening the blur panel runs the averaging, Gaussian and median
      commands at slider value 0, that is with kernel 1, on `edited`; the
      median preview is the one left in `filtered`. */
  lemma OpeningBlurPreviewsMedian(s: State, e: Image, out: Image, lib: Library)
    requires Loaded(s) && s.edited == Some(e) && RefreshCompletes(s)
    requires lib(Blur(Median, 1), e) == Some(out)
    ensures MenuAction(s, BlurMenu, lib).filtered == Some(out)
    ensures MenuAction(s, BlurMenu, lib).edited == Some(e)
  {
  }

  /** The blur panel drops a previewed rotation the same way: applying
      afterwards commits the median blur with kernel 1 of `edited`. */
  lemma BlurMenuDropsRotation(s: State, e: Image, out: Image, lib: Library)
    requires Loaded(s) && s.edited == Some(e) && RefreshCompletes(s)
    requires lib(Blur(Median, 1), e) == Some(out)
    ensures ApplyAction(MenuAction(PreviewAction(s, RotateLeftButton, lib), BlurMenu, lib)).edited == Some(out)
  {
    var s1 := PreviewAction(s, RotateLeftButton, lib);
    assert s1.edited == Some(e) && Loaded(s1) && RefreshCompletes(s1);
    OpeningBlurPreviewsMedian(s1, e, out, lib);
  }

  /** Filter, blur and adjust previews do not stack: each one starts again
      from `edited`, so the last one wins. */
  lemma PreviewsDoNotCompose(s: State, b1: Button, b2: Button, e: Image, lib: Library)
    requires s.edited == Some(e) && ReadsEdited(b1) && ReadsEdited(b2)
    requires lib(Request(b2), e).Some?
    ensures Run(s, [Preview(b1), Preview(b2)], lib).filtered == lib(Request(b2), e)
    ensures Run(s, [Preview(b1), Preview(b2)], lib).edited == Some(e)
  {
    var s1 := PreviewAction(s, b1, lib);
    assert s1.edited == Some(e);
    assert Reads(b2) == EditedSlot;
    var s2 := PreviewAction(s1, b2, lib);
    assert Run(s, [Preview(b1), Preview(b2)], lib) == Run(s1, [Preview(b2)], lib);
    assert Run(s1, [Preview(b2)], lib) == Run(s2, [], lib) == s2;
  }

  /** Rotations read `filtered`, so two left rotations accumulate into a
      half turn of the preview while `edited` stays put. */
  lemma RotationsAccumulate(s: State, f: Image, g: Image, h: Image, lib: Library)
    requires s.filtered == Some(f)
    requires lib(RotateLeft, f) == Some(g) && lib(RotateLeft, g) == Some(h)
    ensures Run(s, [Preview(RotateLeftButton), Preview(RotateLeftButton)], lib).filtered == Some(h)
    ensures Run(s, [Preview(RotateLeftButton), Preview(RotateLeftButton)], lib).edited == s.edited
  {
    var s1 := PreviewAction(s, RotateLeftButton, lib);
    assert s1.filtered == Some(g);
    assert Run(s, [Preview(RotateLeftButton), Preview(RotateLeftButton)], lib)
        == Run(s1, [Preview(RotateLeftButton)], lib);
  }

  /** A blur slider at an even value blurs with the next odd kernel size. */
  lemma EvenSliderBlursOdd(s: State, e: Image, lib: Library)
    requires s.edited == Some(e) && lib(Blur(Averaging, 5), e).Some?
    ensures PreviewAction(s, AveragingSlider(4), lib).filtered == lib(Blur(Averaging, 5), e)
  {
  }

  /** Releasing a crop drag previews the selected part of `edited` and
      leaves `edited` and `original` alone; applying then makes the crop
      the working image. */
  lemma CropThenApply(s: State, e: Image, entry: string, lib: Library)
    requires Loaded(s) && s.mode == Cropping && s.edited == Some(e)
    ensures var t := ReleaseEvent(s, entry, lib);
      && t.filtered == Some(Crop(e, Selection(s)))
      && t.edited == s.edited && t.original == s.original
      && ApplyAction(t).edited == Some(Crop(e, Selection(s)))
  {
  }

  /** A press, a drag and a release in crop mode preview the dragged
      rectangle of `edited`, mapped through the current ratio. */
  lemma DragSelectsRectangle(s: State, e: Image, p: Point, q: Point, entry: string, lib: Library)
    requires s.mode == Cropping && s.edited == Some(e)
    ensures ReleaseEvent(MotionEvent(PressEvent(s, p), q, lib), entry, lib).filtered
         == Some(Crop(e, Normalize(p, q, s.ratio)))
  {
    var s2 := MotionEvent(PressEvent(s, p), q, lib);
    assert s2.dragStart == p && s2.dragEnd == q && s2.ratio == s.ratio && s2.edited == s.edited;
  }

  /** A click without a drag does not reset the drag end: the release
      crops between the click and the end of the previous drag (or the
      origin, right after the crop menu was opened). */
  lemma ClickReusesPreviousEnd(s: State, e: Image, p: Point, entry: string, lib: Library)
    requires s.mode == Cropping && s.edited == Some(e)
    ensures ReleaseEvent(PressEvent(s, p), entry, lib).filtered
         == Some(Crop(e, Normalize(p, s.dragEnd, s.ratio)))
  {
  }

  /** The crop maps the drag through the ratio of whichever buffer was shown
      last, even when that was a rotated preview and not the `edited`
      buffer being cut. */
  lemma CropUsesLastShownRatio(s: State, f: Image, e: Image, out: Image, p: Point, q: Point, entry: string, lib: Library)
    requires Loaded(s) && s.mode == Cropping && s.edited == Some(e) && s.filtered == Some(f)
    requires lib(RotateRight, f) == Some(out) && ViewRatio(Height(out), Width(out)).Some?
    ensures var s1 := PreviewAction(s, RotateRightButton, lib);
      var t := ReleaseEvent(MotionEvent(PressEvent(s1, p), q, lib), entry, lib);
      t.filtered == Some(Crop(e, Normalize(p, q, ViewRatio(Height(out), Width(out)).value)))
  {
    var s1 := PreviewAction(s, RotateRightButton, lib);
    assert s1.ratio == ViewRatio(Height(out), Width(out)).value;
    var s3 := MotionEvent(PressEvent(s1, p), q, lib);
    assert s3.mode == Cropping && s3.edited == Some(e);
    assert s3.dragStart == p && s3.dragEnd == q && s3.ratio == s1.ratio;
  }
}
