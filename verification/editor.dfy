/** The editor's edit state and the actions that change it.

    Three buffer slots hold `original` (the decoded file), `edited` (the
    last applied result) and `filtered` (the preview being shown). Every
    display recomputes `ratio`, and the canvas gestures map their canvas
    coordinates through whichever ratio was stored last. */
module Editor {
  import opened Options
  import opened Geometry
  import opened Raster
  import opened Vision

  /** Which gesture handlers the canvas has bound (app.py:112-114,
      app.py:162-164, app.py:202-203; all unbound at app.py:232-234). */
  datatype Mode = Idle | Cropping | Texting | Drawing

  datatype State = State(
    original: Option<Image>,
    edited: Option<Image>,
    filtered: Option<Image>,
    ratio: Ratio,
    mode: Mode,
    dragStart: Point,      // crop_start_x, crop_start_y
    dragEnd: Point,        // crop_end_x, crop_end_y
    pen: Option<Point>)    // self.x, self.y of the freehand stroke

  /** The state after construction (app.py:9-13). */
  const Initial: State := State(None, None, None, Unit, Idle, Point(0, 0), Point(0, 0), None)

  /** `edited` and `filtered` are filled together, and `original` is only
      ever filled alongside them. */
  predicate Valid(s: State) {
    && (s.edited.Some? <==> s.filtered.Some?)
    && (s.original.Some? ==> s.edited.Some?)
  }

  /** The "Please upload an image first!" guard (app.py:86, app.py:104,
      app.py:414 and every other menu and footer action). */
  predicate Loaded(s: State) {
    s.original.Some?
  }

  /** What the file dialog and `cv2.imread` yield (app.py:71-74). */
  datatype FileChoice = Cancelled | Unreadable | Decoded(img: Image)

  /** The main-menu buttons other than upload and save (app.py:39-50). */
  datatype Menu = CropMenu | TextMenu | DrawMenu | FilterMenu | BlurMenu | AdjustMenu | RotateMenu | FlipMenu

  /** The side-panel buttons and sliders that preview one operation. */
  datatype Button =
    | NegativeButton | BlackAndWhiteButton | StylisationButton | SketchButton
    | EmbossButton | SepiaButton | ThresholdButton | ErosionButton | DilationButton
    | AveragingSlider(value: int) | GaussianSlider(value: int) | MedianSlider(value: int)
    | BrightnessSlider(alpha: real) | SaturationSlider(beta: real)
    | RotateLeftButton | RotateRightButton | VerticalFlipButton | HorizontalFlipButton

  datatype Action =
    | Upload(file: FileChoice)
    | Open(menu: Menu)
    | Press(at: Point)
    | Motion(at: Point)
    | Release(entry: string)
    | Preview(button: Button)
    | Apply
    | Cancel
    | Revert

  /** The buffer slot an operation reads. */
  datatype Slot = OriginalSlot | EditedSlot | FilteredSlot

  function Buffer(s: State, slot: Slot): Option<Image> {
    match slot
    case OriginalSlot => s.original
    case EditedSlot => s.edited
    case FilteredSlot => s.filtered
  }

  /** The library operation a side-panel control requests (app.py:323-410). */
  function Request(b: Button): (op: Op)
    ensures b.AveragingSlider? ==> op == Blur(Averaging, KernelSize(b.value))
    ensures b.GaussianSlider? ==> op == Blur(Gaussian, KernelSize(b.value))
    ensures b.MedianSlider? ==> op == Blur(Median, KernelSize(b.value))
    ensures op.Blur? ==> op.ksize % 2 == 1
  {
    match b
    case NegativeButton => Negative
    case BlackAndWhiteButton => BlackAndWhite
    case StylisationButton => Stylisation
    case SketchButton => Sketch
    case EmbossButton => Emboss
    case SepiaButton => Sepia
    case ThresholdButton => BinaryThreshold
    case ErosionButton => Erosion
    case DilationButton => Dilation
    case AveragingSlider(v) => Blur(Averaging, KernelSize(v))
    case GaussianSlider(v) => Blur(Gaussian, KernelSize(v))
    case MedianSlider(v) => Blur(Median, KernelSize(v))
    case BrightnessSlider(a) => Brightness(a)
    case SaturationSlider(b) => Saturation(b)
    case RotateLeftButton => RotateLeft
    case RotateRightButton => RotateRight
    case VerticalFlipButton => FlipVertical
    case HorizontalFlipButton => FlipHorizontal
  }

  /** The buffer each preview reads: emboss and sepia read `original`
      (app.py:342, app.py:347), rotations and flips read `filtered`
      (app.py:397-410), everything else reads `edited`. */
  function Reads(b: Button): (slot: Slot)
    ensures slot == OriginalSlot <==> b.EmbossButton? || b.SepiaButton?
    ensures slot == FilteredSlot <==>
      b.RotateLeftButton? || b.RotateRightButton? || b.VerticalFlipButton? || b.HorizontalFlipButton?
  {
    match b
    case EmbossButton | SepiaButton => OriginalSlot
    case RotateLeftButton | RotateRightButton | VerticalFlipButton | HorizontalFlipButton => FilteredSlot
    case _ => EditedSlot
  }

  /** Previews of the filter, blur and adjust panels. */
  predicate ReadsEdited(b: Button) {
    Reads(b) == EditedSlot
  }

  /** `display_image(img)`: only the stored ratio changes, and it becomes
      the shown buffer's ratio unless computing it raises (app.py:444-456). */
  function Show(s: State, img: Image): (t: State)
    ensures t == s.(ratio := t.ratio)
    ensures t.ratio == ViewRatio(Height(img), Width(img)).GetOr(s.ratio)
  {
    match ViewRatio(Height(img), Width(img))
    case None => s
    case Some(r) => s.(ratio := r)
  }

  /** `upload_action` (app.py:69-83): a cancelled dialog changes nothing; a
      file that does not decode empties `original` only; a decoded image
      fills all three slots and is shown. */
  function UploadAction(s: State, file: FileChoice): (t: State)
    ensures file.Cancelled? ==> t == s
    ensures file.Unreadable? ==> t.original.None? && t.edited == s.edited && t.filtered == s.filtered
    ensures file.Unreadable? ==> t == s.(original := None)
    ensures file.Decoded? ==>
      && t.original == t.edited == t.filtered == Some(file.img)
      && t.ratio == ViewRatio(Height(file.img), Width(file.img)).GetOr(s.ratio)
      && t.mode == s.mode && t.dragStart == s.dragStart && t.dragEnd == s.dragEnd && t.pen == s.pen
  {
    match file
    case Cancelled => s
    case Unreadable => s.(original := None)
    case Decoded(img) => Show(s.(original := Some(img), edited := Some(img), filtered := Some(img)), img)
  }

  /** Whether `refresh_side_frame` (app.py:227-239) runs to completion:
      showing `edited` must not raise. */
  predicate RefreshCompletes(s: State) {
    s.edited.None? || Renders(Height(s.edited.value), Width(s.edited.value))
  }

  /** `refresh_side_frame`: unbinds the canvas and shows `edited`. */
  function Refresh(s: State): (t: State)
    ensures t == s.(mode := Idle, ratio := t.ratio)
    ensures s.edited.Some? ==> t.ratio == ViewRatio(Height(s.edited.value), Width(s.edited.value)).GetOr(s.ratio)
    ensures s.edited.None? ==> t.ratio == s.ratio
  {
    var u := s.(mode := Idle);
    match s.edited
    case None => u
    case Some(e) => Show(u, e)
  }

  /** A main-menu action other than upload and save (app.py:85-98,
      app.py:103-114, app.py:153-164, app.py:197-205, app.py:241-306).
      Crop binds the crop gesture without refreshing; the others refresh,
      text and draw then bind their gesture, and the blur and adjust panels
      run their new sliders' commands, unless the refresh raised.
      A new Tk scale invokes its command once when first displayed, with its
      current value, even if that value never changed, and the scales are
      shown in the order they were created: the three blur sliders at 0
      (app.py:259-271), then the brightness slider at the 1 it was set to
      and the saturation slider at 0 (app.py:300-306). Each command previews
      on `edited`, so the last one that succeeds decides `filtered`: median
      blur with kernel 1 for the blur panel, saturation 0.0 for the adjust
      panel. */
  function MenuAction(s: State, menu: Menu, lib: Library): (t: State)
    ensures !Loaded(s) ==> t == s
    ensures t.original == s.original && t.edited == s.edited && t.pen == s.pen
    ensures menu != BlurMenu && menu != AdjustMenu ==> t.filtered == s.filtered
    ensures Loaded(s) && menu == CropMenu ==>
      t == s.(mode := Cropping, dragStart := Point(0, 0), dragEnd := Point(0, 0))
    ensures Loaded(s) && menu !in {CropMenu, BlurMenu, AdjustMenu} ==> t.ratio == Refresh(s).ratio
    ensures Loaded(s) && menu == TextMenu ==> (t.mode == Texting <==> RefreshCompletes(s))
    ensures Loaded(s) && menu == TextMenu && RefreshCompletes(s) ==>
      t.dragStart == Point(0, 0) && t.dragEnd == Point(0, 0)
    ensures Loaded(s) && menu == DrawMenu ==> (t.mode == Drawing <==> RefreshCompletes(s))
    ensures Loaded(s) && menu !in {CropMenu, TextMenu, DrawMenu} ==> t.mode == Idle
    ensures Loaded(s) && menu != CropMenu && !RefreshCompletes(s) ==> t == Refresh(s)
    ensures Loaded(s) && menu in {FilterMenu, RotateMenu, FlipMenu} ==> t == Refresh(s)
    ensures Loaded(s) && menu == TextMenu && RefreshCompletes(s) ==>
      t == Refresh(s).(mode := Texting, dragStart := Point(0, 0), dragEnd := Point(0, 0))
    ensures Loaded(s) && menu == DrawMenu && RefreshCompletes(s) ==> t == Refresh(s).(mode := Drawing)
    ensures Loaded(s) && menu == BlurMenu && RefreshCompletes(s) ==>
      t == PreviewAction(PreviewAction(PreviewAction(Refresh(s),
        AveragingSlider(0), lib), GaussianSlider(0), lib), MedianSlider(0), lib)
    ensures Loaded(s) && menu == BlurMenu && RefreshCompletes(s) && s.edited.Some? ==>
      var e := s.edited.value;
      t.filtered == lib(Blur(Median, 1), e).OrElse(lib(Blur(Gaussian, 1), e).OrElse(
        lib(Blur(Averaging, 1), e).OrElse(s.filtered)))
    ensures Loaded(s) && menu == AdjustMenu && RefreshCompletes(s) ==>
      t == PreviewAction(PreviewAction(Refresh(s), BrightnessSlider(1.0), lib), SaturationSlider(0.0), lib)
    ensures Loaded(s) && menu == AdjustMenu && RefreshCompletes(s) && s.edited.Some? ==>
      var e := s.edited.value;
      t.filtered == lib(Saturation(0.0), e).OrElse(lib(Brightness(1.0), e).OrElse(s.filtered))
  {
    if !Loaded(s) then s
    else if menu == CropMenu then s.(mode := Cropping, dragStart := Point(0, 0), dragEnd := Point(0, 0))
    else
      var u := Refresh(s);
      if !RefreshCompletes(s) then u
      else if menu == TextMenu then u.(mode := Texting, dragStart := Point(0, 0), dragEnd := Point(0, 0))
      else if menu == DrawMenu then u.(mode := Drawing)
      else if menu == BlurMenu then
        var averaged := PreviewAction(u, AveragingSlider(0), lib);
        PreviewAction(PreviewAction(averaged, GaussianSlider(0), lib), MedianSlider(0), lib)
      else if menu == AdjustMenu then
        PreviewAction(PreviewAction(u, BrightnessSlider(1.0), lib), SaturationSlider(0.0), lib)
      else u
  }

  /** A canvas point mapped to source pixels through the stored ratio. */
  function MapPoint(p: Point, r: Ratio): Point {
    Point(ToSource(p.x, r), ToSource(p.y, r))
  }

  /** `<ButtonPress>`: `start_crop` records the drag start (app.py:116-118),
      `start_draw` the pen position (app.py:212-215). */
  function PressEvent(s: State, p: Point): (t: State)
    ensures s.mode == Cropping || s.mode == Texting ==> t == s.(dragStart := p)
    ensures s.mode == Drawing ==> t == s.(pen := Some(p))
    ensures s.mode == Idle ==> t == s
  {
    match s.mode
    case Cropping | Texting => s.(dragStart := p)
    case Drawing => s.(pen := Some(p))
    case Idle => s
  }

  /** `<B1-Motion>`: `crop` records the drag end (app.py:120-125); `draw`
      strokes a line from the pen to `p` into `filtered` in source
      coordinates, with thickness `int(ratio * 2)`, and moves the pen
      (app.py:217-224). Nothing changes when the stroke raises. */
  function MotionEvent(s: State, p: Point, lib: Library): (t: State)
    ensures t.original == s.original && t.edited == s.edited && t.ratio == s.ratio && t.mode == s.mode
    ensures s.mode == Cropping || s.mode == Texting ==> t == s.(dragEnd := p)
    ensures s.mode == Idle ==> t == s
    ensures s.mode == Drawing && (s.pen.None? || s.filtered.None?) ==> t == s
    ensures s.mode == Drawing && s.pen.Some? && s.filtered.Some? ==>
      var stroke := Line(MapPoint(s.pen.value, s.ratio), MapPoint(p, s.ratio), Trunc(2 * s.ratio.num, s.ratio.den));
      match lib(stroke, s.filtered.value)
      case None => t == s
      case Some(out) => t == s.(filtered := Some(out), pen := Some(p))
  {
    match s.mode
    case Cropping | Texting => s.(dragEnd := p)
    case Idle => s
    case Drawing =>
      if s.pen.None? || s.filtered.None? then s
      else
        var stroke := Line(MapPoint(s.pen.value, s.ratio), MapPoint(p, s.ratio), Trunc(2 * s.ratio.num, s.ratio.den));
        match lib(stroke, s.filtered.value)
        case None => s
        case Some(out) => s.(filtered := Some(out), pen := Some(p))
  }

  /** The selection of the current drag, in source coordinates. */
  function Selection(s: State): Rect {
    Normalize(s.dragStart, s.dragEnd, s.ratio)
  }

  /** `<ButtonRelease>`: `end_crop` previews the selected part of `edited`
      (app.py:127-151); `end_text_crop` previews `edited` with the entry's
      text written at the selection's top-left corner (app.py:166-195). */
  function ReleaseEvent(s: State, entry: string, lib: Library): (t: State)
    ensures t.original == s.original && t.edited == s.edited && t.mode == s.mode
    ensures t.dragStart == s.dragStart && t.dragEnd == s.dragEnd && t.pen == s.pen
    ensures s.mode == Idle || s.mode == Drawing ==> t == s
    ensures s.mode == Cropping && s.edited.Some? ==>
      t == Show(s.(filtered := Some(Crop(s.edited.value, Selection(s)))), Crop(s.edited.value, Selection(s)))
    ensures s.mode == Texting && !Loaded(s) ==> t == s
    ensures s.mode == Texting && s.edited.None? ==> t == s
    ensures s.mode == Texting && Loaded(s) && s.edited.Some? ==>
      match lib(PutText(TextOrDefault(entry), Point(Selection(s).x0, Selection(s).y0)), s.edited.value)
      case None => t == s
      case Some(out) => t == Show(s.(filtered := Some(out)), out)
  {
    match s.mode
    case Idle | Drawing => s
    case Cropping =>
      (match s.edited
       case None => s
       case Some(e) =>
         var piece := Crop(e, Selection(s));
         Show(s.(filtered := Some(piece)), piece))
    case Texting =>
      if !Loaded(s) || s.edited.None? then s
      else
        var rect := Selection(s);
        match lib(PutText(TextOrDefault(entry), Point(rect.x0, rect.y0)), s.edited.value)
        case None => s
        case Some(out) => Show(s.(filtered := Some(out)), out)
  }

  /** A side-panel preview (app.py:323-410): `filtered` becomes the
      requested operation applied to the slot the control reads, and is
      shown. The controls carry no "no image" guard of their own; nothing
      changes when the slot is empty or the library raises. */
  function PreviewAction(s: State, b: Button, lib: Library): (t: State)
    ensures t == s.(filtered := t.filtered, ratio := t.ratio)
    ensures Buffer(s, Reads(b)).None? ==> t == s
    ensures Buffer(s, Reads(b)).Some? ==>
      match lib(Request(b), Buffer(s, Reads(b)).value)
      case None => t == s
      case Some(out) => t.filtered == Some(out) && t.ratio == ViewRatio(Height(out), Width(out)).GetOr(s.ratio)
  {
    match Buffer(s, Reads(b))
    case None => s
    case Some(src) =>
      match lib(Request(b), src)
      case None => s
      case Some(out) => Show(s.(filtered := Some(out)), out)
  }

  /** `apply_action` (app.py:413-419): the preview becomes the applied
      result and is shown. */
  function ApplyAction(s: State): (t: State)
    ensures !Loaded(s) || s.filtered.None? ==> t == s
    ensures Loaded(s) && s.filtered.Some? ==> t.edited == s.filtered
    ensures Loaded(s) && s.filtered.Some? ==>
      t.ratio == ViewRatio(Height(s.filtered.value), Width(s.filtered.value)).GetOr(s.ratio)
    ensures t == s.(edited := t.edited, ratio := t.ratio)
  {
    if !Loaded(s) then s
    else
      match s.filtered
      case None => s
      case Some(f) => Show(s.(edited := Some(f)), f)
  }

  /** `cancel_action` (app.py:421-426): shows `edited` again; no slot
      changes, so the cancelled preview stays in `filtered`. */
  function CancelAction(s: State): (t: State)
    ensures t == s.(ratio := t.ratio)
    ensures Loaded(s) && s.edited.Some? ==>
      t.ratio == ViewRatio(Height(s.edited.value), Width(s.edited.value)).GetOr(s.ratio)
    ensures !Loaded(s) ==> t == s
  {
    if !Loaded(s) then s
    else
      match s.edited
      case None => s
      case Some(e) => Show(s, e)
  }

  /** `revert_action` (app.py:428-435): both working slots go back to the
      original. */
  function RevertAction(s: State): (t: State)
    ensures !Loaded(s) ==> t == s
    ensures Loaded(s) ==> t.edited == t.filtered == t.original == s.original
    ensures Loaded(s) ==>
      t.ratio == ViewRatio(Height(s.original.value), Width(s.original.value)).GetOr(s.ratio)
    ensures t == s.(edited := t.edited, filtered := t.filtered, ratio := t.ratio)
  {
    match s.original
    case None => s
    case Some(o) => Show(s.(edited := Some(o), filtered := Some(o)), o)
  }

  /** The dispatch from a user action to its handler. */
  function Step(s: State, a: Action, lib: Library): State {
    match a
    case Upload(file) => UploadAction(s, file)
    case Open(menu) => MenuAction(s, menu, lib)
    case Press(p) => PressEvent(s, p)
    case Motion(p) => MotionEvent(s, p, lib)
    case Release(entry) => ReleaseEvent(s, entry, lib)
    case Preview(b) => PreviewAction(s, b, lib)
    case Apply => ApplyAction(s)
    case Cancel => CancelAction(s)
    case Revert => RevertAction(s)
  }

  /** A sequence of actions, performed in order. */
  function Run(s: State, actions: seq<Action>, lib: Library): State
    decreases |actions|
  {
    if |actions| == 0 then s else Run(Step(s, actions[0], lib), actions[1..], lib)
  }
}
