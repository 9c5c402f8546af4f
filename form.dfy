/**
 * The edit form of `OverlayManager` in frontend/src/App.js: its state, the per-input update
 * `handleChange`, and the effect that refills it when the selected overlay changes.
 */
module OverlayForm {
  import opened Wrappers
  import opened Overlays
  import Compositor

  /** A number copied from a stored overlay, or the text of an input box. */
  datatype Field = Num(n: int) | Text(s: string)

  datatype Pos = Pos(x: Field, y: Field)
  datatype Dims = Dims(width: Field, height: Field)

  /** `formData`; `color` is None once the selection effect has replaced the form. */
  datatype Form = Form(
    name: string,
    content: string,
    kind: string,
    color: Option<string>,
    position: Pos,
    size: Dims)

  /** The `name` attributes of the form's inputs. */
  datatype Input = NameInput | ContentInput | TypeInput | ColorInput | X | Y | Width | Height

  const Blank: Field := Text("")

  /** The form as first created, before any effect runs. */
  const InitialForm: Form := Form("", "", "text", Some("#ffffff"), Pos(Blank, Blank), Dims(Blank, Blank))

  /** What an input shows: a number or text, or None when its form key is undefined. */
  function Value(f: Form, i: Input): Option<Field> {
    match i
    case NameInput => Some(Text(f.name))
    case ContentInput => Some(Text(f.content))
    case TypeInput => Some(Text(f.kind))
    case ColorInput => if f.color.Some? then Some(Text(f.color.value)) else None
    case X => Some(f.position.x)
    case Y => Some(f.position.y)
    case Width => Some(f.size.width)
    case Height => Some(f.size.height)
  }

  /** Two forms that show the same value in every input are the same form. */
  lemma {:induction false} FormDeterminedByInputs(f: Form, g: Form)
    requires forall i :: Value(f, i) == Value(g, i)
    ensures f == g
  {
    assert Value(f, NameInput) == Value(g, NameInput);
    assert Value(f, ContentInput) == Value(g, ContentInput);
    assert Value(f, TypeInput) == Value(g, TypeInput);
    assert Value(f, ColorInput) == Value(g, ColorInput);
    assert Value(f, X) == Value(g, X) && Value(f, Y) == Value(g, Y);
    assert Value(f, Width) == Value(g, Width) && Value(f, Height) == Value(g, Height);
  }

  /**
   * `handleChange`: `x` and `y` go into `position`, `width` and `height` into `size`, any
   * other name into the top-level key of that name. The new value is the input's text.
   */
  function HandleChange(f: Form, input: Input, value: string): (g: Form)
    ensures Value(g, input) == Some(Text(value))
    ensures forall other :: other != input ==> Value(g, other) == Value(f, other)
  {
    match input
    case X => f.(position := f.position.(x := Text(value)))
    case Y => f.(position := f.position.(y := Text(value)))
    case Width => f.(size := f.size.(width := Text(value)))
    case Height => f.(size := f.size.(height := Text(value)))
    case NameInput => f.(name := value)
    case ContentInput => f.(content := value)
    case TypeInput => f.(kind := value)
    case ColorInput => f.(color := Some(value))
  }

  /** Edits of two different inputs do not interfere: their order does not matter. */
  lemma ChangesCommute(f: Form, a: Input, u: string, b: Input, v: string)
    requires a != b
    ensures HandleChange(HandleChange(f, a, u), b, v) == HandleChange(HandleChange(f, b, v), a, u)
  {
    var g, h := HandleChange(HandleChange(f, a, u), b, v), HandleChange(HandleChange(f, b, v), a, u);
    forall i ensures Value(g, i) == Value(h, i) {
    }
    FormDeterminedByInputs(g, h);
  }

  /** A second edit of the same input replaces the first. */
  lemma LastChangeWins(f: Form, a: Input, u: string, v: string)
    ensures HandleChange(HandleChange(f, a, u), a, v) == HandleChange(f, a, v)
  {
    var g, h := HandleChange(HandleChange(f, a, u), a, v), HandleChange(f, a, v);
    forall i ensures Value(g, i) == Value(h, i) {
    }
    FormDeterminedByInputs(g, h);
  }

  /**
   * The selection effect: the blank form when nothing is selected, else the selected overlay's
   * name, content, type (defaulting to "text") and position and size numbers (blank when
   * absent). It never sets `color`, so the key is undefined afterwards in both cases.
   */
  function FormFor(selected: Option<Overlay>): (f: Form)
    ensures f.color.None?
    ensures selected.None? ==> f == InitialForm.(color := None)
    ensures selected.Some? ==>
      var o := selected.value;
      && f.name == o.name && f.content == o.content
      && f.kind == (if o.kind == "" then "text" else o.kind)
      && (o.position.Some? ==> f.position == Pos(Num(o.position.value.x), Num(o.position.value.y)))
      && (o.position.None? ==> f.position == Pos(Blank, Blank))
      && (o.size.Some? ==> f.size == Dims(Num(o.size.value.width), Num(o.size.value.height)))
      && (o.size.None? ==> f.size == Dims(Blank, Blank))
  {
    match selected
    case None => Form("", "", "text", None, Pos(Blank, Blank), Dims(Blank, Blank))
    case Some(o) =>
      Form(o.name, o.content, if o.kind == "" then "text" else o.kind, None,
           match o.position
           case Some(p) => Pos(Num(p.x), Num(p.y))
           case None => Pos(Blank, Blank),
           match o.size
           case Some(s) => Dims(Num(s.width), Num(s.height))
           case None => Dims(Blank, Blank))
  }

  /**
   * Selecting a renderable overlay shows in the X and Y boxes exactly the offsets its layer is
   * drawn at, and for a logo the size boxes show the layer's size.
   */
  lemma SelectionShowsLayerPlacement(o: Overlay)
    requires Renderable(o)
    ensures var f, l := FormFor(Some(o)), Compositor.LayerOf(o);
      && Value(f, X) == Some(Num(l.left)) && Value(f, Y) == Some(Num(l.top))
      && (l.ImageLayer? ==> Value(f, Width) == Some(Num(l.width)) && Value(f, Height) == Some(Num(l.height)))
  {
  }
}
