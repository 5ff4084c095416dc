/** The tool buttons of `Buttons.java`: a closed enumeration with a label and
    an associated shape class per button, and a selector holding at most one
    chosen button. */
module Buttons {
  import opened Wrappers

  /** The enum `Buttons`: CIRCLE, RECTANGLE, POLYGON and EDIT, in that order. */
  datatype Button = Circle | Rectangle | Polygon | Edit

  /** The class object a button carries: one of the three shape classes, or
      `Boolean.class`, the placeholder of the edit button. */
  datatype ShapeClass = CircleClass | RectangleClass | PolygonClass | BooleanClass
  {
    predicate IsShape()
    {
      !BooleanClass?
    }
  }

  /** The button's label. */
  function ToString(b: Button): (text: string)
    ensures b == Circle <==> text == "circle"
    ensures b == Rectangle <==> text == "rect"
    ensures b == Polygon <==> text == "poly"
    ensures b == Edit <==> text == "edit"
  {
    match b
    case Circle => "circle"
    case Rectangle => "rect"
    case Polygon => "poly"
    case Edit => "edit"
  }

  /** Different buttons have different labels, so a label names its button. */
  lemma LabelsDistinct(a: Button, b: Button)
    ensures ToString(a) == ToString(b) <==> a == b
  {
    match a
    case Circle => assert ToString(a)[0] == 'c';
    case Rectangle => assert ToString(a)[0] == 'r';
    case Polygon => assert ToString(a)[0] == 'p';
    case Edit => assert ToString(a)[0] == 'e';
  }

  /** The class associated with the button: a shape class for the three
      drawing tools, the non-shape placeholder for the edit tool. */
  function Shape(b: Button): (c: ShapeClass)
    ensures c.IsShape() <==> b != Edit
    ensures b == Circle <==> c == CircleClass
    ensures b == Rectangle <==> c == RectangleClass
    ensures b == Polygon <==> c == PolygonClass
  {
    match b
    case Circle => CircleClass
    case Rectangle => RectangleClass
    case Polygon => PolygonClass
    case Edit => BooleanClass
  }

  /** `Buttons.ButtonSelector`: the currently selected button, if any. */
  class ButtonSelector {
    var button: Option<Button>

    /** Nothing is selected at first. */
    constructor ()
      ensures button == None
    {
      button := None;
    }

    /** Selects `b`, replacing any earlier selection; `None` stands for a
        null argument, which clears the selection. */
    method Set(b: Option<Button>)
      modifies this
      ensures button == b
    {
      button := b;
    }

    /** The current selection; `None` stands for the source's null. */
    method Get() returns (r: Option<Button>)
      ensures r == button
    {
      r := button;
    }

    /** The class of the selected button. The source dereferences the
        selection unguarded, so with nothing selected the call fails
        (`thrown`) instead of answering; otherwise it answers the selected
        button's class. */
    method GetShape() returns (thrown: bool, c: ShapeClass)
      ensures thrown <==> button.None?
      ensures !thrown ==> c == Shape(button.value)
    {
      if button.None? {
        thrown, c := true, BooleanClass;
      } else {
        thrown, c := false, Shape(button.value);
      }
    }
  }

  /** A fresh selector reports no selection and fails to answer a class;
      after two selections it reports the later one, together with its
      class; clearing it brings back the failure. */
  method LastSetWins(first: Button, second: Button)
    returns (before: Option<Button>, failedBefore: bool, after: Option<Button>, cls: ShapeClass, failedAfterClear: bool)
    ensures before == None && failedBefore
    ensures after == Some(second) && cls == Shape(second)
    ensures failedAfterClear
  {
    var s := new ButtonSelector();
    before := s.Get();
    failedBefore, cls := s.GetShape();
    s.Set(Some(first));
    s.Set(Some(second));
    after := s.Get();
    var failed;
    failed, cls := s.GetShape();
    s.Set(None);
    var ignored;
    failedAfterClear, ignored := s.GetShape();
  }
}
