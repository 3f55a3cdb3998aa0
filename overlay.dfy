/**
 * The annotation overlay of components/tutor/annotation-overlay.tsx: the box
 * style of each annotation kind, the class list that marks AI annotations,
 * and the hover state that gates the delete button.
 */
module Overlay {
  import opened Options
  import opened Text
  import opened Annotations

  /**
   * An inline style. Geometry is in percent; every style is absolutely
   * positioned and takes pointer events. Absent properties are `None`.
   */
  datatype Style = Style(
    position: string,
    pointerEvents: string,
    left: real,
    top: real,
    width: real,
    height: real,
    backgroundColor: Option<string>,
    border: Option<string>,
    borderRadius: Option<string>)

  const BaseClasses: string := "transition-all duration-200"
  const Pulse: string := "animate-pulse"
  const AiClasses: string := BaseClasses + " " + Pulse

  /** The AI class list is the base list plus the pulse animation, which the base list lacks. */
  lemma ClassListsDiffer()
    ensures StartsWith(AiClasses, BaseClasses) && StartsWith(BaseClasses, BaseClasses)
    ensures EndsWith(AiClasses, Pulse) && !EndsWith(BaseClasses, Pulse)
  {
    assert AiClasses[..|BaseClasses|] == BaseClasses;
    assert AiClasses[|AiClasses| - |Pulse|..] == Pulse;
    assert BaseClasses[|BaseClasses| - |Pulse|..][0] == BaseClasses[14] != Pulse[0];
  }

  /** The style every kind starts from: the annotation's box. */
  function BaseStyle(a: Annotation): Style {
    Style("absolute", "auto", a.x, a.y, a.width, a.height, None, None, None)
  }

  /** `getAnnotationStyle`. */
  function AnnotationStyle(a: Annotation): (s: Style)
    ensures s.position == "absolute" && s.pointerEvents == "auto"
    ensures s.left == a.x && s.top == a.y && s.width == a.width && s.height == a.height
    ensures a.kind == "highlight" ==>
              s.backgroundColor == Some(a.color + "40") &&
              s.border == Some("2px solid " + a.color) && s.borderRadius == Some("4px")
    ensures a.kind == "circle" ==>
              s.backgroundColor == Some("transparent") &&
              s.border == Some("3px solid " + a.color) && s.borderRadius == Some("50%")
    ensures a.kind == "rectangle" ==>
              s.backgroundColor == Some("transparent") &&
              s.border == Some("3px solid " + a.color) && s.borderRadius == Some("4px")
    ensures a.kind !in {"highlight", "circle", "rectangle"} ==> s == BaseStyle(a)
  {
    var base := BaseStyle(a);
    if a.kind == "highlight" then
      base.(backgroundColor := Some(a.color + "40"), border := Some("2px solid " + a.color), borderRadius := Some("4px"))
    else if a.kind == "circle" then
      base.(border := Some("3px solid " + a.color), borderRadius := Some("50%"), backgroundColor := Some("transparent"))
    else if a.kind == "rectangle" then
      base.(border := Some("3px solid " + a.color), borderRadius := Some("4px"), backgroundColor := Some("transparent"))
    else base
  }

  /**
   * The three drawn kinds look different from each other and from an
   * unknown kind, whatever their colour: a border exactly for the known
   * kinds, a 2px border only for highlights, a round corner only for circles,
   * and the colour always at the end of the border.
   */
  lemma KindsLookDifferent(a: Annotation)
    ensures AnnotationStyle(a).border.Some? <==> a.kind in {"highlight", "circle", "rectangle"}
    ensures AnnotationStyle(a).border.Some? ==>
              EndsWith(AnnotationStyle(a).border.value, a.color) &&
              (StartsWith(AnnotationStyle(a).border.value, "2px") <==> a.kind == "highlight")
    ensures AnnotationStyle(a).borderRadius == Some("50%") <==> a.kind == "circle"
  {
    var s := AnnotationStyle(a);
    if s.border.Some? {
      var b := s.border.value;
      var w := if a.kind == "highlight" then "2px solid " else "3px solid ";
      assert b == w + a.color;
      assert b[|b| - |a.color|..|b|] == a.color;
      assert b[..3] == w[..3] == (if a.kind == "highlight" then "2px" else "3px");
    }
  }

  /** `getAnnotationClasses`. */
  function AnnotationClasses(a: Annotation): (r: string)
    ensures StartsWith(r, BaseClasses)
    ensures a.createdBy == Ai <==> EndsWith(r, Pulse)
    ensures a.createdBy == User ==> r == BaseClasses
    ensures a.createdBy == Ai ==> r == BaseClasses + " " + Pulse
  {
    ClassListsDiffer();
    if a.createdBy == Ai then AiClasses else BaseClasses
  }

  /** The class list tells the two creators apart. */
  lemma ClassesShowCreator(a: Annotation, b: Annotation)
    ensures AnnotationClasses(a) == AnnotationClasses(b) <==> a.createdBy == b.createdBy
  {
    if a.createdBy != b.createdBy {
      assert |AiClasses| != |BaseClasses|;
    }
  }

  /** The delete button shows only for the hovered annotation, and only if a user drew it. */
  predicate DeleteButtonVisible(hovered: Option<string>, a: Annotation): (r: bool)
    ensures r <==> hovered == Some(a.id) && !ShowsAiIndicator(a)
  {
    hovered == Some(a.id) && a.createdBy == User
  }

  /** AI annotations always carry the message indicator. */
  predicate ShowsAiIndicator(a: Annotation): (r: bool)
    ensures r <==> EndsWith(AnnotationClasses(a), Pulse)
  {
    a.createdBy == Ai
  }

  /** Where the delete button and the AI indicator are centred: the box's top-right corner. */
  function BadgePoint(a: Annotation): (p: (real, real))
    ensures p == (AnnotationStyle(a).left + AnnotationStyle(a).width, AnnotationStyle(a).top)
  {
    (a.x + a.width, a.y)
  }

  /**
   * An annotation never shows both badges, AI annotations can never be
   * deleted from the overlay, and at most the annotations carrying the
   * hovered id offer deletion.
   */
  lemma BadgesExclusive(hovered: Option<string>, a: Annotation)
    ensures !(DeleteButtonVisible(hovered, a) && ShowsAiIndicator(a))
    ensures ShowsAiIndicator(a) ==> !DeleteButtonVisible(hovered, a)
    ensures hovered == None ==> !DeleteButtonVisible(hovered, a)
    ensures DeleteButtonVisible(hovered, a) ==> hovered == Some(a.id)
  {
  }

  /** The overlay's single piece of state: the id under the pointer. */
  class HoverState {
    var hovered: Option<string>

    constructor ()
      ensures hovered == None
    {
      hovered := None;
    }

    method Enter(a: Annotation)
      modifies this
      ensures hovered == Some(a.id)
      ensures DeleteButtonVisible(hovered, a) <==> a.createdBy == User
    {
      hovered := Some(a.id);
    }

    /** Leaving any annotation clears the hover, so no delete button shows. */
    method Leave()
      modifies this
      ensures hovered == None
      ensures forall a: Annotation :: !DeleteButtonVisible(hovered, a)
    {
      hovered := None;
    }
  }
}
