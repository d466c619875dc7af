/** Label placement and text alignment from a compass direction given as a string. */
module Geometry {
  import opened Wrappers
  import opened Substrings
  import opened Schema

  /** The offset a label keeps from its anchor point when the caller gives none. */
  const DefaultLabelOffset: real := 25.0

  /** The eight compass directions a label direction may name. */
  predicate IsCompass(dir: string) {
    dir in {"top", "bottom", "left", "right", "top-left", "top-right", "bottom-left", "bottom-right"}
  }

  /** Horizontal unit shift read off the direction's name: "left" is -1, "right" is +1. */
  function Dx(dir: string): real {
    if Contains(dir, "left") then -1.0 else if Contains(dir, "right") then 1.0 else 0.0
  }

  /** Vertical unit shift read off the direction's name (y grows downward): "top" is -1, "bottom" is +1. */
  function Dy(dir: string): real {
    if Contains(dir, "top") then -1.0 else if Contains(dir, "bottom") then 1.0 else 0.0
  }

  lemma ShiftTop(dir: string)
    requires dir == "top"
    ensures Dx(dir) == 0.0 && Dy(dir) == -1.0
  {
    OccurrenceContained(dir, "top", 0);
    AbsentCharNotContained(dir, "left", 'l');
    AbsentCharNotContained(dir, "right", 'r');
  }

  lemma ShiftBottom(dir: string)
    requires dir == "bottom"
    ensures Dx(dir) == 0.0 && Dy(dir) == 1.0
  {
    OccurrenceContained(dir, "bottom", 0);
    AbsentCharNotContained(dir, "left", 'l');
    AbsentCharNotContained(dir, "right", 'r');
    AbsentCharNotContained(dir, "top", 'p');
  }

  lemma ShiftLeft(dir: string)
    requires dir == "left"
    ensures Dx(dir) == -1.0 && Dy(dir) == 0.0
  {
    OccurrenceContained(dir, "left", 0);
    AbsentCharNotContained(dir, "top", 'p');
    AbsentCharNotContained(dir, "bottom", 'b');
  }

  lemma ShiftRight(dir: string)
    requires dir == "right"
    ensures Dx(dir) == 1.0 && Dy(dir) == 0.0
  {
    OccurrenceContained(dir, "right", 0);
    AbsentCharNotContained(dir, "left", 'l');
    AbsentCharNotContained(dir, "top", 'p');
    AbsentCharNotContained(dir, "bottom", 'b');
  }

  lemma ShiftTopLeft(dir: string)
    requires dir == "top-left"
    ensures Dx(dir) == -1.0 && Dy(dir) == -1.0
  {
    OccurrenceContained(dir, "top", 0);
    OccurrenceContained(dir, "left", 4);
  }

  lemma ShiftTopRight(dir: string)
    requires dir == "top-right"
    ensures Dx(dir) == 1.0 && Dy(dir) == -1.0
  {
    OccurrenceContained(dir, "top", 0);
    OccurrenceContained(dir, "right", 4);
    AbsentCharNotContained(dir, "left", 'l');
  }

  lemma ShiftBottomLeft(dir: string)
    requires dir == "bottom-left"
    ensures Dx(dir) == -1.0 && Dy(dir) == 1.0
  {
    OccurrenceContained(dir, "bottom", 0);
    OccurrenceContained(dir, "left", 7);
    AbsentCharNotContained(dir, "top", 'p');
  }

  lemma ShiftBottomRight(dir: string)
    requires dir == "bottom-right"
    ensures Dx(dir) == 1.0 && Dy(dir) == 1.0
  {
    OccurrenceContained(dir, "bottom", 0);
    OccurrenceContained(dir, "right", 7);
    AbsentCharNotContained(dir, "left", 'l');
    AbsentCharNotContained(dir, "top", 'p');
  }

  /**
   * The unit shift of every compass direction is the one its name spells out:
   * each word it contains is found at a known index, each word it lacks has a
   * letter the direction lacks.
   */
  lemma CompassShift(dir: string)
    ensures dir == "top" ==> Dx(dir) == 0.0 && Dy(dir) == -1.0
    ensures dir == "bottom" ==> Dx(dir) == 0.0 && Dy(dir) == 1.0
    ensures dir == "left" ==> Dx(dir) == -1.0 && Dy(dir) == 0.0
    ensures dir == "right" ==> Dx(dir) == 1.0 && Dy(dir) == 0.0
    ensures dir == "top-left" ==> Dx(dir) == -1.0 && Dy(dir) == -1.0
    ensures dir == "top-right" ==> Dx(dir) == 1.0 && Dy(dir) == -1.0
    ensures dir == "bottom-left" ==> Dx(dir) == -1.0 && Dy(dir) == 1.0
    ensures dir == "bottom-right" ==> Dx(dir) == 1.0 && Dy(dir) == 1.0
  {
    if dir == "top" {
      ShiftTop(dir);
    } else if dir == "bottom" {
      ShiftBottom(dir);
    } else if dir == "left" {
      ShiftLeft(dir);
    } else if dir == "right" {
      ShiftRight(dir);
    } else if dir == "top-left" {
      ShiftTopLeft(dir);
    } else if dir == "top-right" {
      ShiftTopRight(dir);
    } else if dir == "bottom-left" {
      ShiftBottomLeft(dir);
    } else if dir == "bottom-right" {
      ShiftBottomRight(dir);
    }
  }

  /**
   * `getLabelPosition`: any string that is not a compass direction behaves
   * like "top"; `LabelShift` states the compass directions. An omitted
   * offset is 25 (an explicit 0 stays 0).
   */
  function LabelPosition(p: Point, dir: string, offset: Option<real>): (r: Point)
    ensures !IsCompass(dir) ==> r == Point(p.x, p.y - offset.GetOr(DefaultLabelOffset))
  {
    var o := offset.GetOr(DefaultLabelOffset);
    if dir == "top" then Point(p.x, p.y - o)
    else if dir == "bottom" then Point(p.x, p.y + o)
    else if dir == "left" then Point(p.x - o, p.y)
    else if dir == "right" then Point(p.x + o, p.y)
    else if dir == "top-left" then Point(p.x - o, p.y - o)
    else if dir == "top-right" then Point(p.x + o, p.y - o)
    else if dir == "bottom-left" then Point(p.x - o, p.y + o)
    else if dir == "bottom-right" then Point(p.x + o, p.y + o)
    else Point(p.x, p.y - o)
  }

  /**
   * A compass direction moves the point by exactly the offset along each
   * axis its name mentions, and leaves the other axis alone.
   */
  lemma LabelShift(p: Point, dir: string, offset: Option<real>)
    requires IsCompass(dir)
    ensures var o := offset.GetOr(DefaultLabelOffset);
      LabelPosition(p, dir, offset) == Point(p.x + Dx(dir) * o, p.y + Dy(dir) * o)
  {
    if dir == "top" {
      ShiftTop(dir);
    } else if dir == "bottom" {
      ShiftBottom(dir);
    } else if dir == "left" {
      ShiftLeft(dir);
    } else if dir == "right" {
      ShiftRight(dir);
    } else if dir == "top-left" {
      ShiftTopLeft(dir);
    } else if dir == "top-right" {
      ShiftTopRight(dir);
    } else if dir == "bottom-left" {
      ShiftBottomLeft(dir);
    } else {
      ShiftBottomRight(dir);
    }
  }

  /** With offset 0 every direction, known or not, leaves the point where it is. */
  lemma ZeroOffsetKeepsPoint(p: Point, dir: string)
    ensures LabelPosition(p, dir, Some(0.0)) == p
  {
    if IsCompass(dir) {
      LabelShift(p, dir, Some(0.0));
    }
  }

  /** SVG `text-anchor` values. */
  datatype Anchor = Start | Middle | End

  /**
   * `getTextAnchor`: "end" when "left" occurs in the direction (this wins
   * over "right"), else "start" when "right" occurs, else "middle"; so the
   * anchor follows the horizontal shift the direction's name spells out.
   */
  function TextAnchor(dir: string): (r: Anchor)
    ensures Contains(dir, "left") && Contains(dir, "right") ==> r == End
    ensures r == End <==> Dx(dir) < 0.0
    ensures r == Start <==> Dx(dir) > 0.0
    ensures r == Middle <==> Dx(dir) == 0.0
  {
    if Contains(dir, "left") then End
    else if Contains(dir, "right") then Start
    else Middle
  }

  /**
   * The anchor always faces away from the node: for a compass direction and a
   * positive offset, a label placed to the left ends at its point, one placed
   * to the right starts there, and one straight above or below is centred.
   */
  lemma AnchorFacesAwayFromPoint(p: Point, dir: string, o: real)
    requires IsCompass(dir) && o > 0.0
    ensures TextAnchor(dir) == End <==> LabelPosition(p, dir, Some(o)).x < p.x
    ensures TextAnchor(dir) == Start <==> LabelPosition(p, dir, Some(o)).x > p.x
    ensures TextAnchor(dir) == Middle <==> LabelPosition(p, dir, Some(o)).x == p.x
  {
    LabelShift(p, dir, Some(o));
  }

  /** The anchors the direction names produce: top-left ends, top-right starts, bottom is centred. */
  lemma CompassAnchors()
    ensures TextAnchor("top-left") == End && TextAnchor("bottom-left") == End && TextAnchor("left") == End
    ensures TextAnchor("top-right") == Start && TextAnchor("bottom-right") == Start && TextAnchor("right") == Start
    ensures TextAnchor("top") == Middle && TextAnchor("bottom") == Middle
  {
    CompassShift("top-left");
    CompassShift("bottom-left");
    CompassShift("left");
    CompassShift("top-right");
    CompassShift("bottom-right");
    CompassShift("right");
    CompassShift("top");
    CompassShift("bottom");
  }
}
