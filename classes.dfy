/** The class table `CLASSES_ATTRS` and the loop that draws every decoded box
    with the colour and name of its class. */
module Classes {
  import opened Options
  import opened Decoder

  /** A class's display name and stroke colour. */
  datatype ClassAttr = ClassAttr(name: string, color: string)

  /** `CLASSES_ATTRS`: exactly the keys 0, 1 and 2. */
  const ClassesAttrs: map<int, ClassAttr> :=
    map[0 := ClassAttr("zebra", "#ff355e"),
        1 := ClassAttr("zebroid", "#66ff66"),
        2 := ClassAttr("horse", "#33ddff")]

  /** The table holds zebra, zebroid and horse under 0, 1 and 2, each with
      its own colour, and nothing else. */
  lemma ClassTable()
    ensures ClassesAttrs.Keys == {0, 1, 2}
    ensures ClassesAttrs[0] == ClassAttr("zebra", "#ff355e")
    ensures ClassesAttrs[1] == ClassAttr("zebroid", "#66ff66")
    ensures ClassesAttrs[2] == ClassAttr("horse", "#33ddff")
    ensures forall i, j | i in ClassesAttrs && j in ClassesAttrs && i != j ::
              ClassesAttrs[i].color != ClassesAttrs[j].color
  {
  }

  /** `CLASSES_ATTRS[Number(classId)]`: the number is turned into a property
      key, so only an integral value that is a key of the table finds an
      entry; any other value reads `undefined`. */
  function Lookup(classId: real): Option<ClassAttr>
  {
    if classId == classId.Floor as real && classId.Floor in ClassesAttrs
    then Some(ClassesAttrs[classId.Floor])
    else None
  }

  /** The lookup succeeds exactly for the class ids 0, 1 and 2. */
  lemma LookupDefinedIff(classId: real)
    ensures Lookup(classId).Some? <==> classId == 0.0 || classId == 1.0 || classId == 2.0
    ensures Lookup(classId).Some? ==> Lookup(classId).value == ClassesAttrs[classId.Floor]
  {
  }

  /** What is drawn for one box: its rectangle stroked in the class colour
      and a label made of the class name and the score. */
  datatype Overlay = Overlay(color: string, name: string, rect: Rect, probability: real)

  function OverlayOf(box: Box, attrs: ClassAttr): Overlay
  {
    Overlay(attrs.color, attrs.name, box.bounding, box.probability)
  }

  /** Every box's class is in the table. */
  predicate AllKnown(boxes: seq<Box>)
  {
    forall i | 0 <= i < |boxes| :: Lookup(boxes[i].classId).Some?
  }

  /** What `boxes.forEach` draws: reading `attrs.color` of a missing entry
      throws, so drawing stops at the first box of an unknown class. */
  function Drawn(boxes: seq<Box>): seq<Overlay>
  {
    if boxes == [] then []
    else match Lookup(boxes[0].classId)
      case None => []
      case Some(attrs) => [OverlayOf(boxes[0], attrs)] + Drawn(boxes[1..])
  }

  /** The drawn overlays are those of the boxes before the first box of an
      unknown class, in order: all boxes when every class is known. */
  lemma {:induction false} DrawnIsKnownPrefix(boxes: seq<Box>)
    ensures |Drawn(boxes)| <= |boxes|
    ensures forall j | 0 <= j < |Drawn(boxes)| ::
              Lookup(boxes[j].classId).Some? &&
              Drawn(boxes)[j] == OverlayOf(boxes[j], Lookup(boxes[j].classId).value)
    ensures |Drawn(boxes)| < |boxes| ==> Lookup(boxes[|Drawn(boxes)|].classId).None?
    ensures |Drawn(boxes)| == |boxes| <==> AllKnown(boxes)
  {
    if boxes != [] && Lookup(boxes[0].classId).Some? {
      var tail := boxes[1..];
      DrawnIsKnownPrefix(tail);
      assert forall j | 0 < j < |boxes| :: boxes[j] == tail[j - 1];
    }
  }

  /** The loop of `boxes.forEach`: for each box, look up its class and draw
      it. `completed` is false when the lookup of some box failed and the
      callback threw there. */
  method Render(boxes: seq<Box>) returns (drawn: seq<Overlay>, completed: bool)
    ensures drawn == Drawn(boxes)
    ensures completed <==> AllKnown(boxes)
  {
    drawn := [];
    var i := 0;
    while i < |boxes|
      invariant 0 <= i <= |boxes|
      invariant forall j | 0 <= j < i :: Lookup(boxes[j].classId).Some?
      invariant Drawn(boxes) == drawn + Drawn(boxes[i..])
    {
      var attrs := Lookup(boxes[i].classId);
      if attrs.None? {
        completed := false;
        return;
      }
      assert boxes[i..][1..] == boxes[i + 1..];
      drawn := drawn + [OverlayOf(boxes[i], attrs.value)];
      i := i + 1;
    }
    completed := true;
  }
}
