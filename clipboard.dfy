/** The drag-and-drop destination rectangle list and the null clipboard. */
module Clipboard {
  import opened Wrappers

  /** One destination rectangle; its geometry and mime types are opaque here. */
  datatype DndDestinationRectangle = DndDestinationRectangle(id: nat, x: real, y: real, width: real, height: real, mimeTypes: seq<string>)

  /** `s` read back to front. */
  function Reversed<T>(s: seq<T>): (r: seq<T>)
    ensures |r| == |s|
    ensures forall i :: 0 <= i < |s| ==> r[i] == s[|s| - 1 - i]
  {
    if |s| == 0 then [] else Reversed(s[1..]) + [s[0]]
  }

  /** Reversing twice gives the list back. */
  lemma ReversedTwice<T>(s: seq<T>)
    ensures Reversed(Reversed(s)) == s
  {
    assert forall i :: 0 <= i < |s| ==> Reversed(Reversed(s))[i] == s[i];
  }

  /** The element pushed last comes out first. */
  lemma ReversedPush<T>(s: seq<T>, x: T)
    ensures Reversed(s + [x]) == [x] + Reversed(s)
  {
    assert forall i :: 0 <= i < |s| + 1 ==> Reversed(s + [x])[i] == ([x] + Reversed(s))[i];
  }

  /** A caller-owned `Vec<DndDestinationRectangle>` that `append` drains. */
  class RectangleVec {
    var elems: seq<DndDestinationRectangle>

    constructor (elems: seq<DndDestinationRectangle>)
      ensures this.elems == elems
    {
      this.elems := elems;
    }
  }

  /** `DndDestinationRectangles`: rectangles in the order they were added. */
  class DndDestinationRectangles {
    var rectangles: seq<DndDestinationRectangle>

    /** `new`: an empty list. */
    constructor ()
      ensures rectangles == []
    {
      rectangles := [];
    }

    /** `with_capacity(capacity)`: an empty list; the capacity only reserves memory. */
    constructor WithCapacity(capacity: nat)
      ensures rectangles == []
    {
      rectangles := [];
    }

    /** `push`: the rectangle goes at the end, earlier ones stay as they were. */
    method Push(rectangle: DndDestinationRectangle)
      modifies this
      ensures rectangles == old(rectangles) + [rectangle]
    {
      rectangles := rectangles + [rectangle];
    }

    /** `append`: moves every element of `other`, in order, to the end; `other` is left empty. */
    method Append(other: RectangleVec)
      modifies this, other
      ensures rectangles == old(rectangles) + old(other.elems)
      ensures other.elems == []
    {
      rectangles := rectangles + other.elems;
      other.elems := [];
    }

    /** `into_rectangles`: reverses the list in place and hands it over. */
    method IntoRectangles() returns (r: seq<DndDestinationRectangle>)
      modifies this
      ensures r == Reversed(old(rectangles))
    {
      rectangles := Reversed(rectangles);
      r := rectangles;
    }

    /** `as_ref`: the list in insertion order; reading it changes nothing. */
    function AsRef(): (r: seq<DndDestinationRectangle>)
      reads this
      ensures r == rectangles
    {
      rectangles
    }
  }

  /** The clipboard selection a request targets. */
  datatype Kind = Standard | Primary

  /** The `Null` clipboard: holds nothing. */
  datatype Null = Null
  {
    /** `read`: there is never anything to read. */
    function Read(kind: Kind): (r: Option<string>)
      ensures r.None?
    {
      None
    }

    /** `write`: the contents are dropped and the clipboard stays as it was. */
    function Write(kind: Kind, contents: string): Null
    {
      this
    }
  }
}
