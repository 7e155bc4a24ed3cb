/**
 * The DOM tree of smelter-ui as the builder assembles it: each element owns
 * an ordered list of children that only ever grows at its end.
 */
module Elements {

  /** The kinds of element that smelter-ui's `element.rs` declares. */
  datatype DomElementType = Div

  /**
   * `DOMElement`, whose `DOMElementState` holds the child list. The element
   * is shared (`Arc`) and its child list changes in place, so it is an object.
   */
  class DomElement {
    var children: seq<DomElement>

    /** `DOMElement::new(tp)`: a fresh element with no children; `tp` is not kept. */
    constructor (tp: DomElementType)
      ensures children == []
    {
      children := [];
    }

    /**
     * `push_child(e)`: `e` becomes the last child; the earlier children stay
     * as they were, and nothing checks whether `e` is already a child.
     */
    method PushChild(e: DomElement)
      modifies this
      ensures children == old(children) + [e]
      ensures |children| == |old(children)| + 1 && children[|children| - 1] == e
      ensures multiset(children)[e] == multiset(old(children))[e] + 1
    {
      children := children + [e];
    }
  }
}
