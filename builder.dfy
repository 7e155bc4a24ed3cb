/**
 * smelter-ui's `DocumentBuilder`: a cursor into the tree being declared (the
 * current element and the stack of its enclosing elements) and the list of
 * top-level elements. New elements go under the current element, or become
 * roots when there is none.
 */
module Builder {
  import opened Wrappers
  import opened Elements

  /** Where the builder stands: the current element and the enclosing ones. */
  datatype Nesting = Nesting(current: Option<DomElement>, stack: seq<DomElement>) {
    /** Without a current element there is nothing to return to. */
    predicate Valid() {
      current.None? ==> stack == []
    }
  }

  /**
   * `enter_children(e)`: the current element, if any, is pushed, and `e`
   * becomes current.
   */
  function Enter(n: Nesting, e: DomElement): (r: Nesting)
    ensures r.Valid() && r.current == Some(e)
    ensures n.current.None? ==> r.stack == n.stack
    ensures n.current.Some? ==>
              |r.stack| == |n.stack| + 1 && r.stack[..|n.stack|] == n.stack && r.stack[|n.stack|] == n.current.value
  {
    match n.current
    case None => Nesting(Some(e), n.stack)
    case Some(c) => Nesting(Some(e), n.stack + [c])
  }

  /**
   * `leave_children`: the top of the stack becomes current, or there is no
   * current element when the stack is empty.
   */
  function Leave(n: Nesting): (r: Nesting)
    ensures r.Valid()
    ensures n.stack == [] ==> r == Nesting(None, [])
    ensures n.stack != [] ==>
              r.current == Some(n.stack[|n.stack| - 1]) && r.stack + [n.stack[|n.stack| - 1]] == n.stack
  {
    if n.stack == [] then Nesting(None, [])
    else Nesting(Some(n.stack[|n.stack| - 1]), n.stack[..|n.stack| - 1])
  }

  /** Entering an element and leaving it again puts the builder back where it stood. */
  lemma LeaveAfterEnter(n: Nesting, e: DomElement)
    requires n.Valid()
    ensures Leave(Enter(n, e)) == n
  {
    match n.current
    case None =>
      assert n.stack == [];
    case Some(c) =>
      assert (n.stack + [c])[..|n.stack|] == n.stack;
  }

  /**
   * Without validity a round trip can lose the stack: a nesting with no
   * current element but a non-empty stack comes back with the top of the
   * stack as current.
   */
  lemma LeaveAfterEnterNeedsValid(e: DomElement, f: DomElement)
    ensures !Nesting(None, [f]).Valid()
    ensures Leave(Enter(Nesting(None, [f]), e)) == Nesting(Some(f), [])
  {
    assert [f][..0] == [];
  }

  /** `DOMDocument`: the top-level elements, in creation order. */
  datatype DomDocument = DomDocument(elements: seq<DomElement>)

  class DocumentBuilder {
    var roots: seq<DomElement>
    var parentStack: seq<DomElement>
    var current: Option<DomElement>

    function Position(): Nesting
      reads this
    {
      Nesting(current, parentStack)
    }

    ghost predicate Valid()
      reads this
    {
      Position().Valid()
    }

    /** The element that `create_element` may change: the current one. */
    function Target(): set<object>
      reads this
    {
      if current.Some? then {current.value} else {}
    }

    /** `DocumentBuilder::new()`: no roots, no current element, an empty stack. */
    constructor ()
      ensures Valid()
      ensures roots == [] && parentStack == [] && current == None
    {
      roots, parentStack, current := [], [], None;
    }

    /** `build()`: the document holds exactly the root elements. */
    method Build() returns (doc: DomDocument)
      ensures doc.elements == roots
    {
      doc := DomDocument(roots);
    }

    /** `enter_children(e)`. */
    method EnterChildren(e: DomElement)
      modifies this
      ensures Valid()
      ensures Position() == Enter(old(Position()), e)
      ensures roots == old(roots)
    {
      if current.Some? {
        parentStack := parentStack + [current.value];
      }
      current := Some(e);
    }

    /** `leave_children(e)`: `e` must be the current element when there is one. */
    method LeaveChildren(e: DomElement)
      requires current.Some? ==> current.value == e
      modifies this
      ensures Valid()
      ensures Position() == Leave(old(Position()))
      ensures roots == old(roots)
    {
      if |parentStack| == 0 {
        current := None;
      } else {
        current := Some(parentStack[|parentStack| - 1]);
        parentStack := parentStack[..|parentStack| - 1];
      }
    }

    /**
     * `create_element(tp)`: a fresh element with no children, appended to
     * the current element's children, or to the roots when there is no
     * current element. Where the builder stands does not change.
     */
    method CreateElement(tp: DomElementType) returns (e: DomElement)
      modifies this, Target()
      ensures fresh(e) && e.children == []
      ensures Position() == old(Position())
      ensures old(current).None? ==> roots == old(roots) + [e]
      ensures old(current).Some? ==>
                roots == old(roots) && current.value.children == old(current.value.children) + [e]
    {
      e := new DomElement(tp);
      if current.Some? {
        current.value.PushChild(e);
      } else {
        roots := roots + [e];
      }
    }
  }
}
