/**
 * The declarative layer of smelter-ui: `Element::new(context)` creates one
 * element through the builder, and `.children(f)` runs the body `f` with that
 * element as the builder's current element.
 *
 * A body is a closure over the builder; here it is the sequence of element
 * declarations it makes, in order, each of them optionally with a body of its
 * own.
 */
module Declare {
  import opened Elements
  import opened Builder

  /** One `Element::new(context)`, followed by `.children(..)` when it has a body. */
  datatype Decl = Leaf | Parent(body: seq<Decl>)

  /** The number of elements a declaration creates, itself included. */
  function Size(d: Decl): (r: nat)
    ensures r >= 1
  {
    match d
    case Leaf => 1
    case Parent(body) => 1 + SizeAll(body)
  }

  function SizeAll(ds: seq<Decl>): (r: nat)
    ensures forall i | 0 <= i < |ds| :: Size(ds[i]) <= r
    ensures ds != [] ==> r >= |ds|
  {
    if ds == [] then 0 else Size(ds[0]) + SizeAll(ds[1..])
  }

  /** The number of children a declaration gives its element directly. */
  function Width(d: Decl): nat {
    if d.Leaf? then 0 else |d.body|
  }

  /** `Element<'a, Ctx>`: the builder and the element just created through it. */
  datatype Element = Element(context: DocumentBuilder, element: DomElement)

  /**
   * `Element::new(context)`: exactly one new element, registered through
   * `create_element`, under the current element or as a new root.
   */
  method NewElement(context: DocumentBuilder) returns (w: Element)
    modifies context, context.Target()
    ensures w.context == context && fresh(w.element) && w.element.children == []
    ensures context.Position() == old(context.Position())
    ensures old(context.current).None? ==> context.roots == old(context.roots) + [w.element]
    ensures old(context.current).Some? ==>
              context.roots == old(context.roots)
              && context.current.value.children == old(context.current.value.children) + [w.element]
  {
    var e := context.CreateElement(Div);
    w := Element(context, e);
  }

  /**
   * `children(f)`: enter the element, run the body, leave the element, and
   * hand back the same wrapper. A body is balanced, so the builder stands
   * where it stood; the elements the body declares directly become the
   * element's new children, in order, and no root is added.
   */
  method Children(w: Element, body: seq<Decl>) returns (r: Element, ghost created: seq<DomElement>)
    requires w.context.Valid()
    modifies w.context, w.element
    ensures r == w
    ensures w.context.Position() == old(w.context.Position())
    ensures w.context.roots == old(w.context.roots)
    ensures w.element.children == old(w.element.children) + created
    ensures |created| == |body|
    ensures forall i | 0 <= i < |body| :: fresh(created[i]) && |created[i].children| == Width(body[i])
    decreases SizeAll(body), 1
  {
    var b, e := w.context, w.element;
    ghost var start := b.Position();
    b.EnterChildren(e);
    created := [];
    var i := 0;
    while i < |body|
      invariant 0 <= i <= |body|
      invariant b.Valid() && b.Position() == Enter(start, e)
      invariant b.roots == old(b.roots)
      invariant e.children == old(e.children) + created
      invariant |created| == i
      invariant forall j | 0 <= j < i :: fresh(created[j]) && |created[j].children| == Width(body[j])
    {
      var c := Declare(b, body[i]);
      created := created + [c];
      i := i + 1;
    }
    b.LeaveChildren(e);
    LeaveAfterEnter(start, e);
    r := w;
  }

  /**
   * One declaration: a new element under the current element (or a new
   * root), given as many children as the declaration's body lists; the
   * builder ends where it started.
   */
  method Declare(b: DocumentBuilder, d: Decl) returns (e: DomElement)
    requires b.Valid()
    modifies b, b.Target()
    ensures b.Valid() && b.Position() == old(b.Position())
    ensures fresh(e) && |e.children| == Width(d)
    ensures old(b.current).None? ==> b.roots == old(b.roots) + [e]
    ensures old(b.current).Some? ==>
              b.roots == old(b.roots) && b.current.value.children == old(b.current.value.children) + [e]
    decreases Size(d), 0
  {
    var w := NewElement(b);
    if d.Parent? {
      var _, _ := Children(w, d.body);
    }
    e := w.element;
  }

  /**
   * smelter-ui's own test: an element whose body declares one element with
   * an empty body builds a document with exactly one root, which has
   * exactly one child.
   */
  method NestedBuild() returns (roots: nat, children: nat)
    ensures roots == 1 && children == 1
  {
    var builder := new DocumentBuilder();
    var outer := Declare(builder, Parent([Parent([])]));
    var document := builder.Build();
    roots := |document.elements|;
    children := |outer.children|;
  }
}
