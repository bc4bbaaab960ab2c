/** An already-parsed XML document, seen the way SimpleXML lets PHP code see it:
    an element has a name, its own text, and its child elements in document order.
    Property access `$e->name` yields the first child with that name (or an empty
    element when there is none), and `foreach ($e->name as $c)` visits every child
    with that name, in document order. */
module SimpleXml {

  datatype Element = Element(name: string, text: string, children: seq<Element>)

  /** What property access yields for a child that does not exist: an element
      with no text and no children. */
  const Absent: Element := Element("", "", [])

  /** The elements of `s` named `name`, in the order they appear in `s`. */
  function Named(s: seq<Element>, name: string): (r: seq<Element>)
    ensures |r| <= |s|
  {
    if s == [] then []
    else if s[0].name == name then [s[0]] + Named(s[1..], name)
    else Named(s[1..], name)
  }

  /** `foreach ($e->name as $c)`: every child of `e` named `name`. */
  function Children(e: Element, name: string): (r: seq<Element>)
  {
    Named(e.children, name)
  }

  /** `$e->name`: the first child of `e` named `name`, or `Absent`. */
  function Child(e: Element, name: string): (r: Element)
  {
    var cs := Children(e, name);
    if |cs| > 0 then cs[0] else Absent
  }

  /** Iteration keeps document order and skips nothing: visiting a document split
      in two visits the first part's matches, then the second part's. */
  lemma {:induction false} NamedDistributes(a: seq<Element>, b: seq<Element>, name: string)
    ensures Named(a + b, name) == Named(a, name) + Named(b, name)
  {
    if a != [] {
      NamedDistributes(a[1..], b, name);
      assert (a + b)[1..] == a[1..] + b;
    } else {
      assert a + b == b;
    }
  }

  /** A single element is visited exactly when it carries the name. */
  lemma NamedSingle(c: Element, name: string)
    ensures Named([c], name) == if c.name == name then [c] else []
  {
    assert [c][1..] == [];
  }

  /** When no element carries the name, iteration visits nothing. */
  lemma {:induction false} NamedNone(s: seq<Element>, name: string)
    requires forall i :: 0 <= i < |s| ==> s[i].name != name
    ensures Named(s, name) == []
  {
    if s != [] {
      NamedNone(s[1..], name);
    }
  }

  /** Property access returns the element that iteration visits first: the child
      at the least position carrying the name, and `Absent` when there is none. */
  lemma ChildIsFirstNamed(e: Element, name: string, i: nat)
    requires i < |e.children| && e.children[i].name == name
    requires forall k :: 0 <= k < i ==> e.children[k].name != name
    ensures Child(e, name) == e.children[i]
  {
    var s := e.children;
    assert s == s[..i] + s[i..];
    NamedDistributes(s[..i], s[i..], name);
    NamedNone(s[..i], name);
  }

  /** No child with the name: property access yields `Absent`. */
  lemma ChildMissing(e: Element, name: string)
    requires forall i :: 0 <= i < |e.children| ==> e.children[i].name != name
    ensures Children(e, name) == [] && Child(e, name) == Absent
  {
    NamedNone(e.children, name);
  }

  /** In this model, chained property access through a missing element keeps
      yielding `Absent`; SimpleXML itself yields null one level further down. */
  lemma ChildOfAbsent(name: string)
    ensures Child(Absent, name) == Absent
    ensures Children(Absent, name) == []
  {
  }
}
