/**
 * The part of `xml.etree.ElementTree` the telemetry report reads: an element has
 * a tag, an attribute dict and child elements, `iter(tag)` visits the element
 * and its descendants in document order, and `e[0]` is the first child.
 */
module ElementTree {
  import opened Outcome
  import opened Python

  datatype Element = Element(tag: string, attrib: Dict, children: seq<Element>)

  /** `e.iter(tag)`: e itself when it has the tag, then each child's matches in
      order (a depth-first walk in document order). */
  function Iter(e: Element, tag: string): seq<Element>
    decreases e, 1
  {
    (if e.tag == tag then [e] else []) + IterChildren(e, 0, tag)
  }

  function IterChildren(e: Element, i: nat, tag: string): seq<Element>
    requires i <= |e.children|
    decreases e, 0, |e.children| - i
  {
    if i == |e.children| then [] else Iter(e.children[i], tag) + IterChildren(e, i + 1, tag)
  }

  /** Everything `iter(tag)` visits has the tag, and an element with the tag
      visits itself first. */
  lemma {:induction false} IterHasTag(e: Element, tag: string)
    ensures forall x :: x in Iter(e, tag) ==> x.tag == tag
    ensures e.tag == tag ==> Iter(e, tag) != [] && Iter(e, tag)[0] == e
    decreases e, 1
  {
    IterChildrenHaveTag(e, 0, tag);
  }

  lemma {:induction false} IterChildrenHaveTag(e: Element, i: nat, tag: string)
    requires i <= |e.children|
    ensures forall x :: x in IterChildren(e, i, tag) ==> x.tag == tag
    decreases e, 0, |e.children| - i
  {
    if i < |e.children| {
      IterHasTag(e.children[i], tag);
      IterChildrenHaveTag(e, i + 1, tag);
    }
  }

  /** Every child with the tag is visited. */
  lemma {:induction false} IterVisitsChildren(e: Element, tag: string, i: nat)
    requires i < |e.children| && e.children[i].tag == tag
    ensures e.children[i] in Iter(e, tag)
  {
    IterChildrenVisit(e, 0, tag, i);
  }

  lemma {:induction false} IterChildrenVisit(e: Element, k: nat, tag: string, i: nat)
    requires k <= i < |e.children| && e.children[i].tag == tag
    ensures e.children[i] in IterChildren(e, k, tag)
    decreases |e.children| - k
  {
    if k == i {
      IterHasTag(e.children[i], tag);
      assert Iter(e.children[i], tag)[0] == e.children[i];
    } else {
      IterChildrenVisit(e, k + 1, tag, i);
    }
  }

  /** `e[0]`. */
  function FirstChild(e: Element): (r: Result<Element>)
    ensures r.Ok? <==> e.children != []
  {
    if e.children == [] then Err(IndexError) else Ok(e.children[0])
  }
}
