/**
 The UI sink: the widget's rendered elements, found by CSS selector. Each element carries the
 value of its style attribute, its class list and its text content. A selector that matches
 nothing has no entry.
 */
module Dom {

  datatype Element = Element(style: string, classes: set<string>, text: string)

  class Document {
    /** The elements of the widget that the selectors used here can find. */
    var elems: map<string, Element>

    constructor (elems: map<string, Element>)
      ensures this.elems == elems
    {
      this.elems := elems;
    }

    /** `QuerySelector(sel) != nil`. */
    method QuerySelector(sel: string) returns (found: bool)
      ensures found <==> sel in elems
    {
      found := sel in elems;
    }

    /** `SetAttribute("style", style)` on the element at sel. */
    method SetStyle(sel: string, style: string)
      requires sel in elems
      modifies this
      ensures elems == old(elems)[sel := old(elems)[sel].(style := style)]
    {
      elems := elems[sel := elems[sel].(style := style)];
    }

    /** `Class().Remove(c)` on the element at sel. */
    method RemoveClass(sel: string, c: string)
      requires sel in elems
      modifies this
      ensures elems == old(elems)[sel := old(elems)[sel].(classes := old(elems)[sel].classes - {c})]
    {
      elems := elems[sel := elems[sel].(classes := elems[sel].classes - {c})];
    }

    /** `Class().Add(c)` on the element at sel. */
    method AddClass(sel: string, c: string)
      requires sel in elems
      modifies this
      ensures elems == old(elems)[sel := old(elems)[sel].(classes := old(elems)[sel].classes + {c})]
    {
      elems := elems[sel := elems[sel].(classes := elems[sel].classes + {c})];
    }

    /** `SetTextContent(text)` on the element at sel. */
    method SetTextContent(sel: string, text: string)
      requires sel in elems
      modifies this
      ensures elems == old(elems)[sel := old(elems)[sel].(text := text)]
    {
      elems := elems[sel := elems[sel].(text := text)];
    }
  }
}
