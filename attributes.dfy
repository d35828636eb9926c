/**
 * `noDrag(element)`: whether an element vetoes starting a drag from it.
 *
 * An element's attributes are a map from attribute name to value; reading
 * an absent attribute yields JavaScript's `undefined`, modelled as `None`.
 */
module Attributes {

  datatype Option<T> = None | Some(value: T)

  type Attrs = map<string, string>

  /** `element.attr(name)`: the attribute's value, or `None` when it is absent. */
  function Attr(attrs: Attrs, name: string): (r: Option<string>)
    ensures r.Some? <==> name in attrs
    ensures r.Some? ==> r.value == attrs[name]
  {
    if name in attrs then Some(attrs[name]) else None
  }

  /** `noDrag(element)`: the element carries `nodrag` or `data-nodrag`, whatever the value. */
  predicate NoDrag(attrs: Attrs): (veto: bool)
    ensures veto <==> "nodrag" in attrs || "data-nodrag" in attrs
  {
    Attr(attrs, "nodrag").Some? || Attr(attrs, "data-nodrag").Some?
  }

  /** Only presence counts: either attribute vetoes with any value, the empty string included. */
  lemma NoDragIgnoresValue(attrs: Attrs, v: string)
    ensures NoDrag(attrs["nodrag" := v])
    ensures NoDrag(attrs["data-nodrag" := v])
  {
  }

  /** Elements with the same attribute names get the same verdict, whatever their values. */
  lemma NoDragDependsOnNamesOnly(a: Attrs, b: Attrs)
    requires a.Keys == b.Keys
    ensures NoDrag(a) == NoDrag(b)
  {
  }

  /** Adding or changing any other attribute does not change the verdict. */
  lemma NoDragIgnoresOtherAttributes(attrs: Attrs, name: string, v: string)
    requires name != "nodrag" && name != "data-nodrag"
    ensures NoDrag(attrs[name := v]) == NoDrag(attrs)
  {
  }
}
