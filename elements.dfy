/** The abstract XML element tree the writers build with ElementTree: a tag,
    an attribute dictionary, ordered children and an optional text. */
module Elements {
  import opened Wrappers
  import opened Decimal

  datatype Element = Element(
    tag: string,
    attrs: map<string, string>,
    children: seq<Element>,
    text: Option<string>)

  /** `et.Element(tag, **attrs)`: no children, no text. */
  function Node(tag: string, attrs: map<string, string>): Element {
    Element(tag, attrs, [], None)
  }

  /** `create_property` / `_create_property`: a `property` element whose
      `name` attribute is the key and whose text is the value, if any. */
  function Property(name: string, text: Option<string>): Element {
    Element("property", map["name" := name], [], text)
  }

  predicate IsProperty(e: Element, name: string) {
    e.tag == "property" && "name" in e.attrs && e.attrs["name"] == name
  }

  /** `find('./property/[@name="<name>"]')`: the index of the first child
      that is a property of that name. */
  function FindProperty(children: seq<Element>, name: string): (r: Option<nat>)
    ensures r.Some? ==> r.value < |children| && IsProperty(children[r.value], name)
    ensures r.Some? ==> forall j :: 0 <= j < r.value ==> !IsProperty(children[j], name)
    ensures r.None? ==> forall j :: 0 <= j < |children| ==> !IsProperty(children[j], name)
  {
    if |children| == 0 then None
    else if IsProperty(children[0], name) then Some(0)
    else match FindProperty(children[1..], name)
      case None => None
      case Some(i) => Some(i + 1)
  }

  predicate HasProperty(e: Element, name: string) {
    FindProperty(e.children, name).Some?
  }

  /** The text of the first property of that name, if there is one. */
  function PropertyText(e: Element, name: string): Option<string> {
    match FindProperty(e.children, name)
    case None => None
    case Some(i) => e.children[i].text
  }

  /** `int(e.attrib[key])`, None when the key is missing or not a numeral. */
  function IntAttr(e: Element, key: string): Option<int> {
    if key in e.attrs then ParseInt(e.attrs[key]) else None
  }

  /** `int(e.attrib[key])` with Python's failures: KeyError when the key is
      missing, ValueError when its value is not a numeral. */
  function IntAttrOr(e: Element, key: string): (r: Result<int>)
    ensures r.Success? <==> IntAttr(e, key).Some?
    ensures r.Success? ==> r.value == IntAttr(e, key).value
  {
    if key !in e.attrs then Failure(KeyError)
    else match ParseInt(e.attrs[key])
      case None => Failure(ValueError)
      case Some(v) => Success(v)
  }

  /** The number of frames an element's `out` lies after its `in`. */
  function Span(e: Element): Option<int> {
    match (IntAttr(e, "in"), IntAttr(e, "out"))
    case (Some(i), Some(o)) => Some(o - i)
    case _ => None
  }

  /** `e.attrib[key] = value`. */
  function SetAttr(e: Element, key: string, value: string): Element {
    e.(attrs := e.attrs[key := value])
  }

  /** `findall(tag)`: the direct children with that tag, in order. */
  function ChildrenTagged(children: seq<Element>, tag: string): (r: seq<Element>)
    ensures forall k :: 0 <= k < |r| ==> r[k].tag == tag
    ensures |r| <= |children|
  {
    if |children| == 0 then []
    else if children[0].tag == tag then [children[0]] + ChildrenTagged(children[1..], tag)
    else ChildrenTagged(children[1..], tag)
  }

  /** `findall` keeps every child with the tag and nothing else. */
  lemma {:induction false} ChildrenTaggedKeeps(children: seq<Element>, tag: string)
    ensures forall e :: e in ChildrenTagged(children, tag) <==> e in children && e.tag == tag
    decreases |children|
  {
    if |children| > 0 {
      ChildrenTaggedKeeps(children[1..], tag);
      assert forall e :: e in children <==> e == children[0] || e in children[1..];
    }
  }

  /** `findall` keeps the children's order: the children of a concatenation
      are found as those of the first part, then those of the second. */
  lemma {:induction false} ChildrenTaggedSplit(xs: seq<Element>, ys: seq<Element>, tag: string)
    ensures ChildrenTagged(xs + ys, tag) == ChildrenTagged(xs, tag) + ChildrenTagged(ys, tag)
    decreases |xs|
  {
    if |xs| == 0 {
      assert xs + ys == ys;
    } else {
      assert (xs + ys)[0] == xs[0];
      assert (xs + ys)[1..] == xs[1..] + ys;
      ChildrenTaggedSplit(xs[1..], ys, tag);
    }
  }

  // ---------------------------------------------------------------------
  // Search by attribute and numbered ids

  predicate Matches(e: Element, key: string, value: string) {
    key in e.attrs && e.attrs[key] == value
  }

  /** The index of the first element whose attribute `key` is `value`. */
  function FirstMatch(es: seq<Element>, key: string, value: string): (r: Option<nat>)
    ensures r.Some? ==> r.value < |es| && Matches(es[r.value], key, value)
    ensures r.Some? ==> forall j :: 0 <= j < r.value ==> !Matches(es[j], key, value)
    ensures r.None? <==> forall j :: 0 <= j < |es| ==> !Matches(es[j], key, value)
  {
    if |es| == 0 then None
    else if Matches(es[0], key, value) then Some(0)
    else match FirstMatch(es[1..], key, value)
      case None => None
      case Some(i) => Some(i + 1)
  }

  /** Every element of `es` is `{prefix}{i}` at position i: the elements were
      appended one at a time, each named after the length at that moment. */
  predicate Numbered(es: seq<Element>, prefix: string)
    decreases |es|
  {
    |es| == 0 ||
    (Numbered(es[..|es| - 1], prefix) && Matches(es[|es| - 1], "id", prefix + NatToString(|es| - 1)))
  }

  /** The i-th element of a numbered list is `{prefix}{i}`. */
  lemma {:induction false} NumberedAt(es: seq<Element>, prefix: string, i: nat)
    requires Numbered(es, prefix) && i < |es|
    ensures Matches(es[i], "id", prefix + NatToString(i))
    decreases |es|
  {
    if i < |es| - 1 {
      var front := es[..|es| - 1];
      NumberedAt(front, prefix, i);
      assert front[i] == es[i];
    }
  }

  /** Ids taken from the collection length at creation are pairwise distinct:
      `{prefix}{i}` is the id of element i and of no other. */
  lemma {:induction false} NumberedIdsDistinct(es: seq<Element>, prefix: string)
    requires Numbered(es, prefix)
    ensures forall i, j :: 0 <= i < |es| && 0 <= j < |es| && i != j ==>
              !Matches(es[j], "id", prefix + NatToString(i))
  {
    forall i, j | 0 <= i < |es| && 0 <= j < |es| && i != j
      ensures !Matches(es[j], "id", prefix + NatToString(i))
    {
      NumberedAt(es, prefix, j);
      PrefixedNumeralsDistinct(prefix, i, j);
    }
  }

  /** So the search for `{prefix}{k}` finds the k-th element. */
  lemma {:induction false} NumberedLookup(es: seq<Element>, prefix: string, k: nat)
    requires Numbered(es, prefix) && k < |es|
    ensures FirstMatch(es, "id", prefix + NatToString(k)) == Some(k)
  {
    NumberedIdsDistinct(es, prefix);
    NumberedAt(es, prefix, k);
  }

  /** The id the next element would get is not yet taken (the lookup in
      `_create_producer` never hits, and the main tractor's id is fresh). */
  lemma {:induction false} NextIdIsFree(es: seq<Element>, prefix: string)
    requires Numbered(es, prefix)
    ensures FirstMatch(es, "id", prefix + NatToString(|es|)) == None
  {
    forall j | 0 <= j < |es|
      ensures !Matches(es[j], "id", prefix + NatToString(|es|))
    {
      NumberedAt(es, prefix, j);
      PrefixedNumeralsDistinct(prefix, j, |es|);
    }
  }

  /** The bare prefix is never an id (the lookup in `_create_color_producer`
      never hits). */
  lemma {:induction false} BareIdIsFree(es: seq<Element>, prefix: string)
    requires Numbered(es, prefix)
    ensures FirstMatch(es, "id", prefix) == None
  {
    forall j | 0 <= j < |es|
      ensures !Matches(es[j], "id", prefix)
    {
      NumberedAt(es, prefix, j);
      PrefixedNumeralNotPrefix(prefix, j);
    }
  }

  /** Appending `{prefix}{n}` to n numbered elements keeps them numbered. */
  lemma NumberedAppended(es: seq<Element>, prefix: string, e: Element)
    requires Numbered(es, prefix) && Matches(e, "id", prefix + NatToString(|es|))
    ensures Numbered(es + [e], prefix)
  {
    assert (es + [e])[..|es|] == es;
  }
}
