// The DOM tree the builders grow: an element has a qualified name ("cbc:ID"),
// an optional text node, attributes and an ordered list of children.
module Xml {
  import opened Wrappers

  datatype Element = Element(name: string, text: Option<string>, attrs: map<string, string>, children: seq<Element>)

  const PostalAddress := "cac:PostalAddress"
  const Country := "cac:Country"

  /** createElement(prefix, name, value, attributes): a detached element `prefix:name`
    * carrying a text node when value is not null. */
  function NewElement(prefix: string, localName: string, value: Option<string>, attrs: map<string, string>): (e: Element)
    ensures e.name == prefix + ":" + localName && e.text == value && e.attrs == attrs && e.children == []
  {
    Element(prefix + ":" + localName, value, attrs, [])
  }

  /** appendChild: the child becomes the last child and nothing else about the parent changes. */
  function AppendChild(parent: Element, child: Element): (p: Element)
    ensures p.name == parent.name && p.text == parent.text && p.attrs == parent.attrs
    ensures |p.children| == |parent.children| + 1 && p.children[..|parent.children|] == parent.children
    ensures p.children[|parent.children|] == child
  {
    parent.(children := parent.children + [child])
  }

  /** Appending each of cs in turn: they become the last children, in order. */
  function AppendAll(parent: Element, cs: seq<Element>): (p: Element)
    ensures p.name == parent.name && p.text == parent.text && p.attrs == parent.attrs
    ensures p.children == parent.children + cs
  {
    parent.(children := parent.children + cs)
  }

  /** A childless element with text and attributes. */
  function Leaf(qname: string, value: Option<string>, attrs: map<string, string>): Element
  {
    Element(qname, value, attrs, [])
  }

  /** A childless element with text. */
  function Text(qname: string, value: string): Element
  {
    Element(qname, Some(value), map[], [])
  }

  /** A container element. */
  function Node(qname: string, children: seq<Element>): Element
  {
    Element(qname, None, map[], children)
  }

  function ChildNames(cs: seq<Element>): (r: seq<string>)
    ensures |r| == |cs| && forall i :: 0 <= i < |cs| ==> r[i] == cs[i].name
  {
    if cs == [] then [] else [cs[0].name] + ChildNames(cs[1..])
  }

  lemma ChildNamesAppend(a: seq<Element>, b: seq<Element>)
    ensures ChildNames(a + b) == ChildNames(a) + ChildNames(b)
  {
  }

  /** The first child with the given name. */
  function FindChild(e: Element, qname: string): (r: Option<Element>)
    ensures r.Some? ==> r.value in e.children && r.value.name == qname
    ensures r.None? ==> forall c :: c in e.children ==> c.name != qname
  {
    var k := IndexOfName(e.children, qname);
    if k < |e.children| then Some(e.children[k]) else None
  }

  // ------------------------------------------------------------ the Country-last rule

  /** Every PostalAddress in the subtree has Country as its last child. */
  predicate CountryLast(e: Element)
    decreases e
  {
    (e.name == PostalAddress ==> |e.children| > 0 && e.children[|e.children| - 1].name == Country)
    && forall c :: c in e.children ==> CountryLast(c)
  }

  /** CountryLast checked child by child, by position. */
  lemma CountryLastByIndex(e: Element)
    requires e.name == PostalAddress ==> |e.children| > 0 && e.children[|e.children| - 1].name == Country
    requires forall i :: 0 <= i < |e.children| ==> CountryLast(e.children[i])
    ensures CountryLast(e)
  {
    forall c | c in e.children
      ensures CountryLast(c)
    {
      var i :| 0 <= i < |e.children| && e.children[i] == c;
    }
  }

  /** An element other than PostalAddress whose children are all childless non-addresses. */
  lemma FlatCountryLast(e: Element)
    requires e.name != PostalAddress
    requires forall i :: 0 <= i < |e.children| ==> e.children[i].children == [] && e.children[i].name != PostalAddress
    ensures CountryLast(e)
  {
    forall i | 0 <= i < |e.children|
      ensures CountryLast(e.children[i])
    {
      assert forall c :: c in e.children[i].children ==> false;
    }
    CountryLastByIndex(e);
  }

  /** CountryLast for every element of a sequence of children. */
  predicate AllCountryLast(cs: seq<Element>)
  {
    forall i :: 0 <= i < |cs| ==> CountryLast(cs[i])
  }

  lemma AllCountryLastAppend(a: seq<Element>, b: seq<Element>)
    requires AllCountryLast(a) && AllCountryLast(b)
    ensures AllCountryLast(a + b)
  {
    forall i | 0 <= i < |a + b| ensures CountryLast((a + b)[i]) {
      if i >= |a| { assert (a + b)[i] == b[i - |a|]; }
    }
  }

  /** An element other than PostalAddress keeps Country last when all its children do. */
  lemma ParentCountryLast(qname: string, cs: seq<Element>)
    requires qname != PostalAddress && AllCountryLast(cs)
    ensures CountryLast(Node(qname, cs))
  {
    CountryLastByIndex(Node(qname, cs));
  }

  lemma AppendKeepsCountryLast(parent: Element, child: Element)
    requires CountryLast(parent) && CountryLast(child) && parent.name != PostalAddress
    ensures CountryLast(AppendChild(parent, child))
  {
    var p := AppendChild(parent, child);
    forall c | c in p.children ensures CountryLast(c) {
      if c != child {
        var i :| 0 <= i < |p.children| && p.children[i] == c;
        assert parent.children[i] == c;
      }
    }
  }

  // ------------------------------------------------------------ elements by name

  /** The number of elements named n in the subtree of e, e included. */
  function CountE(e: Element, n: string): nat
    decreases e, 1
  {
    (if e.name == n then 1 else 0) + CountL(e.children, n)
  }

  /** The number of elements named n in the subtrees of cs. */
  function CountL(cs: seq<Element>, n: string): nat
    decreases cs, 0
  {
    if cs == [] then 0 else CountE(cs[0], n) + CountL(cs[1..], n)
  }

  /** The subtree of e with every descendant named n removed, with its own subtree. */
  function PruneE(e: Element, n: string): Element
    decreases e, 1
  {
    e.(children := PruneL(e.children, n))
  }

  /** cs without the elements named n, the remaining ones pruned. */
  function PruneL(cs: seq<Element>, n: string): seq<Element>
    decreases cs, 0
  {
    if cs == [] then []
    else (if cs[0].name == n then [] else [PruneE(cs[0], n)]) + PruneL(cs[1..], n)
  }

  /** cs with the first element named n in document order removed, with its subtree: what
    * `$list->item(0)->parentNode->removeChild(...)` does to a live getElementsByTagName list. */
  function RemoveFirstL(cs: seq<Element>, n: string): seq<Element>
    requires CountL(cs, n) > 0
    decreases cs
  {
    if cs[0].name == n then cs[1..]
    else if CountL(cs[0].children, n) > 0 then [cs[0].(children := RemoveFirstL(cs[0].children, n))] + cs[1..]
    else
      assert CountE(cs[0], n) == 0;
      [cs[0]] + RemoveFirstL(cs[1..], n)
  }

  /** Each removal strictly shrinks the number of matches and leaves the fully pruned tree as it was. */
  lemma {:induction false} RemoveFirstProgress(cs: seq<Element>, n: string)
    requires CountL(cs, n) > 0
    ensures CountL(RemoveFirstL(cs, n), n) < CountL(cs, n)
    ensures PruneL(RemoveFirstL(cs, n), n) == PruneL(cs, n)
    decreases cs
  {
    var r := RemoveFirstL(cs, n);
    if cs[0].name == n {
    } else if CountL(cs[0].children, n) > 0 {
      var c := cs[0].(children := RemoveFirstL(cs[0].children, n));
      RemoveFirstProgress(cs[0].children, n);
      assert r == [c] + cs[1..];
      assert r[0] == c && r[1..] == cs[1..];
      assert PruneE(c, n) == PruneE(cs[0], n);
    } else {
      RemoveFirstProgress(cs[1..], n);
      assert r[0] == cs[0] && r[1..] == RemoveFirstL(cs[1..], n);
    }
  }

  /** After pruning nothing named n is left. */
  lemma {:induction false} PruneLeavesNone(cs: seq<Element>, n: string)
    ensures CountL(PruneL(cs, n), n) == 0
    decreases cs
  {
    if cs != [] {
      PruneLeavesNone(cs[1..], n);
      var rest := PruneL(cs[1..], n);
      if cs[0].name == n {
        assert PruneL(cs, n) == rest;
      } else {
        PruneLeavesNone(cs[0].children, n);
        var p := [PruneE(cs[0], n)] + rest;
        assert p[0] == PruneE(cs[0], n) && p[1..] == rest;
      }
    }
  }

  /** A list without any element named n is its own pruning. */
  lemma {:induction false} PruneNoneIdentity(cs: seq<Element>, n: string)
    requires CountL(cs, n) == 0
    ensures PruneL(cs, n) == cs
    decreases cs
  {
    if cs != [] {
      PruneNoneIdentity(cs[0].children, n);
      PruneNoneIdentity(cs[1..], n);
      assert cs == [cs[0]] + cs[1..];
    }
  }

  /** Pruning distributes over concatenation. */
  lemma {:induction false} PruneAppend(a: seq<Element>, b: seq<Element>, n: string)
    ensures PruneL(a + b, n) == PruneL(a, n) + PruneL(b, n)
    decreases a
  {
    if a == [] {
      assert a + b == b;
    } else {
      var head := if a[0].name == n then [] else [PruneE(a[0], n)];
      assert (a + b)[0] == a[0] && (a + b)[1..] == a[1..] + b;
      assert PruneL(a + b, n) == head + PruneL(a[1..] + b, n);
      assert PruneL(a, n) == head + PruneL(a[1..], n);
      PruneAppend(a[1..], b, n);
    }
  }

  lemma {:induction false} CountAppend(a: seq<Element>, b: seq<Element>, n: string)
    ensures CountL(a + b, n) == CountL(a, n) + CountL(b, n)
    decreases a
  {
    if a != [] {
      assert (a + b)[0] == a[0] && (a + b)[1..] == a[1..] + b;
      CountAppend(a[1..], b, n);
    } else {
      assert a + b == b;
    }
  }

  // ------------------------------------------------------------ positions

  /** The index of the first element named qname in cs, or |cs| when there is none. */
  function IndexOfName(cs: seq<Element>, qname: string): (k: nat)
    ensures k <= |cs|
    ensures k < |cs| ==> cs[k].name == qname
    ensures forall i :: 0 <= i < k ==> cs[i].name != qname
  {
    if cs == [] then 0 else if cs[0].name == qname then 0 else 1 + IndexOfName(cs[1..], qname)
  }

  /** insertBefore(e, cs[k]) for k < |cs|, appendChild(e) for k == |cs|. */
  function InsertAt(cs: seq<Element>, k: nat, e: Element): (r: seq<Element>)
    requires k <= |cs|
    ensures |r| == |cs| + 1 && r[k] == e && r[..k] == cs[..k] && r[k + 1..] == cs[k..]
  {
    cs[..k] + [e] + cs[k..]
  }
}
