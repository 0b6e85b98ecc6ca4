/**
 * The DOM-to-map flattening of the XML record extractor: an element becomes a
 * one-entry map from its name to a list holding (when it has attributes) a map
 * of its attributes and then one entry per child node; text, comment and
 * processing-instruction nodes become their text; any other node becomes an
 * empty map.
 */
module XmlRecords {

  /** A DOM node, reduced to what the flattening looks at. */
  datatype XmlNode =
    | Element(name: string, attributes: seq<Attribute>, children: seq<XmlNode>)
    | Text(content: string)
    | Comment(content: string)
    | ProcessingInstruction(content: string)
    /** Any other DOM node type (CDATA section, entity reference, document, ...), by its type code. */
    | OtherNode(nodeType: OtherNodeType)

  /**
   * The DOM node type codes the other constructors do not cover: attribute
   * (2), CDATA section (4), entity reference (5), entity (6), document (9),
   * document type (10), document fragment (11) and notation (12).
   */
  type OtherNodeType = t: int | t == 2 || 4 <= t <= 6 || 9 <= t <= 12 witness 4

  datatype Attribute = Attribute(name: string, value: string)

  /** The Java value the flattening builds: a String, a Map or a List. */
  datatype Value =
    | Str(s: string)
    | Map(entries: map<string, Value>)
    | List(items: seq<Value>)

  /** A node whose text content is returned as it is. */
  predicate IsTextual(n: XmlNode) {
    n.Text? || n.Comment? || n.ProcessingInstruction?
  }

  /**
   * The attribute map: each attribute name sent to its value, a later
   * attribute of the same name replacing an earlier one (`HashMap.put`).
   */
  function AttributesMap(attrs: seq<Attribute>): (m: map<string, Value>)
    ensures forall k :: k in m <==> exists i :: 0 <= i < |attrs| && attrs[i].name == k
    ensures forall k :: k in m ==> m[k].Str?
  {
    if attrs == [] then map[]
    else
      var m := AttributesMap(attrs[..|attrs| - 1]);
      var last := attrs[|attrs| - 1];
      assert forall i :: 0 <= i < |attrs| - 1 ==> attrs[..|attrs| - 1][i] == attrs[i];
      m[last.name := Str(last.value)]
  }

  /** No later attribute has the same name as attribute `i`. */
  predicate LastOfItsName(attrs: seq<Attribute>, i: int)
    requires 0 <= i < |attrs|
  {
    forall j :: i < j < |attrs| ==> attrs[j].name != attrs[i].name
  }

  /** The value under each name is that of the last attribute of that name. */
  lemma {:induction false} AttributesMapLastWins(attrs: seq<Attribute>, i: int)
    requires 0 <= i < |attrs| && LastOfItsName(attrs, i)
    ensures AttributesMap(attrs)[attrs[i].name] == Str(attrs[i].value)
  {
    var front := attrs[..|attrs| - 1];
    if i < |attrs| - 1 {
      assert attrs[|attrs| - 1].name != attrs[i].name;
      assert front[i] == attrs[i];
      assert LastOfItsName(front, i) by {
        forall j | i < j < |front|
          ensures front[j].name != front[i].name
        {
          assert front[j] == attrs[j];
        }
      }
      AttributesMapLastWins(front, i);
    }
  }

  /** `createMapFromXML`. */
  function CreateMapFromXml(n: XmlNode): Value
    decreases n, 1
  {
    match n
    case Element(name, attrs, children) =>
      var attrPart := if |attrs| > 0 then [Map(AttributesMap(attrs))] else [];
      Map(map[name := List(attrPart + ChildrenValues(children))])
    case Text(content) => Str(content)
    case Comment(content) => Str(content)
    case ProcessingInstruction(content) => Str(content)
    case OtherNode(_) => Map(map[])
  }

  /** The children flattened one by one, in document order. */
  function ChildrenValues(children: seq<XmlNode>): (vs: seq<Value>)
    ensures |vs| == |children|
    decreases children, 0
  {
    if children == [] then [] else [CreateMapFromXml(children[0])] + ChildrenValues(children[1..])
  }

  /** Child number `i` of a node flattens to entry number `i` of the children's values. */
  lemma {:induction false} ChildrenValuesAt(children: seq<XmlNode>, i: nat)
    requires i < |children|
    ensures ChildrenValues(children)[i] == CreateMapFromXml(children[i])
  {
    if i > 0 {
      ChildrenValuesAt(children[1..], i - 1);
    }
  }

  /**
   * The shape of a flattened element: a single entry keyed by the element's
   * name, holding a list that starts with the attribute map iff there are
   * attributes and then has one entry per child, in document order.
   */
  lemma ElementShape(name: string, attrs: seq<Attribute>, children: seq<XmlNode>)
    ensures var v := CreateMapFromXml(Element(name, attrs, children));
      && v.Map? && v.entries.Keys == {name} && v.entries[name].List?
      && var items := v.entries[name].items;
      && |items| == |children| + (if |attrs| > 0 then 1 else 0)
      && (|attrs| > 0 ==> items[0] == Map(AttributesMap(attrs)))
      && forall i :: 0 <= i < |children| ==>
           items[i + (if |attrs| > 0 then 1 else 0)] == CreateMapFromXml(children[i])
  {
    forall i | 0 <= i < |children|
      ensures ChildrenValues(children)[i] == CreateMapFromXml(children[i])
    {
      ChildrenValuesAt(children, i);
    }
  }

  /** Text, comment and processing-instruction nodes flatten to their text; other non-elements to an empty map. */
  lemma LeafShape(n: XmlNode)
    requires !n.Element?
    ensures IsTextual(n) ==> CreateMapFromXml(n) == Str(n.content)
    ensures !IsTextual(n) ==> CreateMapFromXml(n) == Map(map[])
  {
  }

  // ---------------------------------------------------------------------
  // What the flattening preserves: element names and text, in document order.
  // ---------------------------------------------------------------------

  /** The element names of a tree, in document (pre-)order. */
  function ElementNames(n: XmlNode): seq<string>
    decreases n, 1
  {
    if n.Element? then [n.name] + ChildrenElementNames(n.children) else []
  }

  function ChildrenElementNames(children: seq<XmlNode>): seq<string>
    decreases children, 0
  {
    if children == [] then [] else ElementNames(children[0]) + ChildrenElementNames(children[1..])
  }

  /** The text of the text, comment and processing-instruction nodes of a tree, in document order. */
  function Texts(n: XmlNode): seq<string>
    decreases n, 1
  {
    match n
    case Element(_, _, children) => ChildrenTexts(children)
    case Text(c) => [c]
    case Comment(c) => [c]
    case ProcessingInstruction(c) => [c]
    case OtherNode(_) => []
  }

  function ChildrenTexts(children: seq<XmlNode>): seq<string>
    decreases children, 0
  {
    if children == [] then [] else Texts(children[0]) + ChildrenTexts(children[1..])
  }

  /** A flattened element: a one-entry map whose entry is a list. */
  predicate IsElementValue(v: Value) {
    v.Map? && |v.entries| == 1 && forall k :: k in v.entries ==> v.entries[k].List?
  }

  /** The key of a flattened element. */
  ghost function ElementKey(v: Value): (k: string)
    requires IsElementValue(v)
    ensures k in v.entries && v.entries[k].List?
  {
    var k :| k in v.entries; k
  }

  /**
   * Reading names back out of a flattened value: a flattened element gives
   * its key followed by the names in its list; anything else gives none.
   */
  ghost function ValueNames(v: Value): seq<string>
    decreases v, 1
  {
    if IsElementValue(v) then
      var k := ElementKey(v);
      [k] + ListNames(v.entries[k].items)
    else []
  }

  ghost function ListNames(vs: seq<Value>): seq<string>
    decreases vs, 0
  {
    if vs == [] then [] else ValueNames(vs[0]) + ListNames(vs[1..])
  }

  /**
   * Reading text back out of a flattened value: a string is one text, a
   * flattened element gives the texts in its list; an attribute map or an
   * empty map gives none.
   */
  ghost function ValueTexts(v: Value): seq<string>
    decreases v, 1
  {
    if v.Str? then [v.s]
    else if IsElementValue(v) then
      var k := ElementKey(v);
      ListTexts(v.entries[k].items)
    else []
  }

  ghost function ListTexts(vs: seq<Value>): seq<string>
    decreases vs, 0
  {
    if vs == [] then [] else ValueTexts(vs[0]) + ListTexts(vs[1..])
  }

  /** An attribute map is never mistaken for a flattened element. */
  lemma AttributesMapIsNotElement(attrs: seq<Attribute>)
    ensures !IsElementValue(Map(AttributesMap(attrs)))
  {
  }

  lemma ElementValueKey(name: string, items: seq<Value>)
    ensures IsElementValue(Map(map[name := List(items)]))
    ensures ElementKey(Map(map[name := List(items)])) == name
  {
    var m := map[name := List(items)];
    assert m.Keys == {name};
  }

  /** Flattening keeps every element name, in document order. */
  lemma {:induction false} NamesPreserved(n: XmlNode)
    ensures ValueNames(CreateMapFromXml(n)) == ElementNames(n)
    decreases n, 1
  {
    match n
    case Element(name, attrs, children) =>
      var attrPart := if |attrs| > 0 then [Map(AttributesMap(attrs))] else [];
      var items := attrPart + ChildrenValues(children);
      ElementValueKey(name, items);
      ChildrenNamesPreserved(children);
      if |attrs| > 0 {
        AttributesMapIsNotElement(attrs);
        assert items[1..] == ChildrenValues(children);
        assert ValueNames(items[0]) == [];
        assert ListNames(items) == ListNames(ChildrenValues(children));
      } else {
        assert items == ChildrenValues(children);
      }
    case Text(_) =>
    case Comment(_) =>
    case ProcessingInstruction(_) =>
    case OtherNode(_) =>
      var empty: map<string, Value> := map[];
      assert |empty| == 0;
  }

  lemma {:induction false} ChildrenNamesPreserved(children: seq<XmlNode>)
    ensures ListNames(ChildrenValues(children)) == ChildrenElementNames(children)
    decreases children, 0
  {
    if children != [] {
      NamesPreserved(children[0]);
      ChildrenNamesPreserved(children[1..]);
      assert ChildrenValues(children)[1..] == ChildrenValues(children[1..]);
    }
  }

  /** Flattening keeps the text of every text, comment and processing-instruction node, in document order. */
  lemma {:induction false} TextsPreserved(n: XmlNode)
    ensures ValueTexts(CreateMapFromXml(n)) == Texts(n)
    decreases n, 1
  {
    match n
    case Element(name, attrs, children) =>
      var attrPart := if |attrs| > 0 then [Map(AttributesMap(attrs))] else [];
      var items := attrPart + ChildrenValues(children);
      ElementValueKey(name, items);
      ChildrenTextsPreserved(children);
      if |attrs| > 0 {
        AttributesMapIsNotElement(attrs);
        assert items[1..] == ChildrenValues(children);
        assert ValueTexts(items[0]) == [];
        assert ListTexts(items) == ListTexts(ChildrenValues(children));
      } else {
        assert items == ChildrenValues(children);
      }
    case Text(_) =>
    case Comment(_) =>
    case ProcessingInstruction(_) =>
    case OtherNode(_) =>
      var empty: map<string, Value> := map[];
      assert |empty| == 0;
  }

  lemma {:induction false} ChildrenTextsPreserved(children: seq<XmlNode>)
    ensures ListTexts(ChildrenValues(children)) == ChildrenTexts(children)
    decreases children, 0
  {
    if children != [] {
      TextsPreserved(children[0]);
      ChildrenTextsPreserved(children[1..]);
      assert ChildrenValues(children)[1..] == ChildrenValues(children[1..]);
    }
  }
}
