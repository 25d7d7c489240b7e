/**
 * The declarative field mapper of ckanext/spatial/model/harvested_metadata.py:
 * `MappedXmlElement` reads one named field from an XML node by trying its
 * XPath search paths in order, turns every match into a value, and shapes the
 * list by the element's multiplicity; `MappedXmlDocument` reads all of its
 * elements into a dictionary.
 *
 * The XML tree and lxml's XPath evaluation are an oracle over an abstract node
 * type `N`: `xpath(node, path)` gives the matched strings and element nodes
 * (or the XPathEvalError lxml raises for a malformed expression), and
 * `tostring(node)` serialises an element.
 */
module FieldMapper {
  import opened PyText

  /** The Python values the mapper produces: `str`/`unicode`, `list` and `dict`. */
  datatype Value = Str(s: string) | List(items: seq<Value>) | Obj(fields: map<string, Value>)

  /** One item of an XPath result: a text or attribute string, or an element. */
  datatype Match<N> = Text(text: string) | Node(node: N)

  /** `tree.xpath(path)`: the matched items, or the error for a malformed path. */
  datatype XPathResult<N> = Found(items: seq<Match<N>>) | Invalid

  /**
   * lxml, as far as the harvester uses it: `etree.fromstring`, `tree.xpath`
   * with the GEMINI namespaces, and `etree.tostring`.
   */
  datatype Xml<!N> = Xml(parse: string -> N, xpath: (N, string) -> XPathResult<N>, tostring: N -> string)

  /** `search_paths`: a list, or a bare string. */
  datatype SearchPaths = PathList(paths: seq<string>) | BarePath(path: string)

  /** A `MappedXmlElement`: name, search paths, multiplicity and child elements. */
  datatype ElementSpec = Element(
    name: string, searchPaths: SearchPaths, multiplicity: string, children: seq<ElementSpec>)

  /** The exceptions the mapper raises. */
  datatype Error =
    | XPathEvalError(path: string)        // lxml rejects the expression
    | ValuesFound(element: string)        // multiplicity "0" with values
    | ValueNotFound(element: string)      // multiplicity "1" without values
    | UnknownMultiplicity(multiplicity: string)
    | NoXPathOnText(element: string)      // a composite element applied to a string match
    | UnescapeTypeError                   // HTMLParser.unescape on a container holding '&'
    | KeyError(key: string)
    | NotInList                           // list.remove of a missing item: ValueError
    | NotText                             // a text() query matched an element

  datatype Result<T> = Ok(value: T) | Err(error: Error)

  // ---------------------------------------------------------------------
  // get_search_paths and fix_multiplicity
  // ---------------------------------------------------------------------

  /** `get_search_paths`: a bare string acts as a one-element list. */
  function GetSearchPaths(sp: SearchPaths): (paths: seq<string>)
    ensures sp.BarePath? ==> paths == [sp.path]
    ensures sp.PathList? ==> paths == sp.paths
  {
    match sp
    case PathList(ps) => ps
    case BarePath(p) => [p]
  }

  const Multiplicities: set<string> := {"0", "1", "*", "0..1", "1..*"}

  /** `fix_multiplicity(values)`. */
  function FixMultiplicity(name: string, multiplicity: string, values: seq<Value>): (r: Result<Value>)
    ensures multiplicity !in Multiplicities ==> r == Err(UnknownMultiplicity(multiplicity))
    ensures multiplicity == "0" ==> r == (if values == [] then Ok(Str("")) else Err(ValuesFound(name)))
    ensures multiplicity == "1" ==> r == (if values == [] then Err(ValueNotFound(name)) else Ok(values[0]))
    ensures multiplicity == "0..1" ==> r == Ok(if values == [] then Str("") else values[0])
    ensures multiplicity in {"*", "1..*"} ==> r == Ok(List(values))
  {
    if multiplicity == "0" then
      if values != [] then Err(ValuesFound(name)) else Ok(Str(""))
    else if multiplicity == "1" then
      if values != [] then Ok(values[0]) else Err(ValueNotFound(name))
    else if multiplicity == "*" then
      Ok(List(values))
    else if multiplicity == "0..1" then
      if values != [] then Ok(values[0]) else Ok(Str(""))
    else if multiplicity == "1..*" then
      Ok(List(values))
    else
      Err(UnknownMultiplicity(multiplicity))
  }

  // ---------------------------------------------------------------------
  // read_value / get_values / get_value, as functions
  // ---------------------------------------------------------------------

  /** `MappedXmlElement.read_value(node)`. */
  function ReadElement<N>(e: ElementSpec, node: N, xml: Xml<N>): Result<Value>
    decreases e, 4, 0
  {
    match ReadPaths(e, GetSearchPaths(e.searchPaths), node, xml)
    case Err(err) => Err(err)
    case Ok(values) => FixMultiplicity(e.name, e.multiplicity, values)
  }

  /** The values one search path gives: `get_values(get_elements(node, path))`. */
  function PathValues<N>(e: ElementSpec, path: string, node: N, xml: Xml<N>): Result<seq<Value>>
    decreases e, 3, 0
  {
    match xml.xpath(node, path)
    case Invalid => Err(XPathEvalError(path))
    case Found(items) => GetValuesOf(e, items, xml)
  }

  /** The search loop: the first path with a non-empty value list wins. */
  function ReadPaths<N>(e: ElementSpec, paths: seq<string>, node: N, xml: Xml<N>): Result<seq<Value>>
    decreases e, 3, |paths| + 1
  {
    if paths == [] then Ok([])
    else
      match PathValues(e, paths[0], node, xml)
      case Err(err) => Err(err)
      case Ok(values) => if values != [] then Ok(values) else ReadPaths(e, paths[1..], node, xml)
  }

  /** `get_values(items)`: one value per item, in order; the first failure propagates. */
  function GetValuesOf<N>(e: ElementSpec, items: seq<Match<N>>, xml: Xml<N>): Result<seq<Value>>
    decreases e, 2, |items|
  {
    if items == [] then Ok([])
    else
      match GetValuesOf(e, items[..|items| - 1], xml)
      case Err(err) => Err(err)
      case Ok(values) =>
        match GetValueOf(e, items[|items| - 1], xml)
        case Err(err) => Err(err)
        case Ok(v) => Ok(values + [v])
  }

  /** `get_value(item)`: a dictionary over the children, the string, or the serialised element. */
  function GetValueOf<N>(e: ElementSpec, item: Match<N>, xml: Xml<N>): Result<Value>
    decreases e, 1, 0
  {
    if e.children != [] then
      match item
      case Text(_) => Err(NoXPathOnText(e.children[0].name))
      case Node(n) =>
        match ReadChildren(e, |e.children|, n, xml)
        case Err(err) => Err(err)
        case Ok(fields) => Ok(Obj(fields))
    else
      match item
      case Text(t) => Ok(Str(t))
      case Node(n) => Ok(Str(xml.tostring(n)))
  }

  /** The dictionary built from the first `k` children: `value[child.name] = child.read_value(node)`. */
  function ReadChildren<N>(e: ElementSpec, k: nat, node: N, xml: Xml<N>): Result<map<string, Value>>
    requires k <= |e.children|
    decreases e, 0, k
  {
    if k == 0 then Ok(map[])
    else
      match ReadChildren(e, k - 1, node, xml)
      case Err(err) => Err(err)
      case Ok(fields) =>
        match ReadElement(e.children[k - 1], node, xml)
        case Err(err) => Err(err)
        case Ok(v) => Ok(fields[e.children[k - 1].name := v])
  }

  // ---------------------------------------------------------------------
  // The same operations as the loops of the source
  // ---------------------------------------------------------------------

  /** `MappedXmlElement.read_value`: try the search paths in order, stop at the first non-empty one. */
  method ReadValue<N>(e: ElementSpec, node: N, xml: Xml<N>) returns (r: Result<Value>)
    ensures r == ReadElement(e, node, xml)
    decreases e, 4, 0
  {
    var paths := GetSearchPaths(e.searchPaths);
    var values: seq<Value> := [];
    var i := 0;
    while i < |paths|
      invariant 0 <= i <= |paths|
      invariant values == []
      invariant ReadPaths(e, paths, node, xml) == ReadPaths(e, paths[i..], node, xml)
      decreases |paths| - i
    {
      assert paths[i..][1..] == paths[i + 1..];
      var found := xml.xpath(node, paths[i]);
      if found.Invalid? {
        return Err(XPathEvalError(paths[i]));
      }
      var got := GetValues(e, found.items, xml);
      if got.Err? {
        return Err(got.error);
      }
      values := got.value;
      if values != [] {
        break;
      }
      i := i + 1;
    }
    r := FixMultiplicity(e.name, e.multiplicity, values);
  }

  /** `get_values`: append the value of each item. */
  method GetValues<N>(e: ElementSpec, items: seq<Match<N>>, xml: Xml<N>) returns (r: Result<seq<Value>>)
    ensures r == GetValuesOf(e, items, xml)
    decreases e, 2, |items|
  {
    var values: seq<Value> := [];
    var j := 0;
    while j < |items|
      invariant 0 <= j <= |items|
      invariant GetValuesOf(e, items[..j], xml) == Ok(values)
      decreases |items| - j
    {
      assert items[..j + 1][..j] == items[..j];
      var v := GetValue(e, items[j], xml);
      if v.Err? {
        assert GetValuesOf(e, items[..j + 1], xml).Err?;
        GetValuesPrefixError(e, items, j + 1, xml);
        return Err(v.error);
      }
      values := values + [v.value];
      j := j + 1;
    }
    assert items[..|items|] == items;
    r := Ok(values);
  }

  /** A failure on a prefix of the items is the failure of the whole list. */
  lemma {:induction false} GetValuesPrefixError<N>(e: ElementSpec, items: seq<Match<N>>, j: nat, xml: Xml<N>)
    requires j <= |items| && GetValuesOf(e, items[..j], xml).Err?
    ensures GetValuesOf(e, items, xml) == GetValuesOf(e, items[..j], xml)
    decreases |items| - j
  {
    if j < |items| {
      assert items[..j + 1][..j] == items[..j];
      GetValuesPrefixError(e, items, j + 1, xml);
    } else {
      assert items[..j] == items;
    }
  }

  /** `get_value`: a composite element reads each child relative to the matched node. */
  method GetValue<N>(e: ElementSpec, item: Match<N>, xml: Xml<N>) returns (r: Result<Value>)
    ensures r == GetValueOf(e, item, xml)
    decreases e, 1, 0
  {
    if e.children != [] {
      if item.Text? {
        return Err(NoXPathOnText(e.children[0].name));
      }
      var fields: map<string, Value> := map[];
      var k := 0;
      while k < |e.children|
        invariant 0 <= k <= |e.children|
        invariant ReadChildren(e, k, item.node, xml) == Ok(fields)
        decreases |e.children| - k
      {
        var child := e.children[k];
        var v := ReadValue(child, item.node, xml);
        if v.Err? {
          ReadChildrenPrefixError(e, k + 1, item.node, xml);
          return Err(v.error);
        }
        fields := fields[child.name := v.value];
        k := k + 1;
      }
      r := Ok(Obj(fields));
    } else if item.Text? {
      r := Ok(Str(item.text));
    } else {
      r := Ok(Str(xml.tostring(item.node)));
    }
  }

  lemma {:induction false} ReadChildrenPrefixError<N>(e: ElementSpec, k: nat, node: N, xml: Xml<N>)
    requires k <= |e.children| && ReadChildren(e, k, node, xml).Err?
    ensures ReadChildren(e, |e.children|, node, xml) == ReadChildren(e, k, node, xml)
    decreases |e.children| - k
  {
    if k < |e.children| {
      ReadChildrenPrefixError(e, k + 1, node, xml);
    }
  }

  // ---------------------------------------------------------------------
  // Properties of the search loop
  // ---------------------------------------------------------------------

  /** Path `k` gives `values`, and every earlier path gives an empty list. */
  predicate FirstNonEmptyAt<N>(e: ElementSpec, paths: seq<string>, node: N, xml: Xml<N>, values: seq<Value>, k: int)
  {
    0 <= k < |paths| && PathValues(e, paths[k], node, xml) == Ok(values)
    && forall j | 0 <= j < k :: PathValues(e, paths[j], node, xml) == Ok([])
  }

  /**
   * The value list of the search loop is the non-empty list of the first path
   * that gives one, with every earlier path giving an empty list, and the
   * other way round.
   */
  lemma {:induction false} FirstNonEmptyPath<N>(e: ElementSpec, paths: seq<string>, node: N, xml: Xml<N>, values: seq<Value>)
    requires values != []
    ensures ReadPaths(e, paths, node, xml) == Ok(values) <==>
      exists k :: FirstNonEmptyAt(e, paths, node, xml, values, k)
    decreases |paths|
  {
    if paths != [] {
      FirstNonEmptyPath(e, paths[1..], node, xml, values);
      if ReadPaths(e, paths, node, xml) == Ok(values) {
        if PathValues(e, paths[0], node, xml) == Ok(values) {
          assert FirstNonEmptyAt(e, paths, node, xml, values, 0);
        } else {
          var k :| FirstNonEmptyAt(e, paths[1..], node, xml, values, k);
          assert paths[k + 1] == paths[1..][k];
          forall j | 0 <= j < k + 1 ensures PathValues(e, paths[j], node, xml) == Ok([]) {
            if j > 0 {
              assert paths[j] == paths[1..][j - 1];
            }
          }
          assert FirstNonEmptyAt(e, paths, node, xml, values, k + 1);
        }
      }
      if exists k :: FirstNonEmptyAt(e, paths, node, xml, values, k) {
        var k :| FirstNonEmptyAt(e, paths, node, xml, values, k);
        if k > 0 {
          assert PathValues(e, paths[0], node, xml) == Ok([]);
          assert paths[1..][k - 1] == paths[k];
          forall j | 0 <= j < k - 1 ensures PathValues(e, paths[1..][j], node, xml) == Ok([]) {
            assert paths[1..][j] == paths[j + 1];
          }
          assert FirstNonEmptyAt(e, paths[1..], node, xml, values, k - 1);
        }
      }
    }
  }

  /** An empty result means every path gave an empty list. */
  lemma {:induction false} NoPathMatches<N>(e: ElementSpec, paths: seq<string>, node: N, xml: Xml<N>)
    ensures ReadPaths(e, paths, node, xml) == Ok([]) <==>
      forall k | 0 <= k < |paths| :: PathValues(e, paths[k], node, xml) == Ok([])
    decreases |paths|
  {
    if paths != [] {
      NoPathMatches(e, paths[1..], node, xml);
      assert forall k | 0 <= k < |paths| - 1 :: paths[1..][k] == paths[k + 1];
      if forall k | 0 <= k < |paths| :: PathValues(e, paths[k], node, xml) == Ok([]) {
        assert PathValues(e, paths[0], node, xml) == Ok([]);
      }
    }
  }

  /** Results are never merged: once a path gives values, later paths are not consulted. */
  lemma {:induction false} LaterPathsIgnored<N>(e: ElementSpec, paths: seq<string>, more: seq<string>, node: N, xml: Xml<N>)
    requires ReadPaths(e, paths, node, xml).Err? || ReadPaths(e, paths, node, xml).value != []
    ensures ReadPaths(e, paths + more, node, xml) == ReadPaths(e, paths, node, xml)
    decreases |paths|
  {
    if paths != [] {
      assert (paths + more)[0] == paths[0];
      assert (paths + more)[1..] == paths[1..] + more;
      match PathValues(e, paths[0], node, xml)
      case Err(_) =>
      case Ok(values) =>
        if values == [] {
          LaterPathsIgnored(e, paths[1..], more, node, xml);
        }
    }
  }

  /** A bare-string search path reads exactly like the one-element list holding it. */
  lemma BarePathAsList<N>(name: string, path: string, multiplicity: string, children: seq<ElementSpec>, node: N, xml: Xml<N>)
    ensures ReadElement(Element(name, BarePath(path), multiplicity, children), node, xml)
      == ReadElement(Element(name, PathList([path]), multiplicity, children), node, xml)
  {
    var bare := Element(name, BarePath(path), multiplicity, children);
    var listed := Element(name, PathList([path]), multiplicity, children);
    assert GetSearchPaths(bare.searchPaths) == GetSearchPaths(listed.searchPaths);
    SameChildrenSamePaths(bare, listed, [path], node, xml);
  }

  /** Two specs that differ only in their search paths read a given path list identically. */
  lemma {:induction false} SameChildrenSamePaths<N>(a: ElementSpec, b: ElementSpec, paths: seq<string>, node: N, xml: Xml<N>)
    requires a.children == b.children && a.name == b.name
    ensures ReadPaths(a, paths, node, xml) == ReadPaths(b, paths, node, xml)
    decreases |paths|
  {
    if paths != [] {
      match xml.xpath(node, paths[0])
      case Invalid =>
      case Found(items) =>
        SameChildrenSameValues(a, b, items, xml);
        SameChildrenSamePaths(a, b, paths[1..], node, xml);
    }
  }

  lemma {:induction false} SameChildrenSameValues<N>(a: ElementSpec, b: ElementSpec, items: seq<Match<N>>, xml: Xml<N>)
    requires a.children == b.children
    ensures GetValuesOf(a, items, xml) == GetValuesOf(b, items, xml)
    decreases |items|
  {
    if items != [] {
      SameChildrenSameValues(a, b, items[..|items| - 1], xml);
      var item := items[|items| - 1];
      if a.children != [] && item.Node? {
        SameChildrenSameFields(a, b, |a.children|, item.node, xml);
      }
    }
  }

  lemma {:induction false} SameChildrenSameFields<N>(a: ElementSpec, b: ElementSpec, k: nat, node: N, xml: Xml<N>)
    requires a.children == b.children && k <= |a.children|
    ensures ReadChildren(a, k, node, xml) == ReadChildren(b, k, node, xml)
    decreases k
  {
    if k > 0 {
      SameChildrenSameFields(a, b, k - 1, node, xml);
    }
  }

  // ---------------------------------------------------------------------
  // Shapes of values
  // ---------------------------------------------------------------------

  function ChildNames(children: seq<ElementSpec>): set<string>
  {
    set c | c in children :: c.name
  }

  /** A composite element gives, per matched node, a dictionary keyed by exactly its child names. */
  lemma {:induction false} CompositeKeys<N>(e: ElementSpec, k: nat, node: N, xml: Xml<N>)
    requires k <= |e.children| && ReadChildren(e, k, node, xml).Ok?
    ensures ReadChildren(e, k, node, xml).value.Keys == ChildNames(e.children[..k])
    decreases k
  {
    if k > 0 {
      CompositeKeys(e, k - 1, node, xml);
      assert e.children[..k] == e.children[..k - 1] + [e.children[k - 1]];
    }
  }

  /** `children[i]` is the last child carrying its name, so its value is the one kept. */
  predicate LastWithName(children: seq<ElementSpec>, i: int)
    requires 0 <= i < |children|
  {
    forall j | i < j < |children| :: children[j].name != children[i].name
  }

  /** What a value read for `e` looks like, by multiplicity and children. */
  predicate Conforms(e: ElementSpec, v: Value)
    decreases e, 1
  {
    if e.multiplicity == "0" then v == Str("")
    else if e.multiplicity == "1" then ItemConforms(e, v)
    else if e.multiplicity == "0..1" then v == Str("") || ItemConforms(e, v)
    else if e.multiplicity in {"*", "1..*"} then
      v.List? && forall x | x in v.items :: ItemConforms(e, x)
    else false
  }

  /** One item: a string, or for a composite a dictionary keyed by the child names. */
  predicate ItemConforms(e: ElementSpec, x: Value)
    decreases e, 0
  {
    if e.children == [] then x.Str?
    else
      x.Obj? && x.fields.Keys == ChildNames(e.children)
      && forall i | 0 <= i < |e.children| && LastWithName(e.children, i) ::
        Conforms(e.children[i], x.fields[e.children[i].name])
  }

  /** Whatever `read_value` returns has the shape its spec announces. */
  lemma {:induction false} ReadElementConforms<N>(e: ElementSpec, node: N, xml: Xml<N>)
    requires ReadElement(e, node, xml).Ok?
    ensures Conforms(e, ReadElement(e, node, xml).value)
    decreases e, 4, 0
  {
    var paths := GetSearchPaths(e.searchPaths);
    ReadPathsConform(e, paths, node, xml);
  }

  lemma {:induction false} ReadPathsConform<N>(e: ElementSpec, paths: seq<string>, node: N, xml: Xml<N>)
    requires ReadPaths(e, paths, node, xml).Ok?
    ensures forall x | x in ReadPaths(e, paths, node, xml).value :: ItemConforms(e, x)
    decreases e, 3, |paths| + 1
  {
    if paths != [] {
      match xml.xpath(node, paths[0])
      case Invalid =>
      case Found(items) =>
        GetValuesConform(e, items, xml);
        if GetValuesOf(e, items, xml).value == [] {
          ReadPathsConform(e, paths[1..], node, xml);
        }
    }
  }

  lemma {:induction false} GetValuesConform<N>(e: ElementSpec, items: seq<Match<N>>, xml: Xml<N>)
    requires GetValuesOf(e, items, xml).Ok?
    ensures forall x | x in GetValuesOf(e, items, xml).value :: ItemConforms(e, x)
    decreases e, 2, |items|
  {
    if items != [] {
      GetValuesConform(e, items[..|items| - 1], xml);
      GetValueConforms(e, items[|items| - 1], xml);
    }
  }

  lemma {:induction false} GetValueConforms<N>(e: ElementSpec, item: Match<N>, xml: Xml<N>)
    requires GetValueOf(e, item, xml).Ok?
    ensures ItemConforms(e, GetValueOf(e, item, xml).value)
    decreases e, 1, 0
  {
    if e.children != [] {
      var n := item.node;
      CompositeKeys(e, |e.children|, n, xml);
      assert e.children[..|e.children|] == e.children;
      ChildrenConform(e, |e.children|, n, xml);
    }
  }

  lemma {:induction false} ChildrenConform<N>(e: ElementSpec, k: nat, node: N, xml: Xml<N>)
    requires k <= |e.children| && ReadChildren(e, k, node, xml).Ok?
    ensures var fields := ReadChildren(e, k, node, xml).value;
      forall i | 0 <= i < k && LastWithName(e.children[..k], i) ::
        e.children[i].name in fields && Conforms(e.children[i], fields[e.children[i].name])
    decreases e, 0, k
  {
    if k > 0 {
      ChildrenConform(e, k - 1, node, xml);
      var child := e.children[k - 1];
      ReadElementConforms(child, node, xml);
      var fields := ReadChildren(e, k, node, xml).value;
      forall i | 0 <= i < k && LastWithName(e.children[..k], i)
        ensures e.children[i].name in fields && Conforms(e.children[i], fields[e.children[i].name])
      {
        if i < k - 1 {
          assert e.children[..k][k - 1] == child;
          assert child.name != e.children[i].name;
          var pre := e.children[..k - 1];
          forall j | i < j < k - 1 ensures pre[j].name != pre[i].name {
            assert e.children[..k][j] == pre[j];
          }
          assert LastWithName(pre, i);
        }
      }
    }
  }

  // ---------------------------------------------------------------------
  // MappedXmlDocument.read_values and read_value
  // ---------------------------------------------------------------------

  /**
   * `HTMLParser().unescape(v)`: a string containing `&` has its character
   * references replaced (by the library call `unescapeText`); any other string,
   * and any list or dictionary that does not hold `'&'` itself, comes back
   * unchanged; a container holding `'&'` reaches `re.sub` and raises TypeError.
   */
  function Unescape(v: Value, unescapeText: string -> string): (r: Result<Value>)
    ensures r.Err? <==> (v.List? && Str("&") in v.items) || (v.Obj? && "&" in v.fields)
    ensures r.Err? ==> r.error == UnescapeTypeError
    ensures !v.Str? && r.Ok? ==> r.value == v
    ensures v.Str? ==> r.Ok? && r.value.Str?
    ensures v.Str? && !Contains(v.s, "&") ==> r == Ok(v)
    ensures v.Str? && Contains(v.s, "&") ==> r == Ok(Str(unescapeText(v.s)))
  {
    match v
    case Str(s) => if Contains(s, "&") then Ok(Str(unescapeText(s))) else Ok(v)
    case List(items) => if Str("&") in items then Err(UnescapeTypeError) else Ok(v)
    case Obj(fields) => if "&" in fields then Err(UnescapeTypeError) else Ok(v)
  }

  /** The dictionary `read_values` fills from the first `k` elements, before inference. */
  function ReadValuesOf<N>(elements: seq<ElementSpec>, k: nat, tree: N, xml: Xml<N>, unescapeText: string -> string): Result<map<string, Value>>
    requires k <= |elements|
  {
    if k == 0 then Ok(map[])
    else
      match ReadValuesOf(elements, k - 1, tree, xml, unescapeText)
      case Err(err) => Err(err)
      case Ok(values) =>
        match ReadElement(elements[k - 1], tree, xml)
        case Err(err) => Err(err)
        case Ok(v) =>
          match Unescape(v, unescapeText)
          case Err(err) => Err(err)
          case Ok(u) => Ok(values[elements[k - 1].name := u])
  }

  /** `read_values` up to the call of `infer_values`: one entry per element, unescaped. */
  method ReadValues<N>(elements: seq<ElementSpec>, tree: N, xml: Xml<N>, unescapeText: string -> string)
    returns (r: Result<map<string, Value>>)
    ensures r == ReadValuesOf(elements, |elements|, tree, xml, unescapeText)
  {
    var values: map<string, Value> := map[];
    var k := 0;
    while k < |elements|
      invariant 0 <= k <= |elements|
      invariant ReadValuesOf(elements, k, tree, xml, unescapeText) == Ok(values)
    {
      var element := elements[k];
      ReadValuesNext(elements, k, tree, xml, unescapeText, values);
      var v := ReadValue(element, tree, xml);
      if v.Err? {
        ReadValuesPrefixError(elements, k + 1, tree, xml, unescapeText);
        return Err(v.error);
      }
      var u := Unescape(v.value, unescapeText);
      if u.Err? {
        ReadValuesPrefixError(elements, k + 1, tree, xml, unescapeText);
        return Err(u.error);
      }
      values := values[element.name := u.value];
      k := k + 1;
    }
    r := Ok(values);
  }

  /** One more element read on top of a successful prefix. */
  lemma ReadValuesNext<N>(elements: seq<ElementSpec>, k: nat, tree: N, xml: Xml<N>, unescapeText: string -> string,
                          values: map<string, Value>)
    requires k < |elements| && ReadValuesOf(elements, k, tree, xml, unescapeText) == Ok(values)
    ensures var v := ReadElement(elements[k], tree, xml);
      && (v.Err? ==> ReadValuesOf(elements, k + 1, tree, xml, unescapeText) == Err(v.error))
      && (v.Ok? && Unescape(v.value, unescapeText).Err? ==>
            ReadValuesOf(elements, k + 1, tree, xml, unescapeText) == Err(Unescape(v.value, unescapeText).error))
      && (v.Ok? && Unescape(v.value, unescapeText).Ok? ==>
            ReadValuesOf(elements, k + 1, tree, xml, unescapeText) == Ok(values[elements[k].name := Unescape(v.value, unescapeText).value]))
  {
  }

  lemma {:induction false} ReadValuesPrefixError<N>(elements: seq<ElementSpec>, k: nat, tree: N, xml: Xml<N>, unescapeText: string -> string)
    requires k <= |elements| && ReadValuesOf(elements, k, tree, xml, unescapeText).Err?
    ensures ReadValuesOf(elements, |elements|, tree, xml, unescapeText) == ReadValuesOf(elements, k, tree, xml, unescapeText)
    decreases |elements| - k
  {
    if k < |elements| {
      ReadValuesPrefixError(elements, k + 1, tree, xml, unescapeText);
    }
  }

  /** Before inference there is exactly one key per element name. */
  lemma {:induction false} ReadValuesKeys<N>(elements: seq<ElementSpec>, k: nat, tree: N, xml: Xml<N>, unescapeText: string -> string)
    requires k <= |elements| && ReadValuesOf(elements, k, tree, xml, unescapeText).Ok?
    ensures ReadValuesOf(elements, k, tree, xml, unescapeText).value.Keys == ChildNames(elements[..k])
    decreases k
  {
    if k > 0 {
      ReadValuesKeys(elements, k - 1, tree, xml, unescapeText);
      assert elements[..k] == elements[..k - 1] + [elements[k - 1]];
    }
  }

  /**
   * The value kept for an element name is that of the last element with the
   * name, unescaped at the top level only: lists and dictionaries are kept
   * as read.
   */
  lemma {:induction false} ReadValuesEntry<N>(elements: seq<ElementSpec>, k: nat, i: nat, tree: N, xml: Xml<N>, unescapeText: string -> string)
    requires i < k <= |elements| && ReadValuesOf(elements, k, tree, xml, unescapeText).Ok?
    requires forall j | i < j < k :: elements[j].name != elements[i].name
    ensures ReadElement(elements[i], tree, xml).Ok?
    ensures var v := ReadElement(elements[i], tree, xml).value;
      Unescape(v, unescapeText).Ok?
      && elements[i].name in ReadValuesOf(elements, k, tree, xml, unescapeText).value
      && ReadValuesOf(elements, k, tree, xml, unescapeText).value[elements[i].name] == Unescape(v, unescapeText).value
    decreases k
  {
    if i < k - 1 {
      ReadValuesEntry(elements, k - 1, i, tree, xml, unescapeText);
    }
  }

  /** A failing element makes the whole document fail. */
  lemma {:induction false} ReadValuesFailsWith<N>(elements: seq<ElementSpec>, i: nat, tree: N, xml: Xml<N>, unescapeText: string -> string)
    requires i < |elements| && ReadElement(elements[i], tree, xml).Err?
    ensures ReadValuesOf(elements, |elements|, tree, xml, unescapeText).Err?
  {
    if ReadValuesOf(elements, i, tree, xml, unescapeText).Err? {
      ReadValuesPrefixError(elements, i, tree, xml, unescapeText);
    } else {
      ReadValuesPrefixError(elements, i + 1, tree, xml, unescapeText);
    }
  }

  /** `MappedXmlDocument.read_value(name)`: the first element with that name, not unescaped. */
  function ReadNamedOf<N>(elements: seq<ElementSpec>, name: string, tree: N, xml: Xml<N>): (r: Result<Value>)
    ensures (forall e | e in elements :: e.name != name) ==> r == Err(KeyError(name))
    ensures elements != [] && elements[0].name == name ==> r == ReadElement(elements[0], tree, xml)
  {
    if elements == [] then Err(KeyError(name))
    else if elements[0].name == name then ReadElement(elements[0], tree, xml)
    else ReadNamedOf(elements[1..], name, tree, xml)
  }

  method ReadNamed<N>(elements: seq<ElementSpec>, name: string, tree: N, xml: Xml<N>) returns (r: Result<Value>)
    ensures r == ReadNamedOf(elements, name, tree, xml)
  {
    var i := 0;
    while i < |elements|
      invariant 0 <= i <= |elements|
      invariant ReadNamedOf(elements, name, tree, xml) == ReadNamedOf(elements[i..], name, tree, xml)
    {
      assert elements[i..][1..] == elements[i + 1..];
      if elements[i].name == name {
        r := ReadValue(elements[i], tree, xml);
        return;
      }
      i := i + 1;
    }
    r := Err(KeyError(name));
  }

  /** `read_value(name)` reads the first element of that name. */
  lemma {:induction false} ReadNamedFinds<N>(elements: seq<ElementSpec>, name: string, tree: N, xml: Xml<N>, i: nat)
    requires i < |elements| && elements[i].name == name
    requires forall j | 0 <= j < i :: elements[j].name != name
    ensures ReadNamedOf(elements, name, tree, xml) == ReadElement(elements[i], tree, xml)
    decreases i
  {
    if i > 0 {
      assert elements[1..][i - 1] == elements[i];
      assert forall j | 0 <= j < i - 1 :: elements[1..][j] == elements[j + 1];
      ReadNamedFinds(elements[1..], name, tree, xml, i - 1);
    }
  }
}
