/**
 * The parsing functions of the client: `_get_text`, `_dictify` and
 * `_get_objects`, each a method proved against a function that states what
 * it computes, with lemmas stating the properties of those functions.
 */
module Parsing {
  import opened Wrappers
  import opened Strings
  import opened Dom
  import opened Entities

  // ---------------------------------------------------------------- _get_text

  /** The data of the text and CDATA nodes among `cs`, concatenated in order. */
  function CharData(cs: seq<Node>): string
  {
    if cs == [] then "" else (if IsCharData(cs[0]) then cs[0].data else "") + CharData(cs[1..])
  }

  lemma {:induction false} CharDataAppend(a: seq<Node>, b: seq<Node>)
    ensures CharData(a + b) == CharData(a) + CharData(b)
  {
    if a == [] {
      assert a + b == b;
    } else {
      assert (a + b)[1..] == a[1..] + b;
      CharDataAppend(a[1..], b);
    }
  }

  /**
   * Only direct text and CDATA children are read: a child that is neither can
   * be replaced by any other node that is neither (an element with different
   * contents, say) without changing the text.
   */
  lemma {:induction false} CharDataSkipsOtherNodes(cs: seq<Node>, i: nat, m: Node)
    requires i < |cs| && !IsCharData(cs[i]) && !IsCharData(m)
    ensures CharData(cs[i := m]) == CharData(cs)
  {
    if i > 0 {
      assert cs[i := m][1..] == cs[1..][i - 1 := m];
      CharDataSkipsOtherNodes(cs[1..], i - 1, m);
    } else {
      assert cs[i := m][1..] == cs[1..];
    }
  }

  /** `''.join(rc)` */
  function Join(pieces: seq<string>): string
  {
    if pieces == [] then "" else Join(pieces[..|pieces| - 1]) + pieces[|pieces| - 1]
  }

  /** `_get_text(element)`: collects the data of the text and CDATA children and joins them. */
  method GetText(element: Node) returns (text: string)
    ensures text == CharData(ChildNodes(element))
  {
    var nodes := ChildNodes(element);
    var rc: seq<string> := [];
    for i := 0 to |nodes|
      invariant Join(rc) == CharData(nodes[..i])
    {
      var node := nodes[i];
      CharDataAppend(nodes[..i], [node]);
      assert nodes[..i + 1] == nodes[..i] + [node];
      if IsCharData(node) {
        assert Join(rc + [node.data]) == Join(rc) + node.data;
        rc := rc + [node.data];
      }
    }
    assert nodes[..|nodes|] == nodes;
    text := Join(rc);
  }

  // ----------------------------------------------------------------- _dictify

  /** Whether handling child `n` assigns dictionary key `key`: its tag name, or tag name + "id" when it carries an id. */
  predicate Writes(n: Node, key: string)
  {
    n.Element? && (n.tagName == key || (HasAttribute(n, "id") && n.tagName + "id" == key))
  }

  /**
   * One turn of the loop in `_dictify`: an element child first records its
   * `id` attribute under tag name + "id", then its text under its tag name.
   * Every other node (text, CDATA, comment) is passed over; see
   * `DictAsWritten` for the comment case as the code has it.
   */
  function Absorb(d: map<string, string>, n: Node): map<string, string>
  {
    if !n.Element? then d
    else
      var withId := if HasAttribute(n, "id") then d[n.tagName + "id" := GetAttribute(n, "id")] else d;
      withId[n.tagName := CharData(n.children)]
  }

  /** The dictionary `_dictify` builds from the children `cs`, taken first to last. */
  function DictOf(cs: seq<Node>): map<string, string>
  {
    if cs == [] then map[] else Absorb(DictOf(cs[..|cs| - 1]), cs[|cs| - 1])
  }

  lemma AbsorbKeeps(d: map<string, string>, n: Node, key: string)
    requires !Writes(n, key)
    ensures key in Absorb(d, n) <==> key in d
    ensures key in d ==> Absorb(d, n)[key] == d[key]
  {
  }

  /** The keys of the dictionary are exactly the keys some child writes. */
  lemma {:induction false} DictKeys(cs: seq<Node>, key: string)
    ensures key in DictOf(cs) <==> exists i :: 0 <= i < |cs| && Writes(cs[i], key)
  {
    if cs != [] {
      var init := cs[..|cs| - 1];
      DictKeys(init, key);
      if !Writes(cs[|cs| - 1], key) {
        AbsorbKeeps(DictOf(init), cs[|cs| - 1], key);
      }
      if exists i :: 0 <= i < |cs| && Writes(cs[i], key) {
        var i :| 0 <= i < |cs| && Writes(cs[i], key);
        if i < |cs| - 1 {
          assert Writes(init[i], key);
        }
      }
    }
  }

  /** Once key `key` holds `v` after child `i`, no later child that leaves `key` alone changes it. */
  lemma {:induction false} DictUntouchedAfter(cs: seq<Node>, i: nat, key: string)
    requires i < |cs|
    requires key in DictOf(cs[..i + 1])
    requires forall j :: i < j < |cs| ==> !Writes(cs[j], key)
    ensures key in DictOf(cs) && DictOf(cs)[key] == DictOf(cs[..i + 1])[key]
    decreases |cs|
  {
    if i + 1 < |cs| {
      var init := cs[..|cs| - 1];
      assert init[..i + 1] == cs[..i + 1];
      DictUntouchedAfter(init, i, key);
      AbsorbKeeps(DictOf(init), cs[|cs| - 1], key);
    } else {
      assert cs[..i + 1] == cs;
    }
  }

  /**
   * Last wins for texts: element child `i` gives key `t` (its tag name) its
   * text, unless a later child writes `t` again.
   */
  lemma DictLastText(cs: seq<Node>, i: nat)
    requires i < |cs| && cs[i].Element?
    requires forall j :: i < j < |cs| ==> !Writes(cs[j], cs[i].tagName)
    ensures cs[i].tagName in DictOf(cs) && DictOf(cs)[cs[i].tagName] == CharData(cs[i].children)
  {
    assert cs[..i + 1][..i] == cs[..i];
    DictUntouchedAfter(cs, i, cs[i].tagName);
  }

  /**
   * Last wins for ids: an element child `i` named `t` with an `id` attribute
   * gives key `t + "id"` that attribute, unless a later child writes that key.
   */
  lemma DictLastId(cs: seq<Node>, i: nat)
    requires i < |cs| && cs[i].Element? && HasAttribute(cs[i], "id")
    requires forall j :: i < j < |cs| ==> !Writes(cs[j], cs[i].tagName + "id")
    ensures cs[i].tagName + "id" in DictOf(cs)
    ensures DictOf(cs)[cs[i].tagName + "id"] == GetAttribute(cs[i], "id")
  {
    var key := cs[i].tagName + "id";
    assert |key| != |cs[i].tagName|;
    assert cs[..i + 1][..i] == cs[..i];
    DictUntouchedAfter(cs, i, key);
  }

  /** `_dictify(element)`: maps each element child's tag name to its text, and tag name + "id" to its id. */
  method Dictify(element: Node) returns (d: map<string, string>)
    ensures d == DictOf(ChildNodes(element))
  {
    var nodes := ChildNodes(element);
    d := map[];
    for i := 0 to |nodes|
      invariant d == DictOf(nodes[..i])
    {
      var node := nodes[i];
      assert nodes[..i + 1][..i] == nodes[..i];
      if node.Element? {
        if HasAttribute(node, "id") {
          d := d[node.tagName + "id" := GetAttribute(node, "id")];
        }
        var text := GetText(node);
        d := d[node.tagName := text];
      }
    }
    assert nodes[..|nodes|] == nodes;
  }

  /**
   * One turn of the loop in `_dictify` as the code has it: the test lets
   * every node that is not text or CDATA through, so a comment reaches
   * `node.hasAttribute`, which minidom comments do not have.
   */
  function AbsorbAsWritten(d: map<string, string>, n: Node): Result<map<string, string>, Error>
  {
    if IsCharData(n) then Success(d)
    else if n.Comment? then Failure(AttributeError("hasAttribute"))
    else Success(Absorb(d, n))
  }

  /** `_dictify` as written: the first comment child raises. */
  function DictAsWritten(cs: seq<Node>): (r: Result<map<string, string>, Error>)
    ensures r.Failure? ==> r.error == AttributeError("hasAttribute")
  {
    if cs == [] then Success(map[])
    else
      match DictAsWritten(cs[..|cs| - 1])
      case Failure(e) => Failure(e)
      case Success(d) => AbsorbAsWritten(d, cs[|cs| - 1])
  }

  /** The code as written agrees with `DictOf` when no child is a comment, and raises when one is. */
  lemma {:induction false} DictAsWrittenAgrees(cs: seq<Node>)
    ensures (forall i :: 0 <= i < |cs| ==> !cs[i].Comment?) ==> DictAsWritten(cs) == Success(DictOf(cs))
    ensures (exists i :: 0 <= i < |cs| && cs[i].Comment?) ==> DictAsWritten(cs) == Failure(AttributeError("hasAttribute"))
  {
    if cs != [] {
      var init := cs[..|cs| - 1];
      DictAsWrittenAgrees(init);
      if exists i :: 0 <= i < |cs| && cs[i].Comment? {
        var i :| 0 <= i < |cs| && cs[i].Comment?;
        if i < |cs| - 1 {
          assert init[i].Comment?;
        }
      }
    }
  }

  /** An element whose first child is a comment: the code as written raises, the corrected loop skips it. */
  lemma CommentChildRaises()
    ensures var cs := [Comment(" generated "), Element("name", map[], [Text("Bach")])];
            DictAsWritten(cs) == Failure(AttributeError("hasAttribute")) && DictOf(cs) == map["name" := "Bach"]
  {
    var cs := [Comment(" generated "), Element("name", map[], [Text("Bach")])];
    assert cs[..1] == [Comment(" generated ")];
    assert cs[..1][..0] == [];
    assert CharData([Text("Bach")]) == "Bach";
  }

  // ------------------------------------------------------------- _get_objects

  /**
   * The `tags` list of an entity element `n`: one pair per `tag` element
   * anywhere below `n`, in document order, pairing `n`'s own id with that
   * tag's text.
   */
  function TagPairs(n: Node): seq<TagPair>
    requires n.Element?
  {
    var tags := ElementsByTagName(n.children, "tag");
    seq(|tags|, i requires 0 <= i < |tags| => (GetAttribute(n, "id"), CharData(tags[i].children)))
  }

  /**
   * The tag list in terms of the tree: as many pairs as there are `tag`
   * elements among the descendants of `n`, and pair `i` belongs to the
   * `i`-th of them in document order.
   */
  lemma TagPairsOfDescendants(n: Node, i: nat)
    requires n.Element?
    ensures |TagPairs(n)| == |Named(Descendants(n.children), "tag")|
    ensures i < |TagPairs(n)| ==>
              && Named(Descendants(n.children), "tag")[i].Element?
              && TagPairs(n)[i] == (GetAttribute(n, "id"), CharData(Named(Descendants(n.children), "tag")[i].children))
  {
    ElementsByTagNameSelectsDescendants(n.children, "tag");
  }

  /** The string-valued dictionary of `_dictify` as keyword arguments. */
  function Lift(d: map<string, string>): map<string, Value>
  {
    map k | k in d :: Str(d[k])
  }

  /**
   * The keyword arguments `_get_objects` passes to the constructor for entity
   * element `n`: `_dictify`'s dictionary, `id` set from the element's own
   * attribute, `tags` set unless the requested tag name is `tag`, and the keys
   * `tag` and `tagid` removed.
   */
  function Record(n: Node, tagname: string): map<string, Value>
    requires n.Element?
  {
    var d := Lift(DictOf(n.children))["id" := Str(GetAttribute(n, "id"))];
    var withTags := if tagname != "tag" then d["tags" := Tags(TagPairs(n))] else d;
    var withoutTag := if "tag" in withTags then withTags - {"tag"} else withTags;
    if "tagid" in withoutTag then withoutTag - {"tagid"} else withoutTag
  }

  /**
   * What the keyword arguments hold: never `tag` or `tagid`; always the
   * element's own `id`; the tag list unless the tag name is `tag`; and every
   * other key exactly when some child writes it, with `_dictify`'s text.
   */
  lemma RecordKeys(n: Node, tagname: string, key: string)
    requires n.Element?
    ensures "tag" !in Record(n, tagname) && "tagid" !in Record(n, tagname)
    ensures "id" in Record(n, tagname) && Record(n, tagname)["id"] == Str(GetAttribute(n, "id"))
    ensures tagname != "tag" ==> "tags" in Record(n, tagname) && Record(n, tagname)["tags"] == Tags(TagPairs(n))
    ensures key != "tag" && key != "tagid" && key != "id" && (key == "tags" ==> tagname == "tag") ==>
              (key in Record(n, tagname) <==> exists i :: 0 <= i < |n.children| && Writes(n.children[i], key))
              && (key in Record(n, tagname) ==> Record(n, tagname)[key] == Str(DictOf(n.children)[key]))
  {
    DictKeys(n.children, key);
  }

  /** A key that materialisation either deletes or passes to a parameter of kind `k`. */
  predicate KeyKnown(key: string, k: Kind)
  {
    key == "tag" || key == "tagid" || key in Params(k)
  }

  /** Every key an element child of `n` writes (its name, and name + "id" when it has an id) is known to kind `k`. */
  predicate ChildFieldsKnown(n: Node, k: Kind)
    requires n.Element?
  {
    forall i :: 0 <= i < |n.children| && n.children[i].Element? ==>
      KeyKnown(n.children[i].tagName, k)
      && (HasAttribute(n.children[i], "id") ==> KeyKnown(n.children[i].tagName + "id", k))
  }

  /**
   * When the constructor accepts the keyword arguments of element `n`: every
   * child field is a parameter of the class and, unless the tag name is
   * exactly `tag`, the class takes a tag list, which class Tag does not (so
   * `_get_objects(dom, 'Tag')` raises on the first `Tag` element).
   */
  lemma RecordAccepted(n: Node, tagname: string, k: Kind)
    requires n.Element? && ResolveKind(tagname) == Some(k)
    ensures Accepts(k, Record(n, tagname)) <==> (tagname != "tag" ==> k != TagKind) && ChildFieldsKnown(n, k)
  {
    if Accepts(k, Record(n, tagname)) {
      AcceptedRecordIsKnown(n, tagname, k);
    }
    if (tagname != "tag" ==> k != TagKind) && ChildFieldsKnown(n, k) {
      KnownRecordIsAccepted(n, tagname, k);
    }
  }

  /** The constructor accepts the arguments of `n` only when the class takes tags (unless the name is `tag`) and every child field. */
  lemma AcceptedRecordIsKnown(n: Node, tagname: string, k: Kind)
    requires n.Element? && Accepts(k, Record(n, tagname))
    ensures tagname != "tag" ==> k != TagKind
    ensures ChildFieldsKnown(n, k)
  {
    var r := Record(n, tagname);
    ParamNames(k);
    if tagname != "tag" {
      RecordKeys(n, tagname, "tags");
    }
    forall i, key | 0 <= i < |n.children| && Writes(n.children[i], key)
      ensures KeyKnown(key, k)
    {
      RecordKeys(n, tagname, key);
      if key != "tag" && key != "tagid" && key != "id" && !(key == "tags" && tagname != "tag") {
        assert key in r;
      }
    }
    forall i | 0 <= i < |n.children| && n.children[i].Element?
      ensures KeyKnown(n.children[i].tagName, k)
      ensures HasAttribute(n.children[i], "id") ==> KeyKnown(n.children[i].tagName + "id", k)
    {
      assert Writes(n.children[i], n.children[i].tagName);
      if HasAttribute(n.children[i], "id") {
        assert Writes(n.children[i], n.children[i].tagName + "id");
      }
    }
  }

  /** A class that takes tags (or the name `tag`, whose class is Tag) and every child field accepts the arguments of `n`. */
  lemma KnownRecordIsAccepted(n: Node, tagname: string, k: Kind)
    requires n.Element? && ResolveKind(tagname) == Some(k)
    requires (tagname != "tag" ==> k != TagKind) && ChildFieldsKnown(n, k)
    ensures Accepts(k, Record(n, tagname))
  {
    var r := Record(n, tagname);
    ParamNames(k);
    if tagname == "tag" {
      ResolveElementName(TagKind);
    }
    forall key | key in r
      ensures key in Params(k)
    {
      RecordKeys(n, tagname, key);
      if key != "id" && !(key == "tags" && tagname != "tag") {
        var i :| 0 <= i < |n.children| && Writes(n.children[i], key);
      }
    }
  }

  /** The keyword arguments `_get_objects` builds for each of the elements `nodes`, in order. */
  function Records(nodes: seq<Node>, tagname: string): (rs: seq<map<string, Value>>)
    requires forall i :: 0 <= i < |nodes| ==> nodes[i].Element?
    ensures |rs| == |nodes|
  {
    seq(|nodes|, i requires 0 <= i < |nodes| => Record(nodes[i], tagname))
  }

  /**
   * The objects built from the keyword arguments `rs`, first to last; the
   * first set the constructor refuses raises its TypeError, and no list is
   * returned then.
   */
  function Materialise(k: Kind, rs: seq<map<string, Value>>): Result<seq<Entity>, Error>
  {
    MapResult(d => Construct(k, d), rs)
  }

  /**
   * Materialisation succeeds exactly when the constructor accepts every
   * argument set; the only error it raises is the constructor's.
   */
  lemma MaterialiseSucceeds(k: Kind, rs: seq<map<string, Value>>)
    ensures Materialise(k, rs).Success? <==> forall i :: 0 <= i < |rs| ==> Construct(k, rs[i]).Success?
    ensures Materialise(k, rs).Failure? ==> Materialise(k, rs).error == UnexpectedKeyword(k)
  {
    MapResultSucceeds(d => Construct(k, d), rs);
  }

  /** Materialisation keeps one object per argument set, in order: object `i` is what the constructor makes of set `i`. */
  lemma MaterialiseElements(k: Kind, rs: seq<map<string, Value>>, i: nat)
    requires Materialise(k, rs).Success? && i < |rs|
    ensures |Materialise(k, rs).value| == |rs|
    ensures Construct(k, rs[i]) == Success(Materialise(k, rs).value[i])
  {
    MapResultElements(d => Construct(k, d), rs, i);
  }

  /** The elements `_get_objects` visits: those below the document named `tagname`. */
  function Matches(dom: Document, tagname: string): seq<Node>
  {
    ElementsByTagName(dom.childNodes, tagname)
  }

  /**
   * What `_get_objects(dom, tagname)` returns: error 9001 for a name that is
   * no class; otherwise one entity per matching element in document order,
   * or the constructor's TypeError when some element has a key its class
   * does not take.
   */
  function Objects(dom: Document, tagname: string): Result<seq<Entity>, Error>
  {
    match ResolveKind(tagname)
    case None => Failure(AmpacheAPIError(Number(9001), "Bad tag name: " + tagname))
    case Some(k) =>
      Materialise(k, Records(Matches(dom, tagname), tagname))
  }

  /**
   * `_get_objects` as written: a name that title-cases to `Node` finds the
   * `xml.dom.Node` class instead of raising 9001; the loop then returns the
   * empty list when no element matches, and otherwise the first call
   * `Node(**d)` raises TypeError.
   */
  function ObjectsAsWritten(dom: Document, tagname: string): (r: Result<seq<Entity>, Error>)
    ensures ResolveGlobal(tagname).None? ==> r == Failure(AmpacheAPIError(Number(9001), "Bad tag name: " + tagname))
    ensures ResolveGlobal(tagname) == Some(DomNode) ==> (r.Success? <==> Matches(dom, tagname) == [])
  {
    match ResolveGlobal(tagname)
    case None => Failure(AmpacheAPIError(Number(9001), "Bad tag name: " + tagname))
    case Some(DomNode) => if Matches(dom, tagname) == [] then Success([]) else Failure(NoArguments)
    case Some(ContainerClass(k)) => Materialise(k, Records(Matches(dom, tagname), tagname))
  }

  /**
   * The lookup as written and the closed one differ on `node` alone: for that
   * name (in any case) the closed lookup raises 9001 while the code as written
   * raises no 9001; on every other name the two agree.
   */
  lemma ObjectsAsWrittenAgrees(dom: Document, tagname: string)
    ensures Lower(tagname) != "node" ==> ObjectsAsWritten(dom, tagname) == Objects(dom, tagname)
    ensures Lower(tagname) == "node" ==>
              && Objects(dom, tagname) == Failure(AmpacheAPIError(Number(9001), "Bad tag name: " + tagname))
              && ObjectsAsWritten(dom, tagname) == if Matches(dom, tagname) == [] then Success([]) else Failure(NoArguments)
  {
    ResolveGlobalNode(tagname);
  }

  /** `_get_objects(dom, 'node')` on a reply without `node` elements returns `[]` rather than raising 9001. */
  lemma NodeNameRaisesNothing()
    ensures ObjectsAsWritten(Document([]), "node") == Success([])
    ensures Objects(Document([]), "node") == Failure(AmpacheAPIError(Number(9001), "Bad tag name: node"))
  {
    assert Lower("node") == "node";
    assert "Bad tag name: " + "node" == "Bad tag name: node";
    ObjectsAsWrittenAgrees(Document([]), "node");
  }

  /**
   * A tag name that does not spell one of the six element names, in any
   * case, fails with code 9001 whatever the document holds.
   */
  lemma ObjectsRejectsUnknownName(dom: Document, tagname: string)
    requires forall k: Kind :: Lower(tagname) != ElementName(k)
    ensures Objects(dom, tagname) == Failure(AmpacheAPIError(Number(9001), "Bad tag name: " + tagname))
  {
    if ResolveKind(tagname).Some? {
      ResolveKindIgnoresCase(tagname, ResolveKind(tagname).value);
    }
  }

  /**
   * Materialisation fails only for an unknown name or for an element whose
   * fields its class does not take; it succeeds exactly otherwise.
   */
  lemma ObjectsSucceeds(dom: Document, tagname: string, k: Kind)
    requires ResolveKind(tagname) == Some(k)
    ensures Objects(dom, tagname).Success? <==>
              forall i :: 0 <= i < |Matches(dom, tagname)| ==>
                (tagname != "tag" ==> k != TagKind) && ChildFieldsKnown(Matches(dom, tagname)[i], k)
    ensures Objects(dom, tagname).Failure? ==> Objects(dom, tagname).error == UnexpectedKeyword(k)
  {
    var nodes := Matches(dom, tagname);
    var rs := Records(nodes, tagname);
    assert Objects(dom, tagname) == Materialise(k, rs);
    MaterialiseSucceeds(k, rs);
    forall i | 0 <= i < |nodes|
      ensures Construct(k, rs[i]).Success? <==> (tagname != "tag" ==> k != TagKind) && ChildFieldsKnown(nodes[i], k)
    {
      assert rs[i] == Record(nodes[i], tagname);
      RecordAccepted(nodes[i], tagname, k);
    }
  }

  /** A completed `_get_objects` returns exactly one object per matching element, and so `[]` when none matches. */
  lemma ObjectsCount(dom: Document, tagname: string)
    requires Objects(dom, tagname).Success?
    ensures |Objects(dom, tagname).value| == |Matches(dom, tagname)|
  {
    var k := ResolveKind(tagname).value;
    MapResultLength(d => Construct(k, d), Records(Matches(dom, tagname), tagname));
  }

  /** A reply without matching elements gives the empty list for every class name. */
  lemma ObjectsNoMatches(dom: Document, tagname: string)
    requires ResolveKind(tagname).Some? && Matches(dom, tagname) == []
    ensures Objects(dom, tagname) == Success([])
  {
  }

  /** Entity `i` of a successful `_get_objects` is what the constructor makes of the arguments of matching element `i`. */
  lemma ObjectsElement(dom: Document, tagname: string, k: Kind, i: nat)
    requires ResolveKind(tagname) == Some(k) && Objects(dom, tagname).Success?
    requires i < |Matches(dom, tagname)|
    ensures |Objects(dom, tagname).value| == |Matches(dom, tagname)|
    ensures Construct(k, Record(Matches(dom, tagname)[i], tagname)) == Success(Objects(dom, tagname).value[i])
  {
    var rs := Records(Matches(dom, tagname), tagname);
    MaterialiseElements(k, rs, i);
    assert rs[i] == Record(Matches(dom, tagname)[i], tagname);
  }

  /** The value `_get_objects` passes for parameter `p` of an entity built from element `n`. */
  function FieldOf(n: Node, tagname: string, p: string): Field
    requires n.Element?
  {
    if p == "id" then Some(Str(GetAttribute(n, "id")))
    else if p == "tags" && tagname != "tag" then Some(Tags(TagPairs(n)))
    else if p in DictOf(n.children) then Some(Str(DictOf(n.children)[p]))
    else None
  }

  /** Every parameter `p` of an entity class gets its `FieldOf` value from the keyword arguments of `n`. */
  lemma RecordField(n: Node, tagname: string, p: string)
    requires n.Element? && p != "tag" && p != "tagid"
    ensures Get(Record(n, tagname), p) == FieldOf(n, tagname, p)
  {
    RecordKeys(n, tagname, p);
    if p != "id" && !(p == "tags" && tagname != "tag") {
      DictKeys(n.children, p);
    }
  }

  /**
   * The entity built from element `n` has the requested class, and each
   * attribute holds its `FieldOf` value: the `id` attribute of `n` (over any
   * `id` child), the tag list of `n` unless the name is `tag`, and otherwise
   * the text `_dictify` found, or `None`.
   */
  lemma EntityField(n: Node, tagname: string, k: Kind, e: Entity, j: nat)
    requires n.Element? && Construct(k, Record(n, tagname)) == Success(e)
    requires j < |Params(k)|
    ensures KindOf(e) == k
    ensures Attributes(e)[j] == FieldOf(n, tagname, Params(k)[j])
  {
    var p := Params(k)[j];
    ParamNames(k);
    ConstructAttributes(k, Record(n, tagname), j);
    RecordField(n, tagname, p);
  }

  /** With any requested name but `tag`, the built entity is no `Tag` and carries the tag list. */
  lemma EntityTags(n: Node, tagname: string, k: Kind, e: Entity)
    requires n.Element? && Construct(k, Record(n, tagname)) == Success(e)
    requires tagname != "tag"
    ensures !e.Tag? && e.tags == Some(Tags(TagPairs(n)))
  {
    RecordKeys(n, tagname, "tags");
    ConstructTags(k, Record(n, tagname));
  }

  /**
   * Attribute types: in an entity built from an element the `tags`
   * attribute is always a tag list and every other attribute is `None` or a
   * string.
   */
  lemma EntityWellTyped(n: Node, tagname: string, k: Kind, e: Entity, j: nat)
    requires ResolveKind(tagname) == Some(k)
    requires n.Element? && Construct(k, Record(n, tagname)) == Success(e)
    requires j < |Params(k)|
    ensures KindOf(e) == k
    ensures var a := Attributes(e)[j];
            if Params(k)[j] == "tags" then a.Some? && a.value.Tags? else a.None? || a.value.Str?
  {
    EntityField(n, tagname, k, e, j);
    if tagname == "tag" {
      ResolveElementName(TagKind);
      ParamNames(k);
    }
  }

  /**
   * End to end: attribute `j` of entity `i` from a successful
   * `_get_objects(dom, tagname)` is the `FieldOf` value of matching element `i`.
   */
  lemma ObjectsFields(dom: Document, tagname: string, k: Kind, i: nat, j: nat)
    requires ResolveKind(tagname) == Some(k) && Objects(dom, tagname).Success?
    requires i < |Matches(dom, tagname)| && j < |Params(k)|
    ensures |Objects(dom, tagname).value| == |Matches(dom, tagname)|
    ensures KindOf(Objects(dom, tagname).value[i]) == k
    ensures Attributes(Objects(dom, tagname).value[i])[j] == FieldOf(Matches(dom, tagname)[i], tagname, Params(k)[j])
  {
    ObjectsElement(dom, tagname, k, i);
    EntityField(Matches(dom, tagname)[i], tagname, k, Objects(dom, tagname).value[i], j);
  }

  /** The tag loop of `_get_objects`: one `(owner id, text)` pair per `tag` element below `node`. */
  method CollectTags(node: Node) returns (tags: seq<TagPair>)
    requires node.Element?
    ensures tags == TagPairs(node)
  {
    var tagNodes := ElementsByTagName(node.children, "tag");
    tags := [];
    for j := 0 to |tagNodes|
      invariant tags == seq(j, m requires 0 <= m < j => (GetAttribute(node, "id"), CharData(tagNodes[m].children)))
    {
      var text := GetText(tagNodes[j]);
      tags := tags + [(GetAttribute(node, "id"), text)];
    }
  }

  /**
   * The body of the loop in `_get_objects` up to the constructor call: the
   * keyword arguments for one entity element.
   */
  method ObjectArguments(node: Node, tagname: string) returns (d: map<string, Value>)
    requires node.Element?
    ensures d == Record(node, tagname)
  {
    var fields := Dictify(node);
    d := Lift(fields);
    d := d["id" := Str(GetAttribute(node, "id"))];
    if tagname != "tag" {
      var tags := CollectTags(node);
      d := d["tags" := Tags(tags)];
    }
    if "tag" in d {
      d := d - {"tag"};
    }
    if "tagid" in d {
      d := d - {"tagid"};
    }
  }

  /** `_get_objects(element, tagname)`: resolves the class, then builds one object per matching element. */
  method GetObjects(dom: Document, tagname: string) returns (r: Result<seq<Entity>, Error>)
    ensures r == Objects(dom, tagname)
  {
    var resolved := ResolveKind(tagname);
    if resolved.None? {
      return Failure(AmpacheAPIError(Number(9001), "Bad tag name: " + tagname));
    }
    var k := resolved.value;
    var nodes := ElementsByTagName(dom.childNodes, tagname);
    ghost var records := Records(nodes, tagname);
    var objects: seq<Entity> := [];
    for i := 0 to |nodes|
      invariant Materialise(k, records[..i]) == Success(objects)
    {
      var d := ObjectArguments(nodes[i], tagname);
      assert records[..i + 1][..i] == records[..i] && records[i] == d;
      var built := Construct(k, d);
      if built.Failure? {
        MaterialiseSucceeds(k, records);
        return Failure(built.error);
      }
      objects := objects + [built.value];
    }
    assert records[..|nodes|] == records;
    return Success(objects);
  }
}
