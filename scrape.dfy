/** Fetching a rendered page and stripping it down to what is worth reading:
    scripts and styles, head content other than titles and the metadata
    tags that describe the page, navigation and form furniture, and media
    are removed in place, in the order the scraper removes them. The page
    is an element tree; fetching and rendering it back to HTML are
    parameters. */
module Scrape {
  import opened Wrappers
  import opened Strings

  datatype Node =
    | Element(tag: string, attributes: map<string, string>, children: seq<Node>)
    | Text(text: string)

  /** The document: the children of `<head>` and of `<body>`. */
  datatype Page = Page(head: seq<Node>, body: seq<Node>)

  // ---------------------------------------------------------------------------
  // Which head metadata is kept

  const RELEVANT_META: seq<string> := ["og:", "fb:", "twitter:", "article:", "description", "keywords", "title"]

  /** `attr("name") ?? attr("property")`: `property` is read only when
      `name` is missing, not when it is empty. */
  function MetaKey(attributes: map<string, string>): (key: Option<string>)
    ensures "name" in attributes ==> key == Some(attributes["name"])
    ensures key.None? <==> "name" !in attributes && "property" !in attributes
  {
    if "name" in attributes then Some(attributes["name"])
    else if "property" in attributes then Some(attributes["property"])
    else None
  }

  /** A meta element is kept when its key is non-empty and, lowercased,
      starts with one of the relevant prefixes. */
  predicate KeepMeta(attributes: map<string, string>) {
    var key := MetaKey(attributes);
    key.Some? && key.value != "" &&
    exists i :: 0 <= i < |RELEVANT_META| && StartsWith(ToLower(key.value), RELEVANT_META[i])
  }

  /** An empty `name` does not fall back to `property`: the element goes,
      whatever its `property` says. */
  lemma EmptyNameIsRemoved(attributes: map<string, string>)
    requires "name" in attributes && attributes["name"] == ""
    ensures !KeepMeta(attributes)
  {
  }

  /** Matching ignores ASCII case: two keys that are the same once
      lowercased get the same verdict, so `OG:Image` fares as `og:image`. */
  lemma KeyCaseIgnored(m1: map<string, string>, m2: map<string, string>)
    requires MetaKey(m1).Some? && MetaKey(m2).Some?
    requires ToLower(MetaKey(m1).value) == ToLower(MetaKey(m2).value)
    ensures KeepMeta(m1) <==> KeepMeta(m2)
  {
    assert |MetaKey(m1).value| == |ToLower(MetaKey(m1).value)|;
    assert |MetaKey(m2).value| == |ToLower(MetaKey(m2).value)|;
  }

  /** `OG:image` and `titleX` are kept, `viewport` is not. */
  lemma MetaExamples(og: map<string, string>, titleX: map<string, string>, viewport: map<string, string>)
    requires og == map["property" := "OG:image"]
    requires titleX == map["name" := "titleX"]
    requires viewport == map["name" := "viewport"]
    ensures KeepMeta(og)
    ensures KeepMeta(titleX)
    ensures !KeepMeta(viewport)
  {
    assert ToLower("OG:image")[..3] == "og:";
    assert StartsWith(ToLower("OG:image"), RELEVANT_META[0]);
    assert ToLower("titleX")[..5] == "title";
    assert StartsWith(ToLower("titleX"), RELEVANT_META[6]);
    var v := ToLower("viewport");
    assert v == "viewport";
    forall i | 0 <= i < |RELEVANT_META|
      ensures !StartsWith(v, RELEVANT_META[i])
    {
      assert RELEVANT_META[i][0] != 'v';
    }
  }

  // ---------------------------------------------------------------------------
  // Removing elements

  /** What one `.remove()` call removes: the elements with one of the given
      tags, or the head meta elements that are not kept. */
  datatype Selector = Tags(tags: set<string>) | IrrelevantMeta

  predicate Selected(n: Node, sel: Selector) {
    n.Element? &&
    match sel
    case Tags(tags) => n.tag in tags
    case IrrelevantMeta => n.tag == "meta" && !KeepMeta(n.attributes)
  }

  /** The nodes with every selected element removed, at any depth, together
      with everything inside it. */
  function Prune(nodes: seq<Node>, sel: Selector): (r: seq<Node>)
    decreases nodes
    ensures |r| <= |nodes|
  {
    if nodes == [] then []
    else
      var n := nodes[0];
      var first := if Selected(n, sel) then []
                   else if n.Text? then [n]
                   else [Element(n.tag, n.attributes, Prune(n.children, sel))];
      first + Prune(nodes[1..], sel)
  }

  /** No selected element anywhere in the nodes. */
  predicate NoneSelected(nodes: seq<Node>, sel: Selector)
    decreases nodes
  {
    forall i :: 0 <= i < |nodes| ==>
      !Selected(nodes[i], sel) && (nodes[i].Element? ==> NoneSelected(nodes[i].children, sel))
  }

  lemma {:induction false} PruneAppend(a: seq<Node>, b: seq<Node>, sel: Selector)
    ensures Prune(a + b, sel) == Prune(a, sel) + Prune(b, sel)
    decreases |a|
  {
    if a == [] {
      assert a + b == b;
    } else {
      assert (a + b)[0] == a[0];
      assert (a + b)[1..] == a[1..] + b;
      PruneAppend(a[1..], b, sel);
    }
  }

  lemma NoneSelectedAppend(a: seq<Node>, b: seq<Node>, sel: Selector)
    requires NoneSelected(a, sel) && NoneSelected(b, sel)
    ensures NoneSelected(a + b, sel)
  {
    forall i | 0 <= i < |a + b|
      ensures !Selected((a + b)[i], sel) && ((a + b)[i].Element? ==> NoneSelected((a + b)[i].children, sel))
    {
      if i < |a| {
        assert (a + b)[i] == a[i];
      } else {
        assert (a + b)[i] == b[i - |a|];
      }
    }
  }

  /** After a removal nothing it selects is left. */
  lemma {:induction false} PruneRemovesAll(nodes: seq<Node>, sel: Selector)
    ensures NoneSelected(Prune(nodes, sel), sel)
    decreases nodes
  {
    if nodes != [] {
      var n := nodes[0];
      PruneRemovesAll(nodes[1..], sel);
      if !Selected(n, sel) && n.Element? {
        PruneRemovesAll(n.children, sel);
        assert NoneSelected([Element(n.tag, n.attributes, Prune(n.children, sel))], sel);
      }
      var first := if Selected(n, sel) then []
                   else if n.Text? then [n]
                   else [Element(n.tag, n.attributes, Prune(n.children, sel))];
      NoneSelectedAppend(first, Prune(nodes[1..], sel), sel);
    }
  }

  /** A removal that finds nothing to remove changes nothing; with
      PruneRemovesAll, removing twice is removing once. */
  lemma {:induction false} PruneClean(nodes: seq<Node>, sel: Selector)
    requires NoneSelected(nodes, sel)
    ensures Prune(nodes, sel) == nodes
    decreases nodes
  {
    if nodes != [] {
      var n := nodes[0];
      assert NoneSelected(nodes[1..], sel) by {
        assert forall i :: 0 <= i < |nodes| - 1 ==> nodes[1..][i] == nodes[i + 1];
      }
      PruneClean(nodes[1..], sel);
      if n.Element? {
        PruneClean(n.children, sel);
      }
      assert nodes == [n] + nodes[1..];
    }
  }

  /** Two removals by tag in a row remove the union of their tags. */
  lemma {:induction false} PruneTagsCompose(nodes: seq<Node>, a: set<string>, b: set<string>)
    ensures Prune(Prune(nodes, Tags(a)), Tags(b)) == Prune(nodes, Tags(a + b))
    decreases nodes
  {
    if nodes != [] {
      var n := nodes[0];
      var once := Prune(nodes, Tags(a));
      PruneTagsCompose(nodes[1..], a, b);
      if n.Element? && n.tag !in a {
        PruneTagsCompose(n.children, a, b);
        var e := Element(n.tag, n.attributes, Prune(n.children, Tags(a)));
        assert once == [e] + Prune(nodes[1..], Tags(a));
        PruneAppend([e], Prune(nodes[1..], Tags(a)), Tags(b));
      } else if n.Text? {
        assert once == [n] + Prune(nodes[1..], Tags(a));
        PruneAppend([n], Prune(nodes[1..], Tags(a)), Tags(b));
        assert Prune([n], Tags(b)) == [n] by {
          assert [n][1..] == [];
          assert [n] + [] == [n];
        }
        assert Prune(nodes, Tags(a + b)) == [n] + Prune(nodes[1..], Tags(a + b));
      } else {
        assert n.tag in a + b;
        assert once == Prune(nodes[1..], Tags(a));
        assert Prune(nodes, Tags(a + b)) == Prune(nodes[1..], Tags(a + b));
      }
    }
  }

  /** `$("head").children().not("meta, title")`: the head elements other
      than meta and title go; text is not among `children()` and stays. */
  predicate HeadKeeps(n: Node) {
    n.Text? || n.tag == "meta" || n.tag == "title"
  }

  function HeadChildren(nodes: seq<Node>): (r: seq<Node>)
    ensures |r| <= |nodes|
    ensures forall k :: 0 <= k < |r| ==> HeadKeeps(r[k]) && r[k] in nodes
    ensures forall k :: 0 <= k < |nodes| && HeadKeeps(nodes[k]) ==> nodes[k] in r
  {
    if nodes == [] then []
    else (if HeadKeeps(nodes[0]) then [nodes[0]] else []) + HeadChildren(nodes[1..])
  }

  /** The head children keep document order: the kept children of two
      stretches of the head are those of the first, then those of the second. */
  lemma {:induction false} HeadChildrenAppend(a: seq<Node>, b: seq<Node>)
    ensures HeadChildren(a + b) == HeadChildren(a) + HeadChildren(b)
    decreases |a|
  {
    if a == [] {
      assert a + b == b;
    } else {
      assert (a + b)[0] == a[0];
      assert (a + b)[1..] == a[1..] + b;
      HeadChildrenAppend(a[1..], b);
    }
  }

  // ---------------------------------------------------------------------------
  // The whole clean-up

  const SCRIPTS: set<string> := {"style", "script"}
  const FURNITURE: set<string> := {"nav", "footer", "aside", "form", "input", "button", "iframe", "noscript"}
  const MEDIA: set<string> := {"svg", "img", "video"}

  /** The page after the five removal steps, in order. */
  function Sanitize(p: Page): Page {
    var head1 := Prune(p.head, Tags(SCRIPTS));
    var body1 := Prune(p.body, Tags(SCRIPTS));
    var head3 := HeadChildren(Prune(head1, IrrelevantMeta));
    Page(Prune(Prune(head3, Tags(FURNITURE)), Tags(MEDIA)),
         Prune(Prune(body1, Tags(FURNITURE)), Tags(MEDIA)))
  }

  /** What the head may hold once cleaned: text, titles, and kept metas. */
  predicate CleanHeadChild(n: Node) {
    n.Text? || n.tag == "title" || (n.tag == "meta" && KeepMeta(n.attributes))
  }

  lemma {:induction false} PruneTagsKeepsHeadShape(nodes: seq<Node>, tags: set<string>)
    requires forall k :: 0 <= k < |nodes| ==> CleanHeadChild(nodes[k])
    ensures forall k :: 0 <= k < |Prune(nodes, Tags(tags))| ==> CleanHeadChild(Prune(nodes, Tags(tags))[k])
    decreases nodes
  {
    if nodes != [] {
      PruneTagsKeepsHeadShape(nodes[1..], tags);
      assert CleanHeadChild(nodes[0]);
    }
  }

  lemma {:induction false} HeadChildrenAfterMetaFilter(nodes: seq<Node>)
    requires NoneSelected(nodes, IrrelevantMeta)
    ensures forall k :: 0 <= k < |HeadChildren(nodes)| ==> CleanHeadChild(HeadChildren(nodes)[k])
    decreases nodes
  {
    if nodes != [] {
      assert NoneSelected(nodes[1..], IrrelevantMeta) by {
        assert forall i :: 0 <= i < |nodes| - 1 ==> nodes[1..][i] == nodes[i + 1];
      }
      HeadChildrenAfterMetaFilter(nodes[1..]);
      assert !Selected(nodes[0], IrrelevantMeta);
    }
  }

  /** The cleaned head holds only text, titles and relevant metas. */
  lemma CleanHead(p: Page)
    ensures forall k :: 0 <= k < |Sanitize(p).head| ==> CleanHeadChild(Sanitize(p).head[k])
  {
    var head2 := Prune(Prune(p.head, Tags(SCRIPTS)), IrrelevantMeta);
    PruneRemovesAll(Prune(p.head, Tags(SCRIPTS)), IrrelevantMeta);
    HeadChildrenAfterMetaFilter(head2);
    PruneTagsKeepsHeadShape(HeadChildren(head2), FURNITURE);
    PruneTagsKeepsHeadShape(Prune(HeadChildren(head2), Tags(FURNITURE)), MEDIA);
  }

  /** The body loses exactly the listed elements, at any depth, and nothing
      else: the head-only steps leave it alone. */
  lemma CleanBody(p: Page)
    ensures Sanitize(p).body == Prune(p.body, Tags(SCRIPTS + FURNITURE + MEDIA))
    ensures NoneSelected(Sanitize(p).body, Tags(SCRIPTS + FURNITURE + MEDIA))
  {
    PruneTagsCompose(p.body, SCRIPTS, FURNITURE);
    PruneTagsCompose(p.body, SCRIPTS + FURNITURE, MEDIA);
    PruneRemovesAll(p.body, Tags(SCRIPTS + FURNITURE + MEDIA));
  }

  /** Cleaning a cleaned body changes nothing. */
  lemma CleanBodyIdempotent(p: Page)
    ensures Sanitize(Sanitize(p)).body == Sanitize(p).body
  {
    var all := SCRIPTS + FURNITURE + MEDIA;
    CleanBody(p);
    CleanBody(Sanitize(p));
    PruneClean(Sanitize(p).body, Tags(all));
  }

  // ---------------------------------------------------------------------------
  // The document the scraper mutates

  class Dom {
    var head: seq<Node>
    var body: seq<Node>

    constructor (p: Page)
      ensures head == p.head && body == p.body
    {
      head := p.head;
      body := p.body;
    }

    function Contents(): Page
      reads this
    {
      Page(head, body)
    }

    /** `$(selector).remove()` for a tag selector, over the whole document. */
    method RemoveTags(tags: set<string>)
      modifies this
      ensures head == Prune(old(head), Tags(tags)) && body == Prune(old(body), Tags(tags))
    {
      head := Prune(head, Tags(tags));
      body := Prune(body, Tags(tags));
    }

    /** `$("head meta").each(...)`: each head meta that is not kept is
        removed, in document order; the body is not touched. */
    method RemoveIrrelevantMeta()
      modifies this
      ensures head == Prune(old(head), IrrelevantMeta) && body == old(body)
    {
      var elements := head;
      var kept: seq<Node> := [];
      var i := 0;
      while i < |elements|
        invariant 0 <= i <= |elements|
        invariant kept == Prune(elements[..i], IrrelevantMeta)
        invariant body == old(body)
      {
        PruneAppend(elements[..i], [elements[i]], IrrelevantMeta);
        assert elements[..i + 1] == elements[..i] + [elements[i]];
        kept := kept + Prune([elements[i]], IrrelevantMeta);
        i := i + 1;
      }
      assert elements[..i] == elements;
      head := kept;
    }

    /** `$("head").children().not("meta, title").remove()`. */
    method RemoveOtherHeadChildren()
      modifies this
      ensures head == HeadChildren(old(head)) && body == old(body)
    {
      head := HeadChildren(head);
    }
  }

  /** What scraping `url` gives: `fetch` gives the loaded page (None when
      the browser fails), `render` is `$.html()`. Any failure gives "". */
  function Scraped(url: string, fetch: string -> Option<Page>, render: Page -> string): string {
    if fetch(url).None? then "" else render(Sanitize(fetch(url).value))
  }

  /** `scrapeWebPage(url)`: the steps run on the loaded document in the
      source's order, and the result is the sanitised page. */
  method ScrapeWebPage(url: string, fetch: string -> Option<Page>, render: Page -> string)
    returns (html: string)
    ensures html == Scraped(url, fetch, render)
  {
    var loaded := fetch(url);
    if loaded.None? {
      return "";
    }
    var dom := new Dom(loaded.value);
    dom.RemoveTags(SCRIPTS);
    dom.RemoveIrrelevantMeta();
    dom.RemoveOtherHeadChildren();
    dom.RemoveTags(FURNITURE);
    dom.RemoveTags(MEDIA);
    html := render(dom.Contents());
  }
}
