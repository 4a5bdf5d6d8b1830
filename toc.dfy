/**
 * Table-of-contents extraction of the documentation site (apps/doc/src/utils/parser.ts):
 * the text of a rendered node, and the walk that collects h2 sections with their h3
 * children, writes a slug id onto every heading it meets, and rejects an h3 that has no
 * h2 before it in its own list.
 */
module Toc {
  import opened Wrappers
  import opened Types

  /** A renderable tree node: a tag with its name, attributes and children, a string, or any other scalar. */
  datatype RNode =
    | Tag(name: string, attributes: map<string, Value>, children: seq<RNode>)
    | Text(s: string)
    | Scalar

  /** What `collectHeadings` is given: an array of nodes or a single node. */
  datatype Nodes = Many(items: seq<RNode>) | One(node: RNode)

  /** A table-of-contents entry: the heading's attributes (its id included), its title and its sub-entries. */
  datatype Section = Section(attributes: map<string, Value>, title: string, children: seq<Section>)

  const H3_ERROR: string := "Cannot add `h3` to table of contents without a preceding `h2`"

  /**
   * `slugifyWithCounter()`, stateful in the source: the slug it gives for a title may
   * depend on every title slugified before it, which is the first argument here.
   */
  type Slugify = (seq<string>, string) -> string

  /** The text of a list of children: each string child itself, each tag child its own text, other scalars nothing. */
  function ChildrenText(cs: seq<RNode>): string
    decreases cs
  {
    if cs == [] then ""
    else
      var last := cs[|cs| - 1];
      ChildrenText(cs[..|cs| - 1])
        + (if last.Text? then last.s else "")
        + (if last.Tag? then ChildrenText(last.children) else "")
  }

  /** `getNodeText`: "" for anything but a tag. */
  function NodeText(n: RNode): string
  {
    if n.Tag? then ChildrenText(n.children) else ""
  }

  /** `getNodeText`'s loop: append each string child, then the text of the child itself. */
  method GetNodeText(node: RNode) returns (text: string)
    ensures text == NodeText(node)
    decreases node
  {
    if !node.Tag? {
      return "";
    }
    text := "";
    for i := 0 to |node.children|
      invariant text == ChildrenText(node.children[..i])
    {
      var child := node.children[i];
      assert node.children[..i + 1][..i] == node.children[..i];
      if child.Text? {
        text := text + child.s;
      }
      var sub := GetNodeText(child);
      text := text + sub;
    }
    assert node.children[..|node.children|] == node.children;
  }

  /** An h2 or h3 whose text is not empty: the headings that get an id and an entry. */
  predicate Contributes(n: RNode)
  {
    n.Tag? && (n.name == "h2" || n.name == "h3") && NodeText(n) != ""
  }

  /** `sections[sections.length - 1].children.push(entry)`. */
  function AppendChild(sections: seq<Section>, entry: Section): seq<Section>
    requires |sections| > 0
  {
    var n := |sections| - 1;
    sections[n := sections[n].(children := sections[n].children + [entry])]
  }

  /** `node.attributes.id = id`. */
  function WithId(node: RNode, id: string): RNode
    requires node.Tag?
  {
    node.(attributes := node.attributes["id" := Str(id)])
  }

  /** `{ ...node.attributes, title, children: [] }` once the id is written: the heading's attributes, its title, no children. */
  function Entry(node: RNode, id: string): (e: Section)
    requires node.Tag?
    ensures e.title == NodeText(node) && e.children == []
    ensures "id" in e.attributes && e.attributes["id"] == Str(id)
  {
    Section(node.attributes["id" := Str(id)] - {"title", "children"}, NodeText(node), [])
  }

  /**
   * An entry has exactly the heading's attributes and `id`, less the spread's `title` and
   * `children`, and keeps the value of every attribute other than `id`.
   */
  lemma EntryKeepsAttributes(node: RNode, id: string, a: string)
    requires node.Tag?
    ensures a in Entry(node, id).attributes <==> a == "id" || (a in node.attributes && a !in {"title", "children"})
    ensures a in node.attributes && a !in {"id", "title", "children"} ==> Entry(node, id).attributes[a] == node.attributes[a]
  {
  }

  /** The state after the heading part of one loop iteration. */
  datatype Entered = Entered(sections: seq<Section>, history: seq<string>, node: RNode)

  /**
   * The heading part of one iteration: a contributing heading gets `id = slugify(title)`
   * and an entry built from its attributes, title and no children; an h2 entry opens a
   * new section, an h3 entry joins the last section, and with no section there it throws.
   */
  function Enter(sections: seq<Section>, history: seq<string>, node: RNode, slug: Slugify): (r: Result<Entered, string>)
    ensures !Contributes(node) ==> r == Ok(Entered(sections, history, node))
    ensures Contributes(node) && node.name == "h2" ==>
              var id := slug(history, NodeText(node));
              r == Ok(Entered(sections + [Entry(node, id)], history + [NodeText(node)], WithId(node, id)))
    ensures Contributes(node) && node.name == "h3" && |sections| > 0 ==>
              var id := slug(history, NodeText(node));
              r == Ok(Entered(AppendChild(sections, Entry(node, id)), history + [NodeText(node)], WithId(node, id)))
    ensures r.Err? <==> Contributes(node) && node.name == "h3" && |sections| == 0
    ensures r.Err? ==> r.error == H3_ERROR
  {
    if !Contributes(node) then Ok(Entered(sections, history, node))
    else
      var title := NodeText(node);
      var id := slug(history, title);
      if node.name == "h3" then
        if |sections| == 0 then Err(H3_ERROR)
        else Ok(Entered(AppendChild(sections, Entry(node, id)), history + [title], WithId(node, id)))
      else Ok(Entered(sections + [Entry(node, id)], history + [title], WithId(node, id)))
  }

  /** What the walk over one array leaves: the sections, the slug history, and the array with ids written. */
  datatype Walk = Walk(sections: seq<Section>, history: seq<string>, nodes: seq<RNode>)

  /**
   * `collectHeadings` on an array, item by item: the heading part, then the recursive
   * call on the tag's children, whose sections are discarded but whose id writes, slug
   * history and throw are kept.
   */
  function CollectList(items: seq<RNode>, slug: Slugify, history: seq<string>): Result<Walk, string>
    decreases items
  {
    if items == [] then Ok(Walk([], history, []))
    else
      var last := items[|items| - 1];
      match CollectList(items[..|items| - 1], slug, history)
      case Err(e) => Err(e)
      case Ok(w) =>
        match Enter(w.sections, w.history, last, slug)
        case Err(e) => Err(e)
        case Ok(en) =>
          if !last.Tag? then Ok(Walk(en.sections, en.history, w.nodes + [en.node]))
          else
            match CollectList(last.children, slug, en.history)
            case Err(e) => Err(e)
            case Ok(inner) => Ok(Walk(en.sections, inner.history, w.nodes + [en.node.(children := inner.nodes)]))
  }

  /** `collectHeadings(nodes)` with a fresh slug counter: the sections and the tree with ids written. */
  function Collect(nodes: Nodes, slug: Slugify): Result<(seq<Section>, Nodes), string>
  {
    match nodes
    case One(_) => Ok(([], nodes))
    case Many(items) =>
      match CollectList(items, slug, [])
      case Err(e) => Err(e)
      case Ok(w) => Ok((w.sections, Many(w.nodes)))
  }

  /** Once a prefix of the array has thrown, the whole array throws the same error. */
  lemma {:induction false} ErrorSticks(items: seq<RNode>, k: nat, slug: Slugify, history: seq<string>)
    requires k <= |items|
    requires CollectList(items[..k], slug, history).Err?
    ensures CollectList(items, slug, history) == CollectList(items[..k], slug, history)
    decreases |items| - k
  {
    if k < |items| {
      var n := |items| - 1;
      assert items[..n][..k] == items[..k];
      ErrorSticks(items[..n], k, slug, history);
    } else {
      assert items[..k] == items;
    }
  }

  /** The loop of `collectHeadings` over one array, updating the tree it returns in place of the source's writes. */
  method CollectHeadingsList(items: seq<RNode>, slug: Slugify, history: seq<string>) returns (r: Result<Walk, string>)
    ensures r == CollectList(items, slug, history)
    decreases items
  {
    var sections: seq<Section> := [];
    var hist := history;
    var out: seq<RNode> := [];
    for i := 0 to |items|
      invariant CollectList(items[..i], slug, history) == Ok(Walk(sections, hist, out))
    {
      var node := items[i];
      assert items[..i + 1][..i] == items[..i];
      if node.Tag? {
        var updated := node;
        var heading := hist;
        if node.name == "h2" || node.name == "h3" {
          var title := GetNodeText(node);
          if title != "" {
            var id := slug(hist, title);
            updated := WithId(node, id);
            var entry := Entry(node, id);
            if node.name == "h3" {
              if |sections| == 0 {
                ErrorSticks(items, i + 1, slug, history);
                return Err(H3_ERROR);
              }
              sections := AppendChild(sections, entry);
            } else {
              sections := sections + [entry];
            }
            heading := hist + [title];
          }
        }
        var inner := CollectHeadingsList(node.children, slug, heading);
        if inner.Err? {
          ErrorSticks(items, i + 1, slug, history);
          return Err(inner.error);
        }
        hist := inner.value.history;
        out := out + [updated.(children := inner.value.nodes)];
      } else {
        out := out + [node];
      }
    }
    assert items[..|items|] == items;
    r := Ok(Walk(sections, hist, out));
  }

  /** The titles of the contributing h2 headings of an array, in order (nested ones excluded). */
  function H2Titles(items: seq<RNode>): seq<string>
  {
    if items == [] then []
    else
      var last := items[|items| - 1];
      H2Titles(items[..|items| - 1]) + (if Contributes(last) && last.name == "h2" then [NodeText(last)] else [])
  }

  /** How many contributing h3 headings an array holds at its own level. */
  function CountH3(items: seq<RNode>): nat
  {
    if items == [] then 0
    else
      var last := items[|items| - 1];
      CountH3(items[..|items| - 1]) + (if Contributes(last) && last.name == "h3" then 1 else 0)
  }

  /** The titles of every contributing heading of an array and of all its descendants, in document order. */
  function AllTitles(items: seq<RNode>): seq<string>
    decreases items
  {
    if items == [] then []
    else
      var last := items[|items| - 1];
      AllTitles(items[..|items| - 1])
        + (if Contributes(last) then [NodeText(last)] else [])
        + (if last.Tag? then AllTitles(last.children) else [])
  }

  /** Some array in the tree has a contributing h3 with no contributing h2 before it in that array. */
  predicate HasOrphanH3(items: seq<RNode>)
    decreases items
  {
    if items == [] then false
    else
      var prefix := items[..|items| - 1];
      var last := items[|items| - 1];
      || HasOrphanH3(prefix)
      || (Contributes(last) && last.name == "h3" && H2Titles(prefix) == [])
      || (last.Tag? && HasOrphanH3(last.children))
  }

  function Titles(sections: seq<Section>): (r: seq<string>)
    ensures |r| == |sections| && forall i :: 0 <= i < |sections| ==> r[i] == sections[i].title
  {
    seq(|sections|, i requires 0 <= i < |sections| => sections[i].title)
  }

  /** The number of sub-entries over all sections. */
  function SumChildren(sections: seq<Section>): nat
  {
    if sections == [] then 0 else SumChildren(sections[..|sections| - 1]) + |sections[|sections| - 1].children|
  }

  /** The table has two levels: every sub-entry has no entries of its own. */
  predicate TwoLevels(sections: seq<Section>)
  {
    forall i, j :: 0 <= i < |sections| && 0 <= j < |sections[i].children| ==> sections[i].children[j].children == []
  }

  lemma AppendChildTitles(sections: seq<Section>, entry: Section)
    requires |sections| > 0
    ensures Titles(AppendChild(sections, entry)) == Titles(sections)
  {
  }

  lemma AppendChildCount(sections: seq<Section>, entry: Section)
    requires |sections| > 0
    ensures SumChildren(AppendChild(sections, entry)) == SumChildren(sections) + 1
  {
    var n := |sections| - 1;
    assert AppendChild(sections, entry)[..n] == sections[..n];
  }

  lemma AppendChildLevels(sections: seq<Section>, entry: Section)
    requires |sections| > 0 && entry.children == [] && TwoLevels(sections)
    ensures TwoLevels(AppendChild(sections, entry))
  {
    var n := |sections| - 1;
    var last := sections[n].(children := sections[n].children + [entry]);
    assert forall j :: 0 <= j < |last.children| ==> last.children[j].children == [];
  }

  lemma AppendSectionFacts(sections: seq<Section>, entry: Section)
    requires entry.children == [] && TwoLevels(sections)
    ensures Titles(sections + [entry]) == Titles(sections) + [entry.title]
    ensures SumChildren(sections + [entry]) == SumChildren(sections)
    ensures TwoLevels(sections + [entry])
  {
    assert (sections + [entry])[..|sections|] == sections;
  }

  /** What the walk over an array guarantees; CollectFacts proves it for every array. */
  predicate Facts(items: seq<RNode>, slug: Slugify, history: seq<string>)
  {
    && (CollectList(items, slug, history).Ok? <==> !HasOrphanH3(items))
    && (CollectList(items, slug, history).Err? ==> CollectList(items, slug, history).error == H3_ERROR)
    && (CollectList(items, slug, history).Ok? ==>
          var w := CollectList(items, slug, history).value;
          && Titles(w.sections) == H2Titles(items)
          && SumChildren(w.sections) == CountH3(items)
          && TwoLevels(w.sections)
          && w.history == history + AllTitles(items)
          && |w.nodes| == |items|)
  }

  /** The heading part of one iteration keeps the section facts, given those of the items before it. */
  lemma EnterFacts(sections: seq<Section>, history: seq<string>, node: RNode, slug: Slugify)
    requires TwoLevels(sections)
    requires Enter(sections, history, node, slug).Ok?
    ensures var en := Enter(sections, history, node, slug).value;
            && Titles(en.sections) == Titles(sections) + (if Contributes(node) && node.name == "h2" then [NodeText(node)] else [])
            && SumChildren(en.sections) == SumChildren(sections) + (if Contributes(node) && node.name == "h3" then 1 else 0)
            && TwoLevels(en.sections)
            && en.history == history + (if Contributes(node) then [NodeText(node)] else [])
  {
    if Contributes(node) {
      var entry := Entry(node, slug(history, NodeText(node)));
      if node.name == "h3" {
        AppendChildTitles(sections, entry);
        AppendChildCount(sections, entry);
        AppendChildLevels(sections, entry);
      } else {
        AppendSectionFacts(sections, entry);
      }
    }
  }

  lemma StepAfterError(items: seq<RNode>, slug: Slugify, history: seq<string>)
    requires items != []
    requires Facts(items[..|items| - 1], slug, history)
    requires CollectList(items[..|items| - 1], slug, history).Err?
    ensures Facts(items, slug, history)
  {
  }

  lemma StepOrphan(items: seq<RNode>, slug: Slugify, history: seq<string>)
    requires items != []
    requires Facts(items[..|items| - 1], slug, history)
    requires CollectList(items[..|items| - 1], slug, history).Ok?
    requires var w := CollectList(items[..|items| - 1], slug, history).value;
             Enter(w.sections, w.history, items[|items| - 1], slug).Err?
    ensures Facts(items, slug, history)
  {
  }

  lemma StepScalar(items: seq<RNode>, slug: Slugify, history: seq<string>)
    requires items != [] && !items[|items| - 1].Tag?
    requires Facts(items[..|items| - 1], slug, history)
    requires CollectList(items[..|items| - 1], slug, history).Ok?
    ensures Facts(items, slug, history)
  {
    var w := CollectList(items[..|items| - 1], slug, history).value;
    EnterFacts(w.sections, w.history, items[|items| - 1], slug);
  }

  lemma StepTagError(items: seq<RNode>, slug: Slugify, history: seq<string>, en: Entered)
    requires items != [] && items[|items| - 1].Tag?
    requires CollectList(items[..|items| - 1], slug, history).Ok?
    requires var w := CollectList(items[..|items| - 1], slug, history).value;
             Enter(w.sections, w.history, items[|items| - 1], slug) == Ok(en)
    requires Facts(items[|items| - 1].children, slug, en.history)
    requires CollectList(items[|items| - 1].children, slug, en.history).Err?
    ensures Facts(items, slug, history)
  {
    var last := items[|items| - 1];
    assert HasOrphanH3(last.children);
    assert CollectList(items, slug, history) == CollectList(last.children, slug, en.history);
  }

  /** The walk over an array whose last item is a tag, once the items before it, its heading part and its children went through. */
  lemma TagStepValue(items: seq<RNode>, slug: Slugify, history: seq<string>, w: Walk, en: Entered, inner: Walk)
    requires items != [] && items[|items| - 1].Tag?
    requires CollectList(items[..|items| - 1], slug, history) == Ok(w)
    requires Enter(w.sections, w.history, items[|items| - 1], slug) == Ok(en)
    requires CollectList(items[|items| - 1].children, slug, en.history) == Ok(inner)
    ensures CollectList(items, slug, history) ==
              Ok(Walk(en.sections, inner.history, w.nodes + [en.node.(children := inner.nodes)]))
  {
  }

  lemma TagStepOrphans(items: seq<RNode>)
    requires items != [] && items[|items| - 1].Tag?
    requires !HasOrphanH3(items[..|items| - 1]) && !HasOrphanH3(items[|items| - 1].children)
    requires var last := items[|items| - 1];
             Contributes(last) && last.name == "h3" ==> H2Titles(items[..|items| - 1]) != []
    ensures !HasOrphanH3(items)
  {
  }

  lemma TagStepHistory(items: seq<RNode>, history: seq<string>, prefixHistory: seq<string>, enHistory: seq<string>, innerHistory: seq<string>)
    requires items != [] && items[|items| - 1].Tag?
    requires prefixHistory == history + AllTitles(items[..|items| - 1])
    requires enHistory == prefixHistory + (if Contributes(items[|items| - 1]) then [NodeText(items[|items| - 1])] else [])
    requires innerHistory == enHistory + AllTitles(items[|items| - 1].children)
    ensures innerHistory == history + AllTitles(items)
  {
  }

  lemma StepTagOk(items: seq<RNode>, slug: Slugify, history: seq<string>, en: Entered)
    requires items != [] && items[|items| - 1].Tag?
    requires Facts(items[..|items| - 1], slug, history)
    requires CollectList(items[..|items| - 1], slug, history).Ok?
    requires var w := CollectList(items[..|items| - 1], slug, history).value;
             Enter(w.sections, w.history, items[|items| - 1], slug) == Ok(en)
    requires Facts(items[|items| - 1].children, slug, en.history)
    requires CollectList(items[|items| - 1].children, slug, en.history).Ok?
    ensures Facts(items, slug, history)
  {
    var prefix := items[..|items| - 1];
    var last := items[|items| - 1];
    var w := CollectList(prefix, slug, history).value;
    var inner := CollectList(last.children, slug, en.history).value;
    EnterFacts(w.sections, w.history, last, slug);
    TagStepValue(items, slug, history, w, en, inner);
    TagStepOrphans(items);
    TagStepHistory(items, history, w.history, en.history, inner.history);
  }

  /**
   * The walk over an array throws exactly when some array in the tree has an orphan h3.
   * Otherwise the sections are the array's own h2 headings in order, their sub-entries
   * are its own h3 headings, nested headings add no section, the slug counter has seen
   * every heading title of the tree in document order, and the array keeps its length.
   */
  lemma {:induction false} CollectFacts(items: seq<RNode>, slug: Slugify, history: seq<string>)
    ensures Facts(items, slug, history)
    decreases items
  {
    if items != [] {
      var prefix := items[..|items| - 1];
      var last := items[|items| - 1];
      CollectFacts(prefix, slug, history);
      var before := CollectList(prefix, slug, history);
      if before.Err? {
        StepAfterError(items, slug, history);
      } else if Enter(before.value.sections, before.value.history, last, slug).Err? {
        StepOrphan(items, slug, history);
      } else if !last.Tag? {
        StepScalar(items, slug, history);
      } else {
        var en := Enter(before.value.sections, before.value.history, last, slug).value;
        CollectFacts(last.children, slug, en.history);
        if CollectList(last.children, slug, en.history).Err? {
          StepTagError(items, slug, history, en);
        } else {
          StepTagOk(items, slug, history, en);
        }
      }
    }
  }

  /** The indices of the contributing h2 headings of an array, in order. */
  function H2Index(items: seq<RNode>): (r: seq<nat>)
    ensures Ascending(r, |items|)
  {
    if items == [] then []
    else
      var n := |items| - 1;
      var before := H2Index(items[..n]);
      if Contributes(items[n]) && items[n].name == "h2" then
        assert (before + [n])[..|before|] == before;
        before + [n]
      else
        assert Ascending(before, n + 1);
        before
  }

  /** The index holds exactly the contributing h2 headings. */
  lemma {:induction false} H2IndexMeans(items: seq<RNode>, k: nat)
    requires k < |items|
    ensures k in H2Index(items) <==> Contributes(items[k]) && items[k].name == "h2"
    decreases items
  {
    var n := |items| - 1;
    var before := H2Index(items[..n]);
    var isH2 := Contributes(items[n]) && items[n].name == "h2";
    H2IndexStep(items);
    assert k in H2Index(items) <==> k in before || (isH2 && k == n);
    if k < n {
      H2IndexMeans(items[..n], k);
      assert items[..n][k] == items[k];
    } else {
      assert k == n;
      AscendingMeans(before, n);
      assert forall i :: 0 <= i < |before| ==> before[i] != k;
    }
  }

  /** The slug history when the walk reaches item k of an array: every heading title before it, nested ones included. */
  function HistoryAt(items: seq<RNode>, history: seq<string>, k: nat): seq<string>
    requires k <= |items|
  {
    history + AllTitles(items[..k])
  }

  /** The entry of the heading at index k, with the id slugified from the history at that point. */
  function EntryAt(items: seq<RNode>, k: nat, slug: Slugify, history: seq<string>): Section
    requires k < |items| && items[k].Tag?
  {
    Entry(items[k], slug(HistoryAt(items, history, k), NodeText(items[k])))
  }

  /** The entry of every tag of an array at its own index; other items get a placeholder that no table uses. */
  function Entries(items: seq<RNode>, slug: Slugify, history: seq<string>): (es: seq<Section>)
    ensures |es| == |items|
  {
    seq(|items|, k requires 0 <= k < |items| =>
      if items[k].Tag? then EntryAt(items, k, slug, history) else Section(map[], "", []))
  }

  /** Which items of an array are contributing h3 headings. */
  function H3Flags(items: seq<RNode>): (f: seq<bool>)
    ensures |f| == |items|
  {
    seq(|items|, k requires 0 <= k < |items| => Contributes(items[k]) && items[k].name == "h3")
  }

  /** The entries es[k] of the flagged items at indices lo <= k < hi, in order. */
  function H3Of(h3: seq<bool>, es: seq<Section>, lo: nat, hi: nat): seq<Section>
    requires lo <= hi <= |h3| == |es|
    decreases hi - lo
  {
    if lo == hi then [] else H3Of(h3, es, lo, hi - 1) + (if h3[hi - 1] then [es[hi - 1]] else [])
  }

  /** Indices below a bound, in strictly increasing order. */
  predicate Ascending(p: seq<nat>, bound: nat)
    decreases |p|
  {
    p == [] || (p[|p| - 1] < bound && Ascending(p[..|p| - 1], p[|p| - 1]))
  }

  /** Ascending indices are below the bound and increase. */
  lemma {:induction false} AscendingMeans(p: seq<nat>, bound: nat)
    requires Ascending(p, bound)
    ensures forall i :: 0 <= i < |p| ==> p[i] < bound
    ensures forall i, j :: 0 <= i < j < |p| ==> p[i] < p[j]
    decreases |p|
  {
    if p != [] {
      var m := |p| - 1;
      AscendingMeans(p[..m], p[m]);
      assert forall i :: 0 <= i < m ==> p[..m][i] == p[i];
    }
  }

  /**
   * The table built from the entries es and the section heads p, the last section's range
   * ending at end: each head's entry holding the flagged entries after it and before the next head.
   */
  function TableOf(h3: seq<bool>, es: seq<Section>, p: seq<nat>, end: nat): (t: seq<Section>)
    requires |es| == |h3| && end <= |h3| && Ascending(p, end)
    ensures |t| == |p|
  {
    if p == [] then []
    else
      var k := p[|p| - 1];
      TableOf(h3, es, p[..|p| - 1], k) + [es[k].(children := H3Of(h3, es, k + 1, end))]
  }

  /**
   * The table of contents an array should give, stated without the walk: one section per
   * contributing h2, in order, whose sub-entries are the contributing h3 headings after it
   * and before the next h2; every entry carries the id slugified at its heading.
   */
  function Expected(items: seq<RNode>, slug: Slugify, history: seq<string>): seq<Section>
  {
    TableOf(H3Flags(items), Entries(items, slug, history), H2Index(items), |items|)
  }

  lemma ExtendEntryAt(items: seq<RNode>, k: nat, slug: Slugify, history: seq<string>)
    requires k < |items| - 1 && items[k].Tag?
    ensures items[..|items| - 1][k] == items[k]
    ensures EntryAt(items, k, slug, history) == EntryAt(items[..|items| - 1], k, slug, history)
  {
    assert items[..k] == items[..|items| - 1][..k];
  }

  lemma ExtendEntries(items: seq<RNode>, slug: Slugify, history: seq<string>)
    requires items != []
    ensures Entries(items, slug, history)[..|items| - 1] == Entries(items[..|items| - 1], slug, history)
  {
    var n := |items| - 1;
    var es := Entries(items, slug, history);
    var es0 := Entries(items[..n], slug, history);
    forall k | 0 <= k < n ensures es[k] == es0[k] {
      assert items[..n][k] == items[k];
      if items[k].Tag? {
        ExtendEntryAt(items, k, slug, history);
      }
    }
  }

  lemma ExtendH3Of(h3: seq<bool>, es: seq<Section>, lo: nat, hi: nat)
    requires h3 != [] && |es| == |h3| && lo <= hi <= |h3| - 1
    ensures H3Of(h3, es, lo, hi) == H3Of(h3[..|h3| - 1], es[..|h3| - 1], lo, hi)
    decreases hi - lo
  {
    if lo < hi {
      ExtendH3Of(h3, es, lo, hi - 1);
    }
  }

  /** A range that reaches the last item: the prefix's entries, and the last entry when it is flagged. */
  lemma ExtendH3OfLast(h3: seq<bool>, es: seq<Section>, lo: nat)
    requires h3 != [] && |es| == |h3| && lo <= |h3| - 1
    ensures var n := |h3| - 1;
            H3Of(h3, es, lo, n + 1) == H3Of(h3[..n], es[..n], lo, n) + (if h3[n] then [es[n]] else [])
  {
    ExtendH3Of(h3, es, lo, |h3| - 1);
  }

  /** A table whose ranges end before the last item is the same over the prefix. */
  lemma {:induction false} ExtendTableOf(h3: seq<bool>, es: seq<Section>, p: seq<nat>, end: nat)
    requires h3 != [] && |es| == |h3| && end <= |h3| - 1 && Ascending(p, end)
    ensures TableOf(h3, es, p, end) == TableOf(h3[..|h3| - 1], es[..|h3| - 1], p, end)
    decreases p
  {
    if p != [] {
      var k := p[|p| - 1];
      ExtendTableOf(h3, es, p[..|p| - 1], k);
      ExtendH3Of(h3, es, k + 1, end);
    }
  }

  /** One step of the table's definition, for a caller that needs it spelled out. */
  lemma TableOfUnfold(h3: seq<bool>, es: seq<Section>, p: seq<nat>, end: nat)
    requires |es| == |h3| && end <= |h3| && Ascending(p, end) && p != []
    ensures var k := p[|p| - 1];
            TableOf(h3, es, p, end) == TableOf(h3, es, p[..|p| - 1], k) + [es[k].(children := H3Of(h3, es, k + 1, end))]
  {
  }

  /** A table whose heads all lie in the prefix, when the last item is not flagged: unchanged. */
  lemma TableOfUnflagged(h3: seq<bool>, es: seq<Section>, p: seq<nat>)
    requires h3 != [] && |es| == |h3| && Ascending(p, |h3| - 1) && !h3[|h3| - 1]
    ensures Ascending(p, |h3|)
    ensures TableOf(h3, es, p, |h3|) == TableOf(h3[..|h3| - 1], es[..|h3| - 1], p, |h3| - 1)
  {
    var n := |h3| - 1;
    assert Ascending(p, n + 1);
    if p != [] {
      var k := p[|p| - 1];
      ExtendTableOf(h3, es, p[..|p| - 1], k);
      ExtendH3OfLast(h3, es, k + 1);
      assert H3Of(h3, es, k + 1, n + 1) == H3Of(h3[..n], es[..n], k + 1, n);
      TableOfUnfold(h3, es, p, n + 1);
      TableOfUnfold(h3[..n], es[..n], p, n);
      assert es[..n][k] == es[k];
    }
  }

  /** A table whose heads all lie in the prefix, when the last item is flagged: the last section gains its entry. */
  lemma TableOfFlagged(h3: seq<bool>, es: seq<Section>, p: seq<nat>)
    requires h3 != [] && |es| == |h3| && Ascending(p, |h3| - 1) && h3[|h3| - 1] && p != []
    ensures Ascending(p, |h3|)
    ensures TableOf(h3, es, p, |h3|) == AppendChild(TableOf(h3[..|h3| - 1], es[..|h3| - 1], p, |h3| - 1), es[|h3| - 1])
  {
    var n := |h3| - 1;
    var k := p[|p| - 1];
    assert Ascending(p, n + 1);
    ExtendTableOf(h3, es, p[..|p| - 1], k);
    ExtendH3OfLast(h3, es, k + 1);
    TableOfUnfold(h3, es, p, n + 1);
    TableOfUnfold(h3[..n], es[..n], p, n);
    assert es[..n][k] == es[k];
  }

  /** A table with one more head at the last item: the earlier sections are unchanged and the new one is empty. */
  lemma TableOfH2(h3: seq<bool>, es: seq<Section>, p0: seq<nat>)
    requires h3 != [] && |es| == |h3| && Ascending(p0, |h3| - 1)
    ensures Ascending(p0 + [|h3| - 1], |h3|)
    ensures var n := |h3| - 1;
            TableOf(h3, es, p0 + [n], n + 1) == TableOf(h3[..n], es[..n], p0, n) + [es[n].(children := [])]
  {
    var n := |h3| - 1;
    assert (p0 + [n])[..|p0|] == p0;
    ExtendTableOf(h3, es, p0, n);
    TableOfUnfold(h3, es, p0 + [n], n + 1);
  }

  /** Where the range of the i-th head ends: at the next head, or at the end. */
  function NextH2(p: seq<nat>, i: nat, end: nat): nat
    requires i < |p|
  {
    if i + 1 < |p| then p[i + 1] else end
  }

  /** The i-th section of a table: the i-th head's entry holding the flagged entries up to the next head. */
  lemma {:induction false} TableOfAt(h3: seq<bool>, es: seq<Section>, p: seq<nat>, end: nat, i: nat)
    requires |es| == |h3| && end <= |h3| && Ascending(p, end) && i < |p|
    ensures p[i] < NextH2(p, i, end) <= end
    ensures TableOf(h3, es, p, end)[i] == es[p[i]].(children := H3Of(h3, es, p[i] + 1, NextH2(p, i, end)))
    decreases p
  {
    var m := |p| - 1;
    TableOfUnfold(h3, es, p, end);
    if i < m {
      TableOfAt(h3, es, p[..m], p[m], i);
      assert p[..m][i] == p[i];
      assert NextH2(p[..m], i, p[m]) == NextH2(p, i, end);
    }
  }

  /** The flagged entries of a range are exactly the entries es[j] of its flagged indices. */
  lemma {:induction false} H3OfMeans(h3: seq<bool>, es: seq<Section>, lo: nat, hi: nat)
    requires lo <= hi <= |h3| == |es|
    ensures forall j :: lo <= j < hi && h3[j] ==> es[j] in H3Of(h3, es, lo, hi)
    ensures forall x :: x in H3Of(h3, es, lo, hi) ==> exists j :: lo <= j < hi && h3[j] && x == es[j]
    decreases hi - lo
  {
    if lo < hi {
      H3OfMeans(h3, es, lo, hi - 1);
    }
  }

  /** How the index of h2 headings grows by one item. */
  lemma H2IndexStep(items: seq<RNode>)
    requires items != []
    ensures var n := |items| - 1;
            H2Index(items) == H2Index(items[..n]) + (if Contributes(items[n]) && items[n].name == "h2" then [n] else [])
  {
    var n := |items| - 1;
    if !(Contributes(items[n]) && items[n].name == "h2") {
      assert H2Index(items[..n]) + [] == H2Index(items[..n]);
    }
  }

  /** The pieces the expected table of an array is built from, against those of its prefix. */
  lemma ExpectedPieces(items: seq<RNode>, slug: Slugify, history: seq<string>)
    requires items != []
    ensures var n := |items| - 1;
            && Entries(items, slug, history)[..n] == Entries(items[..n], slug, history)
            && H3Flags(items)[..n] == H3Flags(items[..n])
            && H2Index(items) == H2Index(items[..n]) + (if Contributes(items[n]) && items[n].name == "h2" then [n] else [])
            && (items[n].Tag? ==> Entries(items, slug, history)[n] == EntryAt(items, n, slug, history))
            && H3Flags(items)[n] == (Contributes(items[n]) && items[n].name == "h3")
  {
    var n := |items| - 1;
    ExtendEntries(items, slug, history);
    assert H3Flags(items)[..n] == H3Flags(items[..n]);
    H2IndexStep(items);
  }

  /** A last item that adds no entry leaves the expected table as it was. */
  lemma ExpectedOther(items: seq<RNode>, slug: Slugify, history: seq<string>)
    requires items != []
    requires var last := items[|items| - 1]; !(Contributes(last) && (last.name == "h2" || last.name == "h3"))
    ensures Expected(items, slug, history) == Expected(items[..|items| - 1], slug, history)
  {
    var n := |items| - 1;
    ExpectedPieces(items, slug, history);
    TableOfUnflagged(H3Flags(items), Entries(items, slug, history), H2Index(items[..n]));
  }

  /** A contributing h2 at the end opens one more section with no sub-entries. */
  lemma ExpectedH2(items: seq<RNode>, slug: Slugify, history: seq<string>)
    requires items != []
    requires var last := items[|items| - 1]; Contributes(last) && last.name == "h2"
    ensures Expected(items, slug, history)
         == Expected(items[..|items| - 1], slug, history) + [EntryAt(items, |items| - 1, slug, history)]
  {
    var n := |items| - 1;
    ExpectedPieces(items, slug, history);
    TableOfH2(H3Flags(items), Entries(items, slug, history), H2Index(items[..n]));
  }

  /** A contributing h3 at the end joins the last expected section. */
  lemma ExpectedH3(items: seq<RNode>, slug: Slugify, history: seq<string>)
    requires items != []
    requires var last := items[|items| - 1]; Contributes(last) && last.name == "h3"
    requires |Expected(items[..|items| - 1], slug, history)| > 0
    ensures Expected(items, slug, history)
         == AppendChild(Expected(items[..|items| - 1], slug, history), EntryAt(items, |items| - 1, slug, history))
  {
    var n := |items| - 1;
    ExpectedPieces(items, slug, history);
    TableOfFlagged(H3Flags(items), Entries(items, slug, history), H2Index(items[..n]));
  }

  /**
   * The expected table read by index: its i-th section is the entry of the i-th contributing
   * h2, with the title of that heading and the id slugified from the history at it.
   */
  lemma ExpectedHead(items: seq<RNode>, slug: Slugify, history: seq<string>, i: nat)
    requires i < |H2Index(items)|
    ensures var k := H2Index(items)[i];
            var s := Expected(items, slug, history)[i];
            && |Expected(items, slug, history)| == |H2Index(items)|
            && k < |items| && Contributes(items[k]) && items[k].name == "h2"
            && s.title == NodeText(items[k])
            && "id" in s.attributes && s.attributes["id"] == Str(slug(HistoryAt(items, history, k), NodeText(items[k])))
  {
    var p := H2Index(items);
    var k := p[i];
    TableOfAt(H3Flags(items), Entries(items, slug, history), p, |items|, i);
    H2IndexMeans(items, k);
    assert Entries(items, slug, history)[k] == EntryAt(items, k, slug, history);
  }

  /** No contributing h2 lies between the i-th one and the next. */
  lemma H2IndexGap(items: seq<RNode>, i: nat, j: nat)
    requires i < |H2Index(items)|
    requires var p := H2Index(items); p[i] < j < NextH2(p, i, |items|) && j < |items|
    ensures !(Contributes(items[j]) && items[j].name == "h2")
  {
    var p := H2Index(items);
    AscendingMeans(p, |items|);
    if Contributes(items[j]) && items[j].name == "h2" {
      H2IndexMeans(items, j);
      assert false;
    }
  }

  /**
   * The sub-entries of the i-th expected section are exactly the entries of the contributing
   * h3 headings between the i-th contributing h2 and the next one (or the end); TableOfAt
   * gives their order.
   */
  lemma ExpectedChildren(items: seq<RNode>, slug: Slugify, history: seq<string>, i: nat)
    requires i < |H2Index(items)|
    ensures var p := H2Index(items);
            var k := p[i];
            var hi := NextH2(p, i, |items|);
            var s := Expected(items, slug, history)[i];
            && |Expected(items, slug, history)| == |p| && k < hi <= |items|
            && (forall j :: k < j < hi && Contributes(items[j]) && items[j].name == "h3" ==>
                  EntryAt(items, j, slug, history) in s.children)
            && (forall x :: x in s.children ==>
                  exists j :: k < j < hi && Contributes(items[j]) && items[j].name == "h3" && x == EntryAt(items, j, slug, history))
  {
    var p := H2Index(items);
    var h3 := H3Flags(items);
    var es := Entries(items, slug, history);
    var k := p[i];
    var hi := NextH2(p, i, |items|);
    TableOfAt(h3, es, p, |items|, i);
    var children := H3Of(h3, es, k + 1, hi);
    assert Expected(items, slug, history)[i].children == children;
    H3OfMeans(h3, es, k + 1, hi);
    forall j | k < j < hi && Contributes(items[j]) && items[j].name == "h3"
      ensures EntryAt(items, j, slug, history) in children
    {
      FlaggedEntry(items, slug, history, j);
    }
    forall x | x in children
      ensures exists j :: k < j < hi && Contributes(items[j]) && items[j].name == "h3" && x == EntryAt(items, j, slug, history)
    {
      var j :| k + 1 <= j < hi && h3[j] && x == es[j];
      FlaggedEntry(items, slug, history, j);
    }
  }

  /** An item is flagged exactly when it is a contributing h3, and a flagged item's entry is its own. */
  lemma FlaggedEntry(items: seq<RNode>, slug: Slugify, history: seq<string>, j: nat)
    requires j < |items|
    ensures H3Flags(items)[j] <==> Contributes(items[j]) && items[j].name == "h3"
    ensures H3Flags(items)[j] ==> items[j].Tag? && Entries(items, slug, history)[j] == EntryAt(items, j, slug, history)
  {
  }

  /** The sections of the walk over an array are the expected table of that array. */
  lemma {:induction false} SectionsExpected(items: seq<RNode>, slug: Slugify, history: seq<string>)
    requires CollectList(items, slug, history).Ok?
    ensures CollectList(items, slug, history).value.sections == Expected(items, slug, history)
    decreases items
  {
    if items != [] {
      var n := |items| - 1;
      var prefix := items[..n];
      SectionsExpected(prefix, slug, history);
      CollectFacts(prefix, slug, history);
      var w := CollectList(prefix, slug, history).value;
      assert CollectList(items, slug, history).value.sections == Enter(w.sections, w.history, items[n], slug).value.sections;
      assert w.history == HistoryAt(items, history, n);
      var last := items[n];
      if !(Contributes(last) && (last.name == "h2" || last.name == "h3")) {
        ExpectedOther(items, slug, history);
      } else if last.name == "h2" {
        ExpectedH2(items, slug, history);
      } else {
        ExpectedH3(items, slug, history);
      }
    }
  }

  /**
   * What the walk leaves of one node and its subtree: a contributing heading gets the id
   * slugified from the titles met before it, every descendant likewise from the titles met
   * before it, and nothing else changes: no attribute, no name, no child added or removed.
   */
  predicate IdWritten(before: RNode, after: RNode, slug: Slugify, h: seq<string>)
    decreases before
  {
    if !before.Tag? then after == before
    else
      var inner := h + (if Contributes(before) then [NodeText(before)] else []);
      && after.Tag? && after.name == before.name
      && after.attributes == (if Contributes(before) then before.attributes["id" := Str(slug(h, NodeText(before)))]
                              else before.attributes)
      && |after.children| == |before.children|
      && forall j :: 0 <= j < |before.children| ==>
           IdWritten(before.children[j], after.children[j], slug, HistoryAt(before.children, inner, j))
  }

  /** Every item of the walked array, and every node below it, carries the id slugified from the history at its position. */
  lemma {:induction false} IdsWritten(items: seq<RNode>, slug: Slugify, history: seq<string>)
    requires CollectList(items, slug, history).Ok?
    ensures var w := CollectList(items, slug, history).value;
            |w.nodes| == |items| &&
            forall k :: 0 <= k < |items| ==> IdWritten(items[k], w.nodes[k], slug, HistoryAt(items, history, k))
    decreases items
  {
    CollectFacts(items, slug, history);
    if items != [] {
      var n := |items| - 1;
      var prefix := items[..n];
      var last := items[n];
      IdsWritten(prefix, slug, history);
      CollectFacts(prefix, slug, history);
      var w := CollectList(prefix, slug, history).value;
      var en := Enter(w.sections, w.history, last, slug).value;
      var nodes := CollectList(items, slug, history).value.nodes;
      assert nodes[..n] == w.nodes;
      assert w.history == HistoryAt(items, history, n);
      if last.Tag? {
        var inner := CollectList(last.children, slug, en.history).value;
        IdsWritten(last.children, slug, en.history);
        assert nodes[n] == en.node.(children := inner.nodes);
        assert en.history == HistoryAt(items, history, n) + (if Contributes(last) then [NodeText(last)] else []);
      }
      forall k | 0 <= k < |items| ensures IdWritten(items[k], nodes[k], slug, HistoryAt(items, history, k)) {
        if k < n {
          assert items[..k] == prefix[..k];
          assert items[k] == prefix[k] && nodes[k] == w.nodes[k];
        }
      }
    }
  }

  /** A single node is not walked: no sections, and the node is returned untouched. */
  lemma SingleNodeGivesNothing(node: RNode, slug: Slugify)
    ensures Collect(One(node), slug) == Ok(([], One(node)))
  {
  }

  /** An h3 before any h2 of the top-level array makes the whole extraction throw. */
  lemma LeadingH3Throws(title: string, attributes: map<string, Value>, rest: seq<RNode>, slug: Slugify)
    requires title != ""
    ensures Collect(Many([Tag("h3", attributes, [Text(title)])] + rest), slug) == Err(H3_ERROR)
  {
    var h3 := Tag("h3", attributes, [Text(title)]);
    var items := [h3] + rest;
    assert [h3][..0] == [];
    assert ChildrenText([Text(title)]) == title;
    assert items[..1] == [h3];
    ErrorSticks(items, 1, slug, []);
  }

  /**
   * `collectHeadings` on an array: it throws exactly when some array of the tree has an
   * orphan h3; otherwise the table holds one section per top-level h2, in order, with
   * the top-level h3s as their sub-entries, and the tree keeps its top-level length.
   */
  lemma CollectHeadingsFacts(items: seq<RNode>, slug: Slugify)
    ensures Collect(Many(items), slug).Ok? <==> !HasOrphanH3(items)
    ensures Collect(Many(items), slug).Err? ==> Collect(Many(items), slug).error == H3_ERROR
    ensures Collect(Many(items), slug).Ok? ==>
              var (sections, tree) := Collect(Many(items), slug).value;
              && Titles(sections) == H2Titles(items)
              && SumChildren(sections) == CountH3(items)
              && TwoLevels(sections)
              && tree.Many? && |tree.items| == |items|
              && sections == Expected(items, slug, [])
              && forall k :: 0 <= k < |items| ==> IdWritten(items[k], tree.items[k], slug, HistoryAt(items, [], k))
  {
    CollectFacts(items, slug, []);
    if CollectList(items, slug, []).Ok? {
      SectionsExpected(items, slug, []);
      IdsWritten(items, slug, []);
    }
  }

  /** `collectHeadings(nodes)`: nothing for a single node, the walk of the array otherwise. */
  method CollectHeadings(nodes: Nodes, slug: Slugify) returns (r: Result<(seq<Section>, Nodes), string>)
    ensures r == Collect(nodes, slug)
  {
    if !nodes.Many? {
      return Ok(([], nodes));
    }
    var w := CollectHeadingsList(nodes.items, slug, []);
    if w.Err? {
      return Err(w.error);
    }
    r := Ok((w.value.sections, Many(w.value.nodes)));
  }
}
