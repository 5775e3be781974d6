/**
 * The crawler: fetch one page, walk its HTML tree counting headings and links,
 * reading the title and HTML version and spotting login forms, then replace the
 * job's stored result and mark the job completed or failed.
 *
 * The HTML tree is a datatype. The page download, `html.Parse`, `url.Parse`,
 * `ResolveReference` and the HEAD request that checks a link are oracles: the
 * download is a parameter and the rest live in `Env`.
 */
module Crawler {
  import opened Wrappers
  import opened Strings
  import opened Models
  import opened Database

  // ---- the HTML tree ----

  datatype NodeType = ErrorNode | TextNode | DocumentNode | ElementNode | CommentNode | DoctypeNode | RawNode

  datatype Attribute = Attribute(key: string, val: string)

  /** A parsed HTML node: its type, its tag name or text, its attributes and its children in order. */
  datatype Node = Node(kind: NodeType, data: string, attrs: seq<Attribute>, children: seq<Node>)

  predicate IsElement(n: Node, tag: string) {
    n.kind == ElementNode && n.data == tag
  }

  predicate IsHeading(tag: string) {
    tag == "h1" || tag == "h2" || tag == "h3" || tag == "h4" || tag == "h5" || tag == "h6"
  }

  /** The number of nodes of the subtree at `n`, `n` included, that satisfy `p`. */
  function Count(n: Node, p: Node -> bool): nat
    decreases n, |n.children| + 1
  {
    (if p(n) then 1 else 0) + CountFrom(n, 0, p)
  }

  /** The number of nodes satisfying `p` in the subtrees of `parent`'s children from the `i`-th on. */
  function CountFrom(parent: Node, i: nat, p: Node -> bool): nat
    requires i <= |parent.children|
    decreases parent, |parent.children| - i
  {
    if i == |parent.children| then 0 else Count(parent.children[i], p) + CountFrom(parent, i + 1, p)
  }

  function Named(tag: string): Node -> bool {
    (m: Node) => IsElement(m, tag)
  }

  /** Counting by a predicate that is the disjoint union of two others adds their counts. */
  lemma {:induction false} CountSplit(n: Node, p: Node -> bool, q: Node -> bool, r: Node -> bool)
    requires forall m :: p(m) == (q(m) || r(m))
    requires forall m :: !(q(m) && r(m))
    ensures Count(n, p) == Count(n, q) + Count(n, r)
    decreases n, |n.children| + 1
  {
    CountFromSplit(n, 0, p, q, r);
  }

  lemma {:induction false} CountFromSplit(parent: Node, i: nat, p: Node -> bool, q: Node -> bool, r: Node -> bool)
    requires i <= |parent.children|
    requires forall m :: p(m) == (q(m) || r(m))
    requires forall m :: !(q(m) && r(m))
    ensures CountFrom(parent, i, p) == CountFrom(parent, i, q) + CountFrom(parent, i, r)
    decreases parent, |parent.children| - i
  {
    if i < |parent.children| {
      CountSplit(parent.children[i], p, q, r);
      CountFromSplit(parent, i + 1, p, q, r);
    }
  }

  // ---- attributes ----

  /** The value of the first attribute called `key`, or "" when there is none. */
  function FirstAttr(attrs: seq<Attribute>, key: string): (v: string)
    ensures (forall i :: 0 <= i < |attrs| ==> attrs[i].key != key) ==> v == ""
    ensures forall i :: (0 <= i < |attrs| && attrs[i].key == key &&
                         (forall j :: 0 <= j < i ==> attrs[j].key != key)) ==> v == attrs[i].val
  {
    if attrs == [] then ""
    else if attrs[0].key == key then attrs[0].val
    else
      assert forall i :: 0 < i < |attrs| ==> attrs[1..][i - 1] == attrs[i];
      FirstAttr(attrs[1..], key)
  }

  /** The value of the last attribute whose key is in `keys`, or "" when there is none. */
  function LastAttr(attrs: seq<Attribute>, keys: set<string>): (v: string)
    ensures (forall i :: 0 <= i < |attrs| ==> attrs[i].key !in keys) ==> v == ""
    ensures forall i :: (0 <= i < |attrs| && attrs[i].key in keys &&
                         (forall j :: i < j < |attrs| ==> attrs[j].key !in keys)) ==> v == attrs[i].val
  {
    if attrs == [] then ""
    else if attrs[|attrs| - 1].key in keys then attrs[|attrs| - 1].val
    else
      var init := attrs[..|attrs| - 1];
      assert forall i :: 0 <= i < |init| ==> init[i] == attrs[i];
      LastAttr(init, keys)
  }

  /** The loop of `analyzeLink` that stops at the first `href`. */
  method FindHref(attrs: seq<Attribute>) returns (href: string)
    ensures href == FirstAttr(attrs, "href")
  {
    href := "";
    var i := 0;
    while i < |attrs|
      invariant 0 <= i <= |attrs|
      invariant FirstAttr(attrs[i..], "href") == FirstAttr(attrs, "href")
    {
      if attrs[i].key == "href" {
        href := attrs[i].val;
        break;
      }
      assert attrs[i..][1..] == attrs[i + 1..];
      i := i + 1;
    }
  }

  // ---- text content ----

  /** `extractTextContent`: a text node's trimmed data, or the trimmed concatenation of the children's texts. */
  function TextContent(n: Node): (t: string)
    ensures Tight(t)
    decreases n, |n.children| + 1
  {
    if n.kind == TextNode then Trim(n.data) else Trim(TextsFrom(n, 0))
  }

  /** The texts of `parent`'s children from the `i`-th on, concatenated. */
  function TextsFrom(parent: Node, i: nat): string
    requires i <= |parent.children|
    decreases parent, |parent.children| - i
  {
    if i == |parent.children| then "" else TextContent(parent.children[i]) + TextsFrom(parent, i + 1)
  }

  /** The recursive walk with its string builder. */
  method ExtractTextContent(n: Node) returns (t: string)
    ensures t == TextContent(n)
    decreases n
  {
    if n.kind == TextNode {
      return Trim(n.data);
    }
    var text := "";
    var i := 0;
    while i < |n.children|
      invariant 0 <= i <= |n.children|
      invariant text + TextsFrom(n, i) == TextsFrom(n, 0)
    {
      var c := ExtractTextContent(n.children[i]);
      assert TextsFrom(n, i) == c + TextsFrom(n, i + 1);
      assert text + (c + TextsFrom(n, i + 1)) == (text + c) + TextsFrom(n, i + 1);
      text := text + c;
      i := i + 1;
    }
    assert text == TextsFrom(n, 0);
    t := Trim(text);
  }

  /** The text of a node with no children and no text of its own is empty. */
  lemma TextOfChildlessElement(n: Node)
    requires n.kind != TextNode && n.children == []
    ensures TextContent(n) == ""
  {
    assert TextsFrom(n, 0) == "";
    assert AllSpace("");
  }

  // ---- HTML version ----

  predicate DoctypeMentionsHtml(m: Node) {
    m.kind == DoctypeNode && Contains(ToLower(m.data), "html")
  }

  /** The element is a child of the document and some child of the document is an html doctype. */
  predicate DoctypeSaysHtml(parent: Option<Node>) {
    parent.Some? && parent.value.kind == DocumentNode &&
    exists j :: 0 <= j < |parent.value.children| && DoctypeMentionsHtml(parent.value.children[j])
  }

  predicate XhtmlAttr(a: Attribute) {
    a.key == "xmlns" || Contains(a.val, "xhtml")
  }

  /** `extractHTMLVersion` of the `html` element `n` whose parent is `parent`. */
  function HtmlVersion(n: Node, parent: Option<Node>): (v: string)
    ensures v == "HTML5" || v == "XHTML"
    ensures v == "XHTML" <==>
      !DoctypeSaysHtml(parent) && exists j :: 0 <= j < |n.attrs| && XhtmlAttr(n.attrs[j])
  {
    if DoctypeSaysHtml(parent) then "HTML5"
    else if exists j :: 0 <= j < |n.attrs| && XhtmlAttr(n.attrs[j]) then "XHTML"
    else "HTML5"
  }

  /** The two searches of `extractHTMLVersion`: the parent's doctype first, then the attributes. */
  method ExtractHTMLVersion(n: Node, parent: Option<Node>) returns (v: string)
    ensures v == HtmlVersion(n, parent)
  {
    if parent.Some? && parent.value.kind == DocumentNode {
      var siblings := parent.value.children;
      var i := 0;
      while i < |siblings|
        invariant 0 <= i <= |siblings|
        invariant forall j :: 0 <= j < i ==> !DoctypeMentionsHtml(siblings[j])
      {
        if siblings[i].kind == DoctypeNode && Contains(ToLower(siblings[i].data), "html") {
          return "HTML5";
        }
        i := i + 1;
      }
    }
    var k := 0;
    while k < |n.attrs|
      invariant 0 <= k <= |n.attrs|
      invariant forall j :: 0 <= j < k ==> !XhtmlAttr(n.attrs[j])
    {
      if n.attrs[k].key == "xmlns" || Contains(n.attrs[k].val, "xhtml") {
        return "XHTML";
      }
      k := k + 1;
    }
    return "HTML5";
  }

  // ---- login forms ----

  const TypeKey := {"type"}
  const NameKeys := {"name", "id"}

  /** The lower-cased `type` of an input: its last `type` attribute. */
  function InputType(m: Node): string {
    ToLower(LastAttr(m.attrs, TypeKey))
  }

  /** The lower-cased name of an input: its last `name` or `id` attribute. */
  function InputName(m: Node): string {
    ToLower(LastAttr(m.attrs, NameKeys))
  }

  predicate IsPasswordInput(m: Node) {
    IsElement(m, "input") && InputType(m) == "password"
  }

  predicate IsUsernameInput(m: Node) {
    IsElement(m, "input") && (InputType(m) == "text" || InputType(m) == "email") &&
    (Contains(InputName(m), "user") || Contains(InputName(m), "email") || Contains(InputName(m), "login"))
  }

  /** A form attribute that names the form as a login form. */
  predicate SignalAttr(a: Attribute) {
    (a.key == "id" || a.key == "class" || a.key == "name") &&
    (Contains(ToLower(a.val), "login") || Contains(ToLower(a.val), "signin") || Contains(ToLower(a.val), "auth"))
  }

  /** `isLoginForm`: a telling attribute, or else a password input together with a username input. */
  predicate LoginForm(n: Node) {
    (exists j :: 0 <= j < |n.attrs| && SignalAttr(n.attrs[j])) ||
    (Count(n, IsPasswordInput) > 0 && Count(n, IsUsernameInput) > 0)
  }

  /** The attribute loop of `checkInputs`: the last `type` and the last `name`/`id`, lower-cased. */
  method ScanInputAttrs(attrs: seq<Attribute>) returns (inputType: string, inputName: string)
    ensures inputType == ToLower(LastAttr(attrs, TypeKey))
    ensures inputName == ToLower(LastAttr(attrs, NameKeys))
  {
    inputType, inputName := "", "";
    var k := 0;
    while k < |attrs|
      invariant 0 <= k <= |attrs|
      invariant inputType == ToLower(LastAttr(attrs[..k], TypeKey))
      invariant inputName == ToLower(LastAttr(attrs[..k], NameKeys))
    {
      assert attrs[..k + 1][..k] == attrs[..k];
      if attrs[k].key == "type" {
        inputType := ToLower(attrs[k].val);
      }
      if attrs[k].key == "name" || attrs[k].key == "id" {
        inputName := ToLower(attrs[k].val);
      }
      k := k + 1;
    }
    assert attrs[..|attrs|] == attrs;
  }

  /** `checkInputs`: the two flags become true once the subtree holds a password or a username input. */
  method CheckInputs(n: Node, hasPassword: bool, hasUsername: bool) returns (password: bool, username: bool)
    ensures password == (hasPassword || Count(n, IsPasswordInput) > 0)
    ensures username == (hasUsername || Count(n, IsUsernameInput) > 0)
    decreases n
  {
    password, username := hasPassword, hasUsername;
    if n.kind == ElementNode && n.data == "input" {
      var inputType, inputName := ScanInputAttrs(n.attrs);
      if inputType == "password" {
        password := true;
      }
      if inputType == "text" || inputType == "email" {
        if Contains(inputName, "user") || Contains(inputName, "email") || Contains(inputName, "login") {
          username := true;
        }
      }
    }
    var i := 0;
    while i < |n.children|
      invariant 0 <= i <= |n.children|
      invariant (password || CountFrom(n, i, IsPasswordInput) > 0) == (hasPassword || Count(n, IsPasswordInput) > 0)
      invariant (username || CountFrom(n, i, IsUsernameInput) > 0) == (hasUsername || Count(n, IsUsernameInput) > 0)
    {
      password, username := CheckInputs(n.children[i], password, username);
      i := i + 1;
    }
  }

  /** `isLoginForm`: the attribute search returns early; otherwise both inputs must be present. */
  method IsLoginForm(n: Node) returns (b: bool)
    ensures b == LoginForm(n)
  {
    var k := 0;
    while k < |n.attrs|
      invariant 0 <= k <= |n.attrs|
      invariant forall j :: 0 <= j < k ==> !SignalAttr(n.attrs[j])
    {
      var a := n.attrs[k];
      if a.key == "id" || a.key == "class" || a.key == "name" {
        var lowerVal := ToLower(a.val);
        if Contains(lowerVal, "login") || Contains(lowerVal, "signin") || Contains(lowerVal, "auth") {
          return true;
        }
      }
      k := k + 1;
    }
    var password, username := CheckInputs(n, false, false);
    b := password && username;
  }

  // ---- links ----

  /** A link after `url.Parse` and `ResolveReference` against the page URL. */
  datatype Resolved = Resolved(host: string, text: string)

  /**
   * What one crawl sees of the outside: the page URL's host, the parse-and-resolve of
   * an `href` (`None` when `url.Parse` rejects it) and the HEAD request of a link
   * (`None` when it fails, else the status code).
   */
  datatype Env = Env(baseHost: string, resolve: string -> Option<Resolved>, head: string -> Option<int>)

  /** Links that are never requested. */
  predicate SkipsCheck(link: string) {
    HasPrefix(link, "mailto:") || HasPrefix(link, "tel:") || HasPrefix(link, "javascript:") || HasPrefix(link, "#")
  }

  /** `isAccessibleLink`: skipped links pass; others pass when the HEAD answers below 400. */
  function IsAccessibleLink(link: string, head: string -> Option<int>): (ok: bool)
    ensures SkipsCheck(link) ==> ok
    ensures !SkipsCheck(link) ==> (ok <==> head(link).Some? && head(link).value < 400)
  {
    if SkipsCheck(link) then true
    else match head(link)
      case None => false
      case Some(code) => code < 400
  }

  /** The check of a skipped link is the same whatever the network would answer. */
  lemma SkippedLinkNeedsNoRequest(link: string, head1: string -> Option<int>, head2: string -> Option<int>)
    requires SkipsCheck(link)
    ensures IsAccessibleLink(link, head1) == IsAccessibleLink(link, head2) == true
  {
  }

  /** The target of an anchor that the analyser counts: its first `href`, non-empty and parsed. */
  function LinkTarget(m: Node, env: Env): Option<Resolved> {
    if !IsElement(m, "a") then None
    else
      var href := FirstAttr(m.attrs, "href");
      if href == "" then None else env.resolve(href)
  }

  function CountedAnchor(env: Env): Node -> bool {
    (m: Node) => LinkTarget(m, env).Some?
  }

  function InternalAnchor(env: Env): Node -> bool {
    (m: Node) => LinkTarget(m, env).Some? && LinkTarget(m, env).value.host == env.baseHost
  }

  function ExternalAnchor(env: Env): Node -> bool {
    (m: Node) => LinkTarget(m, env).Some? && LinkTarget(m, env).value.host != env.baseHost
  }

  function BrokenAnchor(env: Env): Node -> bool {
    (m: Node) => LinkTarget(m, env).Some? && !IsAccessibleLink(LinkTarget(m, env).value.text, env.head)
  }

  /** The broken-link record `analyzeLink` appends; the real status code is never filled in. */
  function FailedLink(url: string): BrokenLink {
    BrokenLink(0, 0, url, 0, "Link check failed")
  }

  // ---- the analysis ----

  /** The `CrawlData` accumulator as a value. */
  datatype Tally = Tally(
    title: string, htmlVersion: string, headingCounts: map<string, int>,
    internalLinks: int, externalLinks: int, inaccessibleLinks: int,
    hasLoginForm: bool, brokenLinks: seq<BrokenLink>)

  const Fresh := Tally("", "", map[], 0, 0, 0, false, [])

  /** A Go map read: a missing key reads as 0. */
  function CountOf(m: map<string, int>, key: string): int {
    if key in m then m[key] else 0
  }

  /** `analyzeLink` on anchor `n`. */
  function LinkStep(n: Node, d: Tally, env: Env): (r: Tally)
    ensures r.title == d.title && r.htmlVersion == d.htmlVersion
    ensures r.headingCounts == d.headingCounts && r.hasLoginForm == d.hasLoginForm
  {
    match LinkTarget(n, env)
    case None => d
    case Some(u) =>
      var d1 := if u.host == env.baseHost then d.(internalLinks := d.internalLinks + 1)
                else d.(externalLinks := d.externalLinks + 1);
      if IsAccessibleLink(u.text, env.head) then d1
      else d1.(inaccessibleLinks := d1.inaccessibleLinks + 1, brokenLinks := d1.brokenLinks + [FailedLink(u.text)])
  }

  /** What `analyzeHTML` does at node `n` itself, before its children. */
  function Step(n: Node, parent: Option<Node>, d: Tally, env: Env): Tally {
    if n.kind != ElementNode then d
    else if n.data == "html" then d.(htmlVersion := HtmlVersion(n, parent))
    else if n.data == "title" then (if TextContent(n) != "" then d.(title := TextContent(n)) else d)
    else if IsHeading(n.data) then d.(headingCounts := d.headingCounts[n.data := CountOf(d.headingCounts, n.data) + 1])
    else if n.data == "a" then LinkStep(n, d, env)
    else if n.data == "form" then (if LoginForm(n) then d.(hasLoginForm := true) else d)
    else d
  }

  /** `analyzeHTML`: the node's own step, then each child's subtree in order. */
  function Visit(n: Node, parent: Option<Node>, d: Tally, env: Env): Tally
    decreases n, |n.children| + 1
  {
    VisitFrom(n, 0, Step(n, parent, d, env), env)
  }

  function VisitFrom(parent: Node, i: nat, d: Tally, env: Env): Tally
    requires i <= |parent.children|
    decreases parent, |parent.children| - i
  {
    if i == |parent.children| then d
    else VisitFrom(parent, i + 1, Visit(parent.children[i], Some(parent), d, env), env)
  }

  /** Each hN count grows by exactly the number of hN elements in the tree. */
  lemma {:induction false} VisitCountsHeadings(n: Node, parent: Option<Node>, d: Tally, env: Env, h: string)
    requires IsHeading(h)
    ensures CountOf(Visit(n, parent, d, env).headingCounts, h) == CountOf(d.headingCounts, h) + Count(n, Named(h))
    decreases n, |n.children| + 1
  {
    var s := Step(n, parent, d, env);
    assert CountOf(s.headingCounts, h) == CountOf(d.headingCounts, h) + (if IsElement(n, h) then 1 else 0);
    VisitFromCountsHeadings(n, 0, s, env, h);
  }

  lemma {:induction false} VisitFromCountsHeadings(parent: Node, i: nat, d: Tally, env: Env, h: string)
    requires IsHeading(h) && i <= |parent.children|
    ensures CountOf(VisitFrom(parent, i, d, env).headingCounts, h) == CountOf(d.headingCounts, h) + CountFrom(parent, i, Named(h))
    decreases parent, |parent.children| - i
  {
    if i < |parent.children| {
      var c := parent.children[i];
      VisitCountsHeadings(c, Some(parent), d, env, h);
      VisitFromCountsHeadings(parent, i + 1, Visit(c, Some(parent), d, env), env, h);
    }
  }

  /** What a walk adds to the link counters and to the broken links. */
  predicate LinksGrew(d: Tally, r: Tally, internal: int, external: int, broken: int) {
    r.internalLinks == d.internalLinks + internal &&
    r.externalLinks == d.externalLinks + external &&
    r.inaccessibleLinks == d.inaccessibleLinks + broken &&
    |r.brokenLinks| == |d.brokenLinks| + broken &&
    |d.brokenLinks| <= |r.brokenLinks| && r.brokenLinks[..|d.brokenLinks|] == d.brokenLinks &&
    (forall k :: |d.brokenLinks| <= k < |r.brokenLinks| ==>
       r.brokenLinks[k].statusCode == 0 && r.brokenLinks[k].errorMessage == "Link check failed")
  }

  lemma LinksGrewTrans(a: Tally, b: Tally, c: Tally, i1: int, e1: int, b1: int, i2: int, e2: int, b2: int)
    requires LinksGrew(a, b, i1, e1, b1) && LinksGrew(b, c, i2, e2, b2)
    ensures LinksGrew(a, c, i1 + i2, e1 + e2, b1 + b2)
  {
    assert c.brokenLinks[..|a.brokenLinks|] == c.brokenLinks[..|b.brokenLinks|][..|a.brokenLinks|];
    forall k | |a.brokenLinks| <= k < |c.brokenLinks|
      ensures c.brokenLinks[k].statusCode == 0 && c.brokenLinks[k].errorMessage == "Link check failed"
    {
      if k < |b.brokenLinks| {
        assert c.brokenLinks[k] == c.brokenLinks[..|b.brokenLinks|][k];
      }
    }
  }

  /**
   * Every counted anchor in the tree adds one to exactly the internal or the external
   * count, and every failed check adds one inaccessible link and one broken link.
   */
  lemma {:induction false} VisitCountsLinks(n: Node, parent: Option<Node>, d: Tally, env: Env)
    ensures LinksGrew(d, Visit(n, parent, d, env),
      Count(n, InternalAnchor(env)), Count(n, ExternalAnchor(env)), Count(n, BrokenAnchor(env)))
    decreases n, |n.children| + 1
  {
    var s := Step(n, parent, d, env);
    var bi := if InternalAnchor(env)(n) then 1 else 0;
    var be := if ExternalAnchor(env)(n) then 1 else 0;
    var bb := if BrokenAnchor(env)(n) then 1 else 0;
    assert LinksGrew(d, s, bi, be, bb) by {
      if IsElement(n, "a") {
        assert s == LinkStep(n, d, env);
      } else {
        assert LinkTarget(n, env).None?;
        assert s.brokenLinks == d.brokenLinks;
      }
    }
    VisitFromCountsLinks(n, 0, s, env);
    LinksGrewTrans(d, s, Visit(n, parent, d, env), bi, be, bb,
      CountFrom(n, 0, InternalAnchor(env)), CountFrom(n, 0, ExternalAnchor(env)), CountFrom(n, 0, BrokenAnchor(env)));
  }

  lemma {:induction false} VisitFromCountsLinks(parent: Node, i: nat, d: Tally, env: Env)
    requires i <= |parent.children|
    ensures LinksGrew(d, VisitFrom(parent, i, d, env),
      CountFrom(parent, i, InternalAnchor(env)), CountFrom(parent, i, ExternalAnchor(env)),
      CountFrom(parent, i, BrokenAnchor(env)))
    decreases parent, |parent.children| - i
  {
    if i < |parent.children| {
      var c := parent.children[i];
      var mid := Visit(c, Some(parent), d, env);
      VisitCountsLinks(c, Some(parent), d, env);
      VisitFromCountsLinks(parent, i + 1, mid, env);
      LinksGrewTrans(d, mid, VisitFrom(parent, i, d, env),
        Count(c, InternalAnchor(env)), Count(c, ExternalAnchor(env)), Count(c, BrokenAnchor(env)),
        CountFrom(parent, i + 1, InternalAnchor(env)), CountFrom(parent, i + 1, ExternalAnchor(env)),
        CountFrom(parent, i + 1, BrokenAnchor(env)));
    } else {
      assert d.brokenLinks[..|d.brokenLinks|] == d.brokenLinks;
    }
  }

  /**
   * Over a whole page: internal and external links together are the counted anchors,
   * and the inaccessible count is the number of broken links recorded.
   */
  lemma PageLinkTotals(doc: Node, env: Env)
    ensures var r := Visit(doc, None, Fresh, env);
      r.internalLinks + r.externalLinks == Count(doc, CountedAnchor(env)) &&
      r.inaccessibleLinks == |r.brokenLinks| == Count(doc, BrokenAnchor(env))
  {
    VisitCountsLinks(doc, None, Fresh, env);
    CountSplit(doc, CountedAnchor(env), InternalAnchor(env), ExternalAnchor(env));
  }

  /** The non-empty titles of the tree, in document order. */
  function Titles(n: Node): seq<string>
    decreases n, |n.children| + 1
  {
    (if IsElement(n, "title") && TextContent(n) != "" then [TextContent(n)] else []) + TitlesFrom(n, 0)
  }

  function TitlesFrom(parent: Node, i: nat): seq<string>
    requires i <= |parent.children|
    decreases parent, |parent.children| - i
  {
    if i == |parent.children| then [] else Titles(parent.children[i]) + TitlesFrom(parent, i + 1)
  }

  /** The title a walk ends with: the last non-empty title met, or the one it started with. */
  function LastOr(titles: seq<string>, fallback: string): string {
    if titles == [] then fallback else titles[|titles| - 1]
  }

  lemma LastOrAppend(a: seq<string>, b: seq<string>, fallback: string)
    ensures LastOr(a + b, fallback) == LastOr(b, LastOr(a, fallback))
  {
    if b != [] {
      assert (a + b)[|a + b| - 1] == b[|b| - 1];
    } else {
      assert a + b == a;
    }
  }

  /** The page title is the last non-empty `<title>` text in document order. */
  lemma {:induction false} VisitTitle(n: Node, parent: Option<Node>, d: Tally, env: Env)
    ensures Visit(n, parent, d, env).title == LastOr(Titles(n), d.title)
    decreases n, |n.children| + 1
  {
    var s := Step(n, parent, d, env);
    var own := if IsElement(n, "title") && TextContent(n) != "" then [TextContent(n)] else [];
    assert s.title == LastOr(own, d.title) by {
      if IsElement(n, "a") { assert s == LinkStep(n, d, env); }
    }
    VisitFromTitle(n, 0, s, env);
    LastOrAppend(own, TitlesFrom(n, 0), d.title);
  }

  lemma {:induction false} VisitFromTitle(parent: Node, i: nat, d: Tally, env: Env)
    requires i <= |parent.children|
    ensures VisitFrom(parent, i, d, env).title == LastOr(TitlesFrom(parent, i), d.title)
    decreases parent, |parent.children| - i
  {
    if i < |parent.children| {
      var c := parent.children[i];
      VisitTitle(c, Some(parent), d, env);
      VisitFromTitle(parent, i + 1, Visit(c, Some(parent), d, env), env);
      LastOrAppend(Titles(c), TitlesFrom(parent, i + 1), d.title);
    }
  }

  function LoginFormElement(): Node -> bool {
    (m: Node) => IsElement(m, "form") && LoginForm(m)
  }

  /** The login flag ends true exactly when it started true or some form in the tree is a login form. */
  lemma {:induction false} VisitLoginForm(n: Node, parent: Option<Node>, d: Tally, env: Env)
    ensures Visit(n, parent, d, env).hasLoginForm == (d.hasLoginForm || Count(n, LoginFormElement()) > 0)
    decreases n, |n.children| + 1
  {
    var s := Step(n, parent, d, env);
    assert s.hasLoginForm == (d.hasLoginForm || LoginFormElement()(n)) by {
      if IsElement(n, "a") { assert s == LinkStep(n, d, env); }
    }
    VisitFromLoginForm(n, 0, s, env);
  }

  lemma {:induction false} VisitFromLoginForm(parent: Node, i: nat, d: Tally, env: Env)
    requires i <= |parent.children|
    ensures VisitFrom(parent, i, d, env).hasLoginForm == (d.hasLoginForm || CountFrom(parent, i, LoginFormElement()) > 0)
    decreases parent, |parent.children| - i
  {
    if i < |parent.children| {
      var c := parent.children[i];
      VisitLoginForm(c, Some(parent), d, env);
      VisitFromLoginForm(parent, i + 1, Visit(c, Some(parent), d, env), env);
    }
  }

  /** The `CrawlData` a crawl fills in, one field per accumulator. */
  class CrawlData {
    var title: string
    var htmlVersion: string
    var headingCounts: map<string, int>
    var internalLinks: int
    var externalLinks: int
    var inaccessibleLinks: int
    var hasLoginForm: bool
    var brokenLinks: seq<BrokenLink>

    /** The empty accumulator `CrawlURL` starts with. */
    constructor ()
      ensures Snapshot() == Fresh
    {
      title, htmlVersion, headingCounts := "", "", map[];
      internalLinks, externalLinks, inaccessibleLinks := 0, 0, 0;
      hasLoginForm, brokenLinks := false, [];
    }

    function Snapshot(): Tally
      reads this
    {
      Tally(title, htmlVersion, headingCounts, internalLinks, externalLinks, inaccessibleLinks, hasLoginForm, brokenLinks)
    }

    /** `analyzeLink`: classify the anchor's target and record it when its check fails. */
    method AnalyzeLink(n: Node, env: Env)
      requires IsElement(n, "a")
      modifies this
      ensures Snapshot() == LinkStep(n, old(Snapshot()), env)
    {
      var href := FindHref(n.attrs);
      if href == "" {
        return;
      }
      var parsed := env.resolve(href);
      if parsed.None? {
        return;
      }
      var resolved := parsed.value;
      if resolved.host == env.baseHost {
        internalLinks := internalLinks + 1;
      } else {
        externalLinks := externalLinks + 1;
      }
      if !IsAccessibleLink(resolved.text, env.head) {
        inaccessibleLinks := inaccessibleLinks + 1;
        brokenLinks := brokenLinks + [FailedLink(resolved.text)];
      }
    }

    /** `analyzeHTML`: the step at `n`, then each child in order with `n` as its parent. */
    method AnalyzeHTML(n: Node, parent: Option<Node>, env: Env)
      modifies this
      ensures Snapshot() == Visit(n, parent, old(Snapshot()), env)
      decreases n
    {
      if n.kind == ElementNode {
        if n.data == "html" {
          htmlVersion := ExtractHTMLVersion(n, parent);
        } else if n.data == "title" {
          var t := ExtractTextContent(n);
          if t != "" {
            title := t;
          }
        } else if IsHeading(n.data) {
          headingCounts := headingCounts[n.data := CountOf(headingCounts, n.data) + 1];
        } else if n.data == "a" {
          AnalyzeLink(n, env);
        } else if n.data == "form" {
          var login := IsLoginForm(n);
          if login {
            hasLoginForm := true;
          }
        }
      }
      assert Snapshot() == Step(n, parent, old(Snapshot()), env);
      var i := 0;
      while i < |n.children|
        invariant 0 <= i <= |n.children|
        invariant VisitFrom(n, i, Snapshot(), env) == Visit(n, parent, old(Snapshot()), env)
      {
        AnalyzeHTML(n.children[i], Some(n), env);
        i := i + 1;
      }
    }
  }

  // ---- saving and the crawl ----

  /** The columns `saveResults` writes; a heading never met is stored as 0. */
  function AnalysisOf(d: Tally): Analysis {
    Analysis(d.title, d.htmlVersion,
      CountOf(d.headingCounts, "h1"), CountOf(d.headingCounts, "h2"), CountOf(d.headingCounts, "h3"),
      CountOf(d.headingCounts, "h4"), CountOf(d.headingCounts, "h5"), CountOf(d.headingCounts, "h6"),
      d.internalLinks, d.externalLinks, d.inaccessibleLinks, d.hasLoginForm)
  }

  /** The rows the broken-link loop writes for the first `j` links; the indexes in `fails` are skipped. */
  function KeptLinks(resultId: int, links: seq<BrokenLink>, fails: set<int>, j: nat): (rows: seq<LinkRow>)
    requires j <= |links|
    ensures |rows| <= j
    ensures forall t :: 0 <= t < |rows| ==> rows[t].resultId == resultId
  {
    if j == 0 then []
    else
      var l := links[j - 1];
      KeptLinks(resultId, links, fails, j - 1) +
      (if j - 1 in fails then [] else [LinkRow(resultId, l.url, l.statusCode, l.errorMessage)])
  }

  /** Without store faults every broken link is written, in order. */
  lemma {:induction false} KeptLinksAll(resultId: int, links: seq<BrokenLink>, j: nat)
    requires j <= |links|
    ensures |KeptLinks(resultId, links, {}, j)| == j
    ensures forall t :: 0 <= t < j ==>
      KeptLinks(resultId, links, {}, j)[t] == LinkRow(resultId, links[t].url, links[t].statusCode, links[t].errorMessage)
  {
    if j > 0 {
      KeptLinksAll(resultId, links, j - 1);
    }
  }

  /** The store faults one save can meet: the delete, the result insert, and individual link inserts. */
  datatype SaveFaults = SaveFaults(deleteFails: bool, insertFails: bool, linkFails: set<int>)

  /** The broken-link loop of `saveResults`: one insert per link, in order; a failed insert is skipped. */
  method InsertBrokenLinks(db: Db, rid: int, links: seq<BrokenLink>, fails: set<int>)
    requires db.Valid() && rid in db.results
    modifies db
    ensures db.Valid()
    ensures db.urls == old(db.urls) && db.results == old(db.results) && db.nextResultId == old(db.nextResultId)
    ensures var rows := KeptLinks(rid, links, fails, |links|);
      db.nextLinkId == old(db.nextLinkId) + |rows| &&
      forall k :: old(db.nextLinkId) <= k < db.nextLinkId ==> k in db.links && db.links[k] == rows[k - old(db.nextLinkId)]
    ensures forall k :: k in db.links ==>
      (k in old(db.links) && db.links[k] == old(db.links)[k]) || old(db.nextLinkId) <= k < db.nextLinkId
  {
    ghost var base := db.nextLinkId;
    var j := 0;
    while j < |links|
      invariant 0 <= j <= |links|
      invariant db.Valid() && rid in db.results
      invariant db.urls == old(db.urls) && db.results == old(db.results) && db.nextResultId == old(db.nextResultId)
      invariant db.nextLinkId == base + |KeptLinks(rid, links, fails, j)|
      invariant forall k :: base <= k < db.nextLinkId ==>
        k in db.links && db.links[k] == KeptLinks(rid, links, fails, j)[k - base]
      invariant forall k :: k in db.links ==>
        (k in old(db.links) && db.links[k] == old(db.links)[k]) || base <= k < db.nextLinkId
    {
      ghost var kept := KeptLinks(rid, links, fails, j);
      if j !in fails {
        var _ := db.InsertLink(rid, links[j].url, links[j].statusCode, links[j].errorMessage);
      }
      assert KeptLinks(rid, links, fails, j + 1) ==
        kept + (if j in fails then [] else [LinkRow(rid, links[j].url, links[j].statusCode, links[j].errorMessage)]);
      j := j + 1;
    }
  }

  /** The links of a result that had none are exactly the kept rows, under fresh ids. */
  method StoreLinks(db: Db, rid: int, links: seq<BrokenLink>, fails: set<int>)
    requires db.Valid() && rid in db.results
    requires forall k :: k in db.links ==> db.links[k].resultId != rid
    modifies db
    ensures db.Valid()
    ensures db.urls == old(db.urls) && db.results == old(db.results) && db.nextResultId == old(db.nextResultId)
    ensures var rows := KeptLinks(rid, links, fails, |links|);
      (forall k :: old(db.nextLinkId) <= k < old(db.nextLinkId) + |rows| ==>
         k in db.links && db.links[k] == rows[k - old(db.nextLinkId)]) &&
      (forall k :: k in db.links && db.links[k].resultId == rid ==>
         old(db.nextLinkId) <= k < old(db.nextLinkId) + |rows|)
  {
    InsertBrokenLinks(db, rid, links, fails);
  }

  /** The insert half of `saveResults`, once the job has no result left. */
  method StoreResult(db: Db, urlId: int, analysis: Analysis, links: seq<BrokenLink>, insertFails: bool, linkFails: set<int>)
    returns (ok: bool)
    requires db.Valid()
    requires forall k :: k in db.results ==> db.results[k].urlId != urlId
    modifies db
    ensures db.Valid() && db.urls == old(db.urls)
    ensures ok <==> !insertFails && urlId in db.urls
    ensures !ok ==> db.results == old(db.results) && db.links == old(db.links)
    ensures ok ==> db.results == old(db.results)[old(db.nextResultId) := ResultRow(urlId, analysis)]
    ensures ok ==>
      var rows := KeptLinks(old(db.nextResultId), links, linkFails, |links|);
      (forall k :: old(db.nextLinkId) <= k < old(db.nextLinkId) + |rows| ==>
         k in db.links && db.links[k] == rows[k - old(db.nextLinkId)]) &&
      (forall k :: k in db.links && db.links[k].resultId == old(db.nextResultId) ==>
         old(db.nextLinkId) <= k < old(db.nextLinkId) + |rows|)
  {
    if insertFails {
      return false;
    }
    var inserted := db.InsertResult(urlId, analysis);
    if inserted.None? {
      return false;
    }
    var rid := inserted.value;
    assert forall k :: k in db.links ==> db.links[k].resultId != rid;
    StoreLinks(db, rid, links, linkFails);
    ok := true;
  }

  /**
   * `saveResults`: drop the job's previous result (and its links), insert the new one,
   * then its broken links; a failed link insert is logged and skipped.
   */
  method SaveResults(db: Db, urlId: int, data: CrawlData, faults: SaveFaults) returns (ok: bool)
    requires db.Valid()
    modifies db
    ensures db.Valid() && db.urls == old(db.urls)
    ensures faults.deleteFails ==> !ok && db.results == old(db.results) && db.links == old(db.links)
    ensures !faults.deleteFails ==> (ok <==> !faults.insertFails && urlId in old(db.urls))
    ensures !faults.deleteFails ==> forall k :: k in db.results ==>
      (k in old(db.results) && old(db.results)[k].urlId != urlId && db.results[k] == old(db.results)[k]) ||
      (ok && k == old(db.nextResultId))
    ensures ok ==>
      old(db.nextResultId) in db.results &&
      db.results[old(db.nextResultId)] == ResultRow(urlId, AnalysisOf(data.Snapshot()))
    ensures ok ==>
      var rows := KeptLinks(old(db.nextResultId), data.brokenLinks, faults.linkFails, |data.brokenLinks|);
      (forall k :: old(db.nextLinkId) <= k < old(db.nextLinkId) + |rows| ==>
         k in db.links && db.links[k] == rows[k - old(db.nextLinkId)]) &&
      (forall k :: k in db.links && db.links[k].resultId == old(db.nextResultId) ==>
         old(db.nextLinkId) <= k < old(db.nextLinkId) + |rows|)
  {
    if faults.deleteFails {
      return false;
    }
    db.DeleteResultsOf(urlId);
    ok := StoreResult(db, urlId, AnalysisOf(data.Snapshot()), data.brokenLinks, faults.insertFails, faults.linkFails);
  }

  /** `updateURLStatus`: a failed update is only logged. */
  function StatusAfter(urls: map<int, UrlRow>, urlId: int, status: Status, fails: bool): map<int, UrlRow> {
    if fails || urlId !in urls then urls else urls[urlId := urls[urlId].(status := status)]
  }

  /** The page download: no response, or a status code with the parsed document (`None` when parsing fails). */
  datatype Download = NoResponse | Downloaded(statusCode: int, document: Option<Node>)

  /** The download gave a parsed 200 page and the page URL parsed. */
  predicate Analysable(download: Download, baseParses: bool) {
    download.Downloaded? && download.statusCode == 200 && download.document.Some? && baseParses
  }

  /**
   * `CrawlURL`: any failure before the save, or of the save, marks the job failed; a
   * successful save marks it completed, with the page's analysis as its only result.
   */
  method CrawlURL(db: Db, urlId: int, download: Download, baseParses: bool, env: Env,
                  faults: SaveFaults, statusFails: bool)
    requires db.Valid()
    modifies db
    ensures db.Valid()
    ensures !Analysable(download, baseParses) ==>
      db.urls == StatusAfter(old(db.urls), urlId, Failed, statusFails) &&
      db.results == old(db.results) && db.links == old(db.links)
    ensures Analysable(download, baseParses) ==>
      var saved := !faults.deleteFails && !faults.insertFails && urlId in old(db.urls);
      db.urls == StatusAfter(old(db.urls), urlId, if saved then Completed else Failed, statusFails) &&
      (saved ==>
        var rid := old(db.nextResultId);
        rid in db.results &&
        db.results[rid] == ResultRow(urlId, AnalysisOf(Visit(download.document.value, None, Fresh, env))) &&
        forall k :: k in db.results && db.results[k].urlId == urlId ==> k == rid)
  {
    if download.NoResponse? || download.statusCode != 200 || download.document.None? {
      if !statusFails { db.SetStatus(urlId, Failed); }
      return;
    }
    var doc := download.document.value;
    var data := new CrawlData();
    if !baseParses {
      if !statusFails { db.SetStatus(urlId, Failed); }
      return;
    }
    data.AnalyzeHTML(doc, None, env);
    var ok := SaveResults(db, urlId, data, faults);
    if !ok {
      if !statusFails { db.SetStatus(urlId, Failed); }
      return;
    }
    if !statusFails { db.SetStatus(urlId, Completed); }
  }
}
