/**
 * lib/notion-client.ts: the parts of `NotionClient` that do not call the Notion API: turning a
 * list of blocks into HTML, choosing a page's title, and the URL of a created page. The API calls
 * themselves are inputs: their results arrive as values of the datatypes below.
 */
module NotionClient {
  import opened Wrappers

  /** One element of a `rich_text` or `title` array; `plainText` is `None` when the property is
      absent. */
  datatype RichText = RichText(plainText: Option<string>)

  /** A block of page content: its `type`, and the `rich_text` array of the property named after
      that type (`None` when the property or its array is absent). */
  datatype Block = Block(kind: string, richText: Option<seq<RichText>>)

  /** `x?.[0]?.plain_text || ''`: the first element's text, or empty. */
  function FirstText(rt: Option<seq<RichText>>): (r: string)
    ensures r != [] ==> rt.Some? && rt.value != [] && rt.value[0].plainText == Some(r)
    ensures rt.Some? && rt.value != [] && rt.value[0].plainText.Some? ==> r == rt.value[0].plainText.value
  {
    if rt.Some? && rt.value != [] && rt.value[0].plainText.Some? then rt.value[0].plainText.value else ""
  }

  /** The HTML for one block; a type without a case contributes nothing. */
  function Fragment(b: Block): string
  {
    var text := FirstText(b.richText);
    if b.kind == "paragraph" then "<p>" + text + "</p>"
    else if b.kind == "heading_1" then "<h1>" + text + "</h1>"
    else if b.kind == "heading_2" then "<h2>" + text + "</h2>"
    else if b.kind == "heading_3" then "<h3>" + text + "</h3>"
    else if b.kind == "bulleted_list_item" then "<li>" + text + "</li>"
    else if b.kind == "code" then "<pre><code>" + text + "</code></pre>"
    else ""
  }

  predicate KnownKind(kind: string)
  {
    kind in {"paragraph", "heading_1", "heading_2", "heading_3", "bulleted_list_item", "code"}
  }

  /** The tags a known block type is wrapped in. */
  function Tags(kind: string): (string, string)
  {
    if kind == "paragraph" then ("<p>", "</p>")
    else if kind == "heading_1" then ("<h1>", "</h1>")
    else if kind == "heading_2" then ("<h2>", "</h2>")
    else if kind == "heading_3" then ("<h3>", "</h3>")
    else if kind == "bulleted_list_item" then ("<li>", "</li>")
    else ("<pre><code>", "</code></pre>")
  }

  /** A known block is its first text wrapped in its tags, with an empty body when the text is
      missing; any other block gives nothing. */
  lemma FragmentShape(b: Block)
    ensures KnownKind(b.kind) ==> Fragment(b) == Tags(b.kind).0 + FirstText(b.richText) + Tags(b.kind).1
    ensures !KnownKind(b.kind) ==> Fragment(b) == []
    ensures KnownKind(b.kind) && (b.richText.None? || b.richText.value == []) ==>
      Fragment(b) == Tags(b.kind).0 + Tags(b.kind).1
  {
  }

  /** The strings of `parts` one after the other. */
  function Concat(parts: seq<string>): string
  {
    if parts == [] then "" else Concat(parts[..|parts| - 1]) + parts[|parts| - 1]
  }

  lemma {:induction false} ConcatAppend(a: seq<string>, b: seq<string>)
    ensures Concat(a + b) == Concat(a) + Concat(b)
    decreases |b|
  {
    if b == [] {
      assert a + b == a;
    } else {
      assert (a + b)[..|a + b| - 1] == a + b[..|b| - 1];
      ConcatAppend(a, b[..|b| - 1]);
    }
  }

  function Fragments(blocks: seq<Block>): (r: seq<string>)
    ensures |r| == |blocks| && forall i :: 0 <= i < |r| ==> r[i] == Fragment(blocks[i])
  {
    seq(|blocks|, i requires 0 <= i < |blocks| => Fragment(blocks[i]))
  }

  /** The concatenation of the blocks' fragments, in order. */
  function Html(blocks: seq<Block>): string
  {
    Concat(Fragments(blocks))
  }

  /** The HTML of two lists of blocks one after the other is the one HTML after the other. */
  lemma HtmlAppend(a: seq<Block>, b: seq<Block>)
    ensures Html(a + b) == Html(a) + Html(b)
  {
    assert Fragments(a + b) == Fragments(a) + Fragments(b);
    ConcatAppend(Fragments(a), Fragments(b));
  }

  /** One more block adds its fragment at the end. */
  lemma HtmlSnoc(blocks: seq<Block>, b: Block)
    ensures Html(blocks + [b]) == Html(blocks) + Fragment(b)
  {
    assert Fragments(blocks + [b]) == Fragments(blocks) + [Fragment(b)];
    ConcatAppend(Fragments(blocks), [Fragment(b)]);
    assert [Fragment(b)][..0] == [];
  }

  /** Blocks of an unknown type can be dropped without changing the HTML. */
  lemma HtmlIgnoresUnknown(blocks: seq<Block>, b: Block, rest: seq<Block>)
    requires !KnownKind(b.kind)
    ensures Html(blocks + [b] + rest) == Html(blocks + rest)
  {
    HtmlAppend(blocks + [b], rest);
    HtmlAppend(blocks, rest);
    HtmlSnoc(blocks, b);
    FragmentShape(b);
  }

  /** `convertBlocksToHtml(blocks)` */
  method ConvertBlocksToHtml(blocks: seq<Block>) returns (html: string)
    ensures html == Html(blocks)
  {
    html := "";
    for i := 0 to |blocks|
      invariant html == Html(blocks[..i])
    {
      assert blocks[..i + 1] == blocks[..i] + [blocks[i]];
      HtmlSnoc(blocks[..i], blocks[i]);
      var block := blocks[i];
      var text := FirstText(block.richText);
      if block.kind == "paragraph" {
        html := html + ("<p>" + text + "</p>");
      } else if block.kind == "heading_1" {
        html := html + ("<h1>" + text + "</h1>");
      } else if block.kind == "heading_2" {
        html := html + ("<h2>" + text + "</h2>");
      } else if block.kind == "heading_3" {
        html := html + ("<h3>" + text + "</h3>");
      } else if block.kind == "bulleted_list_item" {
        html := html + ("<li>" + text + "</li>");
      } else if block.kind == "code" {
        html := html + ("<pre><code>" + text + "</code></pre>");
      }
    }
    assert blocks[..|blocks|] == blocks;
  }

  /** A page's `properties.title.title` and `properties.Name.title` arrays. */
  datatype PageProperties = PageProperties(title: Option<seq<RichText>>, name: Option<seq<RichText>>)

  /** `getPageTitle(page)`: the first text of `title` when it is not empty, else that of `Name`,
      else "Untitled Page". */
  function PageTitle(page: PageProperties): (r: string)
    ensures r != []
    ensures FirstText(page.title) != [] ==> r == FirstText(page.title)
    ensures FirstText(page.title) == [] && FirstText(page.name) != [] ==> r == FirstText(page.name)
    ensures FirstText(page.title) == [] && FirstText(page.name) == [] ==> r == "Untitled Page"
  {
    if FirstText(page.title) != [] then FirstText(page.title)
    else if FirstText(page.name) != [] then FirstText(page.name)
    else "Untitled Page"
  }

  /** `id.replace(/-/g, '')` */
  function RemoveDashes(id: string): (r: string)
    ensures '-' !in r
    ensures |r| <= |id|
    ensures forall c :: c in r ==> c in id
  {
    if id == [] then []
    else (if id[0] == '-' then [] else [id[0]]) + RemoveDashes(id[1..])
  }

  /** Removing the dashes keeps every other character, in order. */
  lemma {:induction false} RemoveDashesKeeps(a: string, b: string)
    ensures RemoveDashes(a + b) == RemoveDashes(a) + RemoveDashes(b)
  {
    if a != [] {
      assert (a + b)[1..] == a[1..] + b;
      RemoveDashesKeeps(a[1..], b);
    } else {
      assert a + b == b;
    }
  }

  /** An id without dashes is kept as it is. */
  lemma {:induction false} RemoveDashesFixpoint(id: string)
    requires '-' !in id
    ensures RemoveDashes(id) == id
  {
    if id != [] {
      RemoveDashesFixpoint(id[1..]);
    }
  }

  /** Removing the dashes twice is removing them once. */
  lemma RemoveDashesIdempotent(id: string)
    ensures RemoveDashes(RemoveDashes(id)) == RemoveDashes(id)
  {
    RemoveDashesFixpoint(RemoveDashes(id));
  }

  const NotionBase := "https://notion.so/"

  /** The URL `createPage` reports for the created page's id. */
  function PageUrl(id: string): (url: string)
    ensures |url| >= |NotionBase| && url[..|NotionBase|] == NotionBase
    ensures url[|NotionBase|..] == RemoveDashes(id) && '-' !in url[|NotionBase|..]
  {
    NotionBase + RemoveDashes(id)
  }

  datatype NotionPage = NotionPage(id: string, title: string, url: string, lastEditedTime: string)

  /** `createPage(title)` once the API has answered with `responseId`; `now` stands for the
      current time. */
  function CreatedPage(title: string, responseId: string, now: string): (p: NotionPage)
    ensures p.id == responseId && p.title == title && p.lastEditedTime == now
    ensures |p.url| >= |NotionBase| && p.url[..|NotionBase|] == NotionBase
    ensures p.url[|NotionBase|..] == RemoveDashes(p.id)
    ensures '-' !in p.url[|NotionBase|..]
  {
    NotionPage(responseId, title, PageUrl(responseId), now)
  }

  /** A page of a search or database-query result. */
  datatype PageResult = PageResult(id: string, properties: PageProperties, url: string, lastEditedTime: string)

  /** The pages `getPages` returns for the API's results, one per result and in order. */
  function Pages(results: seq<PageResult>): (r: seq<NotionPage>)
    ensures |r| == |results|
    ensures forall i :: 0 <= i < |r| ==>
      r[i] == NotionPage(results[i].id, PageTitle(results[i].properties), results[i].url, results[i].lastEditedTime)
    ensures forall i :: 0 <= i < |r| ==> r[i].title != []
  {
    seq(|results|, i requires 0 <= i < |results| =>
      NotionPage(results[i].id, PageTitle(results[i].properties), results[i].url, results[i].lastEditedTime))
  }

  /** A database of a search result, with its `title` array. */
  datatype DatabaseResult = DatabaseResult(id: string, title: Option<seq<RichText>>, url: string)

  datatype NotionDatabase = NotionDatabase(id: string, title: string, url: string)

  /** The databases `getDatabases` returns: an empty title reads "Untitled Database". */
  function Databases(results: seq<DatabaseResult>): (r: seq<NotionDatabase>)
    ensures |r| == |results|
    ensures forall i :: 0 <= i < |r| ==> r[i].id == results[i].id && r[i].url == results[i].url && r[i].title != []
    ensures forall i :: 0 <= i < |r| ==>
      r[i].title == if FirstText(results[i].title) != [] then FirstText(results[i].title) else "Untitled Database"
  {
    seq(|results|, i requires 0 <= i < |results| =>
      var t := FirstText(results[i].title);
      NotionDatabase(results[i].id, if t != [] then t else "Untitled Database", results[i].url))
  }
}
