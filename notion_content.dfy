/**
  The block-to-HTML transcoder and the post assembly of `load_posts_from_notion`
  (app.py): a page's blocks, already fetched from the workspace API, become one
  HTML string by concatenating a fixed rendering of each block, in order; the
  page's title comes from its "Project Name" property.
 */
module NotionContent {
  import opened Options

  /** One rich-text run; `plain_text` is the only key the transcoder reads. */
  datatype RichText = RichText(plainText: string)

  /** The `file` object of an image block. */
  datatype FileObject = FileObject(url: string)

  /** The type-specific payload `block[block["type"]]`; each key it may read is optional. */
  datatype Payload = Payload(richText: Option<seq<RichText>>, checked: Option<bool>, file: Option<FileObject>)

  /** A block: its `type` tag and the payload stored under that tag. */
  datatype Block = Block(kind: string, data: Payload)

  /** A property of a database record: only title properties carry a `title` list. */
  datatype PropertyValue = TitleProperty(title: seq<RichText>) | OtherProperty

  /** A published record with its child blocks already fetched. */
  datatype Page = Page(properties: map<string, PropertyValue>, blocks: seq<Block>)

  datatype Post = Post(title: string, content: string)

  const ProjectName := "Project Name"
  const Untitled := "Untitled"

  /** The block types the transcoder recognises; every other type renders as nothing. */
  const KnownKinds: set<string> := {"paragraph", "heading_1", "heading_2", "heading_3",
                                    "bulleted_list_item", "numbered_list_item", "divider",
                                    "quote", "code", "to_do", "toggle", "image"}

  const CheckedBox := "\U{2611}"
  const UncheckedBox := "\U{2610}"

  // ---------------------------------------------------------------------------
  // Text of a block: the " "-join of its runs' plain_text
  // ---------------------------------------------------------------------------

  /** Python's `" ".join(parts)`. */
  function Join(parts: seq<string>): (joined: string)
    ensures parts == [] ==> joined == ""
    ensures |parts| >= 1 ==> |joined| == SumOfLengths(parts) + |parts| - 1
  {
    if parts == [] then ""
    else if |parts| == 1 then parts[0]
    else parts[0] + " " + Join(parts[1..])
  }

  /** Python's `s.split(" ")`: the pieces between single spaces, at least one. */
  function Split(s: string): (parts: seq<string>)
    ensures |parts| >= 1
  {
    if s == [] then [""]
    else
      var rest := Split(s[1..]);
      if s[0] == ' ' then [""] + rest else [[s[0]] + rest[0]] + rest[1..]
  }

  function PlainTexts(runs: seq<RichText>): (texts: seq<string>)
    ensures |texts| == |runs|
    ensures forall i :: 0 <= i < |runs| ==> texts[i] == runs[i].plainText
  {
    if runs == [] then [] else [runs[0].plainText] + PlainTexts(runs[1..])
  }

  /** `data.get("rich_text", [])`. */
  function Runs(data: Payload): (runs: seq<RichText>)
    ensures data.richText == None ==> runs == []
    ensures data.richText.Some? ==> runs == data.richText.value
  {
    data.richText.GetOr([])
  }

  /** The text inserted into a block's markup. */
  function Text(b: Block): (text: string)
    ensures Runs(b.data) == [] ==> text == ""
    ensures |Runs(b.data)| >= 1 ==>
              |text| == SumOfLengths(PlainTexts(Runs(b.data))) + |Runs(b.data)| - 1
  {
    Join(PlainTexts(Runs(b.data)))
  }

  /** `data.get("checked", False)`. */
  predicate IsChecked(data: Payload)
    ensures IsChecked(data) <==> data.checked == Some(true)
  {
    data.checked.GetOr(false)
  }

  // ---------------------------------------------------------------------------
  // Rendering one block, and a whole page
  // ---------------------------------------------------------------------------

  /** The source reads `data["file"]["url"]` of every image block: one without it raises. */
  predicate Renderable(b: Block)
  {
    b.kind == "image" ==> b.data.file.Some?
  }

  predicate AllRenderable(bs: seq<Block>)
  {
    forall i :: 0 <= i < |bs| ==> Renderable(bs[i])
  }

  /**
    The HTML fragment appended to `content` for one block; no escaping is applied. A block
    contributes nothing exactly when its type is not recognised.
   */
  function Render(b: Block): (html: string)
    requires Renderable(b)
    ensures html == "" <==> b.kind !in KnownKinds
  {
    var text := Text(b);
    if b.kind == "paragraph" then text + "<br>"
    else if b.kind == "heading_1" then "<h1>" + text + "</h1>"
    else if b.kind == "heading_2" then "<h2>" + text + "</h2>"
    else if b.kind == "heading_3" then "<h3>" + text + "</h3>"
    else if b.kind == "bulleted_list_item" then "<ul><li>" + text + "</li></ul>"
    else if b.kind == "numbered_list_item" then "<ol><li>" + text + "</li></ol>"
    else if b.kind == "divider" then "<hr>"
    else if b.kind == "quote" then "<blockquote>" + text + "</blockquote>"
    else if b.kind == "code" then "<pre><code>" + text + "</code></pre>"
    else if b.kind == "to_do" then
      (if IsChecked(b.data) then CheckedBox else UncheckedBox) + " " + text + "<br>"
    else if b.kind == "toggle" then "<details><summary>" + text + "</summary></details>"
    else if b.kind == "image" then "<img src=\"" + b.data.file.value.url + "\" alt=\"Image\"><br>"
    else ""
  }

  /** The rendering of each block, in order. */
  function Fragments(bs: seq<Block>): (fragments: seq<string>)
    requires AllRenderable(bs)
    ensures |fragments| == |bs|
    ensures forall i :: 0 <= i < |bs| ==> fragments[i] == Render(bs[i])
  {
    if bs == [] then [] else [Render(bs[0])] + Fragments(bs[1..])
  }

  /** The pieces one after the other; its length is the sum of theirs. */
  function Concat(parts: seq<string>): (s: string)
    ensures |s| == SumOfLengths(parts)
  {
    if parts == [] then "" else parts[0] + Concat(parts[1..])
  }

  /** The content of a page: the renderings of its blocks, concatenated in order. */
  function RenderAll(bs: seq<Block>): (content: string)
    requires AllRenderable(bs)
    ensures |content| == SumOfLengths(Fragments(bs))
  {
    Concat(Fragments(bs))
  }

  // ---------------------------------------------------------------------------
  // A reference description of the markup: fixed tags around an inserted string
  // ---------------------------------------------------------------------------

  /** The opening and closing markup of each recognised block type. */
  function Wrapper(b: Block): Option<(string, string)>
  {
    match b.kind
    case "paragraph" => Some(("", "<br>"))
    case "heading_1" => Some(("<h1>", "</h1>"))
    case "heading_2" => Some(("<h2>", "</h2>"))
    case "heading_3" => Some(("<h3>", "</h3>"))
    case "bulleted_list_item" => Some(("<ul><li>", "</li></ul>"))
    case "numbered_list_item" => Some(("<ol><li>", "</li></ol>"))
    case "divider" => Some(("<hr>", ""))
    case "quote" => Some(("<blockquote>", "</blockquote>"))
    case "code" => Some(("<pre><code>", "</code></pre>"))
    case "to_do" => Some((if b.data.checked == Some(true) then "\U{2611} " else "\U{2610} ", "<br>"))
    case "toggle" => Some(("<details><summary>", "</summary></details>"))
    case "image" => Some(("<img src=\"", "\" alt=\"Image\"><br>"))
    case _ => None
  }

  /** What goes between the tags: the image URL, nothing for a divider, else the text. */
  function Inserted(b: Block): string
    requires Renderable(b)
  {
    match b.kind
    case "image" => b.data.file.value.url
    case "divider" => ""
    case _ => Text(b)
  }

  /** The string between the opening `open` and the closing `close`, if `html` has that shape. */
  function Unwrap(open: string, close: string, html: string): Option<string>
  {
    if |open| + |close| <= |html| && html[..|open|] == open && html[|html| - |close|..] == close
    then Some(html[|open|..|html| - |close|])
    else None
  }

  // ---------------------------------------------------------------------------
  // Properties of the text
  // ---------------------------------------------------------------------------

  /** A missing `rich_text` key and an empty run list both give the empty text. */
  lemma TextOfNoRuns(b: Block)
    requires b.data.richText == None || b.data.richText == Some([])
    ensures Text(b) == ""
  {
  }

  /** The total length of the pieces. */
  function SumOfLengths(parts: seq<string>): nat
  {
    if parts == [] then 0 else |parts[0]| + SumOfLengths(parts[1..])
  }

  lemma {:induction false} SplitSpaceFree(w: string)
    requires ' ' !in w
    ensures Split(w) == [w]
  {
    if w != [] {
      assert ' ' !in w[1..] by {
        forall i | 0 <= i < |w[1..]| ensures w[1..][i] != ' ' {
          assert w[1..][i] == w[i + 1];
        }
      }
      SplitSpaceFree(w[1..]);
      assert [w[0]] + w[1..] == w;
    }
  }

  lemma {:induction false} SplitAfterWord(w: string, t: string)
    requires ' ' !in w
    ensures Split(w + " " + t) == [w] + Split(t)
  {
    var s := w + " " + t;
    if w == [] {
      assert s[0] == ' ' && s[1..] == t;
    } else {
      assert s[0] == w[0];
      assert s[1..] == w[1..] + " " + t;
      assert ' ' !in w[1..] by {
        forall i | 0 <= i < |w[1..]| ensures w[1..][i] != ' ' {
          assert w[1..][i] == w[i + 1];
        }
      }
      SplitAfterWord(w[1..], t);
      assert [w[0]] + w[1..] == w;
    }
  }

  /** Splitting the joined text at spaces gives back the pieces, when no piece holds a space. */
  lemma {:induction false} SplitJoin(parts: seq<string>)
    requires |parts| >= 1
    requires forall i :: 0 <= i < |parts| ==> ' ' !in parts[i]
    ensures Split(Join(parts)) == parts
  {
    if |parts| == 1 {
      SplitSpaceFree(parts[0]);
    } else {
      SplitJoin(parts[1..]);
      SplitAfterWord(parts[0], Join(parts[1..]));
      assert [parts[0]] + parts[1..] == parts;
    }
  }

  /** Without any run the text is the same as with one empty run, so Split(Join(parts)) needs a piece. */
  lemma JoinNotInjectiveOnEmpty()
    ensures Join([]) == Join([""]) == ""
  {
  }

  // ---------------------------------------------------------------------------
  // Properties of one block's rendering
  // ---------------------------------------------------------------------------

  /** The case split on the type tag agrees with the table of fixed tags. */
  lemma RenderIsWrapped(b: Block)
    requires Renderable(b)
    ensures Wrapper(b).None? <==> b.kind !in KnownKinds
    ensures Wrapper(b).None? ==> Render(b) == ""
    ensures Wrapper(b).Some? ==> Render(b) == Wrapper(b).value.0 + Inserted(b) + Wrapper(b).value.1
  {
  }

  /** Unwrapping is the exact inverse of wrapping. */
  lemma UnwrapWrapped(open: string, close: string, html: string, middle: string)
    ensures Unwrap(open, close, html) == Some(middle) <==> html == open + middle + close
  {
    if html == open + middle + close {
      assert html[..|open|] == open;
      assert html[|html| - |close|..] == close;
      assert html[|open|..|html| - |close|] == middle;
    }
    if Unwrap(open, close, html) == Some(middle) {
      assert html == html[..|open|] + html[|open|..|html| - |close|] + html[|html| - |close|..];
    }
  }

  /** The inserted string is recovered from a block's markup unchanged, since nothing is escaped. */
  lemma RenderRoundTrip(b: Block)
    requires Renderable(b) && b.kind in KnownKinds
    ensures Wrapper(b).Some?
    ensures Unwrap(Wrapper(b).value.0, Wrapper(b).value.1, Render(b)) == Some(Inserted(b))
  {
    RenderIsWrapped(b);
    UnwrapWrapped(Wrapper(b).value.0, Wrapper(b).value.1, Render(b), Inserted(b));
  }

  /** A to-do starts with the checked glyph exactly when `checked` is present and true. */
  lemma ToDoGlyph(b: Block)
    requires b.kind == "to_do"
    ensures Render(b)[..2] == CheckedBox + " " <==> b.data.checked == Some(true)
    ensures Render(b)[..2] == UncheckedBox + " " <==> b.data.checked != Some(true)
  {
    var text := Text(b);
    var glyph := if IsChecked(b.data) then CheckedBox else UncheckedBox;
    assert Render(b) == glyph + " " + text + "<br>";
    assert (glyph + " " + text + "<br>")[..2] == glyph + " ";
    assert CheckedBox + " " != UncheckedBox + " " by {
      assert (CheckedBox + " ")[0] == CheckedBox[0] != UncheckedBox[0] == (UncheckedBox + " ")[0];
    }
  }

  /** Since text is inserted raw, a paragraph can produce exactly an unchecked to-do's markup. */
  lemma RawTextCollision()
    ensures var p := Block("paragraph", Payload(Some([RichText(UncheckedBox + " a")]), None, None));
            var t := Block("to_do", Payload(Some([RichText("a")]), None, None));
            p != t && Render(p) == Render(t)
  {
  }

  /** An empty paragraph renders as a bare line break. */
  lemma EmptyParagraph(b: Block)
    requires b.kind == "paragraph" && Runs(b.data) == []
    ensures Render(b) == "<br>"
  {
  }

  /** The heading case of test_app.py's block-type test: the tag around the space-joined runs. */
  lemma HeadingExample()
    ensures Render(Block("heading_1", Payload(Some([RichText("Main"), RichText("Heading")]), None, None)))
            == "<h1>Main Heading</h1>"
  {
    var runs := [RichText("Main"), RichText("Heading")];
    var b := Block("heading_1", Payload(Some(runs), None, None));
    assert PlainTexts(runs) == ["Main", "Heading"];
    assert ["Main", "Heading"][1..] == ["Heading"];
    assert Text(b) == "Main Heading";
  }

  // ---------------------------------------------------------------------------
  // Properties of a page's content
  // ---------------------------------------------------------------------------

  lemma AllRenderableAppend(xs: seq<Block>, ys: seq<Block>)
    requires AllRenderable(xs) && AllRenderable(ys)
    ensures AllRenderable(xs + ys)
  {
    forall i | 0 <= i < |xs + ys| ensures Renderable((xs + ys)[i]) {
      if i < |xs| { assert (xs + ys)[i] == xs[i]; } else { assert (xs + ys)[i] == ys[i - |xs|]; }
    }
  }

  lemma AllRenderablePrefix(bs: seq<Block>, n: nat)
    requires AllRenderable(bs) && n <= |bs|
    ensures AllRenderable(bs[..n])
  {
    forall i | 0 <= i < n ensures Renderable(bs[..n][i]) { assert bs[..n][i] == bs[i]; }
  }

  /** Concatenation distributes over joining the piece lists. */
  lemma {:induction false} ConcatAppend(ss: seq<string>, ts: seq<string>)
    ensures Concat(ss + ts) == Concat(ss) + Concat(ts)
  {
    if ss == [] {
      assert ss + ts == ts;
    } else {
      ConcatAppend(ss[1..], ts);
      assert (ss + ts)[1..] == ss[1..] + ts;
    }
  }

  /** Concatenated pieces are empty exactly when every piece is. */
  lemma {:induction false} ConcatEmpty(parts: seq<string>)
    ensures Concat(parts) == "" <==> forall i :: 0 <= i < |parts| ==> parts[i] == ""
  {
    if parts != [] {
      ConcatEmpty(parts[1..]);
      assert forall i :: 1 <= i < |parts| ==> parts[i] == parts[1..][i - 1];
    }
  }

  /** A page's content is empty exactly when none of its blocks has a recognised type. */
  lemma RenderAllEmpty(bs: seq<Block>)
    requires AllRenderable(bs)
    ensures RenderAll(bs) == "" <==> forall i :: 0 <= i < |bs| ==> bs[i].kind !in KnownKinds
  {
    ConcatEmpty(Fragments(bs));
  }

  lemma FragmentsAppend(xs: seq<Block>, ys: seq<Block>)
    requires AllRenderable(xs) && AllRenderable(ys)
    ensures AllRenderable(xs + ys)
    ensures Fragments(xs + ys) == Fragments(xs) + Fragments(ys)
  {
    AllRenderableAppend(xs, ys);
    var l, r := Fragments(xs + ys), Fragments(xs) + Fragments(ys);
    forall i | 0 <= i < |xs + ys| ensures l[i] == r[i] {
      if i < |xs| { assert (xs + ys)[i] == xs[i]; } else { assert (xs + ys)[i] == ys[i - |xs|]; }
    }
  }

  /** The content of concatenated block lists is the concatenation of their contents. */
  lemma RenderAllAppend(xs: seq<Block>, ys: seq<Block>)
    requires AllRenderable(xs) && AllRenderable(ys)
    ensures AllRenderable(xs + ys)
    ensures RenderAll(xs + ys) == RenderAll(xs) + RenderAll(ys)
  {
    FragmentsAppend(xs, ys);
    ConcatAppend(Fragments(xs), Fragments(ys));
  }

  /** A single block's content is its rendering. */
  lemma RenderAllSingle(b: Block)
    requires Renderable(b)
    ensures AllRenderable([b]) && RenderAll([b]) == Render(b)
  {
    assert Fragments([b]) == [Render(b)];
    assert [Render(b)][1..] == [];
  }

  /** The blocks of a recognised type, in their original order. */
  function KnownOnly(bs: seq<Block>): (r: seq<Block>)
    ensures |r| <= |bs|
    ensures forall i :: 0 <= i < |r| ==> r[i] in bs && r[i].kind in KnownKinds
    ensures forall b :: b in bs && b.kind in KnownKinds ==> b in r
  {
    if bs == [] then []
    else
      var last := bs[|bs| - 1];
      var init := KnownOnly(bs[..|bs| - 1]);
      assert forall i :: 0 <= i < |init| ==> init[i] in bs by {
        forall i | 0 <= i < |init| ensures init[i] in bs {
          assert init[i] in bs[..|bs| - 1];
        }
      }
      assert forall b :: b in bs ==> b in bs[..|bs| - 1] || b == last by {
        SplitLast(bs);
      }
      init + (if last.kind in KnownKinds then [last] else [])
  }

  /** A non-empty list is its front followed by its last element. */
  lemma SplitLast<T>(s: seq<T>)
    requires s != []
    ensures s == s[..|s| - 1] + [s[|s| - 1]]
  {
  }

  lemma KnownOnlyRenderable(bs: seq<Block>)
    requires AllRenderable(bs)
    ensures AllRenderable(KnownOnly(bs))
  {
    var k := KnownOnly(bs);
    forall i | 0 <= i < |k| ensures Renderable(k[i]) {
      var j :| 0 <= j < |bs| && bs[j] == k[i];
    }
  }

  /** Blocks of an unrecognised type can be dropped without changing the content. */
  lemma {:induction false} RenderAllIgnoresUnknown(bs: seq<Block>)
    requires AllRenderable(bs)
    ensures AllRenderable(KnownOnly(bs))
    ensures RenderAll(bs) == RenderAll(KnownOnly(bs))
  {
    var k := KnownOnly(bs);
    KnownOnlyRenderable(bs);
    if bs == [] {
      assert k == [];
    } else {
      var init, last := bs[..|bs| - 1], bs[|bs| - 1];
      AllRenderablePrefix(bs, |bs| - 1);
      RenderAllIgnoresUnknown(init);
      var kinit := KnownOnly(init);
      var tail := if last.kind in KnownKinds then [last] else [];
      KnownOnlyRenderable(init);
      assert k == kinit + tail;
      SplitLast(bs);
      RenderAllSingle(last);
      RenderAllAppend(init, [last]);
      RenderAllAppend(kinit, tail);
      if tail == [] {
        assert kinit + tail == kinit;
      }
    }
  }

  // ---------------------------------------------------------------------------
  // Title
  // ---------------------------------------------------------------------------

  /** The source reads `properties["Project Name"]["title"]`: a non-title property there raises. */
  predicate TitleReadable(props: map<string, PropertyValue>)
  {
    ProjectName in props ==> props[ProjectName].TitleProperty?
  }

  /** Any title other than the default is the first run of a non-empty "Project Name" title. */
  function Title(props: map<string, PropertyValue>): (title: string)
    requires TitleReadable(props)
    ensures title != Untitled ==>
              ProjectName in props && props[ProjectName].title != [] &&
              title == props[ProjectName].title[0].plainText
  {
    if ProjectName in props && props[ProjectName].title != [] then props[ProjectName].title[0].plainText
    else Untitled
  }

  /** Without a "Project Name" entry, or with an empty title list, the title is "Untitled". */
  lemma TitleDefault(props: map<string, PropertyValue>)
    requires TitleReadable(props)
    requires ProjectName !in props || props[ProjectName].title == []
    ensures Title(props) == Untitled
  {
  }

  /** Otherwise it is the first run's plain text, whatever runs follow it. */
  lemma TitleIsFirstRun(props: map<string, PropertyValue>, first: RichText, later: seq<RichText>)
    requires ProjectName in props && props[ProjectName] == TitleProperty([first] + later)
    ensures Title(props) == first.plainText
    ensures Title(props) == Title(props[ProjectName := TitleProperty([first])])
  {
  }

  // ---------------------------------------------------------------------------
  // Post assembly: the loops of load_posts_from_notion
  // ---------------------------------------------------------------------------

  /** The content of a prefix one block longer gains that block's rendering. */
  lemma RenderAllExtend(bs: seq<Block>, j: nat)
    requires AllRenderable(bs) && j < |bs|
    ensures AllRenderable(bs[..j]) && AllRenderable(bs[..j + 1])
    ensures RenderAll(bs[..j + 1]) == RenderAll(bs[..j]) + Render(bs[j])
  {
    AllRenderablePrefix(bs, j);
    AllRenderablePrefix(bs, j + 1);
    RenderAllSingle(bs[j]);
    SplitLast(bs[..j + 1]);
    assert bs[..j + 1][..j] == bs[..j];
    RenderAllAppend(bs[..j], [bs[j]]);
  }

  /** One post per record, in the given order, each with its title and rendered content. */
  method LoadPosts(pages: seq<Page>) returns (posts: seq<Post>)
    requires forall k :: 0 <= k < |pages| ==>
               TitleReadable(pages[k].properties) && AllRenderable(pages[k].blocks)
    ensures |posts| == |pages|
    ensures forall k :: 0 <= k < |pages| ==>
              posts[k] == Post(Title(pages[k].properties), RenderAll(pages[k].blocks))
  {
    posts := [];
    for k := 0 to |pages|
      invariant |posts| == k
      invariant forall m :: 0 <= m < k ==>
                  posts[m] == Post(Title(pages[m].properties), RenderAll(pages[m].blocks))
    {
      var item := pages[k];
      var title := Untitled;
      if ProjectName in item.properties {
        var projectName := item.properties[ProjectName].title;
        if projectName != [] {
          title := projectName[0].plainText;
        }
      }
      assert title == Title(item.properties);
      var blocks := item.blocks;
      assert AllRenderable(blocks);
      var content := "";
      for j := 0 to |blocks|
        invariant AllRenderable(blocks[..j])
        invariant content == RenderAll(blocks[..j])
      {
        RenderAllExtend(blocks, j);
        content := content + Render(blocks[j]);
      }
      assert blocks[..|blocks|] == blocks;
      posts := posts + [Post(title, content)];
    }
  }
}
