/**
 * The response helpers: stylesheet and script tags, the page that `html`
 * renders, the `ok` payload and the empty error responses. Serialising to
 * JSON is a parameter (`dumps`) or left inside the response value.
 */
module Resource {
  import opened Wrappers
  import opened PyValues

  /** A response as the web framework would build it. */
  datatype Response =
    | TextResponse(body: string, status: int)
    | HtmlResponse(page: string)
    | JsonResponse(payload: Args)   // the payload's serialisation is the framework's

  /** An asset path as it may appear in a list: None, '' or a real path. */
  type Path = Option<string>

  /** A path that yields a tag: neither None nor empty. */
  predicate Present(p: Path) {
    p.Some? && p.value != ""
  }

  const StylesheetOpen := "<link rel=\"stylesheet\" type=\"text/css\" href=\""
  const StylesheetClose := "\" />"
  const ScriptOpen := "<script type=\"text/javascript\" src=\""
  const ScriptClose := "\"></script>"

  /** `_css_tag`: nothing for a missing path, otherwise a stylesheet link around the path. */
  function CssTag(path: Path): (tag: string)
    ensures tag == "" <==> !Present(path)
    ensures Present(path) ==> |tag| == |StylesheetOpen| + |path.value| + |StylesheetClose|
  {
    if !Present(path) then "" else StylesheetOpen + path.value + StylesheetClose
  }

  /** `_js_tag`: nothing for a missing path, otherwise a script element around the path. */
  function JsTag(path: Path): (tag: string)
    ensures tag == "" <==> !Present(path)
    ensures Present(path) ==> |tag| == |ScriptOpen| + |path.value| + |ScriptClose|
  {
    if !Present(path) then "" else ScriptOpen + path.value + ScriptClose
  }

  datatype TagKind = Stylesheet | Script

  function TagOf(kind: TagKind, path: Path): string {
    match kind
    case Stylesheet => CssTag(path)
    case Script => JsTag(path)
  }

  /** Reads the path back out of a tag; None when `tag` is not one. */
  function PathOf(kind: TagKind, tag: string): Path {
    var open, close := Open(kind), Close(kind);
    if |tag| > |open| + |close| && tag[..|open|] == open && tag[|tag| - |close|..] == close
    then Some(tag[|open|..|tag| - |close|])
    else None
  }

  /** The opening and closing text around the path in a tag of the given kind. */
  function Open(kind: TagKind): string {
    if kind == Stylesheet then StylesheetOpen else ScriptOpen
  }

  function Close(kind: TagKind): string {
    if kind == Stylesheet then StylesheetClose else ScriptClose
  }

  /** A present path's tag is exactly the opening text, the path, and the closing text. */
  lemma TagForm(kind: TagKind, path: Path)
    requires Present(path)
    ensures var tag, open, close := TagOf(kind, path), Open(kind), Close(kind);
      && |tag| == |open| + |path.value| + |close|
      && tag[..|open|] == open
      && tag[|open|..|tag| - |close|] == path.value
      && tag[|tag| - |close|..] == close
  {
    var tag, open, close := TagOf(kind, path), Open(kind), Close(kind);
    assert tag == open + path.value + close;
  }

  /** A tag carries its path: reading it back gives the path it was made from. */
  lemma TagRoundTrip(kind: TagKind, path: Path)
    requires Present(path)
    ensures PathOf(kind, TagOf(kind, path)) == path
  {
    TagForm(kind, path);
  }

  /** `''.join(parts)`. */
  function Concat(parts: seq<string>): string {
    if parts == [] then "" else parts[0] + Concat(parts[1..])
  }

  lemma {:induction false} ConcatAppend(a: seq<string>, b: seq<string>)
    ensures Concat(a + b) == Concat(a) + Concat(b)
  {
    if a == [] {
      assert a + b == b;
    } else {
      var ab := a + b;
      assert ab[0] == a[0] && ab[1..] == a[1..] + b;
      ConcatAppend(a[1..], b);
      calc {
        Concat(ab);
        ab[0] + Concat(ab[1..]);
        a[0] + (Concat(a[1..]) + Concat(b));
        (a[0] + Concat(a[1..])) + Concat(b);
      }
    }
  }

  /** The tag of each path, in order. */
  function Tags(kind: TagKind, paths: seq<Path>): (tags: seq<string>)
    ensures |tags| == |paths|
    ensures forall i :: 0 <= i < |paths| ==> tags[i] == TagOf(kind, paths[i])
  {
    seq(|paths|, i requires 0 <= i < |paths| => TagOf(kind, paths[i]))
  }

  /** `''.join([tag(e) for e in paths])`. */
  function Joined(kind: TagKind, paths: seq<Path>): string {
    Concat(Tags(kind, paths))
  }

  /** Joining distributes over concatenation: groups keep their order, with no separator. */
  lemma JoinedAppend(kind: TagKind, a: seq<Path>, b: seq<Path>)
    ensures Joined(kind, a + b) == Joined(kind, a) + Joined(kind, b)
  {
    assert Tags(kind, a + b) == Tags(kind, a) + Tags(kind, b);
    ConcatAppend(Tags(kind, a), Tags(kind, b));
  }

  /** The present paths, in order. */
  function PresentOnly(paths: seq<Path>): (r: seq<Path>)
    ensures forall i :: 0 <= i < |r| ==> Present(r[i])
  {
    if paths == [] then []
    else if Present(paths[0]) then [paths[0]] + PresentOnly(paths[1..])
    else PresentOnly(paths[1..])
  }

  /** Missing or empty paths contribute nothing to a group. */
  lemma {:induction false} JoinedSkipsMissing(kind: TagKind, paths: seq<Path>)
    ensures Joined(kind, paths) == Joined(kind, PresentOnly(paths))
  {
    if paths != [] {
      var first, others := [paths[0]], paths[1..];
      assert paths == first + others;
      JoinedAppend(kind, first, others);
      JoinedSingle(kind, paths[0]);
      JoinedSkipsMissing(kind, others);
      if Present(paths[0]) {
        assert PresentOnly(paths) == first + PresentOnly(others);
        JoinedAppend(kind, first, PresentOnly(others));
      }
    }
  }

  /** A group of one path is that path's tag. */
  lemma JoinedSingle(kind: TagKind, path: Path)
    ensures Joined(kind, [path]) == TagOf(kind, path)
  {
    assert Tags(kind, [path]) == [TagOf(kind, path)];
    assert [TagOf(kind, path)][1..] == [];
    assert Concat([TagOf(kind, path)]) == TagOf(kind, path) + Concat([]);
  }

  /** An argument of `html` for an asset group: None, one path, or a list. */
  datatype AssetArg = NoAssets | One(path: string) | Many(paths: seq<Path>)

  predicate Falsy(a: AssetArg) {
    a == NoAssets || a == One("") || a == Many([])
  }

  /** `x = x or []`, then a non-list is wrapped in a one-element list. */
  function Normalise(a: AssetArg): (paths: seq<Path>)
    ensures Falsy(a) ==> paths == []
    ensures a.One? && !Falsy(a) ==> paths == [Some(a.path)]
    ensures a.Many? ==> paths == a.paths
  {
    match a
    case NoAssets => []
    case One(p) => if p == "" then [] else [Some(p)]
    case Many(ps) => ps
  }

  /** `js_data = js_data or {}`. */
  function NormaliseData(jsData: Option<Args>): (data: Args)
    ensures jsData.None? ==> data == map[]
    ensures jsData.Some? ==> data == jsData.value
  {
    if jsData.Some? then jsData.value else map[]
  }

  const PageStart := "<!doctype html>\n<html>\n  <head>\n"
                     + "    <meta name=\"viewport\" content=\"width=device-width, initial-scale=1, maximum-scale=1\">\n"
                     + "    <title>"
  const AfterTitle := "</title>\n    <script type=\"text/javascript\">window.__data__ = "
  const AfterData := ";</script>\n    "
  const Indent := "\n    "
  const AfterHead := "\n  </head>\n  <body>\n    <div id=\"container\">"
  const AfterBody := "</div>\n    "
  const PageEnd := "\n  </body>\n</html>\n    "

  /** The head of the page up to the stylesheets. */
  function PagePrefix(title: string, json: string): string {
    PageStart + title + AfterTitle + json + AfterData
  }

  /** External stylesheets, local stylesheets, then the caller's head markup. */
  function StylesheetGroup(externalCss: AssetArg, css: AssetArg, head: string): string {
    Joined(Stylesheet, Normalise(externalCss)) + Indent + Joined(Stylesheet, Normalise(css)) + Indent + head
  }

  /** External scripts, local scripts, then the closing tags. */
  function ScriptGroup(externalJs: AssetArg, js: AssetArg): string {
    Joined(Script, Normalise(externalJs)) + Indent + Joined(Script, Normalise(js)) + PageEnd
  }

  /** The page `html` renders; `dumps` is the JSON serialiser. */
  function Page(body: string, head: string, title: string, css: AssetArg, js: AssetArg, jsData: Option<Args>,
                externalCss: AssetArg, externalJs: AssetArg, dumps: Args -> string): (page: string)
    ensures |page| == |PageStart| + |title| + |AfterTitle| + |dumps(NormaliseData(jsData))| + |AfterData|
                      + |Joined(Stylesheet, Normalise(externalCss))| + |Indent| + |Joined(Stylesheet, Normalise(css))|
                      + |Indent| + |head| + |AfterHead| + |body| + |AfterBody|
                      + |Joined(Script, Normalise(externalJs))| + |Indent| + |Joined(Script, Normalise(js))| + |PageEnd|
  {
    PagePrefix(title, dumps(NormaliseData(jsData))) + StylesheetGroup(externalCss, css, head)
    + (AfterHead + body + AfterBody) + ScriptGroup(externalJs, js)
  }

  /** `html(...)`: an HTML response carrying the page. */
  function Html(body: string, head: string, title: string, css: AssetArg, js: AssetArg, jsData: Option<Args>,
                externalCss: AssetArg, externalJs: AssetArg, dumps: Args -> string): (r: Response)
    ensures r.HtmlResponse?
    ensures |r.page| >= |PageStart| + |AfterTitle| + |AfterData| + 2 * |Indent| + |AfterHead| + |AfterBody| + |PageEnd|
  {
    HtmlResponse(Page(body, head, title, css, js, jsData, externalCss, externalJs, dumps))
  }

  /** Each of four concatenated pieces can be sliced back out at its offset. */
  lemma Pieces(p: string, g: string, c: string, t: string)
    ensures |p + g + c + t| == |p| + |g| + |c| + |t|
    ensures (p + g + c + t)[..|p|] == p
    ensures (p + g + c + t)[|p|..|p| + |g|] == g
    ensures (p + g + c + t)[|p| + |g|..|p| + |g| + |c|] == c
    ensures (p + g + c + t)[|p| + |g| + |c|..] == t
  {
    assert p + g + c + t == p + (g + (c + t));
    assert (g + (c + t))[..|g|] == g;
    assert (c + t)[..|c|] == c;
  }

  /** The page is its prefix, stylesheet group, container and script group, each at its own offset. */
  lemma PageSections(body: string, head: string, title: string, css: AssetArg, js: AssetArg, jsData: Option<Args>,
                     externalCss: AssetArg, externalJs: AssetArg, dumps: Args -> string)
    ensures var page := Page(body, head, title, css, js, jsData, externalCss, externalJs, dumps);
      var p, g := PagePrefix(title, dumps(NormaliseData(jsData))), StylesheetGroup(externalCss, css, head);
      var c, t := AfterHead + body + AfterBody, ScriptGroup(externalJs, js);
      && |page| == |p| + |g| + |c| + |t|
      && page[..|p|] == p
      && page[|p|..|p| + |g|] == g
      && page[|p| + |g|..|p| + |g| + |c|] == c
      && page[|p| + |g| + |c|..] == t
  {
    var p, g := PagePrefix(title, dumps(NormaliseData(jsData))), StylesheetGroup(externalCss, css, head);
    var c, t := AfterHead + body + AfterBody, ScriptGroup(externalJs, js);
    Pieces(p, g, c, t);
  }

  /**
   * The title sits inside the title element and the serialised data is
   * assigned to `window.__data__`, in that order, at the top of the page;
   * the body sits inside the container right after the head markup.
   */
  lemma TitleDataAndBody(body: string, head: string, title: string, css: AssetArg, js: AssetArg, jsData: Option<Args>,
                         externalCss: AssetArg, externalJs: AssetArg, dumps: Args -> string)
    ensures var page := Page(body, head, title, css, js, jsData, externalCss, externalJs, dumps);
      var top := PageStart + title + AfterTitle + dumps(NormaliseData(jsData)) + AfterData;
      var k := |top| + |StylesheetGroup(externalCss, css, head)|;
      var container := AfterHead + body + AfterBody;
      && k + |container| <= |page|
      && page[..|top|] == top
      && page[k..k + |container|] == container
  {
    PageSections(body, head, title, css, js, jsData, externalCss, externalJs, dumps);
  }

  /**
   * Right after the data script come the external stylesheets, then the
   * local ones, then the caller's head markup.
   */
  lemma StylesheetsInOrder(body: string, head: string, title: string, css: AssetArg, js: AssetArg, jsData: Option<Args>,
                           externalCss: AssetArg, externalJs: AssetArg, dumps: Args -> string)
    ensures var page := Page(body, head, title, css, js, jsData, externalCss, externalJs, dumps);
      var k := |PagePrefix(title, dumps(NormaliseData(jsData)))|;
      var group := Joined(Stylesheet, Normalise(externalCss)) + Indent + Joined(Stylesheet, Normalise(css)) + Indent + head;
      && k + |group| <= |page|
      && page[k..k + |group|] == group
  {
    PageSections(body, head, title, css, js, jsData, externalCss, externalJs, dumps);
  }

  /** The page ends with the external scripts, then the local ones, then the closing tags. */
  lemma ScriptsInOrder(body: string, head: string, title: string, css: AssetArg, js: AssetArg, jsData: Option<Args>,
                       externalCss: AssetArg, externalJs: AssetArg, dumps: Args -> string)
    ensures var page := Page(body, head, title, css, js, jsData, externalCss, externalJs, dumps);
      var tail := Joined(Script, Normalise(externalJs)) + Indent + Joined(Script, Normalise(js)) + PageEnd;
      && |tail| <= |page|
      && page[|page| - |tail|..] == tail
  {
    PageSections(body, head, title, css, js, jsData, externalCss, externalJs, dumps);
  }

  /** `data['ok'] = True` on a dictionary value. */
  function WithOk(data: Args): (r: Args)
    ensures "ok" in r && r["ok"] == Bool(true)
    ensures forall k :: k != "ok" ==> (k in r <==> k in data)
    ensures forall k :: k != "ok" && k in data ==> r[k] == data[k]
  {
    data["ok" := Bool(true)]
  }

  /** Marking a payload ok twice is the same as once. */
  lemma WithOkIdempotent(data: Args)
    ensures WithOk(WithOk(data)) == WithOk(data)
  {
  }

  /** A dictionary the caller owns; `ok` writes into it. */
  class JsonObject {
    var entries: Args

    constructor ()
      ensures entries == map[]
    {
      entries := map[];
    }
  }

  /** `ok(data)`: mark the caller's dictionary ok in place (a fresh one for None) and send it as JSON. */
  method Ok(data: JsonObject?) returns (response: Response, sent: JsonObject)
    modifies data
    ensures data != null ==> sent == data && sent.entries == WithOk(old(data.entries))
    ensures data == null ==> fresh(sent) && sent.entries == map["ok" := Bool(true)]
    ensures response == JsonResponse(sent.entries)
  {
    if data == null {
      sent := new JsonObject();
    } else {
      sent := data;
    }
    sent.entries := sent.entries["ok" := Bool(true)];
    response := JsonResponse(sent.entries);
  }

  /** `bad_request()`: an empty text body with status 400. */
  function BadRequest(): (r: Response)
    ensures r.TextResponse? && r.body == "" && r.status == 400
  {
    TextResponse("", 400)
  }

  /** `forbidden()`: an empty text body with status 403. */
  function Forbidden(): (r: Response)
    ensures r.TextResponse? && r.body == "" && r.status == 403
  {
    TextResponse("", 403)
  }

  /** `unauthorized()`: an empty text body with status 401. */
  function Unauthorized(): (r: Response)
    ensures r.TextResponse? && r.body == "" && r.status == 401
  {
    TextResponse("", 401)
  }
}
