/**
 * The GoFile `getContent` response and what the extension makes of it once
 * the JSON is parsed: shape validation, the choice of the contents field,
 * the file filter, the one-level folder fallback, the download entries and
 * the download-task name.
 *
 * JSON values are abstracted: every string field is an `Option<string>`
 * (None when absent or not a string), every collection is a `Container`
 * (an array, or an object whose values are taken in enumeration order).
 */
module Listing {
  import opened Wrappers
  import opened JsValues

  /** One entry of a contents or children collection. */
  datatype Item = Item(
    kind: Option<string>,         // the `type` field
    name: Option<string>,
    filename: Option<string>,
    link: Option<string>,
    directLink: Option<string>,
    url: Option<string>,
    children: Option<Container>)  // None when absent or falsy

  /** A JSON array, or a JSON object given by its entries in enumeration order. */
  datatype Container = Array(elems: seq<Item>) | Object(entries: seq<(string, Item)>)

  /** The `data` object of the response: its three candidate collections. */
  datatype Payload = Payload(
    contents: Option<Container>,
    children: Option<Container>,
    files: Option<Container>)

  /**
   * The parsed response body. A body that is `null` or not an object has
   * neither field; a falsy `data` is None.
   */
  datatype ApiResponse = ApiResponse(status: Option<string>, data: Option<Payload>)

  /** An HTTP request: a URL and its header map. */
  datatype Request = Request(url: string, headers: map<string, string>)

  /** One download descriptor handed to the download engine. */
  datatype Entry = Entry(name: string, req: Request)

  /** The value the handler stores in `ctx.res`. */
  datatype Resolution = Resolution(name: string, files: seq<Entry>)

  /** One variant per `throw` of the handler. */
  datatype Error =
    | CannotParseContentId  // the page URL has no content id
    | HttpStatus(code: int) // the API answered with a non-2xx status
    | UnexpectedResponse    // status is not "ok", or `data` is missing
    | NoContents            // none of contents, children, files
    | NoDownloadableFiles   // nothing survived the file filters
    | NoDirectLinks         // no selected file carries a link

  const UserAgent: string := "Mozilla/5.0"
  const DefaultName: string := "downloaded_file"
  const TaskPrefix: string := "gofile_"

  /** The headers of every download entry. */
  const DownloadHeaders: map<string, string> := map["User-Agent" := UserAgent]

  // ---------------------------------------------------------------------
  // Generic helpers: `||` chains and `Array.prototype.filter`

  /**
   * `a || b || ...` over optional strings: the first truthy candidate, or
   * None when none is truthy.
   */
  function FirstTruthy(cs: seq<Option<string>>): (r: Option<string>)
    ensures r.None? <==> forall i :: 0 <= i < |cs| ==> !Truthy(cs[i])
    ensures r.Some? ==> Truthy(r)
    ensures r.Some? ==> exists i :: 0 <= i < |cs| && cs[i] == r && forall j :: 0 <= j < i ==> !Truthy(cs[j])
  {
    if cs == [] then None
    else if Truthy(cs[0]) then cs[0]
    else
      var r := FirstTruthy(cs[1..]);
      assert forall i :: 1 <= i < |cs| ==> cs[i] == cs[1..][i - 1];
      r
  }

  /** `s.filter(p)`: the elements satisfying p, in their original order. */
  function Filter<T(==)>(p: T -> bool, s: seq<T>): (r: seq<T>)
    ensures |r| <= |s|
    ensures forall x :: x in r ==> x in s && p(x)
    ensures forall x :: x in s && p(x) ==> x in r
  {
    if s == [] then []
    else (if p(s[0]) then [s[0]] else []) + Filter(p, s[1..])
  }

  /** Filtering distributes over concatenation, so it keeps the input order. */
  lemma {:induction false} FilterConcat<T>(p: T -> bool, a: seq<T>, b: seq<T>)
    ensures Filter(p, a + b) == Filter(p, a) + Filter(p, b)
  {
    if a == [] {
      assert a + b == b;
    } else {
      assert (a + b)[0] == a[0];
      assert (a + b)[1..] == a[1..] + b;
      FilterConcat(p, a[1..], b);
    }
  }

  /** Nothing passes the filter when no element satisfies p. */
  lemma {:induction false} FilterNone<T>(p: T -> bool, s: seq<T>)
    requires forall x :: x in s ==> !p(x)
    ensures Filter(p, s) == []
  {
    if s != [] {
      assert s[0] in s;
      FilterNone(p, s[1..]);
    }
  }

  // ---------------------------------------------------------------------
  // Items

  /** `Array.isArray(c) ? c : Object.values(c)`. */
  function Elements(c: Container): seq<Item> {
    match c
    case Array(elems) => elems
    case Object(entries) => seq(|entries|, k requires 0 <= k < |entries| => entries[k].1)
  }

  /** `String(it.type || "")`. */
  function KindText(it: Item): string {
    if Truthy(it.kind) then it.kind.value else ""
  }

  /** `it.link || it.directLink || it.url` is truthy. */
  predicate HasLink(it: Item) {
    Truthy(it.link) || Truthy(it.directLink) || Truthy(it.url)
  }

  /** The top-level filter: a typed item by its type alone, an untyped one by its links. */
  predicate IsTopLevelFile(it: Item) {
    if Truthy(it.kind) then Lower(KindText(it)) == "file" else HasLink(it)
  }

  /** Candidates for the fallback: items typed folder (any case) that have children. */
  predicate IsFolderWithChildren(it: Item) {
    Lower(KindText(it)) == "folder" && it.children.Some?
  }

  /** The fallback's filter: typed file, or any link at all, whatever the type. */
  predicate IsNestedFile(it: Item) {
    Lower(KindText(it)) == "file" || HasLink(it)
  }

  /** The children of a folder as a sequence (empty when it has none). */
  function ChildItems(f: Item): seq<Item> {
    match f.children
    case None => []
    case Some(c) => Elements(c)
  }

  /** The children of the given folders, in folder order and then child order. */
  function Flatten(folders: seq<Item>): (r: seq<Item>)
    ensures forall x :: x in r ==> exists f :: f in folders && x in ChildItems(f)
  {
    if folders == [] then []
    else Flatten(folders[..|folders| - 1]) + ChildItems(folders[|folders| - 1])
  }

  /** Flattening distributes over concatenation of the folder list. */
  lemma {:induction false} FlattenConcat(a: seq<Item>, b: seq<Item>)
    ensures Flatten(a + b) == Flatten(a) + Flatten(b)
    decreases |b|
  {
    if b == [] {
      assert a + b == a;
    } else {
      var b' := b[..|b| - 1];
      assert (a + b)[..|a + b| - 1] == a + b';
      assert (a + b)[|a + b| - 1] == b[|b| - 1];
      FlattenConcat(a, b');
    }
  }

  /** Every child of every listed folder appears in the flattened sequence. */
  lemma {:induction false} FlattenComplete(folders: seq<Item>, f: Item, x: Item)
    requires f in folders && x in ChildItems(f)
    ensures x in Flatten(folders)
    decreases |folders|
  {
    var last := folders[|folders| - 1];
    var init := folders[..|folders| - 1];
    if f != last {
      assert folders == init + [last];
      assert f in init;
      FlattenComplete(init, f, x);
    }
  }

  /**
   * The files the handler keeps (index.js, lines 54-76): the top-level selection, or,
   * when that is empty, the nested files of the top-level folders.
   */
  function SelectedFiles(items: seq<Item>): seq<Item> {
    var top := Filter(IsTopLevelFile, items);
    if top != [] then top
    else Filter(IsNestedFile, Flatten(Filter(IsFolderWithChildren, items)))
  }

  /**
   * The selection step as the handler runs it: filter, then, only if
   * nothing was kept, gather the folders' children with a loop and append
   * the nested files to the (empty) selection.
   */
  method SelectFiles(items: seq<Item>) returns (files: seq<Item>)
    ensures files == SelectedFiles(items)
  {
    files := Filter(IsTopLevelFile, items);
    if |files| == 0 {
      var maybeFolders := Filter(IsFolderWithChildren, items);
      if |maybeFolders| > 0 {
        var nested: seq<Item> := [];
        for i := 0 to |maybeFolders|
          invariant nested == Flatten(maybeFolders[..i])
        {
          assert maybeFolders[..i + 1][..i] == maybeFolders[..i];
          nested := nested + ChildItems(maybeFolders[i]);
        }
        assert maybeFolders[..|maybeFolders|] == maybeFolders;
        var nestedFiles := Filter(IsNestedFile, nested);
        if |nestedFiles| > 0 {
          files := files + nestedFiles;
        }
      }
    }
  }

  /**
   * When anything passes the top-level filter, the selection is exactly the
   * items that pass it: a typed item is kept iff its type is "file" in any
   * case (so a folder with a link is dropped), an untyped one iff it has a
   * link.
   */
  lemma TopLevelSelection(items: seq<Item>, it: Item)
    requires exists x :: x in items && IsTopLevelFile(x)
    ensures it in SelectedFiles(items) <==>
      it in items && (if Truthy(it.kind) then Lower(it.kind.value) == "file" else HasLink(it))
  {
  }

  /**
   * When nothing passes the top-level filter, every selected file is a
   * child, one level down, of a top-level item typed folder that has
   * children, and is typed file or carries a link; and every such child is
   * selected.
   */
  lemma NestedSelection(items: seq<Item>, x: Item)
    requires forall it :: it in items ==> !IsTopLevelFile(it)
    ensures x in SelectedFiles(items) <==>
      IsNestedFile(x) && exists f :: f in items && IsFolderWithChildren(f) && x in ChildItems(f)
  {
    FilterNone(IsTopLevelFile, items);
    var folders := Filter(IsFolderWithChildren, items);
    if IsNestedFile(x) && exists f :: f in items && IsFolderWithChildren(f) && x in ChildItems(f) {
      var f :| f in items && IsFolderWithChildren(f) && x in ChildItems(f);
      FlattenComplete(folders, f, x);
    }
  }

  /**
   * The fallback keeps folder order, then child order: for a folder list
   * split in two, the nested files of the first part come first.
   */
  lemma NestedOrder(a: seq<Item>, b: seq<Item>)
    ensures Filter(IsNestedFile, Flatten(a + b)) ==
      Filter(IsNestedFile, Flatten(a)) + Filter(IsNestedFile, Flatten(b))
  {
    FlattenConcat(a, b);
    FilterConcat(IsNestedFile, Flatten(a), Flatten(b));
  }

  // ---------------------------------------------------------------------
  // Entries and the download-task name

  /**
   * `pickBestName(item)`: `item.name || item.filename || "downloaded_file"`.
   */
  function PickBestName(it: Item): (r: string)
    ensures r != ""
    ensures Truthy(it.name) ==> r == it.name.value
    ensures !Truthy(it.name) && Truthy(it.filename) ==> r == it.filename.value
    ensures !Truthy(it.name) && !Truthy(it.filename) ==> r == DefaultName
  {
    var chain := [it.name, it.filename];
    assert chain[1..] == [it.filename] && chain[1..][1..] == [];
    assert FirstTruthy([it.filename]) == if Truthy(it.filename) then it.filename else None;
    FirstTruthy(chain).GetOr(DefaultName)
  }

  /** `it.directLink || it.link || it.url`. */
  function DirectLink(it: Item): (r: Option<string>)
    ensures r.Some? <==> HasLink(it)
    ensures Truthy(it.directLink) ==> r == it.directLink
    ensures !Truthy(it.directLink) && Truthy(it.link) ==> r == it.link
    ensures !Truthy(it.directLink) && !Truthy(it.link) ==> r == (if Truthy(it.url) then it.url else None)
  {
    var chain := [it.directLink, it.link, it.url];
    assert chain[1..] == [it.link, it.url] && chain[1..][1..] == [it.url] && chain[1..][1..][1..] == [];
    assert FirstTruthy([it.url]) == if Truthy(it.url) then it.url else None;
    assert FirstTruthy([it.link, it.url]) == if Truthy(it.link) then it.link else FirstTruthy([it.url]);
    FirstTruthy(chain)
  }

  /** The entry the `map` callback builds, or None where it returns null. */
  function EntryFor(it: Item): (r: Option<Entry>)
    ensures r.Some? <==> HasLink(it)
    ensures r.Some? ==> r.value.name == PickBestName(it) && r.value.req.headers == DownloadHeaders
    ensures r.Some? ==> Some(r.value.req.url) == DirectLink(it) && r.value.req.url != ""
  {
    match DirectLink(it)
    case None => None
    case Some(u) => Some(Entry(PickBestName(it), Request(u, DownloadHeaders)))
  }

  /** `files.map(...).filter(Boolean)`: the entries of the files that have a link. */
  function Entries(files: seq<Item>): (es: seq<Entry>)
    ensures |es| <= |files|
    ensures es == [] <==> forall k :: 0 <= k < |files| ==> !HasLink(files[k])
    ensures forall e :: e in es ==> exists it :: it in files && EntryFor(it) == Some(e)
    ensures forall e :: e in es ==> e.name != "" && e.req.url != "" && e.req.headers == DownloadHeaders
  {
    if files == [] then []
    else
      var rest := Entries(files[1..]);
      assert forall k :: 1 <= k < |files| ==> files[k] == files[1..][k - 1];
      match EntryFor(files[0])
      case None => rest
      case Some(e) => [e] + rest
  }

  /** Entries keep the order of the files they come from. */
  lemma {:induction false} EntriesConcat(a: seq<Item>, b: seq<Item>)
    ensures Entries(a + b) == Entries(a) + Entries(b)
  {
    if a == [] {
      assert a + b == b;
    } else {
      assert (a + b)[0] == a[0];
      assert (a + b)[1..] == a[1..] + b;
      EntriesConcat(a[1..], b);
    }
  }

  /** Every selected file that has a link yields its entry. */
  lemma {:induction false} EntriesComplete(files: seq<Item>, it: Item)
    requires it in files && HasLink(it)
    ensures EntryFor(it).Some? && EntryFor(it).value in Entries(files)
  {
    if files[0] != it {
      assert it in files[1..];
      EntriesComplete(files[1..], it);
    }
  }

  /** The download-task name: the single entry's name, else `gofile_<contentId>`. */
  function TaskName(contentId: string, es: seq<Entry>): string {
    if |es| == 1 then es[0].name else TaskPrefix + contentId
  }

  /** `data.data.contents || data.data.children || data.data.files || null`. */
  function ChooseContents(p: Payload): (r: Option<Container>)
    ensures r.None? <==> p.contents.None? && p.children.None? && p.files.None?
    ensures p.contents.Some? ==> r == p.contents
    ensures p.contents.None? && p.children.Some? ==> r == p.children
    ensures p.contents.None? && p.children.None? ==> r == p.files
  {
    if p.contents.Some? then p.contents
    else if p.children.Some? then p.children
    else p.files
  }

  /**
   * The handler after the JSON is parsed (index.js, lines 41-111): the resolution it
   * stores in `ctx.res`, or the error it throws.
   */
  function Transform(contentId: string, body: ApiResponse): (r: Result<Resolution, Error>)
    ensures r.Failure? ==> r.error in {UnexpectedResponse, NoContents, NoDownloadableFiles, NoDirectLinks}
    ensures r == Failure(UnexpectedResponse) <==> body.status != Some("ok") || body.data.None?
    ensures r.Success? ==> body.data.Some? && ChooseContents(body.data.value).Some?
    ensures r.Success? ==>
      r.value.files == Entries(SelectedFiles(Elements(ChooseContents(body.data.value).value)))
    ensures r.Success? ==>
      1 <= |r.value.files| <= |SelectedFiles(Elements(ChooseContents(body.data.value).value))|
    ensures r.Success? ==> forall e :: e in r.value.files ==>
      e.name != "" && e.req.url != "" && e.req.headers == DownloadHeaders
    ensures r.Success? ==>
      r.value.name == if |r.value.files| == 1 then r.value.files[0].name else TaskPrefix + contentId
    ensures r.Success? ==> r.value.name != ""
  {
    if body.status != Some("ok") || body.data.None? then Failure(UnexpectedResponse)
    else match ChooseContents(body.data.value)
      case None => Failure(NoContents)
      case Some(c) =>
        var files := SelectedFiles(Elements(c));
        if files == [] then Failure(NoDownloadableFiles)
        else
          var es := Entries(files);
          if es == [] then Failure(NoDirectLinks)
          else Success(Resolution(TaskName(contentId, es), es))
  }

  /**
   * Past the shape check, the errors come in the order of the checks: no
   * contents field, nothing selected, no selected file with a link.
   */
  lemma TransformErrors(contentId: string, body: ApiResponse)
    requires body.status == Some("ok") && body.data.Some?
    ensures Transform(contentId, body) == Failure(NoContents) <==> ChooseContents(body.data.value).None?
    ensures ChooseContents(body.data.value).Some? ==>
      var files := SelectedFiles(Elements(ChooseContents(body.data.value).value));
      && (Transform(contentId, body) == Failure(NoDownloadableFiles) <==> files == [])
      && (Transform(contentId, body) == Failure(NoDirectLinks) <==>
            files != [] && forall k :: 0 <= k < |files| ==> !HasLink(files[k]))
  {
  }
}
