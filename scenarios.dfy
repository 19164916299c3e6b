/**
 * Worked responses: what the handler makes of a typical GoFile listing, of a
 * listing that holds only a folder, and of a page URL without a content id.
 */
module Scenarios {
  import opened Wrappers
  import opened JsValues
  import opened ShareLink
  import opened Listing
  import opened Resolver

  /**
   * An object listing with two files and a folder: the folder is dropped,
   * both files become entries in listing order, and the download task is named after
   * the content id.
   */
  lemma TwoFilesAndAFolder(a: Item, b: Item, folder: Item, body: ApiResponse)
    requires a == Item(Some("file"), Some("a.zip"), None, Some("https://page/a"), Some("https://dl/a"), None, None)
    requires b == Item(Some("File"), None, Some("b.iso"), Some("https://page/b"), None, None, None)
    requires folder == Item(Some("folder"), Some("sub"), None, Some("https://page/f"), None, None, None)
    requires body == ApiResponse(Some("ok"), Some(Payload(Some(Object([("1", a), ("2", folder), ("3", b)])), None, None)))
    ensures Transform("abc", body) == Success(Resolution("gofile_abc", [
      Entry("a.zip", Request("https://dl/a", DownloadHeaders)),
      Entry("b.iso", Request("https://page/b", DownloadHeaders))]))
  {
    var c := Object([("1", a), ("2", folder), ("3", b)]);
    var es := [
      Entry("a.zip", Request("https://dl/a", DownloadHeaders)),
      Entry("b.iso", Request("https://page/b", DownloadHeaders))];
    TwoFilesSelection(a, b, folder);
    TwoFilesEntries(a, b);
    TwoEntriesTaskName(es);
    TransformOfListing("abc", body, c, [a, b], es);
  }

  lemma TwoEntriesTaskName(es: seq<Entry>)
    requires |es| == 2
    ensures TaskName("abc", es) == "gofile_abc"
  {
    assert TaskPrefix + "abc" == "gofile_abc";
  }

  /** A well-formed response whose listing yields entries resolves to them. */
  lemma TransformOfListing(contentId: string, body: ApiResponse, c: Container, files: seq<Item>, es: seq<Entry>)
    ensures (&& body.status == Some("ok") && body.data.Some? && ChooseContents(body.data.value) == Some(c)
             && SelectedFiles(Elements(c)) == files && files != [] && Entries(files) == es && es != [])
      ==> Transform(contentId, body) == Success(Resolution(TaskName(contentId, es), es))
  {
  }

  lemma TwoFilesSelection(a: Item, b: Item, folder: Item)
    requires a == Item(Some("file"), Some("a.zip"), None, Some("https://page/a"), Some("https://dl/a"), None, None)
    requires b == Item(Some("File"), None, Some("b.iso"), Some("https://page/b"), None, None, None)
    requires folder == Item(Some("folder"), Some("sub"), None, Some("https://page/f"), None, None, None)
    ensures Elements(Object([("1", a), ("2", folder), ("3", b)])) == [a, folder, b]
    ensures SelectedFiles([a, folder, b]) == [a, b]
  {
    var items := [a, folder, b];
    assert IsTopLevelFile(a) && IsTopLevelFile(b) by {
      assert Lower("file") == "file" && Lower("File") == "file";
    }
    assert !IsTopLevelFile(folder) by {
      assert Lower("folder")[1] == 'o';
    }
    assert Filter(IsTopLevelFile, items) == [a, b] by {
      assert items[1..] == [folder, b] && items[1..][1..] == [b] && items[1..][1..][1..] == [];
    }
  }

  lemma TwoFilesEntries(a: Item, b: Item)
    requires a == Item(Some("file"), Some("a.zip"), None, Some("https://page/a"), Some("https://dl/a"), None, None)
    requires b == Item(Some("File"), None, Some("b.iso"), Some("https://page/b"), None, None, None)
    ensures Entries([a, b]) == [
      Entry("a.zip", Request("https://dl/a", DownloadHeaders)),
      Entry("b.iso", Request("https://page/b", DownloadHeaders))]
  {
    var files := [a, b];
    assert files[1..] == [b] && files[1..][1..] == [];
  }

  /**
   * A listing holding only a folder: the fallback looks one level down and
   * keeps a typed folder that carries a link (which the top-level filter
   * would drop) and a file without a link, which then yields no entry; the
   * single entry names the download task.
   */
  lemma OnlyAFolder(inner: Item, file: Item, folder: Item, body: ApiResponse)
    requires inner == Item(Some("folder"), Some("inner"), None, None, None, Some("https://dl/inner"), None)
    requires file == Item(Some("file"), Some("x.bin"), None, None, None, None, None)
    requires folder == Item(Some("Folder"), Some("top"), None, None, None, None, Some(Array([inner, file])))
    requires body == ApiResponse(Some("ok"), Some(Payload(None, Some(Array([folder])), Some(Array([])))))
    ensures Transform("xyz", body) == Success(Resolution("inner", [
      Entry("inner", Request("https://dl/inner", DownloadHeaders))]))
  {
    OnlyAFolderSelection(inner, file, folder);
    OnlyAFolderEntries(inner, file);
  }

  lemma OnlyAFolderSelection(inner: Item, file: Item, folder: Item)
    requires inner == Item(Some("folder"), Some("inner"), None, None, None, Some("https://dl/inner"), None)
    requires file == Item(Some("file"), Some("x.bin"), None, None, None, None, None)
    requires folder == Item(Some("Folder"), Some("top"), None, None, None, None, Some(Array([inner, file])))
    ensures SelectedFiles([folder]) == [inner, file]
  {
    var items := [folder];
    var kids := [inner, file];
    assert !IsTopLevelFile(folder) && IsFolderWithChildren(folder) by {
      assert Lower("Folder") == "folder" by {
        assert Lower("Folder")[0] == 'f';
      }
    }
    assert Filter(IsTopLevelFile, items) == [] && Filter(IsFolderWithChildren, items) == items by {
      assert items[1..] == [];
    }
    assert Flatten(items) == kids by {
      assert items[..0] == [];
    }
    assert Filter(IsNestedFile, kids) == kids by {
      assert IsNestedFile(file) by {
        assert Lower("file") == "file";
      }
      assert kids[1..] == [file] && kids[1..][1..] == [];
    }
  }

  lemma OnlyAFolderEntries(inner: Item, file: Item)
    requires inner == Item(Some("folder"), Some("inner"), None, None, None, Some("https://dl/inner"), None)
    requires file == Item(Some("file"), Some("x.bin"), None, None, None, None, None)
    ensures Entries([inner, file]) == [Entry("inner", Request("https://dl/inner", DownloadHeaders))]
  {
    var kids := [inner, file];
    assert kids[1..] == [file] && kids[1..][1..] == [];
    assert EntryFor(file) == None;
  }

  /**
   * A page URL that is not a GoFile share link: the handler throws before
   * it sends any request and leaves `ctx.res` alone.
   */
  method NoShareLinkSendsNothing(pageUrl: string, respond: Request -> Reply, encode: string -> string)
    requires pageUrl == "https://example.com/foo"
  {
    var ctx := new Context(pageUrl);
    var net := new Network(respond);
    NoIdWithoutMarker(pageUrl);
    var r := OnResolve(ctx, net, encode);
    assert r == Failure(CannotParseContentId);
    assert net.log == [] && ctx.res == None;
  }
}
