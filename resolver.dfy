/**
 * The `onResolve` handler: parse the page URL, ask the GoFile API for the
 * content listing, turn the answer into download entries and store them in
 * `ctx.res`. The network is an object whose replies are given by a
 * function and which records every request it is sent.
 */
module Resolver {
  import opened Wrappers
  import opened ShareLink
  import opened Listing

  const ApiBase: string := "https://api.gofile.io/getContent?contentId="

  /** The headers of the API request. */
  const ApiHeaders: map<string, string> := map["User-Agent" := UserAgent, "Accept" := "application/json"]

  /** What the fetch primitive hands back: the HTTP status and the parsed body. */
  datatype Reply = Reply(status: int, body: ApiResponse)

  /** `r.ok`: the status is in the 2xx range. */
  predicate IsOk(status: int) {
    200 <= status <= 299
  }

  /**
   * The API request for a content id; `encode` stands for
   * `encodeURIComponent`, whose table is not part of this model.
   */
  function ApiRequest(contentId: string, encode: string -> string): Request {
    Request(ApiBase + encode(contentId), ApiHeaders)
  }

  /** The plugin's request/response context: `ctx.req.url` and `ctx.res`. */
  class Context {
    const pageUrl: string
    var res: Option<Resolution>

    constructor (pageUrl: string)
      ensures this.pageUrl == pageUrl && res == None
    {
      this.pageUrl := pageUrl;
      res := None;
    }
  }

  /** The `fetch` primitive: answers with `respond` and logs every request. */
  class Network {
    const respond: Request -> Reply
    var log: seq<Request>

    constructor (respond: Request -> Reply)
      ensures this.respond == respond && log == []
    {
      this.respond := respond;
      log := [];
    }

    method Fetch(req: Request) returns (reply: Reply)
      modifies this
      ensures log == old(log) + [req]
      ensures reply == respond(req)
    {
      log := log + [req];
      reply := respond(req);
    }
  }

  /**
   * The outcome the handler reaches for a content id once the API has
   * answered: an HTTP error, or the transformation of the body.
   */
  function AfterFetch(contentId: string, reply: Reply): (r: Result<Resolution, Error>)
    ensures !IsOk(reply.status) <==> r == Failure(HttpStatus(reply.status))
    ensures r != Failure(CannotParseContentId)
  {
    if !IsOk(reply.status) then Failure(HttpStatus(reply.status))
    else Transform(contentId, reply.body)
  }

  /**
   * The handler. A page URL without a content id throws before any request
   * is sent; otherwise exactly one API request is sent, and `ctx.res` is
   * set only when the handler completes, to the resolution it returns.
   */
  method OnResolve(ctx: Context, net: Network, encode: string -> string) returns (r: Result<Resolution, Error>)
    modifies ctx, net
    ensures ExtractContentId(ctx.pageUrl).None? ==>
      r == Failure(CannotParseContentId) && net.log == old(net.log)
    ensures ExtractContentId(ctx.pageUrl).Some? ==>
      var req := ApiRequest(ExtractContentId(ctx.pageUrl).value, encode);
      net.log == old(net.log) + [req] && r == AfterFetch(ExtractContentId(ctx.pageUrl).value, net.respond(req))
    ensures r.Success? ==> ctx.res == Some(r.value)
    ensures r.Failure? ==> ctx.res == old(ctx.res)
  {
    var contentId := ExtractContentId(ctx.pageUrl);
    if contentId.None? {
      return Failure(CannotParseContentId);
    }
    var id := contentId.value;

    var reply := net.Fetch(ApiRequest(id, encode));
    if !IsOk(reply.status) {
      return Failure(HttpStatus(reply.status));
    }

    var data := reply.body;
    if data.status != Some("ok") || data.data.None? {
      return Failure(UnexpectedResponse);
    }
    var contents := ChooseContents(data.data.value);
    if contents.None? {
      return Failure(NoContents);
    }

    var files := SelectFiles(Elements(contents.value));
    if |files| == 0 {
      return Failure(NoDownloadableFiles);
    }

    var outFiles := Entries(files);
    if |outFiles| == 0 {
      return Failure(NoDirectLinks);
    }

    var taskName := TaskName(id, outFiles);
    ctx.res := Some(Resolution(taskName, outFiles));
    r := Success(Resolution(taskName, outFiles));
  }
}
