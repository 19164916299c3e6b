# GoFile resolver for Gopeed — a verified model

This project models the Gopeed extension that turns a GoFile share link
(`https://gofile.io/d/<contentId>`) into download descriptors. The extension
is one file, `index.js`. It has three deterministic parts, and each has a
model here:

- **`extractContentId`** (module `ShareLink`). The regular expression
  `gofile\.io\/d\/([^/?#]+)` with the `i` flag is modelled as a scan. The
  match is at the leftmost position where the marker `gofile.io/d/`, in any
  ASCII letter case, is followed by at least one id character. The id is the
  greedy run of characters up to the first `/`, `?` or `#`, or to the end of
  the URL. A marker directly followed by a delimiter is not a match, so the
  scan goes on to the right. With no match the result is `None` (JavaScript
  `null`).
- **`pickBestName`** and the **post-fetch transformation** of the
  `onResolve` handler (module `Listing`). The transformation takes the
  parsed `getContent` response and returns a `Result<Resolution, Error>`.
  The steps, in order: the shape check; the choice of `contents`, then
  `children`, then `files`; the top-level file filter; the one-level folder
  fallback; the `directLink`/`link`/`url` chain; dropping files without a
  link; and the download-task name. `Error` has one variant per `throw`.
- **The handler itself** (module `Resolver`). `OnResolve` is a method over a
  `Context` (`ctx.req.url` and `ctx.res`) and a `Network` object. The
  network stands for `fetch`: it answers with a given function and records
  every request. Module `Scenarios` works through two typical responses and
  a URL that is not a share link.

JavaScript truthiness is "present and non-empty" for string fields. JSON
arrays and objects are always truthy, even when empty, so a present
collection is `Some`. An object collection is kept as its entries in
enumeration order; `Object.values` gives its items in that order. A truthy
number or `true` in a collection field gives `Object.values` nothing, so it
behaves as an empty array and can be encoded as one. A non-empty string
there cannot be represented (see "## Left out").

## Model

| member | source | states |
|---|---|---|
| `ShareLink.ExtractContentId` | index.js:4-8 | The result is `None` exactly when the pattern matches nowhere in the URL; otherwise the id is non-empty and contains no `/`, `?` or `#`. |
| `ShareLink.FirstMatch` | index.js:6 | The position found is a match of marker plus at least one id character, and no position before it matches; `None` means no position from the start matches. |
| `ShareLink.IdRunLength` | index.js:6 | The capture group `[^/?#]+` is greedy: the run has no delimiter and ends at a delimiter or at the end of the URL. |
| `ShareLink.ExtractAtLeftmostMatch` | index.js:4-8 | At the leftmost match, the id is exactly the text after the marker up to the first `/`, `?`, `#` or the end. |
| `ShareLink.ShareLinkRoundTrip` | index.js:4-8 | A link made of a prefix with no `g`/`G`, the marker in any letter case, a non-empty delimiter-free id and a tail that is empty or starts with a delimiter parses back to exactly that id. |
| `ShareLink.ExampleShareLink` | index.js:5 | `https://gofile.io/d/9WQCql` yields `9WQCql`. |
| `ShareLink.ExampleUpperCaseShareLink` | index.js:6 | The `i` flag: `HTTPS://GoFile.IO/D/9WQCql?x=1` also yields `9WQCql`; the query string ends the id. |
| `ShareLink.NoIdWithoutMarker` | index.js:4-8 | A URL in which no character folds to `g` has no content id. |
| `ShareLink.NoMatchWithoutG` | index.js:6 | The pattern cannot match at a character that does not fold to `g`. |
| `JsValues.LowerAscii` | index.js:56 | `toLowerCase()` on one character: the result is the case variant of the character that is not an upper-case ASCII letter, so an upper-case letter becomes the lower-case letter 32 code points above it and every other character is unchanged. |
| `JsValues.Lower` | index.js:56 | `toLowerCase()` keeps the length, leaves no upper-case ASCII letter, and turns each character into its case variant, keeping every character that is not an upper-case letter. |
| `JsValues.LowerAsciiEqual` | index.js:56 | Two characters lower to the same character exactly when they are equal or the upper- and lower-case forms of one ASCII letter. |
| `JsValues.LowerIdempotent` | index.js:56 | Lowering a lowered string changes nothing. |
| `JsValues.LowerEqual` | index.js:56 | `a.toLowerCase() === b.toLowerCase()` holds exactly when the two strings have the same length and, position by position, are equal or the two cases of one ASCII letter; the `"file"`/`"folder"` tests and the `i` flag compare this way. |
| `Listing.FirstTruthy` | index.js:12 | The JavaScript or-chain over optional strings: `None` iff no candidate is truthy; otherwise the first truthy candidate, with every earlier one falsy. |
| `Listing.PickBestName` | index.js:10-13 | `name` if non-empty, else `filename` if non-empty, else `"downloaded_file"`; never empty. |
| `Listing.Filter` | index.js:54-59 | `Array.prototype.filter`: the result is no longer than the input, holds only input elements that pass, and holds every input element that passes. |
| `Listing.FilterConcat` | index.js:54-59 | Filtering distributes over concatenation, so input order is preserved. |
| `Listing.FilterNone` | index.js:54-59 | When no element passes, the filter is empty. |
| `Listing.Flatten` | index.js:66-70 | Every gathered item is a child of one of the folders. |
| `Listing.FlattenConcat` | index.js:66-70 | Gathering keeps folder order, then child order. |
| `Listing.FlattenComplete` | index.js:66-70 | Every child of every listed folder is gathered. |
| `Listing.SelectFiles` | index.js:54-76 | The filter, the loop over `maybeFolders` and the `push` compute exactly `SelectedFiles`: the top-level selection, or, when that is empty, the nested files of the top-level folders. |
| `Listing.TopLevelSelection` | index.js:54-59 | When some item passes the top-level filter, an item is selected iff it is in the listing and either has a truthy type that lowercases to `"file"` (so a folder with a link is dropped) or is untyped and has a link. |
| `Listing.NestedSelection` | index.js:61-76 | When nothing passes the top-level filter, an item is selected iff it is typed `"file"` or has any link, and it is a child, one level down, of a top-level item typed `"folder"` (any case) that has children. |
| `Listing.NestedOrder` | index.js:66-73 | Nested files come in folder order, then child order. |
| `Listing.DirectLink` | index.js:83-88 | The download URL is the first non-empty of `directLink`, `link`, `url`; it exists iff the item has any link. |
| `Listing.EntryFor` | index.js:82-98 | A file yields an entry iff it has a link; the entry has `pickBestName`, the direct link (non-empty) and the User-Agent header. |
| `Listing.Entries` | index.js:82-99 | Files without a link are dropped: the output is no longer than the files, is empty iff no file has a link, and each entry comes from a file and has a non-empty name, a non-empty URL and exactly `User-Agent: Mozilla/5.0`. |
| `Listing.EntriesComplete` | index.js:82-99 | Conversely, every file that has a link yields its entry in the output. |
| `Listing.EntriesConcat` | index.js:82-99 | Entries keep the order of the files. |
| `Listing.ChooseContents` | index.js:45-48 | `contents`, else `children`, else `files`; `None` exactly when all three are absent. |
| `Listing.Transform` | index.js:41-111 | Failures are only the four post-fetch errors. The shape error is raised iff `status` is not `"ok"` or `data` is missing. A success's entries are exactly `Entries` of `SelectedFiles` of the chosen contents, so the lemmas on those two describe them; a success has between one entry and as many entries as selected files, every entry well formed. Its task name is the single entry's name, or else `gofile_` followed by the content id, and is never empty. |
| `Listing.TransformErrors` | index.js:41-103 | After the shape check, errors follow the check order: no contents iff all three fields are absent, no downloadable files iff the selection is empty, no direct links iff no selected file has a link. |
| `Resolver.AfterFetch` | index.js:33-38 | A non-2xx status raises the HTTP error and nothing else does; the URL error cannot arise after the fetch. |
| `Resolver.Network.Fetch` | index.js:26-31 | A fetch appends its request to the log and returns the network's answer to it. |
| `Resolver.Context.constructor` | index.js:15-16 | A context holds the page URL and no result yet. |
| `Resolver.Network.constructor` | index.js:26 | A fresh network has sent no request. |
| `Resolver.OnResolve` | index.js:15-111 | With no content id the handler raises before sending any request. Otherwise it sends exactly one API request, and its outcome is the HTTP check followed by `Transform`. `ctx.res` is set only on success, to the resolution returned. |
| `Scenarios.TwoFilesAndAFolder` | index.js:45-111 | An object listing of a file, a folder with a link and a typed `"File"`: the folder is dropped, two entries in order (`directLink` preferred, `filename` used when `name` is missing), task `gofile_abc`. |
| `Scenarios.OnlyAFolder` | index.js:61-111 | A listing with only a folder: the fallback keeps a child folder that has a link and a child file without one; the latter yields no entry; the single entry names the download task. |

## Left out

- Network I/O (`fetch`, `r.text()`, `r.json()`, index.js:26-38). The network is a function from request to reply (HTTP status and parsed body). The HTTP error message, with its 200-character body excerpt, becomes the single variant `HttpStatus(code)`. A body that is not valid JSON (a rejected `r.json()`) is not modelled.
- `encodeURIComponent` (index.js:24): it is the parameter `encode` of `OnResolve`; its escaping table is not part of this model.
- Building the API request (index.js:24-31) is glue: `ApiRequest` is the `getContent` base URL followed by the encoded id, with the `User-Agent` and `Accept` headers, and no property is stated about it beyond its definition.
- Plugin plumbing: the `gopeed.events.onResolve` registration and the `async` wrapper. The assignment to `ctx.res` is the field update in `OnResolve`.
- Exact error texts: each `throw` is a distinct `Error` variant.
- Non-string values in string fields cannot be represented; an encoder maps them to absent. This differs from the source whenever such a value is truthy. A truthy non-string `type` (such as a number) is judged by its `String(...)` text rather than by the item's links. A truthy non-string `name`, `directLink`, `link` or `url` is used as the name or the download URL.
- String values where the source expects a collection or an item cannot be represented: a non-empty string as `contents`, `children`, `files` or a folder's `children`, and a string element of a collection. `Object.values` splits such a collection into one-character strings. On engines with the ECMAScript Annex B method `String.prototype.link` (V8, SpiderMonkey, JavaScriptCore), a string item has a truthy `link`. It is therefore selected by the untyped branch of index.js:58 or the nested filter of index.js:71. It then yields an entry named `downloaded_file` whose URL is that function. The model gives no such entries.
- A number or boolean element of a collection behaves as an item with every field absent, and is encoded as one.
- A `null` element makes the source raise a `TypeError` wherever a filter reads its `type`. For a top-level element that is the filter at index.js:56, which always runs. For a child of a folder it is the nested filter at index.js:71, which runs only when nothing passes the top-level filter and the folder is kept by index.js:64; otherwise such a child is never read and the handler can succeed. `Item` has no null, so neither path is modelled.
- A falsy collection field (`null`, `0`, `""`, `false`) is absent.
- `toLowerCase()` is modelled on ASCII letters only. For the share-link pattern this is the same as the `i` flag without the `u` flag: that flag never folds a non-ASCII character onto an ASCII one.
- Strings are sequences of Unicode scalar values, not UTF-16 code units.
- The order of `Object.values` (integer-like keys first) is taken as given: an object collection is its entries already in enumeration order.
- `files.push(...nestedFiles)` changes a local array in place. In `SelectFiles` it is a reassignment of a local sequence; nothing else refers to that array.
