# Arrpa share worker, modelled in Dafny

Arrpa's share worker is an edge HTTP handler. It answers a shared listing
link such as `/l/42` with a small HTML page that carries OpenGraph metadata
for link previews. The repository holds two versions of it:

- `share-worker/src/index.ts`, the version without escaping. It routes on
  the `/l/` prefix and takes the id from the third `/`-separated piece of
  the path. It makes one RPC call to the listing backend and turns a failed
  call into a 404. Each display field falls back with JavaScript's `||`. The
  page is a template literal that inserts the values unescaped.
- `share_worker/src/index.ts`, the version with `esc`. Its `esc` helper
  escapes the five HTML-reserved characters through a chain of `replaceAll`
  calls, `pickFirst` normalises an array result to its first element, and
  `buildHtml` places escaped values into the page head. The model covers
  lines 1-57 of this file, which end at the `og:image` tag.

The source is pure, one request in and one response out, so the model is
pure as well: datatypes, functions and lemmas, with no classes and no loops.

Modules:

- `Wrappers`: `Option` and `Result`.
- `JsStrings`: the JavaScript string operations the handlers use:
  `startsWith`, `split` on one character, and `replaceAll` with its
  leftmost, non-overlapping scan. It also has `Count` and `Contains`,
  which the proofs use.
- `JsValues`: values as parsed JSON gives them (`JsonLike`), nullish and
  falsy tests, `a || "literal"`, property reads that throw on
  `null`/`undefined`, and `String(v)` as a template literal applies it.
- `HtmlEscape`: `esc`, written as the source's chain of five `replaceAll`
  calls. It is proved equal to a per-character map, and that map is proved
  to be markup-free, injective and inverted by `Unescape`.
- `Templates`: a template literal as text pieces with numbered slots, and
  what filling it guarantees.
- `PreviewWorker`: `pickFirst` and the escaped head of `buildHtml`.
- `ListingWorker`: `fetch`, the `listingData` fallbacks and `htmlTemplate`.

The backend is a function parameter `RpcCall -> BackendReply`. A reply is
either an answer or a rejection of the `fetch` promise. `Fetch` returns the
call it made, if any, together with the response or the exception, so the
contracts can say when the backend is consulted and with what. A body that
fails to parse as JSON is `json == None`; `json()` then throws a
`SyntaxError`, and `Fetch` returns it as `Failure(SyntaxError)`.

What `share-worker/src/index.ts` does not do is as important as what it does:

- It does not validate the id: the payload carries `Number(id)`, so a
  non-numeric id is sent as `null`. The locale is always `"en"`; no locale
  parameter is read.
- There is no fallback chain across fields and no truncation: each field is
  `res.x || literal`.
- An array result is not unwrapped, and no caching headers are set.
- A backend error gives 404 with a fixed text.
- A `null` JSON body makes the property read throw.
- A rejected `fetch` is not caught.

## Model

| member | source | states |
|---|---|---|
| HtmlEscape.EscChainIsEscape | share_worker/src/index.ts:10-15 | the five `replaceAll` calls in their order produce exactly the per-character escape: `&` first, so no entity is escaped twice |
| HtmlEscape.EscChain | share_worker/src/index.ts:10-15 | `esc`'s five `replaceAll` calls in source order; EscChainIsEscape proves it equals the per-character escape |
| HtmlEscape.ChainIsEscape | share_worker/src/index.ts:11-15 | the chain of single-character replacements, applied to a whole string, is the per-character map |
| HtmlEscape.EscChar | share_worker/src/index.ts:11-15 | each reserved character is replaced by an entity that starts with `&` and contains no markup; any other character is kept as it is |
| HtmlEscape.Esc | share_worker/src/index.ts:8-16 | `null`/`undefined` give the empty string; any other value gives its `String` text, escaped |
| HtmlEscape.EscapeMarkupFree | share_worker/src/index.ts:11-15 | escaped text never contains `<`, `>`, `"` or `'` |
| HtmlEscape.EscapeCounts | share_worker/src/index.ts:12-15 | escaped text holds no occurrence of any markup character |
| HtmlEscape.EscapeAmpersands | share_worker/src/index.ts:11-15 | every `&` in escaped text begins one of the five entities |
| HtmlEscape.EscapeLength | share_worker/src/index.ts:11-15 | escaping adds 4 characters per `&`, 3 per `<` and `>`, 5 per `"`, 4 per `'` |
| HtmlEscape.EscapeIdentity | share_worker/src/index.ts:10-15 | escaping leaves a string unchanged exactly when it has none of the five characters |
| HtmlEscape.PlainUnchanged | share_worker/src/index.ts:10-15 | a string without reserved characters passes through unchanged |
| HtmlEscape.EscapeConcat | share_worker/src/index.ts:10-15 | escaping a concatenation is the concatenation of the escaped parts |
| HtmlEscape.UnescapeEscape | share_worker/src/index.ts:10-15 | decoding the five entities recovers the original text |
| HtmlEscape.EscapeInjective | share_worker/src/index.ts:10-15 | two different strings never escape to the same text |
| JsStrings.ReplaceAllOneChar | share_worker/src/index.ts:11-15 | `replaceAll` with a one-character pattern replaces each occurrence of that character and nothing else |
| JsStrings.ReplaceAll | share_worker/src/index.ts:11-15 | `replaceAll`: leftmost, non-overlapping replacement; ReplaceAllOneChar ties it to per-character replacement for the patterns the source passes |
| JsStrings.JoinSplit | share-worker/src/index.ts:76 | joining the pieces of `split("/")` with `/` gives back the path |
| JsStrings.SplitPieces | share-worker/src/index.ts:76 | `split` gives one more piece than there are separators, and no piece contains one |
| JsStrings.SplitFirst | share-worker/src/index.ts:76 | the first piece of `split` is the text before the first separator |
| JsStrings.TakeUntil | share-worker/src/index.ts:76 | the result is a separator-free prefix that ends at the end of the text or just before a separator |
| JsStrings.Split | share-worker/src/index.ts:76 | `split` on one character gives at least one piece; JoinSplit, SplitPieces and SplitFirst say what the pieces are |
| JsStrings.StartsWith | share-worker/src/index.ts:75 | `startsWith`: the prefix is the first characters of the text; Fetch's contract decides the route by it |
| JsValues.OrElse | share-worker/src/index.ts:96-101 | `undefined`, `null`, `false`, `0` and `""` give the literal; every other value, the empty array and record included, is kept; with a non-empty literal the result is always truthy |
| ListingWorker.RecordFieldOr | share-worker/src/index.ts:96-101 | reading `res.key` of a record never throws, and the fallback on it is the entry when that is present and truthy, else the literal |
| JsValues.ToJsString | share-worker/src/index.ts:6-67 | `String(v)` as `${}` applies it; StrText, TruthyNonEmptyText, NatToDecimalValue and EmptyArrayTruthyButEmpty state its properties |
| JsValues.NatToDecimalValue | share-worker/src/index.ts:8-61 | the decimal text a number is shown as reads back as that number |
| JsValues.TruthyNonEmptyText | share-worker/src/index.ts:96-101 | a truthy value other than an array prints as non-empty text |
| JsValues.EmptyArrayTruthyButEmpty | share-worker/src/index.ts:96-101 | `[]` is truthy, so the fallback keeps it, yet it prints as the empty string |
| PreviewWorker.PickFirst | share_worker/src/index.ts:18-21 | an array gives its first element, or null when it is empty or that element is nullish; any other value gives itself, or null when it is nullish |
| PreviewWorker.PickFirstIdempotent | share_worker/src/index.ts:18-21 | applying `pickFirst` to its own non-array result changes nothing |
| PreviewWorker.EscText | share_worker/src/index.ts:33-39 | each field const is the escape of the field |
| PreviewWorker.HeadValues | share_worker/src/index.ts:33-42 | the slots carry the escaped locale, canonical URL, title, description and image |
| PreviewWorker.HeadSeoShape | share_worker/src/index.ts:41-52 | where the locale, canonical URL, title and description slots sit, and the text around each |
| PreviewWorker.HeadOpenGraphShape | share_worker/src/index.ts:54-57 | where the OpenGraph title, description and image slots sit, and the text around each |
| PreviewWorker.HeadLang | share_worker/src/index.ts:42 | the page's `lang` attribute is the escaped locale |
| PreviewWorker.HeadCanonical | share_worker/src/index.ts:47 | the canonical link holds the escaped canonical URL |
| PreviewWorker.HeadTitle | share_worker/src/index.ts:51-55 | the escaped title is the `<title>` and the `og:title` content |
| PreviewWorker.HeadDescription | share_worker/src/index.ts:52-56 | the escaped description is the meta description and the `og:description` content |
| PreviewWorker.HeadImage | share_worker/src/index.ts:57 | the escaped image URL is the quoted `og:image` content |
| PreviewWorker.HeadValuesFree | share_worker/src/index.ts:33-39 | no slot value contains a markup character |
| PreviewWorker.BuildHtmlHead | share_worker/src/index.ts:23-57 | `buildHtml` through line 57; HeadLang to HeadImage say where each escaped value appears, HeadMarkupFixed that the values add no markup |
| PreviewWorker.HeadMarkupFixed | share_worker/src/index.ts:33-57 | whatever the data, the head holds the same number of each markup character, namely the template's own |
| ListingWorker.PrefixedSplit | share-worker/src/index.ts:75-76 | a path starting with `/l/` splits into at least three pieces, and the third is the text after the prefix up to the next `/` |
| ListingWorker.IdSegment | share-worker/src/index.ts:76 | the id has no `/`, starts the text after the prefix, and runs to the end of the path or to a `/` |
| ListingWorker.IdSegmentExamples | share-worker/src/index.ts:76 | `/l/42/x` and `/l/42` give `42`; `/l/` gives the empty id |
| ListingWorker.Resolve | share-worker/src/index.ts:95-102 | a nullish body throws `TypeError`; a record gives each field or its literal, with the image taken from `main_avatar`; any other value gives all the literals |
| ListingWorker.EntryOrStrings | share-worker/src/index.ts:96-101 | a present non-empty string is kept; a missing key, `undefined`, `null` or `""` gives the literal |
| ListingWorker.ResolvedTruthy | share-worker/src/index.ts:96-100 | after the fallbacks every field but the image is truthy, so it prints non-empty unless it is an array |
| ListingWorker.ResolvedStringsNonEmpty | share-worker/src/index.ts:96-101 | for a record of strings every field but the image is a non-empty string |
| ListingWorker.HtmlTemplate | share-worker/src/index.ts:6-67 | `htmlTemplate`; PageTitle to PagePrice say where each value appears, PageTitleUnescaped that it appears unescaped |
| ListingWorker.PageHeadShape | share-worker/src/index.ts:6-19 | where the locale and the OpenGraph and `<title>` slots sit, and the text around each |
| ListingWorker.PageBodyShape | share-worker/src/index.ts:58-61 | where the card's heading, paragraph, price line and image slots sit |
| ListingWorker.PageTitle | share-worker/src/index.ts:14-58 | the title text is the `og:title` content, the `<title>` and the `<h2>` heading |
| ListingWorker.PageDescription | share-worker/src/index.ts:15-59 | the description text is the `og:description` content and the card's paragraph |
| ListingWorker.PageImageAndLocale | share-worker/src/index.ts:8-61 | the image URL is the `og:image` content and the `img` source; the locale is the `lang` attribute |
| ListingWorker.PagePrice | share-worker/src/index.ts:60 | the price line is the price, one space, then the currency |
| ListingWorker.PageTitleUnescaped | share-worker/src/index.ts:58 | any piece of a string title, markup included, appears in the page as it is |
| ListingWorker.Respond | share-worker/src/index.ts:89-107 | a rejected call throws; a failed call gives 404 with the fixed text; a body that is not JSON throws `SyntaxError`; a nullish body throws `TypeError`; any other body gives 200 `text/html` holding the filled template |
| ListingWorker.DefaultTitleServed | share-worker/src/index.ts:97-105 | a record without a truthy `title` is served as a page whose heading is the default title |
| ListingWorker.Fetch | share-worker/src/index.ts:70-111 | the backend is called exactly when the path starts with `/l/`, with the configured URL and key, the id segment and locale `en`; other paths give 404 `Not Found`; the response is the one the reply determines |
| ListingWorker.ListingCall | share-worker/src/index.ts:79-87 | the RPC call: the backend URL plus the RPC path, POST, JSON content, the anon key as `apikey` and as a bearer token, the id and locale `en`; Fetch's contract says when it is made |
| ListingWorker.BackendRejectionThrows | share-worker/src/index.ts:79-87 | a `fetch` that rejects makes the handler throw, after the call was attempted |
| ListingWorker.BackendFailureIs404 | share-worker/src/index.ts:89-91 | for a share path, a failed backend call is answered with 404 whatever its status |

## Left out

- The Workers runtime: `Request`, `URL` parsing, `Response`, headers and `async`. A request is its path, and a response is its status, body and content type.
- Network I/O: the RPC is a function parameter that answers or rejects; the request body is kept as its two fields.
- `JSON.stringify` and `Number(id)`: the model keeps the id segment as text and does not apply `Number`, so it does not show that `"abc"` is sent as `null` and `""` as `0`. The JSON layer is not modelled.
- JSON parsing: a body that does not parse is `json == None`. Numbers are integers only, so fractional values, `NaN` and `-0` are not modelled.
- JsValues.ToJsString: numbers are unbounded integers printed with every digit. JavaScript numbers are doubles, so the model does not round integers above 2^53 (`String(2**60)` is `1152921504606847000`) and does not switch to the exponent form from 1e21 on (`String(1e21)` is `1e+21`). Also, a record, or an array element that is one, with its own `toString` key makes `String()` throw a `TypeError`; the model prints `[object Object]`.
- Strings: JavaScript strings are sequences of UTF-16 code units, while a Dafny `char` is a Unicode scalar value, so lone surrogates cannot be represented. No proved property depends on this.
- Environment variables: they are the fields of `Env`. The optional `DEFAULT_OG_IMAGE` and `APP_DOWNLOAD_URL` are not used in lines 1-57 of share_worker/src/index.ts.
- `replaceAll` with `$` replacement patterns: none of the source's replacement strings contains `$`.
- `buildHtml` after line 57: the rest of share_worker/src/index.ts is not part of this model. That leaves out the uses of `priceText`, `locationText` and `appUrl`, and whatever handler calls `buildHtml`. `HeadValues` escapes only the fields that lines 41-57 use.
- Property reads follow a record's own entries only; keys inherited from `Object.prototype` (such as `constructor`) are not modelled.
- ListingWorker.Respond: a body where a field the page shows (locale, title, description, image, price or currency) is a record with its own `toString` key, which parsed JSON can carry, throws a `TypeError` in JavaScript; the model gives 200 with `[object Object]` in that slot.
- The style sheet of `htmlTemplate` (lines 21-53 of share-worker/src/index.ts) is kept as fixed text and not analysed.
