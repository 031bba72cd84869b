/**
 * The share worker without escaping (share-worker/src/index.ts): the `/l/<id>` route,
 * the one RPC call, the `listingData` fallbacks and the `htmlTemplate`
 * page, which interpolates the values without escaping them.
 */
module ListingWorker {
  import opened Wrappers
  import opened JsStrings
  import opened JsValues
  import opened Templates

  // ---------------------------------------------------------------------
  // Requests, the backend and responses

  /** The configuration the worker reads from its environment. */
  datatype Env = Env(supabaseUrl: string, supabaseAnonKey: string)

  /** The one outbound call: its URL, method, headers and JSON payload fields. */
  datatype RpcCall = RpcCall(
    url: string,
    httpMethod: string,
    contentType: string,
    apiKey: string,
    authorization: string,
    id: string,
    locale: string)

  /**
   * What the outbound `fetch` gives: an answer with its `ok` flag, its status
   * and its body parsed as JSON (`None` when it is not JSON), or a rejection
   * when no answer arrives.
   */
  datatype BackendReply =
    | Answered(ok: bool, status: int, json: Option<JsonLike>)
    | Rejected

  datatype Response = Response(status: int, body: string, contentType: string)

  /** What one request does: the backend call it makes, if any, and the response or the exception it ends with. */
  datatype Exchange = Exchange(call: Option<RpcCall>, result: Result<Response, JsError>)

  const SharePrefix := "/l/"
  const RpcPath := "/rest/v1/rpc/rpcpubliclistingdetail"
  const PayloadLocale := "en"
  const NotFoundBody := "Not Found"
  const BackendErrorBody := "\U{130}lan bulunamad\U{131} veya hata olu\U{15F}tu"
  /** The type a response with a string body gets by default. */
  const PlainText := "text/plain;charset=UTF-8"
  const HtmlType := "text/html"

  // ---------------------------------------------------------------------
  // Routing

  /** For a path with the share prefix, `split("/")` has a third piece: the text after `/l/` up to the next `/`. */
  lemma {:induction false} PrefixedSplit(path: string)
    requires StartsWith(path, SharePrefix)
    ensures |Split(path, '/')| >= 3
    ensures Split(path, '/')[2] == TakeUntil(path[|SharePrefix|..], '/')
  {
    var rest := path[3..];
    assert path[1..][1..][1..] == rest;
    assert path[0] == '/' && path[1..][0] == 'l' && path[1..][1..][0] == '/';
    var tail := Split(rest, '/');
    var r2 := Split(path[1..][1..], '/');
    assert r2 == [[]] + tail;
    assert r2[0] == [] && r2[1..] == tail;
    assert Split(path[1..], '/') == [['l'] + r2[0]] + r2[1..];
    assert ['l'] + r2[0] == ['l'];
    var r1 := Split(path[1..], '/');
    assert r1 == [['l']] + tail;
    assert Split(path, '/') == [[]] + r1;
    assert Split(path, '/')[2] == tail[0];
    SplitFirst(rest, '/');
  }

  /** `path.split("/")[2]`, the listing id as text. */
  function IdSegment(path: string): (id: string)
    requires StartsWith(path, SharePrefix)
    ensures '/' !in id
    ensures StartsWith(path[|SharePrefix|..], id)
    ensures |SharePrefix| + |id| == |path| || path[|SharePrefix| + |id|] == '/'
  {
    PrefixedSplit(path);
    Split(path, '/')[2]
  }

  /** The id is everything after the prefix when no further `/` follows. */
  lemma IdSegmentExamples()
    ensures IdSegment("/l/42/x") == "42"
    ensures IdSegment("/l/42") == "42"
    ensures IdSegment("/l/") == ""
  {
    PrefixedSplit("/l/42/x");
    PrefixedSplit("/l/42");
    PrefixedSplit("/l/");
  }

  /** The call `fetch` makes for a listing id. */
  function ListingCall(env: Env, id: string): RpcCall {
    RpcCall(env.supabaseUrl + RpcPath, "POST", "application/json",
            env.supabaseAnonKey, "Bearer " + env.supabaseAnonKey, id, PayloadLocale)
  }

  // ---------------------------------------------------------------------
  // Field defaults

  /** The display values `listingData` holds; each is a JavaScript value, converted only by the template. */
  datatype ListingData = ListingData(
    locale: JsonLike,
    title: JsonLike,
    description: JsonLike,
    price: JsonLike,
    currency: JsonLike,
    image: JsonLike)

  const DefaultLocale := "en"
  const DefaultTitle := "Arrpa \U{130}lan"
  const DefaultDescription := "A\U{E7}\U{131}klama yok"
  const DefaultPrice := "0"
  const DefaultCurrency := "TRY"
  const DefaultImage := ""

  /** `res.key || d` read through the record's own entries: its value if present and truthy, else `d`. */
  function EntryOr(fields: map<string, JsonLike>, key: string, d: string): JsonLike {
    if key in fields && Truthy(fields[key]) then fields[key] else Str(d)
  }

  /** The page when every field falls back. */
  const AllDefaults := ListingData(Str(DefaultLocale), Str(DefaultTitle), Str(DefaultDescription),
                                   Str(DefaultPrice), Str(DefaultCurrency), Str(DefaultImage))

  /**
   * `listingData` built from the parsed body `res`: each field is
   * `res.x || literal`. Reading a property of a null body throws.
   */
  function Resolve(res: JsonLike): (r: Result<ListingData, JsError>)
    ensures r.Failure? <==> Nullish(res)
    ensures r.Failure? ==> r.error == TypeError
    ensures res.Record? ==> r == Success(ListingData(
      EntryOr(res.fields, "locale", DefaultLocale),
      EntryOr(res.fields, "title", DefaultTitle),
      EntryOr(res.fields, "description", DefaultDescription),
      EntryOr(res.fields, "price", DefaultPrice),
      EntryOr(res.fields, "currency", DefaultCurrency),
      EntryOr(res.fields, "main_avatar", DefaultImage)))
    ensures !res.Record? && !Nullish(res) ==> r == Success(AllDefaults)
  {
    if Nullish(res) then Failure(TypeError)
    else
      Success(ListingData(
        locale := OrElse(Member(res, "locale").value, DefaultLocale),
        title := OrElse(Member(res, "title").value, DefaultTitle),
        description := OrElse(Member(res, "description").value, DefaultDescription),
        price := OrElse(Member(res, "price").value, DefaultPrice),
        currency := OrElse(Member(res, "currency").value, DefaultCurrency),
        image := OrElse(Member(res, "main_avatar").value, DefaultImage)))
  }

  /** A present, non-empty string is kept; an absent key, null, or the empty string gives the default. */
  lemma EntryOrStrings(fields: map<string, JsonLike>, key: string, d: string)
    ensures key in fields && fields[key].Str? && fields[key].s != "" ==> EntryOr(fields, key, d) == fields[key]
    ensures key !in fields || fields[key] in {Undefined, Null, Str("")} ==> EntryOr(fields, key, d) == Str(d)
  {
  }

  /** `res.key || d` on a record is the entry-or-literal reading `Resolve` is stated with. */
  lemma RecordFieldOr(fields: map<string, JsonLike>, key: string, d: string)
    ensures Member(Record(fields), key).Success?
    ensures OrElse(Member(Record(fields), key).value, d) == EntryOr(fields, key, d)
  {
  }

  /** After the fallbacks, every field but the image is truthy: as text it is non-empty unless it is an array. */
  lemma ResolvedTruthy(res: JsonLike)
    requires Resolve(res).Success?
    ensures var d := Resolve(res).value;
      Truthy(d.locale) && Truthy(d.title) && Truthy(d.description) && Truthy(d.price) && Truthy(d.currency)
    ensures var d := Resolve(res).value;
      ToJsString(d.locale) != "" || d.locale.Array?
    ensures var d := Resolve(res).value;
      (ToJsString(d.title) != "" || d.title.Array?) && (ToJsString(d.description) != "" || d.description.Array?)
    ensures var d := Resolve(res).value;
      (ToJsString(d.price) != "" || d.price.Array?) && (ToJsString(d.currency) != "" || d.currency.Array?)
  {
    var d := Resolve(res).value;
    if !d.locale.Array? { TruthyNonEmptyText(d.locale); }
    if !d.title.Array? { TruthyNonEmptyText(d.title); }
    if !d.description.Array? { TruthyNonEmptyText(d.description); }
    if !d.price.Array? { TruthyNonEmptyText(d.price); }
    if !d.currency.Array? { TruthyNonEmptyText(d.currency); }
  }

  /** For a record of strings, every field but the image is a non-empty string after the fallbacks. */
  lemma ResolvedStringsNonEmpty(fields: map<string, JsonLike>)
    requires forall k :: k in fields ==> fields[k].Str?
    ensures var d := Resolve(Record(fields)).value;
      d.locale.Str? && d.locale.s != "" && d.title.Str? && d.title.s != ""
      && d.description.Str? && d.description.s != "" && d.price.Str? && d.price.s != ""
      && d.currency.Str? && d.currency.s != "" && d.image.Str?
  {
  }

  // ---------------------------------------------------------------------
  // The page

  const LocaleSlot := 0
  const TitleSlot := 1
  const DescriptionSlot := 2
  const ImageSlot := 3
  const PriceSlot := 4
  const CurrencySlot := 5

  const NewLine := "\n"
  const Indent := "  "
  const TagClose := "\" />"
  const LangOpen := "<html lang=\""
  const LangClose := "\">"
  const OgTitleOpen := "<meta property=\"og:title\" content=\""
  const OgDescriptionOpen := "<meta property=\"og:description\" content=\""
  const OgImageOpen := "<meta property=\"og:image\" content=\""
  const TitleOpen := "<title>"
  const TitleClose := "</title>"
  const HeadingOpen := "<h2>"
  const HeadingClose := "</h2>"
  const ParagraphOpen := "<p>"
  const ParagraphClose := "</p>"
  const PriceOpen := "<div class=\"price\">"
  const Space := " "
  const PriceClose := "</div>"
  const ImgOpen := "<img src=\""
  const ImgClose := "\" style=\"width:100%;border-radius:8px\" />"
  const HeadTop := "<!DOCTYPE html>\n"
  const HeadMeta := "<head>\n  <meta charset=\"UTF-8\" />\n  <meta name=\"viewport\" content=\"width=device-width, initial-scale=1.0\" />\n\n  <!-- OpenGraph Tags -->\n"
  const OgType := "  <meta property=\"og:type\" content=\"website\" />\n\n"
  const BodyOpen := "</head>\n<body>\n\n<div class=\"card\">\n"
  const AppLink := "  <a class=\"btn\" href=\"#\">Arrpa\U{2019}da A\U{E7}</a>\n"
  const BodyClose := "</div>\n\n</body>\n</html>\n"

  /** The inline style sheet, lines 21 to 53 of the template; it holds no slot. */
  const StyleSheet :=
    "  <style>\n" +
    "    body {\n" +
    "      font-family: Arial, sans-serif;\n" +
    "      background:#111;\n" +
    "      color:#fff;\n" +
    "      padding:20px;\n" +
    "    }\n" +
    "    .card {\n" +
    "      background:#1a1a1a;\n" +
    "      padding:15px;\n" +
    "      border-radius:12px;\n" +
    "      max-width:420px;\n" +
    "      margin:auto;\n" +
    "      box-shadow:0 2px 10px rgba(0,0,0,0.5);\n" +
    "    }\n" +
    "    .price {\n" +
    "      font-size:22px;\n" +
    "      font-weight:bold;\n" +
    "      margin:10px 0;\n" +
    "      color:#4CAF50;\n" +
    "    }\n" +
    "    .btn {\n" +
    "      display:block;\n" +
    "      background:#FF6A00;\n" +
    "      color:#fff;\n" +
    "      padding:12px;\n" +
    "      text-align:center;\n" +
    "      border-radius:8px;\n" +
    "      text-decoration:none;\n" +
    "      font-weight:bold;\n" +
    "      margin-top:12px;\n" +
    "    }\n" +
    "  </style>\n"

  /** Lines 6 to 20 of the template: the document head up to the style sheet. */
  const PageHead: seq<Piece> := [
    Text(NewLine),
    Text(HeadTop),
    Text(LangOpen), Hole(LocaleSlot), Text(LangClose), Text(NewLine),
    Text(HeadMeta),
    Text(Indent), Text(OgTitleOpen), Hole(TitleSlot), Text(TagClose), Text(NewLine),
    Text(Indent), Text(OgDescriptionOpen), Hole(DescriptionSlot), Text(TagClose), Text(NewLine),
    Text(Indent), Text(OgImageOpen), Hole(ImageSlot), Text(TagClose), Text(NewLine),
    Text(OgType),
    Text(Indent), Text(TitleOpen), Hole(TitleSlot), Text(TitleClose), Text(NewLine),
    Text(NewLine)
  ]

  /** Lines 21 to 67 of the template: the style sheet and the listing card. */
  const PageBody: seq<Piece> := [
    Text(StyleSheet),
    Text(BodyOpen),
    Text(Indent), Text(HeadingOpen), Hole(TitleSlot), Text(HeadingClose), Text(NewLine),
    Text(Indent), Text(ParagraphOpen), Hole(DescriptionSlot), Text(ParagraphClose), Text(NewLine),
    Text(Indent), Text(PriceOpen), Hole(PriceSlot), Text(Space), Hole(CurrencySlot), Text(PriceClose), Text(NewLine),
    Text(Indent), Text(ImgOpen), Hole(ImageSlot), Text(ImgClose), Text(NewLine),
    Text(AppLink),
    Text(BodyClose)
  ]

  /** Lines 6 to 67: the template literal of `htmlTemplate`. */
  const PageTemplate: seq<Piece> := PageHead + PageBody

  /** Each value as a template literal shows it: `String(v)`, with no escaping. */
  function PageValues(d: ListingData): seq<string>
  {
    [ToJsString(d.locale), ToJsString(d.title), ToJsString(d.description),
     ToJsString(d.image), ToJsString(d.price), ToJsString(d.currency)]
  }

  /** `htmlTemplate(data)`. */
  function HtmlTemplate(d: ListingData): string {
    Fill(PageTemplate, PageValues(d))
  }

  /** Where each slot of the page's head stands, and the text on either side of it. */
  lemma PageHeadShape()
    ensures |PageTemplate| == 55
    ensures PageTemplate[2] == Text(LangOpen) && PageTemplate[3] == Hole(LocaleSlot) && PageTemplate[4] == Text(LangClose)
    ensures PageTemplate[8] == Text(OgTitleOpen) && PageTemplate[9] == Hole(TitleSlot) && PageTemplate[10] == Text(TagClose)
    ensures PageTemplate[13] == Text(OgDescriptionOpen) && PageTemplate[14] == Hole(DescriptionSlot) && PageTemplate[15] == Text(TagClose)
    ensures PageTemplate[18] == Text(OgImageOpen) && PageTemplate[19] == Hole(ImageSlot) && PageTemplate[20] == Text(TagClose)
    ensures PageTemplate[24] == Text(TitleOpen) && PageTemplate[25] == Hole(TitleSlot) && PageTemplate[26] == Text(TitleClose)
  {
    assert |PageHead| == 29 && |PageBody| == 26;
    assert PageTemplate[..29] == PageHead;
  }

  /** Where each slot of the page's card stands, and the text on either side of it. */
  lemma PageBodyShape()
    ensures PageTemplate[32] == Text(HeadingOpen) && PageTemplate[33] == Hole(TitleSlot) && PageTemplate[34] == Text(HeadingClose)
    ensures PageTemplate[37] == Text(ParagraphOpen) && PageTemplate[38] == Hole(DescriptionSlot) && PageTemplate[39] == Text(ParagraphClose)
    ensures PageTemplate[42] == Text(PriceOpen) && PageTemplate[43] == Hole(PriceSlot) && PageTemplate[44] == Text(Space)
    ensures PageTemplate[45] == Hole(CurrencySlot) && PageTemplate[46] == Text(PriceClose)
    ensures PageTemplate[49] == Text(ImgOpen) && PageTemplate[50] == Hole(ImageSlot) && PageTemplate[51] == Text(ImgClose)
  {
    assert |PageHead| == 29 && |PageBody| == 26;
    assert PageTemplate[29..] == PageBody;
  }

  lemma PageSlotValue(d: ListingData, slot: nat, v: string)
    requires slot < 6 && PageValues(d)[slot] == v
    ensures Value(PageValues(d), slot) == v
  {
  }

  /** The title, unescaped, is the `og:title` content, the `<title>` and the `<h2>` heading. */
  lemma PageTitle(d: ListingData)
    ensures Contains(HtmlTemplate(d), OgTitleOpen + ToJsString(d.title) + TagClose)
    ensures Contains(HtmlTemplate(d), TitleOpen + ToJsString(d.title) + TitleClose)
    ensures Contains(HtmlTemplate(d), HeadingOpen + ToJsString(d.title) + HeadingClose)
  {
    PageHeadShape();
    PageBodyShape();
    PageSlotValue(d, TitleSlot, ToJsString(d.title));
    FillShows(PageTemplate, PageValues(d), 8, OgTitleOpen, TitleSlot, TagClose);
    FillShows(PageTemplate, PageValues(d), 24, TitleOpen, TitleSlot, TitleClose);
    FillShows(PageTemplate, PageValues(d), 32, HeadingOpen, TitleSlot, HeadingClose);
  }

  /** The description, unescaped, is the `og:description` content and the card's paragraph. */
  lemma PageDescription(d: ListingData)
    ensures Contains(HtmlTemplate(d), OgDescriptionOpen + ToJsString(d.description) + TagClose)
    ensures Contains(HtmlTemplate(d), ParagraphOpen + ToJsString(d.description) + ParagraphClose)
  {
    PageHeadShape();
    PageBodyShape();
    PageSlotValue(d, DescriptionSlot, ToJsString(d.description));
    FillShows(PageTemplate, PageValues(d), 13, OgDescriptionOpen, DescriptionSlot, TagClose);
    FillShows(PageTemplate, PageValues(d), 37, ParagraphOpen, DescriptionSlot, ParagraphClose);
  }

  /** The image URL, unescaped, is the `og:image` content and the card's `img` source; the locale is the `lang` attribute. */
  lemma PageImageAndLocale(d: ListingData)
    ensures Contains(HtmlTemplate(d), OgImageOpen + ToJsString(d.image) + TagClose)
    ensures Contains(HtmlTemplate(d), ImgOpen + ToJsString(d.image) + ImgClose)
    ensures Contains(HtmlTemplate(d), LangOpen + ToJsString(d.locale) + LangClose)
  {
    PageHeadShape();
    PageBodyShape();
    PageSlotValue(d, ImageSlot, ToJsString(d.image));
    PageSlotValue(d, LocaleSlot, ToJsString(d.locale));
    FillShows(PageTemplate, PageValues(d), 18, OgImageOpen, ImageSlot, TagClose);
    FillShows(PageTemplate, PageValues(d), 49, ImgOpen, ImageSlot, ImgClose);
    FillShows(PageTemplate, PageValues(d), 2, LangOpen, LocaleSlot, LangClose);
  }

  /** The price line is exactly the price, one space, and the currency. */
  lemma PagePrice(d: ListingData)
    ensures Contains(HtmlTemplate(d), PriceOpen + ToJsString(d.price) + " " + ToJsString(d.currency) + PriceClose)
  {
    PageHeadShape();
    PageBodyShape();
    PageSlotValue(d, PriceSlot, ToJsString(d.price));
    PageSlotValue(d, CurrencySlot, ToJsString(d.currency));
    FillShowsPair(PageTemplate, PageValues(d), 42, PriceOpen, PriceSlot, Space, CurrencySlot, PriceClose);
  }

  /**
   * Nothing is escaped: every piece of a string title reaches the page as it
   * is, so a title such as `</title><script>` puts a script tag in the page.
   */
  lemma PageTitleUnescaped(d: ListingData, before: string, piece: string, after: string)
    requires d.title == Str(before + piece + after)
    ensures Contains(HtmlTemplate(d), piece)
  {
    PageTitle(d);
    var t := before + piece + after;
    assert HeadingOpen + t + HeadingClose == (HeadingOpen + before) + piece + (after + HeadingClose);
    ContainsPart(HtmlTemplate(d), HeadingOpen + before, piece, after + HeadingClose);
  }

  // ---------------------------------------------------------------------
  // fetch

  /** The response once the backend has answered `reply`. */
  function Respond(reply: BackendReply): (r: Result<Response, JsError>)
    ensures reply.Rejected? ==> r == Failure(NetworkError)
    ensures reply.Answered? && !reply.ok ==> r == Success(Response(404, BackendErrorBody, PlainText))
    ensures reply.Answered? && reply.ok && reply.json.None? ==> r == Failure(SyntaxError)
    ensures reply.Answered? && reply.ok && reply.json.Some? && Nullish(reply.json.value) ==> r == Failure(TypeError)
    ensures reply.Answered? && reply.ok && reply.json.Some? && !Nullish(reply.json.value) ==>
      r.Success? && r.value.status == 200 && r.value.contentType == HtmlType
    ensures r.Success? && r.value.status != 404 ==>
      reply.Answered? && reply.ok && reply.json.Some? && Resolve(reply.json.value).Success?
      && r.value == Response(200, HtmlTemplate(Resolve(reply.json.value).value), HtmlType)
  {
    match reply
    case Rejected => Failure(NetworkError)
    case Answered(ok, _, json) =>
      if !ok then Success(Response(404, BackendErrorBody, PlainText))
      else
        match json
        case None => Failure(SyntaxError)
        case Some(res) =>
          match Resolve(res)
          case Failure(err) => Failure(err)
          case Success(d) => Success(Response(200, HtmlTemplate(d), HtmlType))
  }

  /** A successful reply whose `title` is missing or falsy is served with the default title as its heading. */
  lemma DefaultTitleServed(reply: BackendReply, fields: map<string, JsonLike>)
    requires reply.Answered? && reply.ok && reply.json == Some(Record(fields))
    requires "title" !in fields || Falsy(fields["title"])
    ensures Respond(reply).Success? && Respond(reply).value.status == 200
    ensures Contains(Respond(reply).value.body, HeadingOpen + DefaultTitle + HeadingClose)
  {
    var d := Resolve(Record(fields)).value;
    assert d.title == Str(DefaultTitle);
    StrText(DefaultTitle);
    PageTitle(d);
  }

  /**
   * The worker's `fetch` handler for a request whose URL has the given path.
   * `backend` stands for the RPC endpoint: it is consulted only when the
   * route matches, and what it was asked is recorded in the exchange.
   */
  function Fetch(path: string, env: Env, backend: RpcCall -> BackendReply): (e: Exchange)
    ensures !StartsWith(path, SharePrefix) <==> e.call.None?
    ensures !StartsWith(path, SharePrefix) ==> e.result == Success(Response(404, NotFoundBody, PlainText))
    ensures e.call.Some? ==> e.call.value.locale == PayloadLocale
    ensures e.call.Some? ==> e.call.value == ListingCall(env, IdSegment(path))
    ensures e.call.Some? ==> e.result == Respond(backend(e.call.value))
  {
    if StartsWith(path, SharePrefix) then
      var call := ListingCall(env, IdSegment(path));
      Exchange(Some(call), Respond(backend(call)))
    else
      Exchange(None, Success(Response(404, NotFoundBody, PlainText)))
  }

  /** A call that rejects makes the handler throw: there is no `catch`, so no 404 page is sent. */
  lemma BackendRejectionThrows(path: string, env: Env, backend: RpcCall -> BackendReply)
    requires StartsWith(path, SharePrefix) && backend(ListingCall(env, IdSegment(path))).Rejected?
    ensures Fetch(path, env, backend).call.Some?
    ensures Fetch(path, env, backend).result == Failure(NetworkError)
  {
  }

  /** A backend failure is a 404 whatever its status code, and the request did call the backend. */
  lemma BackendFailureIs404(path: string, env: Env, backend: RpcCall -> BackendReply)
    requires StartsWith(path, SharePrefix)
    requires backend(ListingCall(env, IdSegment(path))).Answered? && !backend(ListingCall(env, IdSegment(path))).ok
    ensures Fetch(path, env, backend).call.Some?
    ensures Fetch(path, env, backend).result == Success(Response(404, BackendErrorBody, PlainText))
  {
  }
}
