/**
 * The share worker with `esc` (share_worker/src/index.ts): normalising the
 * backend's array-or-record answer, and the document head that `buildHtml`
 * renders with every inserted value escaped. Only the head up to the
 * Open Graph image tag is modelled.
 */
module PreviewWorker {
  import opened Wrappers
  import opened JsStrings
  import opened JsValues
  import opened HtmlEscape
  import opened Templates

  // ---------------------------------------------------------------------
  // pickFirst

  /**
   * `pickFirst(v)`: an array gives its first element (`?? null`), any other
   * value gives itself (`?? null`). `None` stands for the returned null.
   */
  function PickFirst(v: JsonLike): (r: Option<JsonLike>)
    ensures r.Some? ==> !Nullish(r.value)
    ensures v.Array? && |v.items| > 0 && !Nullish(v.items[0]) ==> r == Some(v.items[0])
    ensures v.Array? && (|v.items| == 0 || Nullish(v.items[0])) ==> r == None
    ensures !v.Array? && !Nullish(v) ==> r == Some(v)
    ensures Nullish(v) ==> r == None
  {
    if v.Array? then
      var first := if |v.items| > 0 then v.items[0] else Undefined;
      if Nullish(first) then None else Some(first)
    else if Nullish(v) then None
    else Some(v)
  }

  /** The JavaScript value `pickFirst` returns. */
  function AsJs(r: Option<JsonLike>): JsonLike {
    match r
    case None => Null
    case Some(v) => v
  }

  /** Normalising again changes nothing unless the first element was itself an array. */
  lemma PickFirstIdempotent(v: JsonLike)
    requires !AsJs(PickFirst(v)).Array?
    ensures PickFirst(AsJs(PickFirst(v))) == PickFirst(v)
  {
  }

  // ---------------------------------------------------------------------
  // buildHtml

  /** The display model `buildHtml` receives; all fields are strings. */
  datatype PreviewData = PreviewData(
    locale: string,
    title: string,
    description: string,
    image: string,
    priceText: string,
    locationText: string,
    canonicalUrl: string,
    appUrl: string)

  /** `esc` applied to a string field. */
  function EscText(s: string): (r: string)
    ensures r == Escape(s)
  {
    Esc(Str(s))
  }

  // Slots of the head template.
  const LangSlot := 0
  const CanonicalSlot := 1
  const TitleSlot := 2
  const DescriptionSlot := 3
  const ImageSlot := 4

  // The fixed text of the head template, line by line.
  const Doctype := "<!DOCTYPE html>\n"
  const LangOpen := "<html lang=\""
  const LangClose := "\">"
  const NewLine := "\n"
  const Indent := "  "
  const HeadOpen := "<head>\n"
  const Charset := "  <meta charset=\"UTF-8\" />\n"
  const Viewport := "  <meta name=\"viewport\" content=\"width=device-width, initial-scale=1.0\" />\n"
  const CanonicalOpen := "<link rel=\"canonical\" href=\""
  const TagClose := "\" />"
  const Robots := "  <meta name=\"robots\" content=\"index,follow\" />\n"
  const SeoComment := "  <!-- Basic SEO -->\n"
  const TitleOpen := "<title>"
  const TitleClose := "</title>"
  const DescriptionOpen := "<meta name=\"description\" content=\""
  const OgComment := "  <!-- OpenGraph -->\n"
  const OgTitleOpen := "<meta property=\"og:title\" content=\""
  const OgDescriptionOpen := "<meta property=\"og:description\" content=\""
  const OgImageOpen := "<meta property=\"og:image\" content=\""
  const Quote := "\""
  const CutOff := " /"

  /** Lines 41 to 51 of the template literal: the document and its basic SEO tags. */
  const HeadSeo: seq<Piece> := [
    Text(Doctype),
    Text(LangOpen), Hole(LangSlot), Text(LangClose), Text(NewLine),
    Text(HeadOpen),
    Text(Charset),
    Text(Viewport),
    Text(NewLine),
    Text(Indent), Text(CanonicalOpen), Hole(CanonicalSlot), Text(TagClose), Text(NewLine),
    Text(Robots),
    Text(NewLine),
    Text(SeoComment),
    Text(Indent), Text(TitleOpen), Hole(TitleSlot), Text(TitleClose), Text(NewLine),
    Text(Indent), Text(DescriptionOpen), Hole(DescriptionSlot), Text(TagClose), Text(NewLine),
    Text(NewLine)
  ]

  /** Lines 53 to 57 of the template literal: the OpenGraph tags, up to `og:image`. */
  const HeadOpenGraph: seq<Piece> := [
    Text(OgComment),
    Text(Indent), Text(OgTitleOpen), Hole(TitleSlot), Text(TagClose), Text(NewLine),
    Text(Indent), Text(OgDescriptionOpen), Hole(DescriptionSlot), Text(TagClose), Text(NewLine),
    Text(Indent), Text(OgImageOpen), Hole(ImageSlot), Text(Quote), Text(CutOff)
  ]

  /** Lines 41 to 57 of the template literal: the head up to the `og:image` tag, the part modelled. */
  const HeadTemplate: seq<Piece> := HeadSeo + HeadOpenGraph

  /** The slot values: each field escaped once, as the `const`s of `buildHtml` hold them. */
  function HeadValues(d: PreviewData): (vals: seq<string>)
    ensures |vals| == 5
    ensures vals[LangSlot] == Escape(d.locale) && vals[CanonicalSlot] == Escape(d.canonicalUrl)
    ensures vals[TitleSlot] == Escape(d.title) && vals[DescriptionSlot] == Escape(d.description)
    ensures vals[ImageSlot] == Escape(d.image)
  {
    [EscText(d.locale), EscText(d.canonicalUrl), EscText(d.title), EscText(d.description), EscText(d.image)]
  }

  /** `buildHtml(data)` through line 57 of share_worker/src/index.ts, the modelled part. */
  function BuildHtmlHead(d: PreviewData): string {
    Fill(HeadTemplate, HeadValues(d))
  }

  /** Where each slot of the basic SEO tags stands, and the text on either side of it. */
  lemma HeadSeoShape()
    ensures |HeadTemplate| == 44
    ensures HeadTemplate[1] == Text(LangOpen) && HeadTemplate[2] == Hole(LangSlot) && HeadTemplate[3] == Text(LangClose)
    ensures HeadTemplate[10] == Text(CanonicalOpen) && HeadTemplate[11] == Hole(CanonicalSlot) && HeadTemplate[12] == Text(TagClose)
    ensures HeadTemplate[18] == Text(TitleOpen) && HeadTemplate[19] == Hole(TitleSlot) && HeadTemplate[20] == Text(TitleClose)
    ensures HeadTemplate[23] == Text(DescriptionOpen) && HeadTemplate[24] == Hole(DescriptionSlot) && HeadTemplate[25] == Text(TagClose)
  {
    assert |HeadSeo| == 28 && |HeadOpenGraph| == 16;
    assert HeadTemplate[..28] == HeadSeo;
  }

  /** Where each slot of the OpenGraph tags stands, and the text on either side of it. */
  lemma HeadOpenGraphShape()
    ensures |HeadTemplate| == 44
    ensures HeadTemplate[30] == Text(OgTitleOpen) && HeadTemplate[31] == Hole(TitleSlot) && HeadTemplate[32] == Text(TagClose)
    ensures HeadTemplate[35] == Text(OgDescriptionOpen) && HeadTemplate[36] == Hole(DescriptionSlot) && HeadTemplate[37] == Text(TagClose)
    ensures HeadTemplate[40] == Text(OgImageOpen) && HeadTemplate[41] == Hole(ImageSlot) && HeadTemplate[42] == Text(Quote)
  {
    assert |HeadSeo| == 28 && |HeadOpenGraph| == 16;
    assert HeadTemplate[28..] == HeadOpenGraph;
  }

  /** The text filled into slot `slot` of the head. */
  lemma HeadSlotValue(d: PreviewData, slot: nat, v: string)
    requires slot < 5 && HeadValues(d)[slot] == v
    ensures Value(HeadValues(d), slot) == v
  {
  }

  /** The locale appears escaped in the document's `lang` attribute. */
  lemma HeadLang(d: PreviewData)
    ensures Contains(BuildHtmlHead(d), LangOpen + Escape(d.locale) + LangClose)
  {
    HeadSeoShape();
    HeadOpenGraphShape();
    HeadSlotValue(d, LangSlot, Escape(d.locale));
    FillShows(HeadTemplate, HeadValues(d), 1, LangOpen, LangSlot, LangClose);
  }

  /** The canonical URL appears escaped in the canonical link. */
  lemma HeadCanonical(d: PreviewData)
    ensures Contains(BuildHtmlHead(d), CanonicalOpen + Escape(d.canonicalUrl) + TagClose)
  {
    HeadSeoShape();
    HeadOpenGraphShape();
    HeadSlotValue(d, CanonicalSlot, Escape(d.canonicalUrl));
    FillShows(HeadTemplate, HeadValues(d), 10, CanonicalOpen, CanonicalSlot, TagClose);
  }

  /** The title appears escaped both in `<title>` and in `og:title`. */
  lemma HeadTitle(d: PreviewData)
    ensures Contains(BuildHtmlHead(d), TitleOpen + Escape(d.title) + TitleClose)
    ensures Contains(BuildHtmlHead(d), OgTitleOpen + Escape(d.title) + TagClose)
  {
    HeadSeoShape();
    HeadOpenGraphShape();
    HeadSlotValue(d, TitleSlot, Escape(d.title));
    FillShows(HeadTemplate, HeadValues(d), 18, TitleOpen, TitleSlot, TitleClose);
    FillShows(HeadTemplate, HeadValues(d), 30, OgTitleOpen, TitleSlot, TagClose);
  }

  /** The description appears escaped in the description meta tag and in `og:description`. */
  lemma HeadDescription(d: PreviewData)
    ensures Contains(BuildHtmlHead(d), DescriptionOpen + Escape(d.description) + TagClose)
    ensures Contains(BuildHtmlHead(d), OgDescriptionOpen + Escape(d.description) + TagClose)
  {
    HeadSeoShape();
    HeadOpenGraphShape();
    HeadSlotValue(d, DescriptionSlot, Escape(d.description));
    FillShows(HeadTemplate, HeadValues(d), 23, DescriptionOpen, DescriptionSlot, TagClose);
    FillShows(HeadTemplate, HeadValues(d), 35, OgDescriptionOpen, DescriptionSlot, TagClose);
  }

  /** The image URL appears escaped, and quoted, in `og:image`. */
  lemma HeadImage(d: PreviewData)
    ensures Contains(BuildHtmlHead(d), OgImageOpen + Escape(d.image) + Quote)
  {
    HeadSeoShape();
    HeadOpenGraphShape();
    HeadSlotValue(d, ImageSlot, Escape(d.image));
    FillShows(HeadTemplate, HeadValues(d), 40, OgImageOpen, ImageSlot, Quote);
  }

  lemma HeadValuesFree(d: PreviewData, c: char)
    requires IsMarkup(c)
    ensures FreeOf(HeadValues(d), c)
  {
    EscapeCounts(d.locale, c);
    EscapeCounts(d.canonicalUrl, c);
    EscapeCounts(d.title, c);
    EscapeCounts(d.description, c);
    EscapeCounts(d.image, c);
  }

  /**
   * The fields cannot add markup: whatever the data, the head holds the same
   * number of `<`, `>`, `"` and `'`, namely those of the template itself.
   */
  lemma HeadMarkupFixed(d: PreviewData, e: PreviewData, c: char)
    requires IsMarkup(c)
    ensures Count(BuildHtmlHead(d), c) == Count(BuildHtmlHead(e), c)
  {
    HeadValuesFree(d, c);
    HeadValuesFree(e, c);
    FillCountFixed(HeadTemplate, HeadValues(d), HeadValues(e), c);
  }
}
