/** The HTTP routes of the Tara stylist: both strip the header of a data
    URL (RFC 2397, section 3: `data:[<mediatype>][;base64],<data>`) from
    the image they receive, call the service, and report any exception as
    status 500 with the exception text as detail. */
module TaraRouter {
  import opened Common
  import opened Text
  import opened TaraService

  /** What a route answers: the response model, or an HTTP error. */
  datatype HttpReply<+T> = Ok200(body: T) | Error500(detail: string)

  /** `image.split(",")[1] if "," in image else image`: the text between
      the first comma and the next comma (or the end); a text without a
      comma passes through. The result never holds a comma. */
  function StripDataUrlHeader(image: string): (r: string)
    ensures ',' !in image ==> r == image
    ensures ',' in image ==> r == TakeUntil(AfterFirst(image, ','), ',')
    ensures ',' !in r
  {
    if ',' in image then
      SplitFirst(image, ',');
      SplitFirst(AfterFirst(image, ','), ',');
      Split(image, ',')[1]
    else image
  }

  /** The text after the first comma of `a + "," + b`, when `a` has none. */
  lemma {:induction false} AfterFirstComma(a: string, b: string)
    requires ',' !in a
    ensures ',' in a + "," + b && AfterFirst(a + "," + b, ',') == b
  {
    assert (a + "," + b)[|a|] == ',';
    if a != [] {
      assert (a + "," + b)[1..] == a[1..] + "," + b;
      AfterFirstComma(a[1..], b);
    }
  }

  /** A text without a comma is kept whole up to the (absent) comma. */
  lemma {:induction false} TakeUntilWhole(s: string, c: char)
    requires c !in s
    ensures TakeUntil(s, c) == s
  {
    if s != [] {
      TakeUntilWhole(s[1..], c);
      assert [s[0]] + s[1..] == s;
    }
  }

  /** For a data URL whose media type and data hold no comma (as the
      base64 data URLs of a browser `FileReader` do), stripping the header
      yields exactly the data. */
  lemma DataUrlPayload(mediaType: string, data: string)
    requires ',' !in mediaType && ',' !in data
    ensures StripDataUrlHeader("data:" + mediaType + "," + data) == data
  {
    assert "data:" + mediaType + "," + data == ("data:" + mediaType) + "," + data;
    AfterFirstComma("data:" + mediaType, data);
    TakeUntilWhole(data, ',');
  }

  /** Data that itself holds a comma (allowed by RFC 2397 for data that is
      not base64) is cut at that comma. */
  lemma CommaInDataIsCut()
    ensures StripDataUrlHeader("data:,a,b") == "a"
  {
    assert "data:,a,b" == "data:" + "," + "a,b";
    AfterFirstComma("data:", "a,b");
    assert "a,b"[1..] == ",b";
    assert TakeUntil(",b", ',') == "";
  }

  /** `analyze_style`: recommendations for the stripped image and the
      prompt; any exception becomes status 500 carrying its text. */
  function AnalyzeStyle(image: string, prompt: string,
                        vision: string -> Outcome<string>,
                        structured: (string, string) -> Outcome<TaraResponse>): (r: HttpReply<TaraResponse>)
    ensures r.Ok200? <==> GenerateRecommendations(StripDataUrlHeader(image), prompt, vision, structured).Ok?
    ensures r.Ok200? ==> r.body == GenerateRecommendations(StripDataUrlHeader(image), prompt, vision, structured).value
    ensures r.Error500? ==> r.detail == GenerateRecommendations(StripDataUrlHeader(image), prompt, vision, structured).message
  {
    match GenerateRecommendations(StripDataUrlHeader(image), prompt, vision, structured)
    case Ok(response) => Ok200(response)
    case Raised(message) => Error500(message)
  }

  /** A browser data URL reaches the vision model as its base64 data under
      a JPEG data-URL prefix, whatever media type it declared. */
  lemma AnalyzeRelabelsAsJpeg(mediaType: string, data: string, prompt: string,
                              vision: string -> Outcome<string>,
                              structured: (string, string) -> Outcome<TaraResponse>)
    requires ',' !in mediaType && ',' !in data
    requires vision(JpegDataUrlPrefix + data).Ok?
    ensures AnalyzeStyle("data:" + mediaType + "," + data, prompt, vision, structured).Ok200?
      <==> structured(vision(JpegDataUrlPrefix + data).value, prompt).Ok?
  {
    DataUrlPayload(mediaType, data);
  }

  /** `visualize_category`: the suggestions for the category. The service
      turns every failure into an empty list and neither the stripping nor
      the query building can raise, so this route always answers 200. The
      stripped image is handed on, but the service does not use it. */
  method VisualizeCategory(originalImage: string, category: string, keywords: seq<string>, description: string,
                           search: SearchRequest -> Outcome<Json>,
                           reason: (string, string, string) -> Outcome<string>)
    returns (r: HttpReply<VisualSuggestionsResponse>)
    ensures r.Ok200?
    ensures r.body.suggestions == VisualAnswer(search(SearchFor(keywords, category)), category, description, reason)
  {
    var imageData := StripDataUrlHeader(originalImage);
    var response := GetVisualSuggestions(imageData, category, keywords, description, search, reason);
    r := Ok200(response);
  }
}
