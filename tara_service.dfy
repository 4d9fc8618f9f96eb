/** The Tara stylist service: the response schemas, recommendation
    generation (a vision call describing the look, then a structured call
    producing the options) and the per-category visual suggestions (one
    photo search, then one reasoning call per photo). The language-model
    and search calls are parameters returning an `Outcome`. */
module TaraService {
  import opened Common
  import opened Text

  datatype Category = Category(categoryName: string, keywords: seq<string>, description: string)

  datatype RecommendationOption = RecommendationOption(
    id: int,
    summaryTitle: string,
    summaryDescription: string,
    categories: seq<Category>)

  datatype TaraResponse = TaraResponse(options: seq<RecommendationOption>)

  datatype VisualSuggestion = VisualSuggestion(imageUrl: string, reasoning: string)

  datatype VisualSuggestionsResponse = VisualSuggestionsResponse(suggestions: seq<VisualSuggestion>)

  datatype Orientation = Landscape | Portrait | Squarish

  /** The parameters of the photo search request. */
  datatype SearchRequest = SearchRequest(query: string, perPage: nat, orientation: Orientation)

  /** The number of photos asked of the search. */
  const PhotosPerSearch: nat := 3

  /** The prefix under which the image payload is handed to the vision model. */
  const JpegDataUrlPrefix: string := "data:image/jpeg;base64,"

  /** The search text: the keywords joined by single spaces, a space, the
      category and " fashion". With keywords it is the space-join of the
      keywords, the category and "fashion"; without, it starts with a space. */
  function SearchQuery(keywords: seq<string>, category: string): (q: string)
    ensures keywords != [] ==> q == Join(keywords + [category, "fashion"], " ")
    ensures keywords == [] ==> q == " " + category + " fashion"
  {
    var q := Join(keywords, " ") + " " + category + " fashion";
    if keywords != [] then
      JoinAppend(keywords, [category, "fashion"], " ");
      q
    else q
  }

  /** The search for a category: its query, three photos, portrait. */
  function SearchFor(keywords: seq<string>, category: string): (req: SearchRequest)
    ensures req.perPage == 3 && req.orientation == Portrait
    ensures req.query == SearchQuery(keywords, category)
  {
    SearchRequest(SearchQuery(keywords, category), PhotosPerSearch, Portrait)
  }

  /** `data.get("results", [])`: the result list of a search answer, empty
      when the key is left out. `None` stands for every other shape, for
      which iterating fails or yields nothing; either way no suggestion is
      produced. */
  function ResultsOf(data: Json): Option<seq<Json>>
  {
    if !data.JObj? then None
    else if "results" !in data.fields then Some([])
    else if data.fields["results"].JArr? then Some(data.fields["results"].items)
    else None
  }

  /** `img["urls"]["regular"]`, when it is a string. */
  function RegularUrl(img: Json): Option<string>
  {
    if img.JObj? && "urls" in img.fields
       && img.fields["urls"].JObj? && "regular" in img.fields["urls"].fields
       && img.fields["urls"].fields["regular"].JStr?
    then Some(img.fields["urls"].fields["regular"].s)
    else None
  }

  /** The suggestion built from one search result: its regular URL and the
      reasoning the vision model gives for it; `None` when either fails. */
  function Suggest(img: Json, category: string, description: string,
                   reason: (string, string, string) -> Outcome<string>): Option<VisualSuggestion>
  {
    var url := RegularUrl(img);
    if url.None? then None
    else
      var reply := reason(description, category, url.value);
      if reply.Raised? then None else Some(VisualSuggestion(url.value, reply.value))
  }

  /** The suggestions for the results `items`, all or nothing: one per
      result, in result order, when every result yields one, else `None`. */
  function Suggestions(items: seq<Json>, category: string, description: string,
                       reason: (string, string, string) -> Outcome<string>): (r: Option<seq<VisualSuggestion>>)
    ensures r.Some? <==> forall i :: 0 <= i < |items| ==> Suggest(items[i], category, description, reason).Some?
    ensures r.Some? ==> |r.value| == |items|
    ensures r.Some? ==> forall i :: 0 <= i < |items| ==>
      Some(r.value[i]) == Suggest(items[i], category, description, reason)
  {
    if items == [] then Some([])
    else
      var init := Suggestions(items[..|items| - 1], category, description, reason);
      var last := Suggest(items[|items| - 1], category, description, reason);
      if init.None? || last.None? then None else Some(init.value + [last.value])
  }

  /** What `get_visual_suggestions` answers for a search outcome: the
      suggestions when the search, the result shape and every reasoning
      call succeed, and the empty list on any failure. */
  function VisualAnswer(found: Outcome<Json>, category: string, description: string,
                        reason: (string, string, string) -> Outcome<string>): seq<VisualSuggestion>
  {
    if found.Raised? then []
    else
      var items := ResultsOf(found.value);
      if items.None? then []
      else
        var built := Suggestions(items.value, category, description, reason);
        if built.None? then [] else built.value
  }

  /** A failure at position `k` of the results makes the whole list fail. */
  lemma {:induction false} SuggestionsFailAt(items: seq<Json>, k: nat, category: string, description: string,
                                             reason: (string, string, string) -> Outcome<string>)
    requires k < |items|
    requires Suggest(items[k], category, description, reason).None?
    ensures Suggestions(items, category, description, reason).None?
  {
  }

  /** `get_visual_suggestions`: search photos for the category, then ask
      the vision model for a reasoning per photo, appending one suggestion
      per photo; any failure yields the empty list, dropping suggestions
      already built. */
  method GetVisualSuggestions(originalImage: string, category: string, keywords: seq<string>, description: string,
                              search: SearchRequest -> Outcome<Json>,
                              reason: (string, string, string) -> Outcome<string>)
    returns (r: VisualSuggestionsResponse)
    ensures r.suggestions == VisualAnswer(search(SearchFor(keywords, category)), category, description, reason)
  {
    var request := SearchRequest(SearchQuery(keywords, category), PhotosPerSearch, Portrait);
    var found := search(request);
    if found.Raised? {
      return VisualSuggestionsResponse([]);
    }
    var results := ResultsOf(found.value);
    if results.None? {
      return VisualSuggestionsResponse([]);
    }
    var items := results.value;
    var suggestions: seq<VisualSuggestion> := [];
    var i := 0;
    while i < |items|
      invariant 0 <= i <= |items|
      invariant Suggestions(items[..i], category, description, reason) == Some(suggestions)
    {
      var img := items[i];
      var url := RegularUrl(img);
      if url.None? {
        SuggestionsFailAt(items, i, category, description, reason);
        return VisualSuggestionsResponse([]);
      }
      var reply := reason(description, category, url.value);
      if reply.Raised? {
        SuggestionsFailAt(items, i, category, description, reason);
        return VisualSuggestionsResponse([]);
      }
      suggestions := suggestions + [VisualSuggestion(url.value, reply.value)];
      assert items[..i + 1][..i] == items[..i];
      i := i + 1;
    }
    assert items[..i] == items;
    r := VisualSuggestionsResponse(suggestions);
  }

  /** `generate_recommendations`: the vision model describes the look from
      the image payload (under a JPEG data-URL prefix), then the structured
      model turns the description and the user's request into options. A
      failure of either call is raised again, never replaced by a default. */
  function GenerateRecommendations(imageData: string, userPrompt: string,
                                   vision: string -> Outcome<string>,
                                   structured: (string, string) -> Outcome<TaraResponse>): (r: Outcome<TaraResponse>)
    ensures vision(JpegDataUrlPrefix + imageData).Raised? ==>
      r == Raised(vision(JpegDataUrlPrefix + imageData).message)
    ensures vision(JpegDataUrlPrefix + imageData).Ok? ==>
      r == structured(vision(JpegDataUrlPrefix + imageData).value, userPrompt)
    ensures r.Ok? ==> vision(JpegDataUrlPrefix + imageData).Ok?
  {
    var described := vision(JpegDataUrlPrefix + imageData);
    if described.Raised? then Raised(described.message)
    else structured(described.value, userPrompt)
  }
}
