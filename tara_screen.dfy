/** The Tara stylist screen. The user uploads a photo and writes a request;
    submitting it fetches a list of style options; choosing an option shows
    its categories, and each category can be visualized with matching
    photos. Each asynchronous handler is split into the step that runs when
    it is called (its guard and its synchronous state updates) and the step
    that runs when its request settles, so completions can arrive in any
    order. A text field that is empty stands for JavaScript's `null` as
    well: both are falsy. */
module TaraScreen {
  import opened Common
  import opened Text
  import opened TaraService

  /** The body of an analyze request, as snapshotted when it is sent. */
  datatype AnalyzeRequest = AnalyzeRequest(image: string, prompt: string)

  /** The body of a visualize request for one category. */
  datatype VisualizeRequest = VisualizeRequest(originalImage: string, category: Category)

  /** Where the visualization of the current category stands. */
  datatype VisualState = Pending | Loaded(suggestions: seq<VisualSuggestion>) | Failed

  /** The single visualization slot: one category name and its state. */
  datatype Visualization = Visualization(categoryName: string, state: VisualState)

  /** What a category card shows below its description. */
  datatype Panel = Collapsed | Spinner | Photos(suggestions: seq<VisualSuggestion>) | FailureNotice

  /** The three views of the screen. */
  datatype View = UploadView | OptionList(options: seq<RecommendationOption>) | OptionDetail(option: RecommendationOption)

  /** The icon shown beside a category name. */
  datatype CategoryIcon = Gem | ShirtIcon | Palette | FootprintsIcon | SparklesIcon

  /** The alert shown when the analysis fails. */
  const SubmitFailedAlert := "Something went wrong. Please try again."

  /** The quick prompts offered under the request box. */
  const QuickPrompts: seq<string> := ["Make it more formal", "Add bohemian vibes",
                                      "Suggest matching accessories", "Change color palette"]

  /** `getCategoryIcon`: the name, lowercased, is tested for "jewel", then
      "top" or "shirt", then "color", then "shoe" or "foot"; the first test
      that holds picks the icon, and sparkles are the default. */
  function IconForCategory(name: string): (icon: CategoryIcon)
    ensures icon == Gem <==> Contains(ToLower(name), "jewel")
    ensures icon == ShirtIcon <==>
      !Contains(ToLower(name), "jewel") && (Contains(ToLower(name), "top") || Contains(ToLower(name), "shirt"))
    ensures icon == Palette <==>
      !Contains(ToLower(name), "jewel") && !Contains(ToLower(name), "top") && !Contains(ToLower(name), "shirt")
      && Contains(ToLower(name), "color")
    ensures icon == SparklesIcon <==>
      !Contains(ToLower(name), "jewel") && !Contains(ToLower(name), "top") && !Contains(ToLower(name), "shirt")
      && !Contains(ToLower(name), "color") && !Contains(ToLower(name), "shoe") && !Contains(ToLower(name), "foot")
  {
    var lowerName := ToLower(name);
    if Contains(lowerName, "jewel") then Gem
    else if Contains(lowerName, "top") || Contains(lowerName, "shirt") then ShirtIcon
    else if Contains(lowerName, "color") then Palette
    else if Contains(lowerName, "shoe") || Contains(lowerName, "foot") then FootprintsIcon
    else SparklesIcon
  }

  /** The icon does not depend on the case of the name. */
  lemma IconIgnoresCase(name: string)
    ensures IconForCategory(ToLower(name)) == IconForCategory(name)
  {
    ToLowerIdempotent(name);
  }

  class TaraStylist {
    var image: string
    var preview: string
    var prompt: string
    var loading: bool
    var results: Option<seq<RecommendationOption>>
    var selectedOption: Option<RecommendationOption>
    var visualizing: Option<Visualization>

    /** The analyze request in flight, if any. */
    ghost var pendingAnalysis: Option<AnalyzeRequest>
    /** The visualize requests in flight; a category clicked twice has two. */
    ghost var pendingVisualizations: multiset<VisualizeRequest>

    /** What the screen guarantees between events: the analyze button sits
        on the upload view and is disabled while loading, so at most one
        analysis is in flight and only while no results are shown; a chosen
        option is one of the results; a spinner always has a request of
        its category in flight. */
    ghost predicate Valid()
      reads this
    {
      && (loading <==> pendingAnalysis.Some?)
      && (loading ==> results.None?)
      && (selectedOption.Some? ==> results.Some? && selectedOption.value in results.value)
      && (visualizing.Some? && visualizing.value.state.Pending? ==>
            exists req :: req in pendingVisualizations && req.category.categoryName == visualizing.value.categoryName)
    }

    /** The initial state: no image, no prompt, nothing loaded. */
    constructor ()
      ensures Valid()
      ensures image == "" && preview == "" && prompt == "" && !loading
      ensures results.None? && selectedOption.None? && visualizing.None?
      ensures pendingVisualizations == multiset{}
    {
      image, preview, prompt, loading := "", "", "", false;
      results, selectedOption, visualizing := None, None, None;
      pendingAnalysis, pendingVisualizations := None, multiset{};
    }

    /** The view rendered: the upload form while there are no results,
        else the option list while no option is chosen, else its detail. */
    function CurrentView(): (v: View)
      reads this
      ensures v.UploadView? <==> results.None?
      ensures v.OptionList? <==> results.Some? && selectedOption.None?
      ensures v.OptionList? ==> v.options == results.value
      ensures v.OptionDetail? ==> selectedOption == Some(v.option)
    {
      if results.None? then UploadView
      else if selectedOption.None? then OptionList(results.value)
      else OptionDetail(selectedOption.value)
    }

    /** Whether the Generate button may be pressed. */
    function SubmitEnabled(): (enabled: bool)
      reads this
      ensures enabled <==> !loading && image != "" && prompt != ""
    {
      !(loading || image == "" || prompt == "")
    }

    /** The card of the category named `name`: expanded exactly when it is
        the visualized category, showing a spinner while pending, the photos
        once loaded and the failure text otherwise. */
    function PanelFor(name: string): (p: Panel)
      reads this
      ensures p != Collapsed <==> visualizing.Some? && visualizing.value.categoryName == name
      ensures p.Spinner? <==> p != Collapsed && visualizing.value.state.Pending?
      ensures p.Photos? ==> visualizing == Some(Visualization(name, Loaded(p.suggestions)))
      ensures p.FailureNotice? <==> p != Collapsed && visualizing.value.state.Failed?
    {
      if visualizing.None? || visualizing.value.categoryName != name then Collapsed
      else match visualizing.value.state
        case Pending => Spinner
        case Loaded(suggestions) => Photos(suggestions)
        case Failed => FailureNotice
    }

    /** The single slot: no two differently named categories are expanded. */
    lemma OnePanelAtATime(a: string, b: string)
      requires a != b
      ensures PanelFor(a) == Collapsed || PanelFor(b) == Collapsed
    {
    }

    /** The file reader has produced the data URL of the chosen photo. */
    method ImageLoaded(dataUrl: string)
      requires Valid()
      modifies this
      ensures Valid()
      ensures image == dataUrl && preview == dataUrl
      ensures prompt == old(prompt) && loading == old(loading) && results == old(results)
      ensures selectedOption == old(selectedOption) && visualizing == old(visualizing)
      ensures pendingAnalysis == old(pendingAnalysis) && pendingVisualizations == old(pendingVisualizations)
    {
      preview := dataUrl;
      image := dataUrl;
    }

    /** Typing in the request box, or picking a quick prompt. */
    method SetPrompt(text: string)
      requires Valid()
      modifies this
      ensures Valid()
      ensures prompt == text
      ensures image == old(image) && preview == old(preview) && loading == old(loading)
      ensures results == old(results) && selectedOption == old(selectedOption) && visualizing == old(visualizing)
      ensures pendingAnalysis == old(pendingAnalysis) && pendingVisualizations == old(pendingVisualizations)
    {
      prompt := text;
    }

    /** `handleSubmit`, up to the request: nothing unless both an image and
        a prompt are present; otherwise loading starts and the request
        carries both. The button exists only on the upload view and is
        disabled while loading. */
    method SubmitStart() returns (req: Option<AnalyzeRequest>)
      requires Valid() && results.None? && !loading
      modifies this
      ensures Valid()
      ensures req.Some? <==> image != "" && prompt != ""
      ensures req.Some? ==> req.value == AnalyzeRequest(image, prompt) && loading && pendingAnalysis == req
      ensures req.None? ==> !loading && pendingAnalysis.None?
      ensures image == old(image) && preview == old(preview) && prompt == old(prompt) && results == old(results)
      ensures selectedOption == old(selectedOption) && visualizing == old(visualizing)
      ensures pendingVisualizations == old(pendingVisualizations)
    {
      if image == "" || prompt == "" {
        return None;
      }
      loading := true;
      req := Some(AnalyzeRequest(image, prompt));
      pendingAnalysis := req;
    }

    /** `handleSubmit`, once the request settles: the options replace the
        results on success; on failure the results stay as they were (the
        user is alerted); loading ends either way. */
    method SubmitComplete(req: AnalyzeRequest, reply: Reply<TaraResponse>) returns (alert: Option<string>)
      requires Valid() && pendingAnalysis == Some(req)
      modifies this
      ensures Valid()
      ensures !loading && pendingAnalysis.None?
      ensures reply.Answered? ==> results == Some(reply.body.options) && alert.None?
      ensures !reply.Answered? ==> results == old(results) && alert == Some(SubmitFailedAlert)
      ensures image == old(image) && preview == old(preview) && prompt == old(prompt)
      ensures selectedOption == old(selectedOption) && visualizing == old(visualizing)
      ensures pendingVisualizations == old(pendingVisualizations)
    {
      alert := None;
      if reply.Answered? {
        results := Some(reply.body.options);
      } else {
        alert := Some(SubmitFailedAlert);
      }
      loading := false;
      pendingAnalysis := None;
    }

    /** Clicking an option of the list shows its detail. */
    method SelectOption(index: nat)
      requires Valid() && results.Some? && selectedOption.None? && index < |results.value|
      modifies this
      ensures Valid()
      ensures results == old(results) && visualizing == old(visualizing)
      ensures selectedOption == Some(results.value[index])
      ensures CurrentView() == OptionDetail(results.value[index])
      ensures image == old(image) && preview == old(preview) && prompt == old(prompt) && loading == old(loading)
      ensures pendingAnalysis == old(pendingAnalysis) && pendingVisualizations == old(pendingVisualizations)
    {
      selectedOption := Some(results.value[index]);
    }

    /** "Back": the detail closes and the visualization is dropped; the
        results stay, so the list comes back without a new request. */
    method Back()
      requires Valid() && selectedOption.Some?
      modifies this
      ensures Valid()
      ensures selectedOption.None? && visualizing.None?
      ensures CurrentView() == OptionList(old(results).value)
      ensures image == old(image) && preview == old(preview) && prompt == old(prompt) && loading == old(loading)
      ensures results == old(results)
      ensures pendingAnalysis == old(pendingAnalysis) && pendingVisualizations == old(pendingVisualizations)
    {
      selectedOption := None;
      visualizing := None;
    }

    /** "Upload New Photo": results, chosen option and visualization are
        cleared; the image and the prompt stay for a new submission. */
    method UploadNewPhoto()
      requires Valid() && results.Some?
      modifies this
      ensures Valid()
      ensures results.None? && selectedOption.None? && visualizing.None?
      ensures CurrentView() == UploadView
      ensures image == old(image) && preview == old(preview) && prompt == old(prompt) && loading == old(loading)
      ensures pendingAnalysis == old(pendingAnalysis) && pendingVisualizations == old(pendingVisualizations)
    {
      results := None;
      selectedOption := None;
      visualizing := None;
    }

    /** Whether clicking "Visualize Style" on `category` changes nothing:
        exactly when that category already holds loaded photos (an empty
        list of photos counts, as an empty array is truthy). */
    function VisualizeIsNoOp(category: Category): (noOp: bool)
      reads this
      ensures noOp <==> PanelFor(category.categoryName).Photos?
    {
      visualizing.Some? && visualizing.value.categoryName == category.categoryName
      && visualizing.value.state.Loaded?
    }

    /** `handleVisualize`, up to the request: unless the category already
        holds photos, the slot is taken over by that category as pending
        and a request is sent. A click while the same category is pending,
        or after it failed, sends another request. */
    method VisualizeStart(category: Category) returns (req: Option<VisualizeRequest>)
      requires Valid() && selectedOption.Some? && category in selectedOption.value.categories
      modifies this
      ensures Valid()
      ensures req.None? <==> old(VisualizeIsNoOp(category))
      ensures req.None? ==> visualizing == old(visualizing) && pendingVisualizations == old(pendingVisualizations)
      ensures req.Some? ==> req.value == VisualizeRequest(image, category)
                            && visualizing == Some(Visualization(category.categoryName, Pending))
                            && pendingVisualizations == old(pendingVisualizations) + multiset{req.value}
      ensures image == old(image) && preview == old(preview) && prompt == old(prompt) && loading == old(loading)
      ensures results == old(results) && selectedOption == old(selectedOption)
      ensures pendingAnalysis == old(pendingAnalysis)
    {
      if visualizing.Some? && visualizing.value.categoryName == category.categoryName
         && visualizing.value.state.Loaded? {
        return None;
      }
      visualizing := Some(Visualization(category.categoryName, Pending));
      req := Some(VisualizeRequest(image, category));
      pendingVisualizations := pendingVisualizations + multiset{req.value};
      assert req.value in pendingVisualizations;
    }

    /** `handleVisualize`, once its request settles: the slot is written
        for the category this request was for, whatever the slot holds by
        then: photos on success, the failure state otherwise. */
    method VisualizeComplete(req: VisualizeRequest, reply: Reply<VisualSuggestionsResponse>)
      requires Valid() && req in pendingVisualizations
      modifies this
      ensures Valid()
      ensures reply.Answered? ==> visualizing == Some(Visualization(req.category.categoryName, Loaded(reply.body.suggestions)))
      ensures !reply.Answered? ==> visualizing == Some(Visualization(req.category.categoryName, Failed))
      ensures pendingVisualizations == old(pendingVisualizations) - multiset{req}
      ensures image == old(image) && preview == old(preview) && prompt == old(prompt) && loading == old(loading)
      ensures results == old(results) && selectedOption == old(selectedOption)
      ensures pendingAnalysis == old(pendingAnalysis)
    {
      if reply.Answered? {
        visualizing := Some(Visualization(req.category.categoryName, Loaded(reply.body.suggestions)));
      } else {
        visualizing := Some(Visualization(req.category.categoryName, Failed));
      }
      pendingVisualizations := pendingVisualizations - multiset{req};
    }
  }

  /** A screen showing the detail of an option with two categories. */
  method OpenDetail(first: Category, second: Category) returns (screen: TaraStylist)
    ensures fresh(screen) && screen.Valid()
    ensures screen.selectedOption.Some? && first in screen.selectedOption.value.categories
    ensures second in screen.selectedOption.value.categories
    ensures screen.visualizing.None? && screen.pendingVisualizations == multiset{}
  {
    screen := new TaraStylist();
    screen.ImageLoaded("data:image/png;base64,AAAA");
    screen.SetPrompt(QuickPrompts[0]);
    var req := screen.SubmitStart();
    var option := RecommendationOption(1, "Look", "A look", [first, second]);
    var alert := screen.SubmitComplete(req.value, Answered(TaraResponse([option])));
    screen.SelectOption(0);
  }

  /** A visualization that settles late overwrites a newer one: after
      asking for category A and then B, A's answer takes over the slot,
      so B's card stays collapsed although its request is still in flight,
      and A's card shows A's photos. */
  method LateAnswerOverwritesNewerCategory(photos: seq<VisualSuggestion>)
    returns (panelA: Panel, panelB: Panel, ghost bStillPending: bool)
    ensures panelA == Photos(photos)
    ensures panelB == Collapsed
    ensures bStillPending
  {
    var a := Category("Jewelry", ["gold"], "Warm metals");
    var b := Category("Shoes", ["loafers"], "Low heels");
    var screen := OpenDetail(a, b);
    var reqA := screen.VisualizeStart(a);
    var reqB := screen.VisualizeStart(b);
    screen.VisualizeComplete(reqA.value, Answered(VisualSuggestionsResponse(photos)));
    panelA := screen.PanelFor(a.categoryName);
    panelB := screen.PanelFor(b.categoryName);
    bStillPending := reqB.value in screen.pendingVisualizations;
  }

  /** Clicking a category again while its photos are still pending sends a
      second request; once photos are loaded, a further click sends none. */
  method RepeatedClicks(photos: seq<VisualSuggestion>)
    returns (second: Option<VisualizeRequest>, third: Option<VisualizeRequest>, ghost inFlight: nat)
    ensures second.Some? && third.None?
    ensures inFlight == 1
  {
    var a := Category("Tops", ["linen"], "Light layers");
    var screen := OpenDetail(a, a);
    var first := screen.VisualizeStart(a);
    second := screen.VisualizeStart(a);
    assert first == second;
    screen.VisualizeComplete(first.value, Answered(VisualSuggestionsResponse(photos)));
    third := screen.VisualizeStart(a);
    inFlight := |screen.pendingVisualizations|;
  }

  /** An answer that arrives after "Back" brings the slot back: a card of
      the same name in the next detail opened is shown expanded at once. */
  method AnswerAfterBack(photos: seq<VisualSuggestion>) returns (panel: Panel)
    ensures panel == Photos(photos)
  {
    var a := Category("Color palette", ["teal"], "Cool tones");
    var screen := OpenDetail(a, a);
    var req := screen.VisualizeStart(a);
    screen.Back();
    screen.VisualizeComplete(req.value, Answered(VisualSuggestionsResponse(photos)));
    screen.SelectOption(0);
    panel := screen.PanelFor(a.categoryName);
  }
}
