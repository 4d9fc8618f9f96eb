/** The virtual try-on screen: a photo of a person, a photo of a garment,
    a prompt, the prompt suggestions fetched for the garment, and the
    generated picture. Fetching suggestions, generating and reading photos
    into previews are asynchronous; each is split into its start and its
    completion. */
module TryOnScreen {
  import opened Common

  /** Which of the two photos a preview read is for. */
  datatype Picture = Person | Garment

  datatype PreviewRead = PreviewRead(picture: Picture, file: ImageFile)

  /** The generate request as sent. */
  datatype GenerateRequest = GenerateRequest(humanImage: ImageFile, garmentImage: ImageFile, prompt: string)

  /** The alert shown when generating fails. */
  const GenerateFailedAlert := "Failed to generate image. Please try again."

  class VirtualTryOn {
    var humanImage: Option<ImageFile>
    var humanPreview: Option<string>
    var garmentImage: Option<ImageFile>
    var garmentPreview: Option<string>
    var prompt: string
    var suggestions: seq<string>
    var resultImage: Option<string>
    var isGenerating: bool
    var isLoadingSuggestions: bool

    /** The generation in flight, if any. */
    ghost var pendingGenerate: Option<GenerateRequest>
    /** The garments whose suggestions are still being fetched. */
    ghost var pendingFetches: multiset<ImageFile>
    /** The preview reads not yet finished. */
    ghost var previewReads: multiset<PreviewRead>

    /** The Generate button is disabled while generating, so at most one
        generation is in flight; suggestions are said to be loading only
        while some fetch is in flight. */
    ghost predicate Valid()
      reads this
    {
      && (isGenerating <==> pendingGenerate.Some?)
      && (isLoadingSuggestions ==> |pendingFetches| > 0)
    }

    constructor ()
      ensures Valid()
      ensures humanImage.None? && humanPreview.None? && garmentImage.None? && garmentPreview.None?
      ensures prompt == "" && suggestions == [] && resultImage.None?
      ensures !isGenerating && !isLoadingSuggestions
      ensures pendingFetches == multiset{} && previewReads == multiset{}
    {
      humanImage, humanPreview, garmentImage, garmentPreview := None, None, None, None;
      prompt, suggestions, resultImage := "", [], None;
      isGenerating, isLoadingSuggestions := false, false;
      pendingGenerate, pendingFetches, previewReads := None, multiset{}, multiset{};
    }

    /** Whether the Generate button may be pressed. */
    function GenerateEnabled(): (enabled: bool)
      reads this
      ensures enabled <==> humanImage.Some? && garmentImage.Some? && prompt != "" && !isGenerating
    {
      !(humanImage.None? || garmentImage.None? || prompt == "" || isGenerating)
    }

    /** The suggestion panel is shown under a garment's preview; its "No
        suggestions available" notice exactly when there are none and none
        are being fetched. */
    function NoSuggestionsNotice(): (shown: bool)
      reads this
      ensures shown <==> garmentPreview.Some? && |suggestions| == 0 && !isLoadingSuggestions
    {
      if garmentPreview.None? then false else |suggestions| == 0 && !isLoadingSuggestions
    }

    /** `handleHumanSelect` with a file, through the upload button shown
        while there is no preview: the person's photo is replaced and its
        preview read starts; nothing else changes. */
    method SelectHuman(file: ImageFile)
      requires Valid() && humanPreview.None?
      modifies this
      ensures Valid()
      ensures humanImage == Some(file)
      ensures previewReads == old(previewReads) + multiset{PreviewRead(Person, file)}
      ensures humanPreview == old(humanPreview) && garmentImage == old(garmentImage) && garmentPreview == old(garmentPreview)
      ensures prompt == old(prompt) && suggestions == old(suggestions) && resultImage == old(resultImage)
      ensures isGenerating == old(isGenerating) && isLoadingSuggestions == old(isLoadingSuggestions)
      ensures pendingGenerate == old(pendingGenerate) && pendingFetches == old(pendingFetches)
    {
      humanImage := Some(file);
      previewReads := previewReads + multiset{PreviewRead(Person, file)};
    }

    /** `handleGarmentSelect` with a file, through the upload button shown
        while there is no preview, up to the suggestion request: the garment
        is replaced, its preview read starts, the suggestions are emptied and
        their fetch starts. */
    method SelectGarment(file: ImageFile)
      requires Valid() && garmentPreview.None?
      modifies this
      ensures Valid()
      ensures garmentImage == Some(file) && suggestions == [] && isLoadingSuggestions
      ensures previewReads == old(previewReads) + multiset{PreviewRead(Garment, file)}
      ensures pendingFetches == old(pendingFetches) + multiset{file}
      ensures humanImage == old(humanImage) && humanPreview == old(humanPreview) && garmentPreview == old(garmentPreview)
      ensures prompt == old(prompt) && resultImage == old(resultImage)
      ensures isGenerating == old(isGenerating) && pendingGenerate == old(pendingGenerate)
    {
      garmentImage := Some(file);
      previewReads := previewReads + multiset{PreviewRead(Garment, file)};
      suggestions := [];
      isLoadingSuggestions := true;
      pendingFetches := pendingFetches + multiset{file};
    }

    /** `fetchSuggestions`, once its request settles: the list of the
        answer (or none, when it has no list) on success; on failure the
        suggestions stay as they were and nothing is shown. Loading ends
        either way, even while another fetch is still in flight. */
    method SuggestionsComplete(file: ImageFile, reply: Reply<Option<seq<string>>>)
      requires Valid() && file in pendingFetches
      modifies this
      ensures Valid()
      ensures reply.Answered? && reply.body.Some? ==> suggestions == reply.body.value
      ensures reply.Answered? && reply.body.None? ==> suggestions == []
      ensures !reply.Answered? ==> suggestions == old(suggestions)
      ensures !isLoadingSuggestions && pendingFetches == old(pendingFetches) - multiset{file}
      ensures humanImage == old(humanImage) && humanPreview == old(humanPreview)
      ensures garmentImage == old(garmentImage) && garmentPreview == old(garmentPreview)
      ensures prompt == old(prompt) && resultImage == old(resultImage)
      ensures isGenerating == old(isGenerating) && pendingGenerate == old(pendingGenerate)
      ensures previewReads == old(previewReads)
    {
      if reply.Answered? {
        suggestions := if reply.body.Some? then reply.body.value else [];
      }
      isLoadingSuggestions := false;
      pendingFetches := pendingFetches - multiset{file};
    }

    /** A preview read has finished: its photo is shown. */
    method PreviewLoaded(read: PreviewRead)
      requires Valid() && read in previewReads
      modifies this
      ensures Valid()
      ensures read.picture == Person ==> humanPreview == Some(read.file.dataUrl) && garmentPreview == old(garmentPreview)
      ensures read.picture == Garment ==> garmentPreview == Some(read.file.dataUrl) && humanPreview == old(humanPreview)
      ensures previewReads == old(previewReads) - multiset{read}
      ensures humanImage == old(humanImage) && garmentImage == old(garmentImage)
      ensures prompt == old(prompt) && suggestions == old(suggestions) && resultImage == old(resultImage)
      ensures isGenerating == old(isGenerating) && isLoadingSuggestions == old(isLoadingSuggestions)
      ensures pendingGenerate == old(pendingGenerate) && pendingFetches == old(pendingFetches)
    {
      if read.picture == Person {
        humanPreview := Some(read.file.dataUrl);
      } else {
        garmentPreview := Some(read.file.dataUrl);
      }
      previewReads := previewReads - multiset{read};
    }

    /** The remove button on the person's preview clears only that photo
        and its preview. */
    method RemoveHuman()
      requires Valid() && humanPreview.Some?
      modifies this
      ensures Valid()
      ensures humanImage.None? && humanPreview.None?
      ensures garmentImage == old(garmentImage) && garmentPreview == old(garmentPreview)
      ensures prompt == old(prompt) && suggestions == old(suggestions) && resultImage == old(resultImage)
      ensures isGenerating == old(isGenerating) && isLoadingSuggestions == old(isLoadingSuggestions)
      ensures pendingGenerate == old(pendingGenerate) && pendingFetches == old(pendingFetches)
      ensures previewReads == old(previewReads)
    {
      humanPreview := None;
      humanImage := None;
    }

    /** The remove button on the garment's preview clears the garment, its
        preview and the suggestions. */
    method RemoveGarment()
      requires Valid() && garmentPreview.Some?
      modifies this
      ensures Valid()
      ensures garmentImage.None? && garmentPreview.None? && suggestions == []
      ensures humanImage == old(humanImage) && humanPreview == old(humanPreview)
      ensures prompt == old(prompt) && resultImage == old(resultImage)
      ensures isGenerating == old(isGenerating) && isLoadingSuggestions == old(isLoadingSuggestions)
      ensures pendingGenerate == old(pendingGenerate) && pendingFetches == old(pendingFetches)
      ensures previewReads == old(previewReads)
    {
      garmentPreview := None;
      garmentImage := None;
      suggestions := [];
    }

    /** Typing a prompt. */
    method SetPrompt(text: string)
      requires Valid()
      modifies this
      ensures Valid()
      ensures prompt == text
      ensures humanImage == old(humanImage) && humanPreview == old(humanPreview)
      ensures garmentImage == old(garmentImage) && garmentPreview == old(garmentPreview)
      ensures suggestions == old(suggestions) && resultImage == old(resultImage)
      ensures isGenerating == old(isGenerating) && isLoadingSuggestions == old(isLoadingSuggestions)
      ensures pendingGenerate == old(pendingGenerate) && pendingFetches == old(pendingFetches)
      ensures previewReads == old(previewReads)
    {
      prompt := text;
    }

    /** Clicking a suggestion in the panel under the garment's preview
        makes it the prompt, exactly. */
    method ChooseSuggestion(index: nat)
      requires Valid() && garmentPreview.Some? && index < |suggestions|
      modifies this
      ensures Valid()
      ensures suggestions == old(suggestions) && resultImage == old(resultImage)
      ensures prompt == suggestions[index]
      ensures humanImage == old(humanImage) && humanPreview == old(humanPreview)
      ensures garmentImage == old(garmentImage) && garmentPreview == old(garmentPreview)
      ensures isGenerating == old(isGenerating) && isLoadingSuggestions == old(isLoadingSuggestions)
      ensures pendingGenerate == old(pendingGenerate) && pendingFetches == old(pendingFetches)
      ensures previewReads == old(previewReads)
    {
      prompt := suggestions[index];
    }

    /** `handleGenerate`, up to the request, pressed while not generating:
        nothing unless both photos and a prompt are present; otherwise
        generating starts and all three are sent. */
    method GenerateStart() returns (req: Option<GenerateRequest>)
      requires Valid() && !isGenerating
      modifies this
      ensures Valid()
      ensures humanImage == old(humanImage) && humanPreview == old(humanPreview)
      ensures garmentImage == old(garmentImage) && garmentPreview == old(garmentPreview)
      ensures req.Some? <==> old(GenerateEnabled())
      ensures req.Some? ==> req.value == GenerateRequest(humanImage.value, garmentImage.value, prompt)
                            && isGenerating && pendingGenerate == req
      ensures req.None? ==> !isGenerating && pendingGenerate.None?
      ensures prompt == old(prompt) && suggestions == old(suggestions) && resultImage == old(resultImage)
      ensures isLoadingSuggestions == old(isLoadingSuggestions) && pendingFetches == old(pendingFetches)
      ensures previewReads == old(previewReads)
    {
      if humanImage.None? || garmentImage.None? || prompt == "" {
        return None;
      }
      isGenerating := true;
      req := Some(GenerateRequest(humanImage.value, garmentImage.value, prompt));
      pendingGenerate := req;
    }

    /** `handleGenerate`, once its request settles: the picture's object
        URL on success; on failure the previous picture stays and the alert
        is shown. Generating ends either way. */
    method GenerateComplete(req: GenerateRequest, reply: Reply<string>) returns (alert: Option<string>)
      requires Valid() && pendingGenerate == Some(req)
      modifies this
      ensures Valid()
      ensures reply.Answered? ==> resultImage == Some(reply.body) && alert.None?
      ensures !reply.Answered? ==> resultImage == old(resultImage) && alert == Some(GenerateFailedAlert)
      ensures !isGenerating && pendingGenerate.None?
      ensures humanImage == old(humanImage) && humanPreview == old(humanPreview)
      ensures garmentImage == old(garmentImage) && garmentPreview == old(garmentPreview)
      ensures prompt == old(prompt) && suggestions == old(suggestions)
      ensures isLoadingSuggestions == old(isLoadingSuggestions) && pendingFetches == old(pendingFetches)
      ensures previewReads == old(previewReads)
    {
      alert := None;
      if reply.Answered? {
        resultImage := Some(reply.body);
      } else {
        alert := Some(GenerateFailedAlert);
      }
      isGenerating := false;
      pendingGenerate := None;
    }

    /** The reset button under the picture clears it. */
    method ResetResult()
      requires Valid()
      modifies this
      ensures Valid()
      ensures resultImage.None?
      ensures humanImage == old(humanImage) && humanPreview == old(humanPreview)
      ensures garmentImage == old(garmentImage) && garmentPreview == old(garmentPreview)
      ensures prompt == old(prompt) && suggestions == old(suggestions)
      ensures isGenerating == old(isGenerating) && isLoadingSuggestions == old(isLoadingSuggestions)
      ensures pendingGenerate == old(pendingGenerate) && pendingFetches == old(pendingFetches)
      ensures previewReads == old(previewReads)
    {
      resultImage := None;
    }
  }

  /** Suggestions fetched for a garment that was removed meanwhile still
      land: after choosing a garment, removing it and letting its fetch
      succeed, there is no garment but there are its suggestions. */
  method SuggestionsOutliveGarment(garment: ImageFile, fetched: seq<string>)
    returns (garmentLeft: Option<ImageFile>, shown: seq<string>)
    ensures garmentLeft.None? && shown == fetched
  {
    var screen := new VirtualTryOn();
    screen.SelectGarment(garment);
    screen.PreviewLoaded(PreviewRead(Garment, garment));
    screen.RemoveGarment();
    screen.SuggestionsComplete(garment, Answered(Some(fetched)));
    garmentLeft, shown := screen.garmentImage, screen.suggestions;
  }

  /** With two garments chosen in a row (the second before the first's
      preview is shown), the first fetch to settle ends the
      loading state although the second is still in flight, and the older
      garment's list can be the one shown. */
  method OlderSuggestionsWin(first: ImageFile, second: ImageFile, forFirst: seq<string>, forSecond: seq<string>)
    returns (loadingWhileOlderPending: bool, shown: seq<string>)
    ensures !loadingWhileOlderPending
    ensures shown == forFirst
  {
    var screen := new VirtualTryOn();
    screen.SelectGarment(first);
    screen.SelectGarment(second);
    screen.SuggestionsComplete(second, Answered(Some(forSecond)));
    loadingWhileOlderPending := screen.isLoadingSuggestions;
    screen.SuggestionsComplete(first, Answered(Some(forFirst)));
    shown := screen.suggestions;
  }

  /** Generating with a chosen suggestion sends that suggestion verbatim. */
  method GenerateWithSuggestion(person: ImageFile, garment: ImageFile, fetched: seq<string>)
    returns (req: Option<GenerateRequest>)
    requires |fetched| > 0 && fetched[0] != ""
    ensures req == Some(GenerateRequest(person, garment, fetched[0]))
  {
    var screen := new VirtualTryOn();
    screen.SelectHuman(person);
    screen.SelectGarment(garment);
    screen.SuggestionsComplete(garment, Answered(Some(fetched)));
    screen.PreviewLoaded(PreviewRead(Garment, garment));
    screen.ChooseSuggestion(0);
    req := screen.GenerateStart();
  }
}
