/** The StyleScan screen: two image slots, each with its own photo, preview
    and garment analysis, one "analyzing" flag shared by both, and a mode
    switch between a single view (slot 1) and a compare view (both slots
    side by side, each analysed on its own). Analysis is asynchronous and
    split into its start and its completion; reading a photo into a preview
    is asynchronous as well. */
module StyleScan {
  import opened Common
  import opened Text
  import opened Models

  datatype Mode = Single | Compare

  datatype Slot = First | Second

  /** An analysis request as sent: its slot, photo and session id. */
  datatype AnalyzeRequest = AnalyzeRequest(slot: Slot, image: ImageFile, sessionId: string)

  /** A preview read started by a photo selection. */
  datatype PreviewRead = PreviewRead(slot: Slot, file: ImageFile)

  /** The number a slot is known by. */
  function SlotNumber(slot: Slot): (n: nat)
    ensures n == 1 || n == 2
    ensures (n == 1) <==> slot == First
  {
    if slot == First then 1 else 2
  }

  /** The session id sent with an analysis: `stylescan-session-<n>`. */
  function SessionId(slot: Slot): (id: string)
    ensures slot == First ==> id == "stylescan-session-1"
    ensures slot == Second ==> id == "stylescan-session-2"
  {
    "stylescan-session-" + NatToString(SlotNumber(slot))
  }

  /** The two slots use two different session ids. */
  lemma SessionIdsDiffer()
    ensures SessionId(First) != SessionId(Second)
  {
  }

  /** The alert shown when an analysis fails: a response that is not ok
      yields `Analysis failed: HTTP <status>: <body text>`, any other
      failure `Analysis failed: <error message>`. */
  function FailureAlert(reply: Reply<GarmentAnalysis>): (alert: string)
    requires !reply.Answered?
    ensures StartsWith(alert, "Analysis failed: ")
    ensures reply.NotOk? ==> alert == "Analysis failed: HTTP " + NatToString(reply.status) + ": " + reply.text
    ensures reply.NetworkError? ==> alert == "Analysis failed: " + reply.message
  {
    var message := if reply.NotOk? then "HTTP " + NatToString(reply.status) + ": " + reply.text else reply.message;
    var alert := "Analysis failed: " + message;
    assert alert[..|"Analysis failed: "|] == "Analysis failed: ";
    alert
  }

  /** The body text of a failed response ends the alert, after the status. */
  lemma AlertEndsWithBody(status: nat, text: string)
    ensures var alert := FailureAlert(NotOk(status, text));
            |alert| >= |text| && alert[|alert| - |text|..] == text
  {
  }

  class StyleScanScreen {
    var mode: Mode
    var selectedImage1: Option<ImageFile>
    var imagePreview1: Option<string>
    var selectedImage2: Option<ImageFile>
    var imagePreview2: Option<string>
    var analysis1: Option<GarmentAnalysis>
    var analysis2: Option<GarmentAnalysis>
    var isAnalyzing: bool

    /** The analysis in flight, if any. */
    ghost var pending: Option<AnalyzeRequest>
    /** The preview reads not yet finished. */
    ghost var previewReads: multiset<PreviewRead>

    /** Every Analyze button is disabled while the flag is set, so at most
        one analysis is in flight, exactly while the flag is set. */
    ghost predicate Valid()
      reads this
    {
      isAnalyzing <==> pending.Some?
    }

    constructor ()
      ensures Valid()
      ensures mode == Single && !isAnalyzing
      ensures selectedImage1.None? && imagePreview1.None? && analysis1.None?
      ensures selectedImage2.None? && imagePreview2.None? && analysis2.None?
      ensures previewReads == multiset{}
    {
      mode, isAnalyzing := Single, false;
      selectedImage1, imagePreview1, analysis1 := None, None, None;
      selectedImage2, imagePreview2, analysis2 := None, None, None;
      pending, previewReads := None, multiset{};
    }

    function ImageOf(slot: Slot): Option<ImageFile>
      reads this
    {
      if slot == First then selectedImage1 else selectedImage2
    }

    function PreviewOf(slot: Slot): Option<string>
      reads this
    {
      if slot == First then imagePreview1 else imagePreview2
    }

    function AnalysisOf(slot: Slot): Option<GarmentAnalysis>
      reads this
    {
      if slot == First then analysis1 else analysis2
    }

    /** The other slot is left exactly as it was. */
    twostate predicate OtherSlotUnchanged(slot: Slot)
      reads this
    {
      if slot == First then
        selectedImage2 == old(selectedImage2) && imagePreview2 == old(imagePreview2) && analysis2 == old(analysis2)
      else
        selectedImage1 == old(selectedImage1) && imagePreview1 == old(imagePreview1) && analysis1 == old(analysis1)
    }

    /** Slot 1 is on screen in both modes, slot 2 only in compare mode. */
    predicate SlotShown(slot: Slot)
      reads this
    {
      slot == First || mode == Compare
    }

    /** A slot's Analyze button is shown while the slot is on screen with a
        preview and no analysis, and can be pressed while no analysis runs
        in either slot. */
    function AnalyzeOffered(slot: Slot): (offered: bool)
      reads this
      ensures offered ==> PreviewOf(slot).Some? && AnalysisOf(slot).None?
      ensures slot == Second && mode == Single ==> !offered
    {
      SlotShown(slot) && PreviewOf(slot).Some? && AnalysisOf(slot).None?
    }

    function AnalyzeEnabled(slot: Slot): (enabled: bool)
      reads this
      ensures enabled <==> (slot == First || mode == Compare) && PreviewOf(slot).Some? && AnalysisOf(slot).None? && !isAnalyzing
      ensures mode == Single ==> (enabled <==> slot == First && imagePreview1.Some? && analysis1.None? && !isAnalyzing)
    {
      AnalyzeOffered(slot) && !isAnalyzing
    }

    /** While an analysis runs, no Analyze button can be pressed. */
    lemma NoSecondAnalysis(slot: Slot)
      requires Valid() && pending.Some?
      ensures !AnalyzeEnabled(slot)
    {
    }

    /** `handleImageSelect` with a file, from the upload control that a slot
        on screen shows while it has no preview: the slot takes the photo
        and drops its analysis, and a preview read starts; the other slot is
        kept. */
    method SelectImage(slot: Slot, file: ImageFile)
      requires Valid() && SlotShown(slot) && PreviewOf(slot).None?
      modifies this
      ensures Valid()
      ensures ImageOf(slot) == Some(file) && AnalysisOf(slot).None? && PreviewOf(slot) == old(PreviewOf(slot))
      ensures OtherSlotUnchanged(slot)
      ensures previewReads == old(previewReads) + multiset{PreviewRead(slot, file)}
      ensures mode == old(mode) && isAnalyzing == old(isAnalyzing) && pending == old(pending)
    {
      if slot == First {
        selectedImage1 := Some(file);
        analysis1 := None;
      } else {
        selectedImage2 := Some(file);
        analysis2 := None;
      }
      previewReads := previewReads + multiset{PreviewRead(slot, file)};
    }

    /** The reader of a selection has finished: the slot shows that photo,
        whatever the slot holds by then. */
    method PreviewLoaded(read: PreviewRead)
      requires Valid() && read in previewReads
      modifies this
      ensures Valid()
      ensures PreviewOf(read.slot) == Some(read.file.dataUrl)
      ensures ImageOf(read.slot) == old(ImageOf(read.slot)) && AnalysisOf(read.slot) == old(AnalysisOf(read.slot))
      ensures OtherSlotUnchanged(read.slot)
      ensures previewReads == old(previewReads) - multiset{read}
      ensures mode == old(mode) && isAnalyzing == old(isAnalyzing) && pending == old(pending)
    {
      if read.slot == First {
        imagePreview1 := Some(read.file.dataUrl);
      } else {
        imagePreview2 := Some(read.file.dataUrl);
      }
      previewReads := previewReads - multiset{read};
    }

    /** The remove button, shown on a slot on screen that has a preview:
        the slot's preview, photo and analysis are cleared; the other slot
        is kept. */
    method RemoveImage(slot: Slot)
      requires Valid() && SlotShown(slot) && PreviewOf(slot).Some?
      modifies this
      ensures Valid()
      ensures ImageOf(slot).None? && PreviewOf(slot).None? && AnalysisOf(slot).None?
      ensures OtherSlotUnchanged(slot)
      ensures mode == old(mode) && isAnalyzing == old(isAnalyzing) && pending == old(pending) && previewReads == old(previewReads)
    {
      if slot == First {
        imagePreview1, selectedImage1, analysis1 := None, None, None;
      } else {
        imagePreview2, selectedImage2, analysis2 := None, None, None;
      }
    }

    /** The mode buttons change the mode and nothing else. */
    method SetMode(m: Mode)
      requires Valid()
      modifies this
      ensures Valid()
      ensures mode == m
      ensures selectedImage1 == old(selectedImage1) && imagePreview1 == old(imagePreview1) && analysis1 == old(analysis1)
      ensures selectedImage2 == old(selectedImage2) && imagePreview2 == old(imagePreview2) && analysis2 == old(analysis2)
      ensures isAnalyzing == old(isAnalyzing) && pending == old(pending) && previewReads == old(previewReads)
    {
      mode := m;
    }

    /** `handleAnalyze`, up to the request, pressed on an enabled button:
        nothing when the slot has no photo; otherwise the shared flag is set
        and the photo is sent with the slot's session id. */
    method AnalyzeStart(slot: Slot) returns (req: Option<AnalyzeRequest>)
      requires Valid() && AnalyzeEnabled(slot)
      modifies this
      ensures Valid()
      ensures req.Some? <==> ImageOf(slot).Some?
      ensures req.Some? ==> req.value == AnalyzeRequest(slot, ImageOf(slot).value, SessionId(slot))
                            && isAnalyzing && pending == req
      ensures req.None? ==> !isAnalyzing && pending.None?
      ensures selectedImage1 == old(selectedImage1) && imagePreview1 == old(imagePreview1) && analysis1 == old(analysis1)
      ensures selectedImage2 == old(selectedImage2) && imagePreview2 == old(imagePreview2) && analysis2 == old(analysis2)
      ensures mode == old(mode) && previewReads == old(previewReads)
    {
      var selectedImage := if slot == First then selectedImage1 else selectedImage2;
      if selectedImage.None? {
        return None;
      }
      isAnalyzing := true;
      req := Some(AnalyzeRequest(slot, selectedImage.value, SessionId(slot)));
      pending := req;
    }

    /** `handleAnalyze`, once the request settles: on success the analysis
        goes to the slot the request was started for, even if that slot's
        photo has been replaced or removed meanwhile; on failure no analysis
        changes and the alert names the failure. The flag is cleared either
        way. */
    method AnalyzeComplete(req: AnalyzeRequest, reply: Reply<GarmentAnalysis>) returns (alert: Option<string>)
      requires Valid() && pending == Some(req)
      modifies this
      ensures Valid()
      ensures !isAnalyzing && pending.None?
      ensures reply.Answered? ==> AnalysisOf(req.slot) == Some(reply.body) && alert.None?
      ensures !reply.Answered? ==> AnalysisOf(req.slot) == old(AnalysisOf(req.slot)) && alert == Some(FailureAlert(reply))
      ensures ImageOf(req.slot) == old(ImageOf(req.slot)) && PreviewOf(req.slot) == old(PreviewOf(req.slot))
      ensures OtherSlotUnchanged(req.slot)
      ensures mode == old(mode) && previewReads == old(previewReads)
    {
      alert := None;
      if reply.Answered? {
        if req.slot == First {
          analysis1 := Some(reply.body);
        } else {
          analysis2 := Some(reply.body);
        }
      } else {
        alert := Some(FailureAlert(reply));
      }
      isAnalyzing := false;
      pending := None;
    }
  }

  /** The analysis of a replaced photo lands on its slot: select A, start
      its analysis, remove A and select B in the same slot, and let A's
      analysis arrive. The slot then shows photo B with A's analysis and no
      Analyze button. */
  method StaleAnalysisLands(a: ImageFile, b: ImageFile, analysisOfA: GarmentAnalysis)
    returns (image: Option<ImageFile>, analysis: Option<GarmentAnalysis>, offered: bool)
    ensures image == Some(b)
    ensures analysis == Some(analysisOfA)
    ensures !offered
  {
    var screen := new StyleScanScreen();
    screen.SelectImage(First, a);
    screen.PreviewLoaded(PreviewRead(First, a));
    var req := screen.AnalyzeStart(First);
    screen.RemoveImage(First);
    screen.SelectImage(First, b);
    screen.PreviewLoaded(PreviewRead(First, b));
    var alert := screen.AnalyzeComplete(req.value, Answered(analysisOfA));
    image, analysis := screen.ImageOf(First), screen.AnalysisOf(First);
    offered := screen.AnalyzeOffered(First);
  }

  /** Compare mode is two independent analyses: the second slot can be
      analysed only once the first has finished, and each lands in its own
      slot. */
  method CompareTwo(a: ImageFile, b: ImageFile, first: GarmentAnalysis, second: GarmentAnalysis)
    returns (blockedMeanwhile: bool, result1: Option<GarmentAnalysis>, result2: Option<GarmentAnalysis>)
    ensures blockedMeanwhile
    ensures result1 == Some(first) && result2 == Some(second)
  {
    var screen := new StyleScanScreen();
    screen.SetMode(Compare);
    screen.SelectImage(First, a);
    screen.PreviewLoaded(PreviewRead(First, a));
    screen.SelectImage(Second, b);
    screen.PreviewLoaded(PreviewRead(Second, b));
    var req1 := screen.AnalyzeStart(First);
    blockedMeanwhile := !screen.AnalyzeEnabled(Second);
    var alert1 := screen.AnalyzeComplete(req1.value, Answered(first));
    var req2 := screen.AnalyzeStart(Second);
    var alert2 := screen.AnalyzeComplete(req2.value, Answered(second));
    result1, result2 := screen.analysis1, screen.analysis2;
  }
}
