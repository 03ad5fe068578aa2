/**
 * Step 1 of the pipeline: licence-plate detection. The camera and file
 * capture and the call to the vision model are outside the model; what is
 * modelled is how the model's text reply becomes either an error or a plate,
 * how the component's state changes around the call, the fallback plate used
 * when the call fails, the mode switch between camera and upload, the
 * extraction of the base64 payload from a data URL, and the Proceed gate.
 */
module PlateDetectionStep {

  import opened Wrappers
  import opened Strings
  import opened SessionData

  /** The sentinel the model is told to return when it sees no plate. */
  const NoPlate: string := "NO PLATE"

  /** Replies shorter than this many UTF-16 code units are rejected. */
  const MinPlateLength: nat := 4

  /**
   * The error cell is `null` or holds one fixed message, so its value is
   * modelled by this single-valued type; `Message` gives the text shown.
   */
  datatype PlateError = InvalidPlateError {
    function Message(): string {
      "Could not detect a valid plate. Please try again."
    }
  }

  /** The plate a failed call falls back to, after a delay, for the demo. */
  const FallbackPlate: string := "TN 07 AB 4321"

  /** What the reply classification lets through as a plate. */
  predicate ValidPlate(p: string) {
    p != NoPlate && Utf16Length(p) >= MinPlateLength && IsTrimmed(p)
  }

  // ---------------------------------------------------------------------------
  // The reply and the data URL
  // ---------------------------------------------------------------------------

  /**
   * `response.text?.trim() || "NO PLATE"`: the trimmed reply, with a missing
   * reply and one that is empty after trimming both read as the sentinel.
   */
  function ReplyText(text: Option<string>): (r: string)
    ensures r != [] && IsTrimmed(r)
    ensures text.None? ==> r == NoPlate
    ensures text.Some? ==> r == (if Trim(text.value) == [] then NoPlate else Trim(text.value))
  {
    match text
    case None => NoPlate
    case Some(t) => if Trim(t) == [] then NoPlate else Trim(t)
  }

  datatype Verdict = Rejected | Accepted(plate: string)

  /**
   * The reply is rejected when it is the sentinel or shorter than four code
   * units; otherwise the trimmed reply is the plate.
   */
  function Classify(text: Option<string>): (v: Verdict)
    ensures v.Accepted? <==>
      text.Some? && Trim(text.value) != NoPlate && Utf16Length(Trim(text.value)) >= MinPlateLength
    ensures v.Accepted? ==> v.plate == Trim(text.value) && ValidPlate(v.plate)
  {
    var t := ReplyText(text);
    if t == NoPlate || Utf16Length(t) < MinPlateLength then Rejected else Accepted(t)
  }

  /** White space around a reply never changes the verdict. */
  lemma ClassifyIgnoresPadding(p: string, t: string, q: string)
    requires AllSpace(p) && AllSpace(q)
    ensures Classify(Some(p + Trim(t) + q)) == Classify(Some(t))
  {
    TrimUnique(p, Trim(t), q);
  }

  /**
   * `dataUrl.split(',')[1]`: the piece between the first and the second
   * comma (or the end), and `undefined` when there is no comma at all.
   */
  function Base64Payload(dataUrl: string): (r: Option<string>)
    ensures r.None? <==> ',' !in dataUrl
    ensures r.Some? ==> ',' !in r.value
  {
    SplitSingle(dataUrl, ',');
    PieceAt(dataUrl, ',', 1)
  }

  /** For a data URL `header,payload` the payload is what is sent to the model. */
  lemma {:induction false} Base64PayloadOfDataUrl(header: string, payload: string)
    requires ',' !in header && ',' !in payload
    ensures Base64Payload(header + "," + payload) == Some(payload)
  {
    SplitFirst(header, ',', payload);
    SplitNoSeparator(payload, ',');
  }

  /** Anything after a second comma is dropped. */
  lemma {:induction false} Base64PayloadStopsAtSecondComma(header: string, payload: string, more: string)
    requires ',' !in header && ',' !in payload
    ensures Base64Payload(header + "," + payload + "," + more) == Some(payload)
  {
    assert header + "," + payload + "," + more == header + [','] + (payload + [','] + more);
    SplitFirst(header, ',', payload + [','] + more);
    SplitFirst(payload, ',', more);
  }

  // ---------------------------------------------------------------------------
  // The component's state
  // ---------------------------------------------------------------------------

  datatype Mode = Camera | Upload

  /** How a call to the vision model ends: a reply (whose text may be missing) or an exception. */
  datatype CallOutcome = Replied(text: Option<string>) | Threw

  /**
   * The state cells `isScanning`, `detectedPlate`, `mode`, `uploadedImage`
   * and `error`, and the number of fallback timers scheduled but not yet run.
   */
  datatype PlateState = PlateState(
    isScanning: bool,
    detectedPlate: string,
    mode: Mode,
    uploadedImage: Option<string>,
    error: Option<PlateError>,
    pendingFallbacks: nat)

  const Initial: PlateState := PlateState(false, "", Camera, None, None, 0)

  datatype PlateEvent =
    | LiveClicked                     // the "Live" toggle
    | CameraDenied                    // getUserMedia rejected while in camera mode
    | FileLoaded(dataUrl: string)     // the file reader delivered an uploaded image
    | CallStarted                     // callGeminiAPI begins (capture, or after an upload)
    | CallReturned(outcome: CallOutcome)  // callGeminiAPI resumes after its await
    | FallbackFired                   // a fallback timer runs
    | ProceedClicked                  // the Proceed button

  /** The `data` object Proceed hands to the pipeline. */
  function PlatePatch(plate: string): Patch {
    Patch(Some(plate), None, None, None, None)
  }

  /** Whether the event can happen in this state: the control is rendered and enabled, the timer pending. */
  predicate Offered(st: PlateState, e: PlateEvent) {
    match e
    case LiveClicked => true
    case CameraDenied => st.mode == Camera
    case FileLoaded(_) => true
    case CallStarted => !st.isScanning
    case CallReturned(_) => st.isScanning
    case FallbackFired => st.pendingFallbacks > 0
    case ProceedClicked => st.detectedPlate != ""
  }

  /** The `if` on the reply's text: a rejected reply sets the error, an accepted one becomes the plate. */
  function AfterVerdict(st: PlateState, v: Verdict): PlateState {
    match v
    case Rejected => st.(error := Some(InvalidPlateError))
    case Accepted(p) => st.(detectedPlate := p)
  }

  /** What the handler of each event does, and the data it hands to the pipeline. */
  function Handle(st: PlateState, e: PlateEvent): (PlateState, Option<Patch>) {
    match e
    case LiveClicked => (st.(mode := Camera), None)
    case CameraDenied => (st.(mode := Upload), None)
    case FileLoaded(url) => (st.(uploadedImage := Some(url), mode := Upload, detectedPlate := ""), None)
    case CallStarted => (st.(isScanning := true, error := None, detectedPlate := ""), None)
    case CallReturned(Replied(text)) => (AfterVerdict(st, Classify(text)).(isScanning := false), None)
    case CallReturned(Threw) => (st.(pendingFallbacks := st.pendingFallbacks + 1, isScanning := false), None)
    case FallbackFired =>
      (st.(detectedPlate := FallbackPlate, pendingFallbacks := if st.pendingFallbacks > 0 then st.pendingFallbacks - 1 else 0), None)
    case ProceedClicked => (st, Some(PlatePatch(st.detectedPlate)))
  }

  /** One event: handled when it is offered, nothing otherwise. */
  function Step(st: PlateState, e: PlateEvent): (PlateState, Option<Patch>) {
    if Offered(st, e) then Handle(st, e) else (st, None)
  }

  /** The component's invariant: a shown plate is a valid one. */
  predicate Inv(st: PlateState) {
    st.detectedPlate == "" || ValidPlate(st.detectedPlate)
  }

  lemma FallbackPlateValid()
    ensures ValidPlate(FallbackPlate)
  {
    assert FallbackPlate != NoPlate by {
      assert |FallbackPlate| == 13;
    }
    assert IsTrimmed(FallbackPlate) by {
      assert FallbackPlate[0] == 'T' && FallbackPlate[12] == '1';
    }
  }

  lemma InitialInv()
    ensures Inv(Initial)
  {
  }

  /** Every event keeps the invariant. */
  lemma StepKeepsInv(st: PlateState, e: PlateEvent)
    requires Inv(st)
    ensures Inv(Step(st, e).0)
  {
    match e
    case CallReturned(Replied(text)) =>
      ReplyKeepsInv(st, text);
    case FallbackFired =>
      FallbackKeepsInv(st);
    case _ =>
  }

  /** A reply shows either the plate it had or an accepted, hence valid, one. */
  lemma ReplyKeepsInv(st: PlateState, text: Option<string>)
    requires Inv(st)
    ensures Inv(Step(st, CallReturned(Replied(text))).0)
    ensures var r := Step(st, CallReturned(Replied(text))).0;
      r.detectedPlate == st.detectedPlate || (Classify(text).Accepted? && r.detectedPlate == Classify(text).plate)
  {
    var v := Classify(text);
    assert v.Accepted? ==> ValidPlate(v.plate);
    var r := Step(st, CallReturned(Replied(text))).0;
    assert r.detectedPlate == st.detectedPlate || (v.Accepted? && r.detectedPlate == v.plate);
  }

  /** The fallback timer shows the fallback plate, which is valid. */
  lemma FallbackKeepsInv(st: PlateState)
    requires Inv(st)
    ensures Inv(Step(st, FallbackFired).0)
  {
    var r := Step(st, FallbackFired).0;
    assert r.detectedPlate == st.detectedPlate || r.detectedPlate == FallbackPlate;
    FallbackPlateValid();
  }

  /** Starting a call sets `isScanning` and clears the error and the plate. */
  lemma CallStartClears(st: PlateState)
    requires !st.isScanning
    ensures var r := Step(st, CallStarted).0;
      r.isScanning && r.error.None? && r.detectedPlate == "" && r.mode == st.mode
  {
  }

  /** The error banner: `{error ? … {error} …}`, the message while the cell is set and nothing otherwise. */
  function ErrorBanner(st: PlateState): Option<string> {
    match st.error
    case None => None
    case Some(e) => Some(e.Message())
  }

  /**
   * A call clears the banner; a rejected reply then shows the invalid-plate
   * message, and an accepted one leaves the banner as it was.
   */
  lemma BannerAfterCall(st: PlateState, text: Option<string>)
    ensures !st.isScanning ==> ErrorBanner(Step(st, CallStarted).0) == None
    ensures st.isScanning && Classify(text).Rejected? ==>
      ErrorBanner(Step(st, CallReturned(Replied(text))).0) == Some("Could not detect a valid plate. Please try again.")
    ensures st.isScanning && Classify(text).Accepted? ==>
      ErrorBanner(Step(st, CallReturned(Replied(text))).0) == ErrorBanner(st)
  {
    if st.isScanning {
      ReplyOutcome(st, text);
    }
  }

  /** Every outcome of a call ends with `isScanning` false. */
  lemma CallEndsScanning(st: PlateState, outcome: CallOutcome)
    requires st.isScanning
    ensures !Step(st, CallReturned(outcome)).0.isScanning
  {
  }

  /**
   * A reply is reported as an error, leaving the plate as it was, exactly
   * when it is rejected; otherwise the plate becomes the trimmed reply.
   */
  lemma ReplyOutcome(st: PlateState, text: Option<string>)
    requires st.isScanning
    ensures var r := Step(st, CallReturned(Replied(text))).0;
      && (Classify(text).Rejected? ==> r.error == Some(InvalidPlateError) && r.detectedPlate == st.detectedPlate)
      && (Classify(text).Accepted? ==> r.detectedPlate == Classify(text).plate && r.error == st.error)
      && r.pendingFallbacks == st.pendingFallbacks
  {
    assert Step(st, CallReturned(Replied(text))).0 == AfterVerdict(st, Classify(text)).(isScanning := false);
  }

  /** A failing call sets no error; it schedules the fallback, which later shows the fallback plate. */
  lemma FailureFallsBack(st: PlateState)
    requires st.isScanning
    ensures var r := Step(st, CallReturned(Threw)).0;
      && r.error == st.error && r.detectedPlate == st.detectedPlate
      && r.pendingFallbacks == st.pendingFallbacks + 1
      && Step(r, FallbackFired).0.detectedPlate == FallbackPlate
  {
  }

  /** Proceed hands over exactly the shown plate, and only when there is one. */
  lemma ProceedGate(st: PlateState, e: PlateEvent)
    ensures var (r, out) := Step(st, e);
      && (out.Some? <==> e == ProceedClicked && st.detectedPlate != "")
      && (out.Some? ==> out.value == PlatePatch(st.detectedPlate) && r == st)
  {
  }

  /** Choosing an image switches to upload mode and clears the plate; a denied camera falls back to upload. */
  lemma UploadSwitchesMode(st: PlateState, url: string)
    ensures Step(st, FileLoaded(url)).0.mode == Upload
    ensures Step(st, FileLoaded(url)).0.detectedPlate == ""
    ensures Step(st, FileLoaded(url)).0.uploadedImage == Some(url)
    ensures st.mode == Camera ==> Step(st, CameraDenied).0.mode == Upload
  {
  }

  // ---------------------------------------------------------------------------
  // The component as mutable state
  // ---------------------------------------------------------------------------

  /** The component instance: its state cells, updated by its handlers. */
  class PlateDetection {
    var isScanning: bool
    var detectedPlate: string
    var mode: Mode
    var uploadedImage: Option<string>
    var error: Option<PlateError>
    var pendingFallbacks: nat

    function State(): PlateState
      reads this
    {
      PlateState(isScanning, detectedPlate, mode, uploadedImage, error, pendingFallbacks)
    }

    ghost predicate Valid()
      reads this
    {
      Inv(State())
    }

    constructor ()
      ensures State() == Initial && Valid()
    {
      isScanning, detectedPlate, mode, uploadedImage, error, pendingFallbacks := false, "", Camera, None, None, 0;
    }

    /** The "Live" toggle: `setMode('camera')`. */
    method SelectCamera()
      requires Valid()
      modifies this
      ensures Valid() && State() == Handle(old(State()), LiveClicked).0
    {
      mode := Camera;
    }

    /** The camera effect's rejection handler: fall back to upload. */
    method OnCameraDenied()
      requires Valid() && mode == Camera
      modifies this
      ensures Valid() && State() == Handle(old(State()), CameraDenied).0
    {
      mode := Upload;
    }

    /** The file reader's load handler in `handleFileUpload`. */
    method OnFileLoaded(dataUrl: string)
      requires Valid()
      modifies this
      ensures Valid() && State() == Handle(old(State()), FileLoaded(dataUrl)).0
    {
      uploadedImage := Some(dataUrl);
      mode := Upload;
      detectedPlate := "";
    }

    /** `callGeminiAPI` up to its `await`. */
    method BeginCall()
      requires Valid() && !isScanning
      modifies this
      ensures Valid() && State() == Handle(old(State()), CallStarted).0
      ensures isScanning && error.None? && detectedPlate == ""
    {
      isScanning := true;
      error := None;
      detectedPlate := "";
    }

    /** The `if` on the reply's text in `callGeminiAPI`. */
    method ApplyVerdict(verdict: Verdict)
      modifies this
      ensures State() == AfterVerdict(old(State()), verdict)
    {
      match verdict {
        case Rejected => error := Some(InvalidPlateError);
        case Accepted(p) => detectedPlate := p;
      }
    }

    /** `callGeminiAPI` after its `await` returns: classify the reply, then (`finally`) stop scanning. */
    method ReceiveReply(text: Option<string>)
      requires Valid() && isScanning
      modifies this
      ensures Valid() && State() == Handle(old(State()), CallReturned(Replied(text))).0
      ensures !isScanning
    {
      ghost var before := State();
      var verdict := Classify(text);
      ApplyVerdict(verdict);
      isScanning := false;
      assert State() == AfterVerdict(before, verdict).(isScanning := false);
      assert Step(before, CallReturned(Replied(text))).0 == State();
      ReplyKeepsInv(before, text);
    }

    /** `callGeminiAPI` after its `await` throws: schedule the fallback, then (`finally`) stop scanning. */
    method ReceiveFailure()
      requires Valid() && isScanning
      modifies this
      ensures Valid() && State() == Handle(old(State()), CallReturned(Threw)).0
      ensures !isScanning && error == old(error) && detectedPlate == old(detectedPlate)
    {
      pendingFallbacks := pendingFallbacks + 1;
      isScanning := false;
    }

    /** The fallback timer scheduled by a failed call. */
    method OnFallbackTimer()
      requires Valid() && pendingFallbacks > 0
      modifies this
      ensures Valid()
      ensures State() == Handle(old(State()), FallbackFired).0
      ensures detectedPlate == FallbackPlate
    {
      ghost var before := State();
      detectedPlate, pendingFallbacks := FallbackPlate, pendingFallbacks - 1;
      assert State() == Handle(before, FallbackFired).0;
      StepKeepsInv(before, FallbackFired);
    }

    /** The Proceed button: disabled without a plate, otherwise it hands the plate on. */
    method Proceed() returns (data: Option<Patch>)
      requires Valid()
      ensures data.Some? <==> detectedPlate != ""
      ensures data.Some? ==> data.value.plateNumber == Some(detectedPlate) && ValidPlate(detectedPlate)
      ensures data.Some? ==> data.value == PlatePatch(detectedPlate)
    {
      if detectedPlate != "" {
        data := Some(PlatePatch(detectedPlate));
      } else {
        data := None;
      }
    }
  }
}
