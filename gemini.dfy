/** The remote edit client: the instruction sent to the hosted image model, the
    API-key readiness check against the host's key broker, the scan of the
    model's response for an image, and the rewriting of a "not found" failure.
    The remote call itself is an input: what the model answered, or the
    message of the error it threw. */
module Gemini {
  import opened Wrappers
  import opened Text
  import opened Types

  // ---------------------------------------------------------------- prompt

  // The longer texts are written as concatenations of shorter literals so
  // that the verifier can look at their characters.
  const Quality16K: string := "Render in extremely high " + "16K resolution with " + "microscopic detail and " + "perfect sharpness."
  const Quality8K: string := "Render in 8K resolution " + "with ultra-high detail."
  const Quality4K: string := "Render in 4K resolution " + "with high detail."
  const QualityStandard: string := "Render in standard " + "high quality."

  /** The fixed text of the enhancement instruction around the quality clause. */
  const EnhanceLead: string := "Upscale and enhance this image. "
  const EnhanceTail: string := " Drastically improve clarity, " + "texture details, lighting, " + "and sharpness. Make it look " + "like a high-end ultra-realistic " + "photograph. "

  /** The fixed background-removal instruction. */
  const RemoveBgInstruction: string := "Identify the main subject " + "of this image and isolate it " + "completely. Replace the entire " + "background with a solid clean " + "white color (#FFFFFF) to " + "simulate background removal. " + "Maintain ultra-high detail " + "on the subject edges. "

  /** The two tiers that share the standard clause. */
  predicate LowTier(resolution: Resolution)
  {
    resolution == Res1K || resolution == Res2K
  }

  /** The quality clause, chosen by a chain of comparisons. */
  function QualityClause(resolution: Resolution): string
  {
    if resolution == Res16K then Quality16K
    else if resolution == Res8K then Quality8K
    else if resolution == Res4K then Quality4K
    else QualityStandard
  }

  /** The instruction sent with the image. The custom instruction is appended
      verbatim at the very end (when the caller omits it, it is ""). */
  function BuildPrompt(mode: AppMode, resolution: Resolution, customInstruction: string): (prompt: string)
    ensures |customInstruction| <= |prompt|
    ensures prompt[|prompt| - |customInstruction|..] == customInstruction
  {
    if mode == Enhance then
      EnhanceLead + QualityClause(resolution) + EnhanceTail + customInstruction
    else
      RemoveBgInstruction + customInstruction
  }

  /** The clause of 4K, 8K and 16K names its tier; the standard clause names
      neither 1K nor 2K. */
  lemma QualityClauseNamesTier(resolution: Resolution)
    ensures Includes(QualityClause(resolution), Label(resolution)) <==> !LowTier(resolution)
  {
    var clause, name := QualityClause(resolution), Label(resolution);
    match resolution
    case Res16K =>
      assert name <= clause[25..];
      IncludesAt(clause, name, 25);
    case Res8K =>
      assert name <= clause[10..];
      IncludesAt(clause, name, 10);
    case Res4K =>
      assert name <= clause[10..];
      IncludesAt(clause, name, 10);
    case Res1K =>
      assert name[0] !in clause;
      if Includes(clause, name) { IncludesFirstChar(clause, name); }
    case Res2K =>
      assert name[0] !in clause;
      if Includes(clause, name) { IncludesFirstChar(clause, name); }
  }

  /** The custom instruction adds nothing but itself: every prompt is the
      prompt for an empty custom instruction followed by the custom text. */
  lemma PromptAppendsCustom(mode: AppMode, resolution: Resolution, customInstruction: string)
    ensures BuildPrompt(mode, resolution, customInstruction)
         == BuildPrompt(mode, resolution, "") + customInstruction
  {
    var fixed := if mode == Enhance then EnhanceLead + QualityClause(resolution) + EnhanceTail
                 else RemoveBgInstruction;
    assert BuildPrompt(mode, resolution, customInstruction) == fixed + customInstruction;
    assert BuildPrompt(mode, resolution, "") == fixed + "";
    assert fixed + "" == fixed;
  }

  /** Background removal ignores the quality tier. */
  lemma RemoveBgIgnoresResolution(r1: Resolution, r2: Resolution, customInstruction: string)
    ensures BuildPrompt(RemoveBg, r1, customInstruction) == BuildPrompt(RemoveBg, r2, customInstruction)
  {
  }

  /** The enhancement prompt carries its tier's quality clause verbatim, right
      after the fixed lead. */
  lemma EnhanceCarriesQuality(resolution: Resolution, customInstruction: string)
    ensures Includes(BuildPrompt(Enhance, resolution, customInstruction), QualityClause(resolution))
  {
    IncludesSecond(EnhanceLead, QualityClause(resolution), EnhanceTail, customInstruction);
  }

  /** Two enhancement prompts with the same custom text coincide exactly when
      the tiers are equal or both are low tiers. */
  lemma EnhancePromptsCoincide(r1: Resolution, r2: Resolution, customInstruction: string)
    ensures BuildPrompt(Enhance, r1, customInstruction) == BuildPrompt(Enhance, r2, customInstruction)
        <==> (r1 == r2 || (LowTier(r1) && LowTier(r2)))
  {
  }

  // ---------------------------------------------------------------- key broker

  /** The host's key broker. `present` says whether the host injected it at
      all, `canQuery` whether it offers the query for a selected key,
      `keySelected` what that query answers, and `selectCalls` counts the
      times the key-selection dialog was opened. */
  class Broker {
    var present: bool
    var canQuery: bool
    var keySelected: bool
    var selectCalls: nat

    constructor (present: bool, canQuery: bool, keySelected: bool)
      ensures this.present == present && this.canQuery == canQuery
      ensures this.keySelected == keySelected && selectCalls == 0
    {
      this.present := present;
      this.canQuery := canQuery;
      this.keySelected := keySelected;
      selectCalls := 0;
    }

    /** Whether a key is already selected. */
    method HasSelectedApiKey() returns (hasKey: bool)
      requires present && canQuery
      ensures hasKey == keySelected
    {
      hasKey := keySelected;
    }

    /** Opens the key-selection dialog; what the user picks there is the
        host's business. */
    method OpenSelectKey()
      requires present
      modifies this`selectCalls
      ensures selectCalls == old(selectCalls) + 1
    {
      selectCalls := selectCalls + 1;
    }
  }

  /** How many times EnsureApiKey opens the dialog on this broker. */
  function KeyRequests(broker: Broker): (n: nat)
    reads broker
    ensures n <= 1
    ensures n == 1 ==> broker.present
  {
    if broker.present && broker.canQuery && !broker.keySelected then 1 else 0
  }

  /** Reports whether the broker could be asked about a key, opening the
      selection dialog first when no key is selected yet. */
  method EnsureApiKey(broker: Broker) returns (ready: bool)
    modifies broker`selectCalls
    ensures ready <==> broker.present && broker.canQuery
    ensures broker.selectCalls == old(broker.selectCalls) + KeyRequests(broker)
  {
    if broker.present && broker.canQuery {
      var hasKey := broker.HasSelectedApiKey();
      if !hasKey {
        broker.OpenSelectKey();
        return true;
      }
      return true;
    }
    return false;
  }

  // ---------------------------------------------------------------- response

  /** One content part of the answer; `inlineData` is its inline data payload
      (absent when the part has no inline data or the data field is missing). */
  datatype Part = Part(inlineData: Option<string>)
  datatype Content = Content(parts: Option<seq<Part>>)
  datatype Candidate = Candidate(content: Option<Content>)
  datatype Response = Response(candidates: Option<seq<Candidate>>)

  /** What the remote call did: answered, or threw an error with a message
      ("" when the error has no message). */
  datatype RemoteOutcome = Responded(response: Response) | Threw(message: string)

  /** What is sent to the model: the image and the instruction. */
  datatype Request = Request(base64Data: string, mimeType: string, prompt: string)

  const PngPrefix: string := "data:image/png;base64,"
  const NoImageMessage: string := "No image data returned from the model."
  /** The TypeErrors raised by reading a field of `undefined` (V8's wording). */
  const ReadContentError: string := "Cannot read properties " + "of undefined (reading 'content')"
  const ReadPartsError: string := "Cannot read properties " + "of undefined (reading 'parts')"

  /** A part carries an image when its inline data is present and non-empty. */
  predicate HasImage(part: Part)
  {
    part.inlineData.Some? && part.inlineData.value != ""
  }

  /** The position of the first part that carries an image. */
  function FirstImageIndex(parts: seq<Part>): (r: Option<nat>)
    ensures r.Some? ==> r.value < |parts| && HasImage(parts[r.value])
    ensures r.Some? ==> forall j :: 0 <= j < r.value ==> !HasImage(parts[j])
    ensures r.None? <==> forall j :: 0 <= j < |parts| ==> !HasImage(parts[j])
  {
    if |parts| == 0 then None
    else if HasImage(parts[0]) then Some(0)
    else match FirstImageIndex(parts[1..])
      case None =>
        assert forall j :: 1 <= j < |parts| ==> parts[j] == parts[1..][j - 1];
        None
      case Some(i) =>
        assert forall j :: 1 <= j <= i + 1 ==> parts[j] == parts[1..][j - 1];
        Some(i + 1)
  }

  /** The value returned, or the error thrown, inside the client's `try`
      block for an answer from the model. */
  function Extract(response: Response): (r: Result<string, string>)
    ensures r.Ok? ==> StartsWith(r.value, PngPrefix) && |r.value| > |PngPrefix|
    ensures r.Err? ==> r.error in {NoImageMessage, ReadContentError, ReadPartsError}
  {
    match response.candidates
    case None => Err(NoImageMessage)
    case Some(candidates) =>
      if |candidates| == 0 then Err(ReadContentError)
      else match candidates[0].content
        case None => Err(ReadPartsError)
        case Some(content) =>
          match content.parts
          case None => Err(NoImageMessage)
          case Some(parts) =>
            match FirstImageIndex(parts)
            case None => Err(NoImageMessage)
            case Some(i) => Ok(PngPrefix + parts[i].inlineData.value)
  }

  /** Scans the first candidate's parts in order and relabels the first image
      found as a PNG data URL. */
  method ExtractImage(response: Response) returns (r: Result<string, string>)
    ensures r == Extract(response)
  {
    if response.candidates.None? {
      return Err(NoImageMessage);
    }
    var candidates := response.candidates.value;
    if |candidates| == 0 {
      return Err(ReadContentError);
    }
    if candidates[0].content.None? {
      return Err(ReadPartsError);
    }
    if candidates[0].content.value.parts.Some? {
      var parts := candidates[0].content.value.parts.value;
      for i := 0 to |parts|
        invariant forall j :: 0 <= j < i ==> !HasImage(parts[j])
      {
        if HasImage(parts[i]) {
          return Ok(PngPrefix + parts[i].inlineData.value);
        }
      }
    }
    return Err(NoImageMessage);
  }

  /** With an image among the first candidate's parts, the answer is the
      first such image relabelled as PNG, whatever follows it. */
  lemma ExtractFindsFirstImage(parts: seq<Part>, others: seq<Candidate>, i: nat)
    requires i < |parts| && HasImage(parts[i])
    requires forall j :: 0 <= j < i ==> !HasImage(parts[j])
    ensures Extract(Response(Some([Candidate(Some(Content(Some(parts))))] + others)))
         == Ok(PngPrefix + parts[i].inlineData.value)
  {
  }

  /** Without any image part the answer is the fixed "no image" failure. */
  lemma ExtractWithoutImage(parts: seq<Part>, others: seq<Candidate>)
    requires forall j :: 0 <= j < |parts| ==> !HasImage(parts[j])
    ensures Extract(Response(Some([Candidate(Some(Content(Some(parts))))] + others))) == Err(NoImageMessage)
  {
  }

  // ---------------------------------------------------------------- errors

  const NotFoundMarker: string := "Requested entity was not found"
  const RefreshedMessage: string := "API Key session refreshed. " + "Please click Start again."

  /** Whether a failure message asks for a key refresh. */
  predicate NotFound(message: string)
  {
    message != "" && Includes(message, NotFoundMarker)
  }

  /** The message the client rethrows for a failure message. */
  function Remapped(message: string, brokerPresent: bool): (shown: string)
    ensures shown == message || shown == RefreshedMessage
    ensures shown == RefreshedMessage && message != RefreshedMessage ==> brokerPresent
  {
    if NotFound(message) && brokerPresent then RefreshedMessage else message
  }

  /** Only a message with the marker, with the broker present, is rewritten. */
  lemma RemappedCases(message: string, brokerPresent: bool)
    ensures Remapped(message, brokerPresent) != message
        <==> NotFound(message) && brokerPresent && message != RefreshedMessage
  {
  }

  /** A string without the marker's first letter does not include it. */
  lemma NotFoundNeedsMarkerLetter(message: string)
    requires 'R' !in message
    ensures !NotFound(message)
  {
    if Includes(message, NotFoundMarker) {
      IncludesFirstChar(message, NotFoundMarker);
    }
  }

  /** The client's own "no image" failure reaches the user unchanged. */
  lemma NoImagePassesThrough(brokerPresent: bool)
    ensures Remapped(NoImageMessage, brokerPresent) == NoImageMessage
  {
    NotFoundNeedsMarkerLetter(NoImageMessage);
  }

  /** The refresh notice is not itself a "not found" message, so a user who
      sees it and starts again gets a fresh outcome, not another rewrite. */
  lemma RefreshNoticeIsFinal()
    ensures !NotFound(RefreshedMessage)
  {
    NotFoundNeedsMarkerLetter(RefreshedMessage);
  }

  /** Rewrites a failure message, opening the key dialog when it asks for a
      refresh and the broker is there. */
  method RemapError(broker: Broker, message: string) returns (shown: string)
    modifies broker`selectCalls
    ensures shown == Remapped(message, broker.present)
    ensures broker.selectCalls
         == old(broker.selectCalls) + (if NotFound(message) && broker.present then 1 else 0)
  {
    if message != "" && Includes(message, NotFoundMarker) {
      if broker.present {
        broker.OpenSelectKey();
        return RefreshedMessage;
      }
    }
    return message;
  }

  // ---------------------------------------------------------------- the call

  /** The value inside the `try` block: the extracted image, or the message of
      the error it threw. */
  function Attempt(remote: RemoteOutcome): Result<string, string>
  {
    match remote
    case Threw(message) => Err(message)
    case Responded(response) => Extract(response)
  }

  /** What the client resolves to, or the message it rejects with. */
  function Settle(remote: RemoteOutcome, brokerPresent: bool): (r: Result<string, string>)
    ensures r.Ok? ==> StartsWith(r.value, PngPrefix)
    ensures r.Err? <==> Attempt(remote).Err?
  {
    match Attempt(remote)
    case Ok(url) => Ok(url)
    case Err(message) => Err(Remapped(message, brokerPresent))
  }

  /** How many times the failure path opens the key dialog. */
  function RefreshRequests(remote: RemoteOutcome, brokerPresent: bool): (n: nat)
    ensures n <= 1
    ensures n == 1 ==> brokerPresent && Settle(remote, brokerPresent) == Err(RefreshedMessage)
  {
    if Attempt(remote).Err? && NotFound(Attempt(remote).error) && brokerPresent then 1 else 0
  }

  /** An answer without an image parts list fails with the fixed message,
      whether or not the broker is there. */
  lemma NoImageSurfaces(response: Response, brokerPresent: bool)
    requires response.candidates.None?
          || (|response.candidates.value| > 0
              && response.candidates.value[0].content.Some?
              && forall part | part in PartsOf(response.candidates.value[0].content.value) :: !HasImage(part))
    ensures Settle(Responded(response), brokerPresent) == Err(NoImageMessage)
    ensures RefreshRequests(Responded(response), brokerPresent) == 0
  {
    NoImagePassesThrough(brokerPresent);
    if response.candidates.Some? {
      var content := response.candidates.value[0].content.value;
      if content.parts.Some? {
        var parts := content.parts.value;
        assert forall j :: 0 <= j < |parts| ==> parts[j] in PartsOf(content);
      }
    }
  }

  /** The parts of a content, none when the list is absent. */
  function PartsOf(content: Content): seq<Part>
  {
    if content.parts.Some? then content.parts.value else []
  }

  /** A thrown "not found" error turns into the refresh notice and one dialog
      opening when the broker is there, and is rethrown as it is otherwise;
      every other thrown message is rethrown unchanged. */
  lemma ThrownErrors(message: string, brokerPresent: bool)
    ensures NotFound(message) && brokerPresent ==>
      Settle(Threw(message), brokerPresent) == Err(RefreshedMessage)
      && RefreshRequests(Threw(message), brokerPresent) == 1
    ensures !(NotFound(message) && brokerPresent) ==>
      Settle(Threw(message), brokerPresent) == Err(message)
      && RefreshRequests(Threw(message), brokerPresent) == 0
  {
  }

  /** processImage: make sure a key is selected (the answer is not used),
      build the instruction, send it with the image, and settle the outcome. */
  method ProcessImage(broker: Broker, base64Data: string, mimeType: string, mode: AppMode,
                      resolution: Resolution, customInstruction: string, remote: RemoteOutcome)
    returns (sent: Request, result: Result<string, string>)
    modifies broker`selectCalls
    ensures sent == Request(base64Data, mimeType, BuildPrompt(mode, resolution, customInstruction))
    ensures result == Settle(remote, broker.present)
    ensures broker.selectCalls
         == old(broker.selectCalls) + KeyRequests(broker) + RefreshRequests(remote, broker.present)
  {
    var _ := EnsureApiKey(broker);
    var prompt := BuildPrompt(mode, resolution, customInstruction);
    sent := Request(base64Data, mimeType, prompt);
    var attempt: Result<string, string>;
    match remote {
      case Threw(message) => attempt := Err(message);
      case Responded(response) => attempt := ExtractImage(response);
    }
    match attempt {
      case Ok(url) => result := Ok(url);
      case Err(message) =>
        var shown := RemapError(broker, message);
        result := Err(shown);
    }
  }
}
