/** The single-page session: the uploaded image and its result, the user's
    settings, and the status that drives what the main panel shows. */
module App {
  import opened Wrappers
  import opened Text
  import opened Types
  import opened Gemini
  import opened Uploader

  datatype Status = Idle | Processing | Error | Success

  /** The user's choices: editing intent, quality tier, custom instruction. */
  datatype Settings = Settings(mode: AppMode, resolution: Resolution, prompt: string)

  const EmptyImage: ImageState := ImageState(None, None, "", None)
  const DefaultSettings: Settings := Settings(Enhance, Res16K, "")
  const UnexpectedError: string := "An unexpected error occurred."

  /** The data URL the session builds for an uploaded original. */
  function DataUrl(mimeType: string, base64: Option<string>): string
  {
    "data:" + mimeType + ";base64," + Interpolate(base64)
  }

  /** The banner text for a failure message: the message, or a fixed text
      when it is empty. */
  function ShownError(message: string): (shown: string)
    ensures shown != ""
    ensures message != "" ==> shown == message
  {
    if message != "" then message else UnexpectedError
  }

  /** Splitting the rebuilt original URL on commas gives back the payload. */
  lemma OriginalUrlRoundTrip(mimeType: string, base64: string)
    requires ',' !in mimeType && ',' !in base64
    ensures Payload(DataUrl(mimeType, Some(base64))) == Some(base64)
  {
    var head := "data:" + mimeType + ";base64";
    assert ',' !in head;
    assert DataUrl(mimeType, Some(base64)) == head + "," + base64 + "";
    PayloadField(head, base64, "");
  }

  /** An image file whose read yields the standard data URL is handed on as
      its payload and type, and the session rebuilds exactly that URL. */
  lemma UploadRoundTrip(file: File, base64: string)
    requires IsImageType(file.mimeType) && ',' !in file.mimeType && ',' !in base64
    requires file.dataUrl == DataUrl(file.mimeType, Some(base64))
    ensures HandleFile(file) == Some(Selection(Some(base64), file.mimeType))
    ensures DataUrl(HandleFile(file).value.mimeType, HandleFile(file).value.base64) == file.dataUrl
  {
    OriginalUrlRoundTrip(file.mimeType, base64);
  }

  /** The original URL is always the one built from the stored type and
      payload, and with no original there is no type or payload either. */
  ghost predicate ImageConsistent(image: ImageState)
  {
    && (image.originalUrl.None? ==> image.originalBase64.None? && image.mimeType == "")
    && (image.originalUrl.Some? ==> image.originalUrl.value == DataUrl(image.mimeType, image.originalBase64))
  }

  class Session {
    var imageState: ImageState
    var settings: Settings
    var status: Status
    var errorMessage: string

    /** The session's invariant: a consistent image, a PNG result whenever
        one is shown, and a message whenever the error banner is. */
    ghost predicate Valid()
      reads this
    {
      && ImageConsistent(imageState)
      && (imageState.processedUrl.Some? ==> StartsWith(imageState.processedUrl.value, PngPrefix))
      && (status == Success ==> imageState.processedUrl.Some?)
      && (status == Error ==> errorMessage != "")
    }

    constructor ()
      ensures Valid()
      ensures imageState == EmptyImage && settings == DefaultSettings
      ensures status == Idle && errorMessage == ""
    {
      imageState := EmptyImage;
      settings := DefaultSettings;
      status := Idle;
      errorMessage := "";
    }

    method SetMode(mode: AppMode)
      requires Valid()
      modifies this`settings
      ensures Valid()
      ensures settings == old(settings).(mode := mode)
    {
      settings := settings.(mode := mode);
    }

    method SetResolution(resolution: Resolution)
      requires Valid()
      modifies this`settings
      ensures Valid()
      ensures settings == old(settings).(resolution := resolution)
    {
      settings := settings.(resolution := resolution);
    }

    method SetPrompt(prompt: string)
      requires Valid()
      modifies this`settings
      ensures Valid()
      ensures settings == old(settings).(prompt := prompt)
    {
      settings := settings.(prompt := prompt);
    }

    /** A new original replaces the image state, drops any result and
        returns to idle. */
    method HandleImageSelected(base64: Option<string>, mimeType: string)
      requires Valid()
      modifies this`imageState, this`status
      ensures Valid()
      ensures imageState == ImageState(Some(DataUrl(mimeType, base64)), None, mimeType, base64)
      ensures status == Idle
      ensures settings == old(settings) && errorMessage == old(errorMessage)
    {
      imageState := ImageState(Some(DataUrl(mimeType, base64)), None, mimeType, base64);
      status := Idle;
    }

    /** The uploader's callback: called only when it hands something on. */
    method OnImageSelected(selection: Option<Selection>)
      requires Valid()
      modifies this`imageState, this`status
      ensures Valid()
      ensures selection.None? ==> imageState == old(imageState) && status == old(status)
      ensures selection.Some? ==>
        imageState == ImageState(Some(DataUrl(selection.value.mimeType, selection.value.base64)),
                                 None, selection.value.mimeType, selection.value.base64)
        && status == Idle
    {
      if selection.Some? {
        HandleImageSelected(selection.value.base64, selection.value.mimeType);
      }
    }

    /** The top action bar (reset, start, download) is shown with an original. */
    predicate ActionBarVisible()
      reads this
    {
      Truthy(imageState.originalUrl)
    }

    /** The Start button shows with an original unless the status is
        processing or success. */
    predicate StartVisible()
      reads this
    {
      ActionBarVisible() && status != Success && status != Processing
    }

    predicate DownloadVisible()
      reads this
    {
      ActionBarVisible() && status == Success
    }

    predicate DismissVisible()
      reads this
    {
      status == Error
    }

    /** The first half of handleProcess: nothing without a payload, otherwise
        the call is in flight and the old message is cleared. */
    method StartProcess() returns (started: bool)
      requires Valid() && StartVisible()
      modifies this`status, this`errorMessage
      ensures Valid()
      ensures started == Truthy(imageState.originalBase64)
      ensures started ==> status == Processing && errorMessage == ""
      ensures started ==> !StartVisible()
      ensures !started ==> status == old(status) && errorMessage == old(errorMessage)
      ensures imageState == old(imageState) && settings == old(settings)
    {
      if !Truthy(imageState.originalBase64) {
        return false;
      }
      status := Processing;
      errorMessage := "";
      return true;
    }

    /** The call resolved: only the result URL changes. */
    method Succeed(processedUrl: string)
      requires Valid() && StartsWith(processedUrl, PngPrefix)
      modifies this`imageState, this`status
      ensures Valid()
      ensures imageState == old(imageState).(processedUrl := Some(processedUrl))
      ensures status == Success
      ensures !StartVisible()
      ensures settings == old(settings) && errorMessage == old(errorMessage)
    {
      imageState := imageState.(processedUrl := Some(processedUrl));
      status := Success;
    }

    /** The call failed: the banner shows the message; the images stay. */
    method Fail(message: string)
      requires Valid()
      modifies this`status, this`errorMessage
      ensures Valid()
      ensures status == Error && errorMessage == ShownError(message)
      ensures imageState == old(imageState) && settings == old(settings)
    {
      status := Error;
      errorMessage := ShownError(message);
    }

    /** handleProcess as a whole, with the remote outcome as an input. */
    method HandleProcess(broker: Broker, remote: RemoteOutcome) returns (sent: Option<Request>)
      requires Valid() && StartVisible()
      modifies this, broker`selectCalls
      ensures Valid()
      ensures settings == old(settings)
      ensures !Truthy(old(imageState.originalBase64)) ==>
        && sent == None
        && imageState == old(imageState) && status == old(status) && errorMessage == old(errorMessage)
        && broker.selectCalls == old(broker.selectCalls)
      ensures Truthy(old(imageState.originalBase64)) ==>
        && sent == Some(Request(old(imageState.originalBase64.value), old(imageState.mimeType),
                                BuildPrompt(settings.mode, settings.resolution, settings.prompt)))
        && broker.selectCalls
           == old(broker.selectCalls) + KeyRequests(broker) + RefreshRequests(remote, broker.present)
        && var outcome := Settle(remote, broker.present);
           && (outcome.Ok? ==>
                 imageState == old(imageState).(processedUrl := Some(outcome.value))
                 && status == Success && errorMessage == "")
           && (outcome.Err? ==>
                 imageState == old(imageState)
                 && status == Error && errorMessage == ShownError(outcome.error))
    {
      var started := StartProcess();
      if !started {
        return None;
      }
      var request, result := ProcessImage(broker, imageState.originalBase64.value, imageState.mimeType,
                                          settings.mode, settings.resolution, settings.prompt, remote);
      sent := Some(request);
      match result {
        case Ok(url) => Succeed(url);
        case Err(message) => Fail(message);
      }
    }

    /** New Image: clears the image state from any status; settings and the
        last message stay. */
    method HandleReset()
      requires Valid()
      modifies this`imageState, this`status
      ensures Valid()
      ensures imageState == EmptyImage && status == Idle
      ensures settings == old(settings) && errorMessage == old(errorMessage)
    {
      imageState := EmptyImage;
      status := Idle;
    }

    /** Dismissing the banner returns to idle and keeps the uploaded original. */
    method Dismiss()
      requires Valid()
      modifies this`status
      ensures Valid()
      ensures status == Idle
      ensures imageState == old(imageState) && settings == old(settings) && errorMessage == old(errorMessage)
    {
      status := Idle;
    }

    /** What downloadImage would save: nothing without a result. */
    function DownloadTarget(): Option<string>
      reads this
    {
      if Truthy(imageState.processedUrl) then imageState.processedUrl else None
    }

    /** When the Download button shows, downloading saves the current result,
        a PNG data URL. */
    lemma DownloadWhenVisible()
      requires Valid() && DownloadVisible()
      ensures DownloadTarget() == imageState.processedUrl
      ensures DownloadTarget().Some? && StartsWith(DownloadTarget().value, PngPrefix)
    {
    }
  }

  /** A client of the contracts above. New Image stays available while a
      call is in flight, so a second image can be uploaded and started before
      the first call settles. The first call's result then lands on the
      second image. */
  method ResetDuringCall(remoteA: string)
    requires StartsWith(remoteA, PngPrefix)
  {
    var session := new Session();
    session.HandleImageSelected(Some("a"), "image/png");
    var first := session.StartProcess();
    assert first && session.status == Processing;
    session.HandleReset();
    session.HandleImageSelected(Some("b"), "image/png");
    assert session.StartVisible();
    var second := session.StartProcess();
    assert second;
    session.Succeed(remoteA);
    assert session.imageState.originalBase64 == Some("b");
    assert session.imageState.processedUrl == Some(remoteA);
  }
}
