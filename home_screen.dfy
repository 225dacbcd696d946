/**
 * The draft screen: the post being written, the image upload through the
 * Contentful calls, and the submission. Every call the screen makes is
 * appended to a trace; what the server or the device answered is passed
 * in, a None standing for a call that threw.
 */
module HomeScreen {
  import opened Wrappers
  import Strings
  import Contentful

  /** A call the screen makes: reading the picked file into a blob, or an
      HTTP request to Contentful. */
  datatype Call =
    | UriToBlob(uri: string)
    | Http(request: Contentful.Request)

  /** What the image picker resolves with; PickerFailed is a picker that throws. */
  datatype PickResult = Cancelled | Picked(uri: string) | PickerFailed

  /** The answers to the steps of an image upload, in step order: the blob,
      the `sys.id` of the upload, the `sys.id` of the new asset, and whether
      processing was accepted. A None (or false) is a step that threw. */
  datatype UploadAnswers = UploadAnswers(
    blob: Option<Contentful.Blob>,
    uploadId: Option<string>,
    assetId: Option<string>,
    processed: bool)

  /** A publish that `publishImage` has put on its one-second timer: the
      asset to publish and the image list as the screen held it then. */
  datatype PendingPublish = PendingPublish(assetId: string, images: seq<Contentful.PublishedAsset>)

  /** `uri.split("/")` and its last element: the file name of a local URI. */
  function FileName(uri: string): string
  {
    var parts := Strings.Split(uri, '/');
    parts[|parts| - 1]
  }

  /** The file name is the part after the last "/": it holds no "/", the
      URI ends with it, a "/" stands right before it unless it is the whole
      URI, and a URI without "/" is its own file name. */
  lemma FileNameIsLastSegment(uri: string)
    ensures var name := FileName(uri);
      && '/' !in name
      && |name| <= |uri| && uri[|uri| - |name|..] == name
      && (|name| < |uri| ==> uri[|uri| - |name| - 1] == '/')
      && ('/' !in uri ==> name == uri)
  {
    Strings.SplitPiecesLackSeparator(uri, '/');
    Strings.SplitLastPiece(uri, '/');
  }

  /** The calls `pickImage` makes before it hands the asset to `publishImage`:
      each step runs only if every earlier one succeeded. */
  function PickCalls(tokens: Contentful.Tokens, pick: PickResult, answers: UploadAnswers): seq<Call>
  {
    match pick
    case Cancelled => []
    case PickerFailed => []
    case Picked(uri) =>
      [UriToBlob(uri)] +
      match answers.blob
      case None => []
      case Some(blob) =>
        [Http(Contentful.UploadImageRequest(tokens, blob))] +
        match answers.uploadId
        case None => []
        case Some(uploadId) =>
          [Http(Contentful.LinkUploadToAssetRequest(tokens, uploadId, FileName(uri), blob.mimeType))] +
          match answers.assetId
          case None => []
          case Some(assetId) => [Http(Contentful.ProcessImageRequest(tokens, assetId))]
  }

  /** Whether `pickImage` gets as far as `publishImage`. */
  predicate ReachesPublish(pick: PickResult, answers: UploadAnswers)
  {
    pick.Picked? && answers.blob.Some? && answers.uploadId.Some? && answers.assetId.Some? && answers.processed
  }

  /** A cancelled or failed pick calls nothing. */
  lemma NoPickNoCalls(tokens: Contentful.Tokens, answers: UploadAnswers)
    ensures PickCalls(tokens, Cancelled, answers) == []
    ensures PickCalls(tokens, PickerFailed, answers) == []
    ensures !ReachesPublish(Cancelled, answers) && !ReachesPublish(PickerFailed, answers)
  {
  }

  /** When every step succeeds, the calls are blob, upload, link and process,
      in that order; the link names the upload and the blob's type, the
      processing names the new asset, and the publish that follows does too. */
  lemma PickCallsInOrder(tokens: Contentful.Tokens, uri: string, blob: Contentful.Blob,
                         uploadId: string, assetId: string)
    ensures var answers := UploadAnswers(Some(blob), Some(uploadId), Some(assetId), true);
      && PickCalls(tokens, Picked(uri), answers) ==
           [UriToBlob(uri),
            Http(Contentful.UploadImageRequest(tokens, blob)),
            Http(Contentful.LinkUploadToAssetRequest(tokens, uploadId, FileName(uri), blob.mimeType)),
            Http(Contentful.ProcessImageRequest(tokens, assetId))]
      && ReachesPublish(Picked(uri), answers)
  {
  }

  /** A step that throws ends the upload: the calls made are exactly the
      steps up to and including the failing one, and nothing is published. */
  lemma PickStopsAtFirstFailure(tokens: Contentful.Tokens, uri: string, answers: UploadAnswers)
    ensures answers.blob.None? ==>
              PickCalls(tokens, Picked(uri), answers) == [UriToBlob(uri)]
    ensures answers.blob.Some? && answers.uploadId.None? ==>
              PickCalls(tokens, Picked(uri), answers) ==
                [UriToBlob(uri), Http(Contentful.UploadImageRequest(tokens, answers.blob.value))]
    ensures answers.blob.Some? && answers.uploadId.Some? && answers.assetId.None? ==>
              PickCalls(tokens, Picked(uri), answers) ==
                [UriToBlob(uri),
                 Http(Contentful.UploadImageRequest(tokens, answers.blob.value)),
                 Http(Contentful.LinkUploadToAssetRequest(tokens, answers.uploadId.value, FileName(uri),
                                                          answers.blob.value.mimeType))]
    ensures answers.blob.Some? && answers.uploadId.Some? && answers.assetId.Some? && !answers.processed ==>
              PickCalls(tokens, Picked(uri), answers) ==
                [UriToBlob(uri),
                 Http(Contentful.UploadImageRequest(tokens, answers.blob.value)),
                 Http(Contentful.LinkUploadToAssetRequest(tokens, answers.uploadId.value, FileName(uri),
                                                          answers.blob.value.mimeType)),
                 Http(Contentful.ProcessImageRequest(tokens, answers.assetId.value))]
    ensures !(answers.blob.Some? && answers.uploadId.Some? && answers.assetId.Some? && answers.processed) ==>
              !ReachesPublish(Picked(uri), answers)
  {
  }

  /** The calls of `onSubmit`: create the entry, then, only if that
      succeeded, publish the entry the server created. */
  function SubmitCalls(tokens: Contentful.Tokens, draft: Contentful.EntryDraft, now: string,
                       entryId: Option<string>): (calls: seq<Call>)
    ensures |calls| >= 1 && calls[0] == Http(Contentful.CreateEntryRequest(tokens, draft, now))
    ensures entryId.None? ==> |calls| == 1
    ensures entryId.Some? ==> |calls| == 2 && calls[1] == Http(Contentful.PublishEntryRequest(tokens, entryId.value))
  {
    [Http(Contentful.CreateEntryRequest(tokens, draft, now))] +
    match entryId
    case None => []
    case Some(id) => [Http(Contentful.PublishEntryRequest(tokens, id))]
  }

  /** The state slots of the draft screen, the calls made so far, and the
      publishes waiting on their timers. */
  class Draft {
    const tokens: Contentful.Tokens
    var title: string
    var body: string
    var images: seq<Contentful.PublishedAsset>
    var isMilo: bool
    var isOliver: bool
    var showSuccess: bool
    var publishDate: string
    var openDatePicker: bool
    var trace: seq<Call>
    var pending: seq<PendingPublish>

    /** The draft as `onSubmit` hands it to `createEntry`. */
    function Entry(): Contentful.EntryDraft
      reads this
    {
      Contentful.EntryDraft(title, body, isMilo, isOliver, images, publishDate)
    }

    /** The state of an empty draft, with `today` as its publish date. */
    predicate IsBlank(today: string)
      reads this
    {
      title == "" && body == "" && images == [] && !isMilo && !isOliver && !showSuccess && publishDate == today
    }

    /** The screen as it mounts; `today` is the date formatted for display. */
    constructor (tokens: Contentful.Tokens, today: string)
      ensures IsBlank(today)
      ensures this.tokens == tokens && !openDatePicker && trace == [] && pending == []
    {
      this.tokens := tokens;
      title := "";
      body := "";
      images := [];
      isMilo := false;
      isOliver := false;
      showSuccess := false;
      publishDate := today;
      openDatePicker := false;
      trace := [];
      pending := [];
    }

    /** `pickImage`: pick an image, then read it, upload it, link it to a
        new asset and have it processed, stopping at the first step that
        throws; only after all four is its publish put on the timer. */
    method PickImage(pick: PickResult, answers: UploadAnswers)
      modifies this`trace, this`pending
      ensures trace == old(trace) + PickCalls(tokens, pick, answers)
      ensures pending == old(pending) +
                (if ReachesPublish(pick, answers) then [PendingPublish(answers.assetId.value, images)] else [])
    {
      if !pick.Picked? {
        return;
      }
      var uri := pick.uri;
      trace := trace + [UriToBlob(uri)];
      if answers.blob.None? {
        return;
      }
      var blob := answers.blob.value;
      trace := trace + [Http(Contentful.UploadImageRequest(tokens, blob))];
      if answers.uploadId.None? {
        assert PickCalls(tokens, pick, answers) == [UriToBlob(uri), Http(Contentful.UploadImageRequest(tokens, blob))];
        return;
      }
      var fileName := FileName(uri);
      var link := Http(Contentful.LinkUploadToAssetRequest(tokens, answers.uploadId.value, fileName, blob.mimeType));
      trace := trace + [link];
      if answers.assetId.None? {
        assert PickCalls(tokens, pick, answers) == [UriToBlob(uri), Http(Contentful.UploadImageRequest(tokens, blob)), link];
        return;
      }
      var assetId := answers.assetId.value;
      var process := Http(Contentful.ProcessImageRequest(tokens, assetId));
      trace := trace + [process];
      assert PickCalls(tokens, pick, answers) ==
             [UriToBlob(uri), Http(Contentful.UploadImageRequest(tokens, blob)), link, process];
      if !answers.processed {
        return;
      }
      pending := pending + [PendingPublish(assetId, images)];
    }

    /** The oldest publish timer fires: the asset is published, and if that
        succeeds the image list becomes the list as it was when the upload
        started, with the published image at its end. */
    method PublishTimerFires(published: Option<Contentful.PublishedAsset>)
      requires |pending| > 0
      modifies this`trace, this`pending, this`images
      ensures trace == old(trace) + [Http(Contentful.PublishImageRequest(tokens, old(pending)[0].assetId))]
      ensures pending == old(pending)[1..]
      ensures images == if published.Some? then Contentful.AppendPublished(old(pending)[0].images, published.value)
                        else old(images)
    {
      var job := pending[0];
      pending := pending[1..];
      trace := trace + [Http(Contentful.PublishImageRequest(tokens, job.assetId))];
      if published.Some? {
        images := Contentful.AppendPublished(job.images, published.value);
      }
    }

    /** `onSubmit`: create the entry, publish it, and only when both calls
        succeed show the success message. `now` is the time of the call. */
    method Submit(now: string, entryId: Option<string>, published: bool)
      modifies this`trace, this`showSuccess
      ensures trace == old(trace) + SubmitCalls(tokens, Entry(), now, entryId)
      ensures showSuccess == (old(showSuccess) || (entryId.Some? && published))
    {
      trace := trace + [Http(Contentful.CreateEntryRequest(tokens, Entry(), now))];
      if entryId.None? {
        return;
      }
      trace := trace + [Http(Contentful.PublishEntryRequest(tokens, entryId.value))];
      if published {
        showSuccess := true;
      }
    }

    /** The title field changes. */
    method SetTitle(value: string)
      modifies this`title
      ensures title == value
    {
      title := value;
    }

    /** The body field changes. */
    method SetBody(value: string)
      modifies this`body
      ensures body == value
    {
      body := value;
    }

    /** The publish-date field is typed into. */
    method SetPublishDate(value: string)
      modifies this`publishDate
      ensures publishDate == value
    {
      publishDate := value;
    }

    /** The calendar button opens the date picker. */
    method OpenDatePicker()
      modifies this`openDatePicker
      ensures openDatePicker
    {
      openDatePicker := true;
    }

    /** `handlePublishedDateChange`: only a picked date (given already
        formatted for display) replaces the publish date. */
    method HandlePublishedDateChange(newDate: Option<string>)
      modifies this`publishDate
      ensures publishDate == if newDate.Some? then newDate.value else old(publishDate)
    {
      if newDate.Some? {
        publishDate := newDate.value;
      }
    }

    /** The date picker reports: it closes, and its date is handled. */
    method OnDatePickerChange(newDate: Option<string>)
      modifies this`openDatePicker, this`publishDate
      ensures !openDatePicker
      ensures publishDate == if newDate.Some? then newDate.value else old(publishDate)
    {
      openDatePicker := false;
      HandlePublishedDateChange(newDate);
    }

    /** The Milo checkbox is pressed. */
    method ToggleMilo()
      modifies this`isMilo
      ensures isMilo == !old(isMilo)
    {
      isMilo := !isMilo;
    }

    /** The Oliver checkbox is pressed. */
    method ToggleOliver()
      modifies this`isOliver
      ensures isOliver == !old(isOliver)
    {
      isOliver := !isOliver;
    }

    /** The success message is dismissed. */
    method DismissSuccess()
      modifies this`showSuccess
      ensures !showSuccess
    {
      showSuccess := false;
    }

    /** "Start New Post": the draft goes back to the state it mounted in,
        with `today` as its publish date. Calls made and publishes still on
        their timers are untouched. */
    method StartNewPost(today: string)
      modifies this`title, this`body, this`images, this`isMilo, this`isOliver, this`showSuccess, this`publishDate
      ensures IsBlank(today)
    {
      title := "";
      body := "";
      images := [];
      isMilo := false;
      isOliver := false;
      showSuccess := false;
      publishDate := today;
    }
  }

  /** Two uploads started before either publish timer fires: each timer
      appends to the image list it closed over, so the second publish
      overwrites the first and only the second image stays attached. */
  method OverlappingUploadsKeepLast(tokens: Contentful.Tokens, today: string,
                                    uri1: string, answers1: UploadAnswers, image1: Contentful.PublishedAsset,
                                    uri2: string, answers2: UploadAnswers, image2: Contentful.PublishedAsset)
    returns (images: seq<Contentful.PublishedAsset>)
    requires ReachesPublish(Picked(uri1), answers1) && ReachesPublish(Picked(uri2), answers2)
    ensures images == [image2]
  {
    var draft := new Draft(tokens, today);
    draft.PickImage(Picked(uri1), answers1);
    draft.PickImage(Picked(uri2), answers2);
    draft.PublishTimerFires(Some(image1));
    draft.PublishTimerFires(Some(image2));
    images := draft.images;
  }

  /** The same two uploads, each started after the previous publish
      landed: both images stay attached, in upload order. */
  method SequentialUploadsKeepBoth(tokens: Contentful.Tokens, today: string,
                                   uri1: string, answers1: UploadAnswers, image1: Contentful.PublishedAsset,
                                   uri2: string, answers2: UploadAnswers, image2: Contentful.PublishedAsset)
    returns (images: seq<Contentful.PublishedAsset>)
    requires ReachesPublish(Picked(uri1), answers1) && ReachesPublish(Picked(uri2), answers2)
    ensures images == [image1, image2]
  {
    var draft := new Draft(tokens, today);
    draft.PickImage(Picked(uri1), answers1);
    draft.PublishTimerFires(Some(image1));
    draft.PickImage(Picked(uri2), answers2);
    draft.PublishTimerFires(Some(image2));
    images := draft.images;
  }
}
