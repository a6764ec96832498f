/**
 * The image-selection and background-removal hook: five state cells (the
 * selected file, the original image URL, the processed image URL, the
 * loading flag and the error message) and the three handlers that update
 * them. Object URLs are opaque tokens supplied by the caller, and the
 * removal engine is an outcome supplied by the caller.
 */
module BackgroundRemoval {
  import opened Wrappers

  /** The part of a browser File the hook looks at. */
  datatype File = File(mimeType: string, size: int)

  /** An object URL created for a file or a blob. */
  datatype ObjectUrl = ObjectUrl(token: nat)

  /** What the removal engine gave back: a result blob's URL, or an error with a possibly empty message. */
  datatype RemovalOutcome = Succeeded(result: ObjectUrl) | Failed(message: string)

  /** The verdict of the upload checks. */
  datatype FileCheck = Accepted | Rejected(error: string)

  /** The hook's five state cells as one value. */
  datatype View = View(
    file: Option<File>,
    originalImage: Option<ObjectUrl>,
    processedImage: Option<ObjectUrl>,
    isLoading: bool,
    error: Option<string>)

  /** Upload size limit: 5 MB in binary megabytes. */
  const MaxSizeBytes: int := 5 * 1024 * 1024

  const InvalidTypeError: string := "Invalid file type. Please upload an image."
  const SizeLimitError: string :=
    "File size exceeds the 5MB limit. Please upload a smaller image or upgrade your plan."
  const NoImageError: string := "No image selected."
  const DefaultRemovalError: string := "Failed to remove background. Please try again."

  /** The MIME type starts with "image/". */
  predicate IsImageType(mimeType: string) {
    "image/" <= mimeType
  }

  /** The type check, then the size check; the first failure decides the message. */
  function CheckFile(f: File): (verdict: FileCheck)
    ensures verdict.Accepted? <==> IsImageType(f.mimeType) && f.size <= 5242880
    ensures !IsImageType(f.mimeType) ==> verdict == Rejected(InvalidTypeError)
    ensures IsImageType(f.mimeType) && f.size > 5242880 ==> verdict == Rejected(SizeLimitError)
  {
    if !IsImageType(f.mimeType) then Rejected(InvalidTypeError)
    else if f.size > MaxSizeBytes then Rejected(SizeLimitError)
    else Accepted
  }

  /**
   * A plain-text upload gets the type error whatever its size, an image of
   * exactly 5 MB is accepted, and one of 6 MB gets the size error.
   */
  lemma UploadLimitExamples(size: int)
    ensures CheckFile(File("text/plain", size)) == Rejected(InvalidTypeError)
    ensures CheckFile(File("image/png", 5 * 1024 * 1024)) == Accepted
    ensures CheckFile(File("image/png", 6 * 1024 * 1024)) == Rejected(SizeLimitError)
  {
    assert "text/plain"[0] != "image/"[0];
  }

  /** The message shown for an engine failure: its own message, or the default one if that is empty. */
  function FailureMessage(message: string): (shown: string)
    ensures shown != ""
    ensures message != "" ==> shown == message
    ensures message == "" ==> shown == DefaultRemovalError
  {
    if message != "" then message else DefaultRemovalError
  }

  /**
   * What holds between handler calls: an original image is shown exactly when
   * a file is selected, the selected file passed the upload checks, a
   * processed image is shown only beside an original and never with an
   * error, and nothing is loading.
   */
  ghost predicate Consistent(v: View) {
    && (v.file.Some? <==> v.originalImage.Some?)
    && (v.file.Some? ==> CheckFile(v.file.value).Accepted?)
    && (v.processedImage.Some? ==> v.originalImage.Some? && v.error.None?)
    && !v.isLoading
  }

  /** The state just after the hook is created. */
  function Initial(): (v: View)
    ensures Consistent(v) && v.file.None? && v.error.None? && v.processedImage.None?
  {
    View(None, None, None, false, None)
  }

  /**
   * handleFileChange with the input's first file (`chosen`) and the URL the
   * browser would create for it (`url`).
   */
  function AfterFileChange(v: View, chosen: Option<File>, url: ObjectUrl): (w: View)
    ensures w.processedImage.None? && w.isLoading == v.isLoading
    ensures chosen.None? ==> w.file.None? && w.originalImage.None? && w.error.None?
    ensures chosen.Some? && !IsImageType(chosen.value.mimeType) ==>
              w.file.None? && w.originalImage.None? && w.error == Some(InvalidTypeError)
    ensures chosen.Some? && IsImageType(chosen.value.mimeType) && chosen.value.size > MaxSizeBytes ==>
              w.file.None? && w.originalImage.None? && w.error == Some(SizeLimitError)
    ensures chosen.Some? && CheckFile(chosen.value).Accepted? ==>
              w.file == chosen && w.originalImage == Some(url) && w.error.None?
    ensures !v.isLoading ==> Consistent(w)
  {
    var cleared := v.(originalImage := None, processedImage := None, error := None);
    match chosen
    case None => cleared.(file := None)
    case Some(f) =>
      match CheckFile(f)
      case Rejected(message) => cleared.(error := Some(message), file := None)
      case Accepted => cleared.(file := Some(f), originalImage := Some(url))
  }

  /**
   * The state while the engine is running: the loading flag is up, no stale
   * result or error is shown, and apart from the flag the view is as
   * consistent as the one it started from.
   */
  function Processing(v: View): (w: View)
    ensures w.isLoading && w.error.None? && w.processedImage.None?
    ensures w.file == v.file && w.originalImage == v.originalImage
    ensures Consistent(v) ==> Consistent(w.(isLoading := false))
  {
    v.(isLoading := true, error := None, processedImage := None)
  }

  /** handleRemoveBackground, with the engine's outcome for the selected file. */
  function AfterRemoval(v: View, outcome: RemovalOutcome): (w: View)
    ensures v.file.None? ==> w == v.(error := Some(NoImageError))
    ensures v.file.Some? ==> !w.isLoading && w.file == v.file && w.originalImage == v.originalImage
    ensures v.file.Some? && outcome.Succeeded? ==>
              w.processedImage == Some(outcome.result) && w.error.None?
    ensures v.file.Some? && outcome.Failed? ==>
              w.processedImage.None? && w.error.Some? && w.error.value != ""
              && (outcome.message != "" ==> w.error == Some(outcome.message))
              && (outcome.message == "" ==> w.error == Some(DefaultRemovalError))
    ensures Consistent(v) ==> Consistent(w)
  {
    if v.file.None? then v.(error := Some(NoImageError))
    else
      var running := Processing(v);
      var settled := match outcome
        case Succeeded(blob) => running.(processedImage := Some(blob))
        case Failed(message) => running.(error := Some(FailureMessage(message)));
      settled.(isLoading := false)
  }

  /**
   * With a file selected, the removal settles the processing state by
   * lowering the loading flag and filling in exactly one of the result and
   * the error; the selection is carried through.
   */
  lemma RemovalSettlesProcessing(v: View, outcome: RemovalOutcome)
    requires v.file.Some?
    ensures var w, p := AfterRemoval(v, outcome), Processing(v);
      && p.isLoading && !w.isLoading
      && w.file == p.file && w.originalImage == p.originalImage
      && (outcome.Succeeded? ==> w.error == p.error && w.processedImage != p.processedImage)
      && (outcome.Failed? ==> w.processedImage == p.processedImage && w.error != p.error)
  {
  }

  /** clearImages: forget the file and both images, and the error. */
  function Cleared(v: View): (w: View)
    ensures w.file.None? && w.originalImage.None? && w.processedImage.None? && w.error.None?
    ensures w.isLoading == v.isLoading
    ensures Consistent(v) ==> Consistent(w)
  {
    v.(file := None, originalImage := None, processedImage := None, error := None)
  }

  /** The hook instance: its state cells and the handlers that set them. */
  class BackgroundRemovalHook {
    var file: Option<File>
    var originalImage: Option<ObjectUrl>
    var processedImage: Option<ObjectUrl>
    var isLoading: bool
    var error: Option<string>

    function Snapshot(): View
      reads this
    {
      View(file, originalImage, processedImage, isLoading, error)
    }

    ghost predicate Valid()
      reads this
    {
      Consistent(Snapshot())
    }

    constructor ()
      ensures Snapshot() == Initial() && Valid()
    {
      file := None;
      originalImage := None;
      processedImage := None;
      isLoading := false;
      error := None;
    }

    method HandleFileChange(chosen: Option<File>, url: ObjectUrl)
      requires Valid()
      modifies this
      ensures Snapshot() == AfterFileChange(old(Snapshot()), chosen, url)
      ensures Valid()
    {
      originalImage := None;
      processedImage := None;
      error := None;
      if chosen.Some? {
        var f := chosen.value;
        if !IsImageType(f.mimeType) {
          error := Some(InvalidTypeError);
          file := None;
          return;
        }
        if f.size > MaxSizeBytes {
          error := Some(SizeLimitError);
          file := None;
          return;
        }
        file := Some(f);
        originalImage := Some(url);
      } else {
        file := None;
      }
    }

    method HandleRemoveBackground(outcome: RemovalOutcome)
      requires Valid()
      modifies this
      ensures Snapshot() == AfterRemoval(old(Snapshot()), outcome)
      ensures Valid()
    {
      if file.None? {
        error := Some(NoImageError);
        return;
      }
      isLoading := true;
      error := None;
      processedImage := None;
      match outcome {
        case Succeeded(blob) =>
          processedImage := Some(blob);
        case Failed(message) =>
          error := Some(FailureMessage(message));
      }
      isLoading := false;
    }

    method ClearImages()
      requires Valid()
      modifies this
      ensures Snapshot() == Cleared(old(Snapshot()))
      ensures Valid()
    {
      file := None;
      originalImage := None;
      processedImage := None;
      error := None;
    }
  }
}
