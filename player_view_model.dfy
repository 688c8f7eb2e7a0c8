/** The editing session: the current video, the in-flight flag, the resume
    point and the filter of the last successful filter job, with the three editing
    intents and the transcoder's completion callback. The transcoder runner is
    a pending-job slot that `Complete` consumes. */
module Player {
  import opened FilterIds
  import opened Wrappers
  import opened PlayerCommands
  import ColorFilterList
  import FileSystemUtil

  /** A media URI, by its string form. */
  type Uri = string

  /** A 64-bit signed integer (Kotlin `Long`). */
  type Long = x: int | -0x8000_0000_0000_0000 <= x < 0x8000_0000_0000_0000

  /** The player library's "no position" marker, Long.MIN_VALUE + 1. */
  const TIME_UNSET: int := -0x7FFF_FFFF_FFFF_FFFF

  /** The transcoder's return codes for success and user cancellation; every
      other code is a failure. */
  const RETURN_CODE_SUCCESS: int := 0
  const RETURN_CODE_CANCEL: int := 255

  /** `Uri.fromFile(File(path))` for a normalised absolute path made of
      letters, digits and `/_-.~`, as the scratch paths built here are (cache
      directory, UUID, `.mp4`). Other characters would be percent-encoded. */
  function FileUri(path: string): (uri: Uri)
    ensures |uri| == |path| + 7 && uri[..7] == "file://" && uri[7..] == path
  {
    "file://" + path
  }

  /** What the callers hand in with each intent: the app's cache directory and
      the mapping from a content URI to a file path (resolved afresh for every
      job). */
  datatype Context = Context(cacheDir: string, realPath: Uri -> string)

  /** What a job does when the transcoder reports success. */
  datatype SuccessAction =
    | ShowSavedToast(savedPath: string)          // permanent copy: tell the user where
    | AdoptVideo(newPath: string)                // the new soundtrack's video becomes current
    | AdoptFilteredVideo(position: int, newPath: string)  // the filtered video becomes current

  /** A submitted transcoder run: its command line and its success action. */
  datatype Job = Job(command: string, onSuccess: SuccessAction)

  /** Which branch the completion callback took. */
  datatype Outcome = Succeeded | Cancelled | Failed(returnCode: int)

  /** An editing intent, with its paths already resolved. */
  datatype Intent =
    | SaveVideo(videoPath: string, newPath: string)
    | SaveWithNewAudio(videoPath: string, audioPath: string, newPath: string)
    | ColorFilterClick(videoPath: string, position: int, newPath: string)

  /** The session's state, field for field. */
  datatype Session = Session(
    videoUri: Option<Uri>,
    isSaving: bool,
    startAutoPlay: bool,
    startPosition: int,
    currentColorFilter: int,
    pending: Option<Job>)

  /** The invariant every operation keeps: the flag is raised exactly while a
      job is pending, a stored position is unset or non-negative, the baked-in
      filter is a known one, and a pending filter job names a catalogue entry. */
  predicate Consistent(s: Session) {
    && (s.isSaving <==> s.pending.Some?)
    && (s.startPosition == TIME_UNSET || s.startPosition >= 0)
    && (s.currentColorFilter == NO_FILTER || IsColorFilter(s.currentColorFilter))
    && (s.pending.Some? && s.pending.value.onSuccess.AdoptFilteredVideo? ==>
          0 <= s.pending.value.onSuccess.position < |ColorFilterList.Catalogue()|)
  }

  /** A new session: no video, idle, no resume point, no filter. */
  function Initial(): (s: Session)
    ensures Consistent(s) && !s.isSaving && s.videoUri == None && s.pending == None
    ensures s.startAutoPlay && s.startPosition == TIME_UNSET
    ensures s.currentColorFilter == NO_FILTER
  {
    Session(None, false, true, TIME_UNSET, NO_FILTER, None)
  }

  /** initViewModelIfNeed: take the video only when none is set yet. */
  function InitIfNeeded(s: Session, uri: Uri): (r: Session)
    ensures r.videoUri.Some?
    ensures s.videoUri.Some? ==> r == s
    ensures s.videoUri.None? ==> r == s.(videoUri := Some(uri))
  {
    if s.videoUri == None then s.(videoUri := Some(uri)) else s
  }

  /** clearStartPosition (also what onCleared does). */
  function ClearedStartPosition(s: Session): (r: Session)
    ensures r.startAutoPlay && r.startPosition == TIME_UNSET
    ensures r.(startAutoPlay := s.startAutoPlay, startPosition := s.startPosition) == s
  {
    s.(startAutoPlay := true, startPosition := TIME_UNSET)
  }

  /** updateStartPosition: the autoplay flag verbatim, the position clamped at 0. */
  function WithStartPosition(s: Session, autoPlay: bool, position: int): (r: Session)
    ensures r.startAutoPlay == autoPlay
    ensures r.startPosition >= 0 && r.startPosition >= position
    ensures r.startPosition == position || r.startPosition == 0
    ensures r.(startAutoPlay := s.startAutoPlay, startPosition := s.startPosition) == s
  {
    s.(startAutoPlay := autoPlay, startPosition := if position < 0 then 0 else position)
  }

  /** The job an intent submits, given the filter currently baked in. */
  function JobFor(intent: Intent, currentColorFilter: int): (job: Job)
    requires intent.ColorFilterClick? ==> 0 <= intent.position < |ColorFilterList.Catalogue()|
    ensures QUOTE !in intent.newPath ==> LastQuotedArgument(job.command) == Some(intent.newPath)
    ensures job.onSuccess == match intent
      case SaveVideo(_, newPath) => ShowSavedToast(newPath)
      case SaveWithNewAudio(_, _, newPath) => AdoptVideo(newPath)
      case ColorFilterClick(_, position, newPath) => AdoptFilteredVideo(position, newPath)
  {
    match intent
    case SaveVideo(videoPath, newPath) =>
      Job(SaveCommand(videoPath, newPath), ShowSavedToast(newPath))
    case SaveWithNewAudio(videoPath, audioPath, newPath) =>
      Job(ReplaceAudioCommand(videoPath, audioPath, newPath), AdoptVideo(newPath))
    case ColorFilterClick(videoPath, position, newPath) =>
      var params := FilterParams(ColorFilterList.FilterAt(position), currentColorFilter);
      Job(FilterCommand(videoPath, params, newPath), AdoptFilteredVideo(position, newPath))
  }

  /** Servicing an intent: raise the flag, then hand the job to the runner.
      Nothing else changes until the runner calls back. */
  function Submit(s: Session, intent: Intent): (r: Session)
    requires Consistent(s) && !s.isSaving
    requires intent.ColorFilterClick? ==> 0 <= intent.position < |ColorFilterList.Catalogue()|
    ensures Consistent(r) && r.isSaving
    ensures r.pending == Some(JobFor(intent, s.currentColorFilter))
    ensures r.(isSaving := false, pending := None) == s
  {
    s.(isSaving := true, pending := Some(JobFor(intent, s.currentColorFilter)))
  }

  /** getExecutionCallback: lower the flag for every return code, run the
      pending job's success action for the success code only, and otherwise
      leave the session as it was. */
  function Completed(s: Session, returnCode: int): (r: (Session, Outcome))
    requires Consistent(s) && s.isSaving
    ensures Consistent(r.0) && !r.0.isSaving && r.0.pending == None
    ensures r.1 == Succeeded <==> returnCode == RETURN_CODE_SUCCESS
    ensures r.1 == Cancelled <==> returnCode == RETURN_CODE_CANCEL
    ensures r.1.Failed? <==> returnCode != RETURN_CODE_SUCCESS && returnCode != RETURN_CODE_CANCEL
    ensures r.1.Failed? ==> r.1.returnCode == returnCode
    ensures returnCode != RETURN_CODE_SUCCESS ==> r.0 == s.(isSaving := false, pending := None)
    ensures r.0.startAutoPlay == s.startAutoPlay && r.0.startPosition == s.startPosition
  {
    var idle := s.(isSaving := false, pending := None);
    if returnCode == RETURN_CODE_SUCCESS then
      match s.pending.value.onSuccess
      case ShowSavedToast(_) => (idle, Succeeded)
      case AdoptVideo(newPath) => (idle.(videoUri := Some(FileUri(newPath))), Succeeded)
      case AdoptFilteredVideo(position, newPath) =>
        (idle.(currentColorFilter := ColorFilterList.FilterAt(position),
               videoUri := Some(FileUri(newPath))), Succeeded)
    else if returnCode == RETURN_CODE_CANCEL then (idle, Cancelled)
    else (idle, Failed(returnCode))
  }

  /** The session object: its fields are the live data and plain fields of the
      view model, plus the runner's pending-job slot. */
  class PlayerViewModel {
    var videoUri: Option<Uri>
    var isSaving: bool
    var startAutoPlay: bool
    var startPosition: int
    var currentColorFilter: int
    var pending: Option<Job>
    const colorFilterList: seq<ColorFilterList.ColorFilterItem>

    function State(): Session
      reads this
    {
      Session(videoUri, isSaving, startAutoPlay, startPosition, currentColorFilter, pending)
    }

    ghost predicate Valid()
      reads this
    {
      Consistent(State()) && colorFilterList == ColorFilterList.Catalogue()
    }

    constructor ()
      ensures Valid() && State() == Initial()
    {
      videoUri := None;
      isSaving := false;
      startAutoPlay := true;
      startPosition := TIME_UNSET;
      colorFilterList := ColorFilterList.Catalogue();
      currentColorFilter := NO_FILTER;
      pending := None;
    }

    /** The owner discards the session: the resume point is reset. */
    method OnCleared()
      requires Valid()
      modifies this
      ensures Valid() && State() == ClearedStartPosition(old(State()))
    {
      ClearStartPosition();
    }

    method InitViewModelIfNeed(currentVideoUri: Uri)
      requires Valid()
      modifies this
      ensures Valid() && State() == InitIfNeeded(old(State()), currentVideoUri)
    {
      if videoUri == None {
        UpdateVideoUri(currentVideoUri);
      }
    }

    method UpdateVideoUri(newUri: Uri)
      requires Valid()
      modifies this
      ensures Valid() && State() == old(State()).(videoUri := Some(newUri))
    {
      videoUri := Some(newUri);
    }

    method ClearStartPosition()
      requires Valid()
      modifies this
      ensures Valid() && State() == ClearedStartPosition(old(State()))
    {
      startAutoPlay := true;
      startPosition := TIME_UNSET;
    }

    method UpdateStartPosition(autoPlay: bool, position: Long)
      requires Valid()
      modifies this
      ensures Valid() && State() == WithStartPosition(old(State()), autoPlay, position)
    {
      startAutoPlay := autoPlay;
      startPosition := if position < 0 then 0 else position;
    }

    /** asyncSaveVideo: copy the current video into the public folder. The
        caller hides the controls while a job runs, hence `!isSaving`. */
    method AsyncSaveVideo(context: Context, moviesDir: string, token: string, storage: FileSystemUtil.Storage)
      requires Valid() && !isSaving && videoUri.Some?
      modifies this, storage
      ensures Valid()
      ensures State() == Submit(old(State()), SaveVideo(context.realPath(old(videoUri).value),
                                                        FileSystemUtil.SavingFileNameAndDir(moviesDir, token)))
      ensures storage.dirs == FileSystemUtil.AfterCreateDefaultFolder(old(storage.dirs), moviesDir)
    {
      isSaving := true;
      storage.CreateDefaultFolderIfNeed(moviesDir);
      var videoPath := context.realPath(videoUri.value);
      var newFileAbsolutePath := FileSystemUtil.SavingFileNameAndDir(moviesDir, token);
      pending := Some(Job(SaveCommand(videoPath, newFileAbsolutePath), ShowSavedToast(newFileAbsolutePath)));
    }

    /** asyncSaveWithNewAudio: replace the audio track, writing to a scratch file. */
    method AsyncSaveWithNewAudio(context: Context, audioUri: Uri, token: string)
      requires Valid() && !isSaving && videoUri.Some?
      modifies this
      ensures Valid()
      ensures State() == Submit(old(State()), SaveWithNewAudio(context.realPath(old(videoUri).value),
                                                               context.realPath(audioUri),
                                                               FileSystemUtil.NewTempFileNameAndDir(context.cacheDir, token)))
    {
      isSaving := true;
      var videoPath := context.realPath(videoUri.value);
      var audioPath := context.realPath(audioUri);
      var newFileAbsolutePath := FileSystemUtil.NewTempFileNameAndDir(context.cacheDir, token);
      pending := Some(Job(ReplaceAudioCommand(videoPath, audioPath, newFileAbsolutePath),
                          AdoptVideo(newFileAbsolutePath)));
    }

    /** The colour-filter click listener, for the clicked catalogue position. */
    method ColorFilterItemClick(context: Context, position: int, token: string)
      requires Valid() && !isSaving && videoUri.Some?
      requires 0 <= position < |colorFilterList|
      modifies this
      ensures Valid()
      ensures State() == Submit(old(State()), ColorFilterClick(context.realPath(old(videoUri).value), position,
                                                               FileSystemUtil.NewTempFileNameAndDir(context.cacheDir, token)))
    {
      isSaving := true;
      var videoPath := context.realPath(videoUri.value);
      var newFileAbsolutePath := FileSystemUtil.NewTempFileNameAndDir(context.cacheDir, token);
      var commandParams := FilterParams(colorFilterList[position].colorFilter, currentColorFilter);
      pending := Some(Job(FilterCommand(videoPath, commandParams, newFileAbsolutePath),
                          AdoptFilteredVideo(position, newFileAbsolutePath)));
    }

    /** The runner's single completion callback for the pending job. */
    method Complete(returnCode: int) returns (outcome: Outcome)
      requires Valid() && isSaving
      modifies this
      ensures Valid()
      ensures (State(), outcome) == Completed(old(State()), returnCode)
    {
      var job := pending.value;
      isSaving := false;
      pending := None;
      if returnCode == RETURN_CODE_SUCCESS {
        match job.onSuccess {
          case ShowSavedToast(_) =>
          case AdoptVideo(newPath) =>
            UpdateVideoUri(FileUri(newPath));
          case AdoptFilteredVideo(position, newPath) =>
            currentColorFilter := colorFilterList[position].colorFilter;
            UpdateVideoUri(FileUri(newPath));
        }
        outcome := Succeeded;
      } else if returnCode == RETURN_CODE_CANCEL {
        outcome := Cancelled;
      } else {
        outcome := Failed(returnCode);
      }
    }
  }
}
