/** Properties of the editing session that span several operations: what a
    job's completion does to the state its intent started from, and that the
    in-flight flag tracks the one outstanding job over any run. */
module PlayerProperties {
  import opened FilterIds
  import opened Wrappers
  import opened PlayerCommands
  import opened Player
  import ColorFilterList

  predicate ValidPosition(intent: Intent) {
    intent.ColorFilterClick? ==> 0 <= intent.position < |ColorFilterList.Catalogue()|
  }

  /** A cancelled or failed job leaves the session exactly as it was before
      its intent: same video, same filter, same resume point, idle again. */
  lemma FailureRestoresSession(s: Session, intent: Intent, returnCode: int)
    requires Consistent(s) && !s.isSaving && ValidPosition(intent)
    requires returnCode != RETURN_CODE_SUCCESS
    ensures Completed(Submit(s, intent), returnCode).0 == s
  {
  }

  /** A successful job's effect, by intent: a permanent copy changes nothing;
      a new soundtrack switches to the scratch file; a filter switches to the
      scratch file and records the catalogue entry's filter. The resume point
      is kept in every case. */
  lemma SuccessEffect(s: Session, intent: Intent)
    requires Consistent(s) && !s.isSaving && ValidPosition(intent)
    ensures Completed(Submit(s, intent), RETURN_CODE_SUCCESS) ==
      match intent
      case SaveVideo(_, _) => (s, Succeeded)
      case SaveWithNewAudio(_, _, newPath) => (s.(videoUri := Some(FileUri(newPath))), Succeeded)
      case ColorFilterClick(_, position, newPath) =>
        (s.(videoUri := Some(FileUri(newPath)), currentColorFilter := ColorFilterList.FilterAt(position)), Succeeded)
  {
  }

  /** Clicking the filter that is already baked in builds a command with no
      filter graph, yet its success still switches to the new scratch file. */
  lemma ReapplyingFilterStillSwitchesVideo(s: Session, videoPath: string, position: int, newPath: string)
    requires Consistent(s) && !s.isSaving && 0 <= position < |ColorFilterList.Catalogue()|
    requires s.currentColorFilter == ColorFilterList.FilterAt(position)
    ensures Submit(s, ColorFilterClick(videoPath, position, newPath)).pending.value.command
            == FilterCommand(videoPath, "", newPath)
    ensures Completed(Submit(s, ColorFilterClick(videoPath, position, newPath)), RETURN_CODE_SUCCESS).0
            == s.(videoUri := Some(FileUri(newPath)))
  {
  }

  /** The file a job's success action adopts is the file its command writes. */
  lemma JobWritesWhatItAdopts(s: Session, intent: Intent)
    requires Consistent(s) && !s.isSaving && ValidPosition(intent)
    requires QUOTE !in intent.newPath
    ensures var job := Submit(s, intent).pending.value;
      LastQuotedArgument(job.command) == Some(intent.newPath) &&
      match job.onSuccess
      case ShowSavedToast(p) => p == intent.newPath
      case AdoptVideo(p) => p == intent.newPath
      case AdoptFilteredVideo(_, p) => p == intent.newPath
  {
    var params := if intent.ColorFilterClick?
      then FilterParams(ColorFilterList.FilterAt(intent.position), s.currentColorFilter) else "";
    CommandsWriteTo(intent.videoPath, if intent.SaveWithNewAudio? then intent.audioPath else "",
                    params, intent.newPath);
  }

  /** Picking another video keeps the recorded filter: the field then names
      the filter of the last successful filter job, not one baked into the
      new video, and clicking that filter builds the plain-copy command. */
  lemma PickingVideoKeepsFilter(s: Session, uri: Uri, videoPath: string, position: int, newPath: string)
    requires Consistent(s) && !s.isSaving && 0 <= position < |ColorFilterList.Catalogue()|
    requires s.currentColorFilter == ColorFilterList.FilterAt(position)
    ensures Step(s, PickVideo(uri)).currentColorFilter == s.currentColorFilter
    ensures Submit(Step(s, PickVideo(uri)), ColorFilterClick(videoPath, position, newPath)).pending.value.command
            == FilterCommand(videoPath, "", newPath)
  {
  }

  /** initViewModelIfNeed is idempotent: once a video is set, later calls keep it. */
  lemma InitIfNeededKeepsFirstVideo(s: Session, first: Uri, later: Uri)
    ensures InitIfNeeded(InitIfNeeded(s, first), later) == InitIfNeeded(s, first)
  {
  }

  /** Everything that can happen to a session, one call at a time. */
  datatype Event =
    | InitEvent(uri: Uri)
    | PickVideo(uri: Uri)
    | ClearStart
    | SaveStart(autoPlay: bool, position: int)
    | IntentEvent(intent: Intent)
    | CompleteEvent(returnCode: int)

  /** What the callers guarantee before each call: intents only while idle,
      with a video and a catalogue position; completions only while a job
      runs (the runner calls back once per job). */
  predicate Enabled(s: Session, e: Event) {
    match e
    case IntentEvent(intent) => !s.isSaving && s.videoUri.Some? && ValidPosition(intent)
    case CompleteEvent(_) => s.isSaving
    case _ => true
  }

  function Step(s: Session, e: Event): (r: Session)
    requires Consistent(s) && Enabled(s, e)
    ensures Consistent(r)
    ensures e.IntentEvent? ==> r.isSaving
    ensures e.CompleteEvent? ==> !r.isSaving
    ensures !e.IntentEvent? && !e.CompleteEvent? ==> r.isSaving == s.isSaving
  {
    match e
    case InitEvent(uri) => InitIfNeeded(s, uri)
    case PickVideo(uri) => s.(videoUri := Some(uri))
    case ClearStart => ClearedStartPosition(s)
    case SaveStart(autoPlay, position) => WithStartPosition(s, autoPlay, position)
    case IntentEvent(intent) => Submit(s, intent)
    case CompleteEvent(returnCode) => Completed(s, returnCode).0
  }

  /** The session after a run of events from a new session; None when some
      event was not enabled. */
  function Run(events: seq<Event>): (r: Option<Session>)
    ensures r.Some? ==> Consistent(r.value)
  {
    if events == [] then Some(Initial())
    else
      var last := events[|events| - 1];
      match Run(events[..|events| - 1])
      case None => None
      case Some(s) => if Enabled(s, last) then Some(Step(s, last)) else None
  }

  /** Intents submitted minus completions delivered. */
  function Outstanding(events: seq<Event>): int {
    if events == [] then 0
    else
      var last := events[|events| - 1];
      Outstanding(events[..|events| - 1])
        + (if last.IntentEvent? then 1 else if last.CompleteEvent? then -1 else 0)
  }

  /** Over every run, at most one job is outstanding, and the session is
      saving exactly while one is. */
  lemma {:induction false} FlagTracksOutstandingJob(events: seq<Event>)
    requires Run(events).Some?
    ensures 0 <= Outstanding(events) <= 1
    ensures Run(events).value.isSaving <==> Outstanding(events) == 1
    ensures Run(events).value.pending.Some? <==> Outstanding(events) == 1
  {
    if events != [] {
      FlagTracksOutstandingJob(events[..|events| - 1]);
    }
  }

  /** Start on "a.mp4" with no filter, apply blue (catalogue position 0) and
      let it succeed: the video is the scratch file, blue is baked in, and
      clicking blue again builds a command with no filter graph. */
  lemma BlueFilterScenario(newPath: string, videoPath: string, nextPath: string)
    ensures var s0 := InitIfNeeded(Initial(), "a.mp4");
      var s1 := Submit(s0, ColorFilterClick("a.mp4", 0, newPath));
      var (s2, outcome) := Completed(s1, RETURN_CODE_SUCCESS);
      && outcome == Succeeded
      && s2.videoUri == Some(FileUri(newPath))
      && s2.currentColorFilter == BLUE_FILTER
      && !s2.isSaving
      && Submit(s2, ColorFilterClick(videoPath, 0, nextPath)).pending.value.command
         == FilterCommand(videoPath, "", nextPath)
  {
  }
}
