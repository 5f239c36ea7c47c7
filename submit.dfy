/**
 * The submit form of the public page (app.js `validateFile` and `handleSubmit`): validation, the
 * chunked transfer, the `videos` row inserted as `verifying`, the status subscription and the
 * optional processing trigger, in that order, with one clean-up path for every error.
 */
module Submit {
  import opened Wrappers
  import opened Text
  import opened VideoStatus
  import opened Presenter
  import opened Multipart
  import opened Subscription

  /** The picked file: its name, its browser-reported MIME type and its size in bytes. */
  datatype File = File(name: string, mimeType: string, size: nat)

  /** The raw form fields, before trimming. */
  datatype Form = Form(
    title: string,
    description: string,
    place: string,
    category: string,
    reporterEmail: string,
    file: Option<File>)

  /**
   * The client settings read from APP_CONFIG. `uploadChunkSize` and `processFunctionName` are read by
   * the page but not set by config.js; an empty function name means none is configured.
   */
  datatype Settings = Settings(
    clientConfigured: bool,
    bucket: string,
    allowedMimeTypes: seq<string>,
    maxFileSize: nat,
    uploadChunkSize: Option<int>,
    processFunctionName: string)

  /** The settings config.js ships: a 300 MiB limit, MP4 only, and neither optional key set. */
  function ShippedSettings(clientConfigured: bool, bucket: string): (s: Settings)
    ensures s.maxFileSize == 300 * MiB && s.allowedMimeTypes == ["video/mp4"]
    ensures s.uploadChunkSize.None? && s.processFunctionName == ""
  {
    Settings(clientConfigured, bucket, ["video/mp4"], 300 * MiB, None, "")
  }

  /** Why validateFile refuses a file; `maxMb` is the limit shown to the user, in whole MiB. */
  datatype FileRejection = NoFile | MimeNotAllowed | TooLarge(maxMb: nat)

  /** validateFile: a file must be present, of an allowed MIME type, and at most the limit (equal is fine). */
  function CheckFile(file: Option<File>, s: Settings): (r: Option<FileRejection>)
    ensures r.None? <==> file.Some? && file.value.mimeType in s.allowedMimeTypes && file.value.size <= s.maxFileSize
    ensures r == Some(NoFile) <==> file.None?
    ensures r == Some(MimeNotAllowed) <==> file.Some? && file.value.mimeType !in s.allowedMimeTypes
    ensures r.Some? && r.value.TooLarge? ==> r.value.maxMb * MiB <= s.maxFileSize < (r.value.maxMb + 1) * MiB
  {
    match file
    case None => Some(NoFile)
    case Some(f) =>
      if f.mimeType !in s.allowedMimeTypes then Some(MimeNotAllowed)
      else if f.size > s.maxFileSize then Some(TooLarge(s.maxFileSize / MiB))
      else None
  }

  /** The row inserted into `videos`. */
  datatype VideoRow = VideoRow(
    id: string,
    title: string,
    description: Option<string>,
    place: Option<string>,
    category: string,
    status: string,
    filePath: string,
    thumbPath: Option<string>,
    reporterEmail: Option<string>)

  /** The body of the processing trigger. */
  datatype InvokeBody = InvokeBody(videoId: string, bucket: string, path: string, size: nat, mimeType: string)

  /** What the backend answers: the storage oracle and whether the insert, the subscription and the trigger succeed. */
  datatype Backend = Backend(storage: Storage, insertOk: bool, subscribeOk: bool, invokeOk: bool)

  /** The backend operations of a submission, in order. */
  datatype Step =
    | Transfer(calls: seq<Call>)
    | InsertRow(row: VideoRow)
    | Follow(videoId: string)
    | InvokeProcessing(functionName: string, body: InvokeBody)

  datatype Outcome = NoClient | TitleMissing | FileInvalid(why: FileRejection) | Submitted | SubmitFailed

  /** The object path of a submission: always `.mp4`, whatever the file's own name. */
  function StoragePath(videoId: string): (p: string)
  {
    "videos/" + videoId + ".mp4"
  }

  /** The object path is `videos/`, the id, then `.mp4`, and the id can be read back from it. */
  lemma StoragePathShape(videoId: string)
    ensures var p := StoragePath(videoId);
      && |p| == |videoId| + 11
      && StartsWith(p, "videos/") && p[|"videos/"|..|p| - 4] == videoId && p[|p| - 4..] == ".mp4"
  {
  }

  /** Different ids never share an object path. */
  lemma StoragePathInjective(a: string, b: string)
    requires StoragePath(a) == StoragePath(b)
    ensures a == b
  {
    StoragePathShape(a);
    StoragePathShape(b);
  }

  /** `text || null` on an already trimmed text. */
  function Nullable(text: string): (r: Option<string>)
    ensures r.None? <==> text == ""
    ensures r.Some? ==> r.value == text
  {
    if text == "" then None else Some(text)
  }

  /** The new row: trimmed fields, empty optional ones as null, status `verifying`, no thumbnail yet. */
  function RowFor(form: Form, videoId: string): (r: VideoRow)
    ensures r.id == videoId && r.status == Key(Verifying) && r.filePath == StoragePath(videoId)
    ensures r.thumbPath.None? && r.title == Trim(form.title) && r.category == form.category
    ensures r.description.None? <==> AllSpace(form.description)
    ensures r.description.Some? ==> r.description.value == Trim(form.description)
    ensures r.place.None? <==> AllSpace(form.place)
    ensures r.place.Some? ==> r.place.value == Trim(form.place)
    ensures r.reporterEmail.None? <==> AllSpace(form.reporterEmail)
    ensures r.reporterEmail.Some? ==> r.reporterEmail.value == Trim(form.reporterEmail)
  {
    VideoRow(
      videoId, Trim(form.title), Nullable(Trim(form.description)), Nullable(Trim(form.place)), form.category,
      "verifying", StoragePath(videoId), None, Nullable(Trim(form.reporterEmail)))
  }

  /** The transfer as the engine performs it for this submission. */
  function TransferRun(file: File, s: Settings, videoId: string, b: Backend): Run {
    ExpectedRun(file.size, s.uploadChunkSize, StoragePath(videoId), b.storage)
  }

  /** The outcome of a submission, decided before anything is sent when the form is refused. */
  function ExpectedOutcome(form: Form, videoId: string, s: Settings, b: Backend): Outcome {
    if !s.clientConfigured then NoClient
    else if Trim(form.title) == "" then TitleMissing
    else if CheckFile(form.file, s).Some? then FileInvalid(CheckFile(form.file, s).value)
    else if TransferRun(form.file.value, s, videoId, b).result.Err? || !b.insertOk then SubmitFailed
    else if s.processFunctionName != "" && !b.invokeOk then SubmitFailed
    else Submitted
  }

  /** The backend operations a submission makes: up to the first one that fails. */
  function ExpectedSteps(form: Form, videoId: string, s: Settings, b: Backend): seq<Step> {
    if !s.clientConfigured || Trim(form.title) == "" || CheckFile(form.file, s).Some? then []
    else StepsAfter(form, videoId, s, b, TransferRun(form.file.value, s, videoId, b))
  }

  /** The operations of an accepted form, given how its transfer ran. */
  function StepsAfter(form: Form, videoId: string, s: Settings, b: Backend, run: Run): (r: seq<Step>)
    requires form.file.Some?
    ensures 1 <= |r| <= 4 && r[0] == Transfer(run.calls)
  {
    if run.result.Err? then [Transfer(run.calls)]
    else if !b.insertOk then [Transfer(run.calls), InsertRow(RowFor(form, videoId))]
    else [Transfer(run.calls), InsertRow(RowFor(form, videoId))] + StepsAfterInsert(form.file.value, videoId, s)
  }

  /** After the row is in: the subscription, then the trigger when a function name is configured. */
  function StepsAfterInsert(file: File, videoId: string, s: Settings): (r: seq<Step>)
    ensures 1 <= |r| <= 2 && r[0] == Follow(videoId)
    ensures |r| == 2 <==> s.processFunctionName != ""
  {
    if s.processFunctionName == "" then [Follow(videoId)]
    else [Follow(videoId), InvokeProcessing(s.processFunctionName, InvokeBody(videoId, s.bucket, StoragePath(videoId), file.size, file.mimeType))]
  }

  /** A refused form (no client, blank title, bad file) sends nothing at all. */
  lemma RefusedFormSendsNothing(form: Form, videoId: string, s: Settings, b: Backend)
    ensures ExpectedOutcome(form, videoId, s, b) in {NoClient, TitleMissing} || ExpectedOutcome(form, videoId, s, b).FileInvalid?
      <==> ExpectedSteps(form, videoId, s, b) == []
    ensures Trim(form.title) == "" && s.clientConfigured ==> ExpectedOutcome(form, videoId, s, b) == TitleMissing
  {
  }

  /**
   * The order of the operations: the transfer first; the row (status `verifying`, path
   * `videos/<id>.mp4`) only after a successful transfer; the subscription only after a successful
   * insert; the processing trigger last.
   */
  predicate InOrder(steps: seq<Step>, form: Form, videoId: string, b: Backend, run: Run) {
    && 1 <= |steps| <= 4
    && steps[0] == Transfer(run.calls)
    && (|steps| >= 2 ==> run.result.Ok? && steps[1] == InsertRow(RowFor(form, videoId)))
    && (|steps| >= 3 ==> b.insertOk && steps[2] == Follow(videoId))
    && (|steps| == 4 ==> steps[3].InvokeProcessing?)
  }

  lemma StepOrder(form: Form, videoId: string, s: Settings, b: Backend)
    requires ExpectedSteps(form, videoId, s, b) != []
    ensures form.file.Some?
    ensures InOrder(ExpectedSteps(form, videoId, s, b), form, videoId, b, TransferRun(form.file.value, s, videoId, b))
  {
    StepsAfterInOrder(form, videoId, s, b, TransferRun(form.file.value, s, videoId, b));
  }

  lemma StepsAfterInOrder(form: Form, videoId: string, s: Settings, b: Backend, run: Run)
    requires form.file.Some?
    ensures InOrder(StepsAfter(form, videoId, s, b, run), form, videoId, b, run)
  {
    if run.result.Ok? && b.insertOk {
      InsertedInOrder([Transfer(run.calls), InsertRow(RowFor(form, videoId))], StepsAfterInsert(form.file.value, videoId, s), form, videoId, b, run);
    }
  }

  lemma InsertedInOrder(head: seq<Step>, tail: seq<Step>, form: Form, videoId: string, b: Backend, run: Run)
    requires head == [Transfer(run.calls), InsertRow(RowFor(form, videoId))] && run.result.Ok? && b.insertOk
    requires 1 <= |tail| <= 2 && tail[0] == Follow(videoId) && (|tail| == 2 ==> tail[1].InvokeProcessing?)
    ensures InOrder(head + tail, form, videoId, b, run)
  {
    var steps := head + tail;
    assert steps[0] == head[0] && steps[1] == head[1] && steps[2] == tail[0];
    assert |tail| == 2 ==> steps[3] == tail[1];
  }



  /** A submission succeeds exactly when the transfer, the insert and any configured trigger succeed. */
  lemma SubmittedExactly(form: Form, videoId: string, s: Settings, b: Backend)
    requires s.clientConfigured && Trim(form.title) != "" && CheckFile(form.file, s).None?
    ensures ExpectedOutcome(form, videoId, s, b) == Submitted <==>
      && TransferRun(form.file.value, s, videoId, b).result.Ok?
      && b.insertOk
      && (s.processFunctionName == "" || b.invokeOk)
    ensures ExpectedOutcome(form, videoId, s, b) != Submitted ==> ExpectedOutcome(form, videoId, s, b) == SubmitFailed
  {
  }

  /**
   * With the settings config.js ships, the page never triggers processing itself: a submission
   * stops at the transfer, the insert or the subscription.
   */
  lemma ShippedSettingsNeverInvoke(form: Form, videoId: string, clientConfigured: bool, bucket: string, b: Backend)
    ensures var steps := ExpectedSteps(form, videoId, ShippedSettings(clientConfigured, bucket), b);
      && |steps| <= 3
      && (|steps| >= 1 ==> steps[0].Transfer?)
      && (|steps| >= 2 ==> steps[1].InsertRow?)
      && (|steps| == 3 ==> steps[2].Follow?)
  {
    var s := ShippedSettings(clientConfigured, bucket);
    if ExpectedSteps(form, videoId, s, b) != [] {
      StepsAfterInOrder(form, videoId, s, b, TransferRun(form.file.value, s, videoId, b));
    }
  }

  /** The bar's percentage for a progress report: `round(uploaded / total * 100)`, or 0 for an empty total. */
  function UploadPercent(p: Progress): (r: int)
    ensures p.total == 0 ==> r == 0
    ensures p.total > 0 && 0 <= p.uploaded <= p.total ==> 0 <= r <= 100
    ensures p.total > 0 && p.uploaded == p.total ==> r == 100
  {
    if p.total == 0 then 0
    else
      var r := (200 * p.uploaded + p.total) / (2 * p.total);
      if 0 <= p.uploaded <= p.total then
        DivMonotone(p.total, 200 * p.uploaded + p.total, 2 * p.total);
        DivMonotone(200 * p.uploaded + p.total, 201 * p.total, 2 * p.total);
        DivUnique(201 * p.total, 2 * p.total, 100, p.total);
        r
      else r
  }

  lemma DivMonotone(x: int, y: int, d: int)
    requires d > 0 && x <= y
    ensures x / d <= y / d
  {
    var qx, qy := x / d, y / d;
    assert (qx - qy) * d == (x - x % d) - (y - y % d);
    MulAwayFromZero(qx - qy, d);
  }

  /** The percentages shown while the transfer reports progress. */
  function UploadPercents(progress: seq<Progress>): (r: seq<int>)
    ensures |r| == |progress|
    ensures forall i :: 0 <= i < |progress| ==> r[i] == UploadPercent(progress[i])
  {
    if progress == [] then [] else UploadPercents(progress[..|progress| - 1]) + [UploadPercent(progress[|progress| - 1])]
  }

  /** The bar never moves backwards during a transfer, stays within 0..100, and ends at 100 on success. */
  lemma UploadPercentsClimb(size: nat, chunk: Option<int>, path: string, storage: Storage)
    ensures var shown := UploadPercents(ExpectedRun(size, chunk, path, storage).progress);
      && (forall i :: 0 <= i < |shown| ==> 0 <= shown[i] <= 100)
      && (forall i, j :: 0 <= i <= j < |shown| ==> shown[i] <= shown[j])
      && (ExpectedRun(size, chunk, path, storage).result.Ok? && size > 0 ==> shown[|shown| - 1] == 100)
  {
    RunProgress(size, chunk, path, storage);
    OrderedPercentsClimb(ExpectedRun(size, chunk, path, storage).progress, size);
  }

  /** Reports that climb towards one total give percentages that climb within 0..100. */
  lemma OrderedPercentsClimb(progress: seq<Progress>, size: nat)
    requires OrderedReports(progress, size)
    ensures var shown := UploadPercents(progress);
      && (forall i :: 0 <= i < |shown| ==> 0 <= shown[i] <= 100)
      && (forall i, j :: 0 <= i <= j < |shown| ==> shown[i] <= shown[j])
  {
    var shown := UploadPercents(progress);
    forall i, j | 0 <= i <= j < |shown|
      ensures shown[i] <= shown[j]
    {
      var p, q := progress[i], progress[j];
      if size > 0 {
        assert shown[i] == (200 * p.uploaded + size) / (2 * size);
        assert shown[j] == (200 * q.uploaded + size) / (2 * size);
        DivMonotone(200 * p.uploaded + size, 200 * q.uploaded + size, 2 * size);
      }
    }
  }

  /** What the page shows after a failed submission: no subscription, `failed` at 0% in the error tone. */
  predicate ShowsFailure(session: UploadSession, widget: ProgressWidget)
    reads session, widget
  {
    && session.Valid() && session.currentVideoId == None && session.channel == None
    && widget.visible && widget.percent == 0 && widget.tone == Error && widget.caption == ProgressLabel(Failed)
    && widget.statusText == StatusMessage(Failed) && widget.statusTone == Error
  }

  /** What the page shows after a successful submission: `pending` at 100%, following the video if subscribed. */
  predicate ShowsPending(session: UploadSession, widget: ProgressWidget, videoId: string, subscribed: bool)
    reads session, widget
  {
    && session.Valid() && (session.currentVideoId == Some(videoId) <==> subscribed)
    && widget.visible && widget.percent == 100 && widget.tone == Info && widget.caption == ProgressLabel(Pending)
    && widget.statusText == StatusMessage(Pending) && widget.statusTone == Info
  }

  /** The error path of handleSubmit: unsubscribe, and show `failed` on the line and at 0% on the bar. */
  method ShowFailure(session: UploadSession, widget: ProgressWidget)
    requires session.Valid()
    modifies session, widget
    ensures ShowsFailure(session, widget)
    ensures session.realtime == old(session.realtime) + RemovalOf(old(session.channel))
  {
    PushedStatusShows(Failed, "error");
    session.Cleanup();
    widget.UpdateStatus("failed", "error");
    widget.UpdateUploadProgressStatus("failed", Overrides("", "", Some(0)));
  }

  /** The success path of handleSubmit: `pending` on the line, and at 100% on the bar. */
  method ShowPending(widget: ProgressWidget)
    modifies widget
    ensures widget.visible && widget.percent == 100 && widget.tone == Info && widget.caption == ProgressLabel(Pending)
    ensures widget.statusText == StatusMessage(Pending) && widget.statusTone == Info
  {
    PushedStatusShows(Pending, "info");
    widget.UpdateStatus("pending", "info");
    widget.UpdateUploadProgressStatus("pending", NoOverrides);
  }

  /** One progress report: `uploading` on the line, and the bar at the reported percentage. */
  method ShowUploading(widget: ProgressWidget, percent: int)
    modifies widget
    ensures ShowsUploading(widget, percent)
  {
    PushedStatusShows(Uploading, "info");
    widget.UpdateUploadProgressStatus("uploading", Overrides("", "", Some(percent)));
    widget.UpdateStatus("uploading", "info");
  }

  /** What a progress report leaves on screen: the bar at the capped percentage, captioned and stated `uploading`. */
  predicate ShowsUploading(widget: ProgressWidget, percent: int)
    reads widget
  {
    && widget.visible && widget.percent == Capped(percent) && widget.tone == Info && widget.caption == ProgressLabel(Uploading)
    && widget.statusText == StatusMessage(Uploading) && widget.statusTone == Info
  }

  /** After the transfer: `verifying` on the line, and at 100% on the bar. */
  method ShowVerifying(widget: ProgressWidget)
    modifies widget
    ensures widget.visible && widget.percent == 100 && widget.tone == Info && widget.caption == ProgressLabel(Verifying)
    ensures widget.statusText == StatusMessage(Verifying) && widget.statusTone == Info
  {
    PushedStatusShows(Verifying, "info");
    widget.UpdateUploadProgressStatus("verifying", NoOverrides);
    widget.UpdateStatus("verifying", "info");
  }

  /**
   * The transfer with its progress callback: each report moves the bar and restates `uploading`, so
   * the widget ends showing the last reported percentage; without any report it is left as it was.
   */
  method TransferWithProgress(file: File, s: Settings, path: string, storage: Storage, widget: ProgressWidget)
    returns (run: Run, shown: seq<int>)
    modifies widget
    ensures run == ExpectedRun(file.size, s.uploadChunkSize, path, storage)
    ensures shown == UploadPercents(run.progress)
    ensures |run.progress| > 0 ==> |shown| > 0 && ShowsUploading(widget, shown[|shown| - 1])
    ensures run.progress == [] ==> unchanged(widget)
  {
    var result, calls, progress := UploadFileMultipart(file.size, s.uploadChunkSize, path, storage);
    run := Run(result, calls, progress);
    shown := [];
    var k := 0;
    while k < |progress|
      invariant 0 <= k <= |progress|
      invariant shown == UploadPercents(progress[..k])
      invariant |shown| == k
      invariant k > 0 ==> ShowsUploading(widget, shown[k - 1])
      invariant k == 0 ==> unchanged(widget)
    {
      var percent := UploadPercent(progress[k]);
      ShowUploading(widget, percent);
      assert progress[..k + 1][..k] == progress[..k];
      shown := shown + [percent];
      k := k + 1;
    }
    assert progress[..k] == progress;
  }

  /** After a successful transfer: insert the row, subscribe, trigger processing if configured, show the result. */
  method Register(form: Form, videoId: string, s: Settings, b: Backend, run: Run, session: UploadSession, widget: ProgressWidget)
    returns (outcome: Outcome, steps: seq<Step>)
    requires form.file.Some? && run.result.Ok? && videoId != ""
    requires session.Valid() && session.clientConfigured && session.currentVideoId == None
    modifies session, widget
    ensures steps == StepsAfter(form, videoId, s, b, run)
    ensures outcome == (if !b.insertOk || (s.processFunctionName != "" && !b.invokeOk) then SubmitFailed else Submitted)
    ensures outcome == Submitted ==> ShowsPending(session, widget, videoId, b.subscribeOk)
    ensures outcome == SubmitFailed ==> ShowsFailure(session, widget)
    ensures session.realtime == old(session.realtime) + FollowCalls(videoId, s, b, b.insertOk)
  {
    ShowVerifying(widget);
    var head := [Transfer(run.calls), InsertRow(RowFor(form, videoId))];
    StepsAfterRegistered(form, videoId, s, b, run);
    if !b.insertOk {
      ShowFailure(session, widget);
      return SubmitFailed, head;
    }
    var more;
    outcome, more := FollowAndTrigger(form.file.value, videoId, s, b, session, widget);
    steps := head + more;
  }

  /** Once the transfer succeeded, the insert is always attempted and the rest follows only when it succeeds. */
  lemma StepsAfterRegistered(form: Form, videoId: string, s: Settings, b: Backend, run: Run)
    requires form.file.Some? && run.result.Ok?
    ensures !b.insertOk ==> StepsAfter(form, videoId, s, b, run) == [Transfer(run.calls), InsertRow(RowFor(form, videoId))]
    ensures b.insertOk ==>
      StepsAfter(form, videoId, s, b, run) == [Transfer(run.calls), InsertRow(RowFor(form, videoId))] + StepsAfterInsert(form.file.value, videoId, s)
  {
  }

  /** The removal a cleanup records for the channel held before it, if any. */
  function RemovalOf(channel: Option<Channel>): (r: seq<RealtimeCall>)
    ensures channel.None? <==> r == []
    ensures channel.Some? ==> r == [Remove(channel.value)]
  {
    if channel.Some? then [Remove(channel.value)] else []
  }

  /**
   * The realtime calls made for a new video once its row is in: its channel is opened, and it is
   * removed again when the processing trigger then fails on a channel that did subscribe.
   */
  function FollowCalls(videoId: string, s: Settings, b: Backend, registered: bool): (r: seq<RealtimeCall>)
    ensures !registered <==> r == []
    ensures registered ==> r[0] == Open(ChannelFor(videoId))
    ensures |r| == 2 <==> registered && s.processFunctionName != "" && !b.invokeOk && b.subscribeOk
    ensures |r| == 2 ==> r[1] == Remove(ChannelFor(videoId))
  {
    var removed := s.processFunctionName != "" && !b.invokeOk && b.subscribeOk;
    if !registered then []
    else if removed then [Open(ChannelFor(videoId)), Remove(ChannelFor(videoId))]
    else [Open(ChannelFor(videoId))]
  }

  /** The subscription and the optional trigger, once the row is in. */
  method FollowAndTrigger(file: File, videoId: string, s: Settings, b: Backend, session: UploadSession, widget: ProgressWidget)
    returns (outcome: Outcome, steps: seq<Step>)
    requires videoId != ""
    requires session.Valid() && session.clientConfigured && session.currentVideoId == None
    modifies session, widget
    ensures steps == StepsAfterInsert(file, videoId, s)
    ensures outcome == (if s.processFunctionName != "" && !b.invokeOk then SubmitFailed else Submitted)
    ensures outcome == Submitted ==> ShowsPending(session, widget, videoId, b.subscribeOk)
    ensures outcome == SubmitFailed ==> ShowsFailure(session, widget)
    ensures session.realtime == old(session.realtime) + FollowCalls(videoId, s, b, true)
  {
    session.Subscribe(videoId, b.subscribeOk);
    steps := StepsAfterInsert(file, videoId, s);
    if s.processFunctionName != "" && !b.invokeOk {
      ShowFailure(session, widget);
      return SubmitFailed, steps;
    }
    ShowPending(widget);
    outcome := Submitted;
  }

  /**
   * handleSubmit for a given form, a fresh video id and the backend's answers. It returns the
   * outcome, the backend operations made, and the percentages the bar showed while the transfer
   * reported progress.
   */
  method HandleSubmit(form: Form, videoId: string, s: Settings, b: Backend, session: UploadSession, widget: ProgressWidget)
    returns (outcome: Outcome, steps: seq<Step>, shown: seq<int>)
    requires videoId != ""
    requires session.Valid() && session.clientConfigured == s.clientConfigured
    modifies session, widget
    ensures session.Valid()
    ensures outcome == ExpectedOutcome(form, videoId, s, b) && steps == ExpectedSteps(form, videoId, s, b)
    ensures outcome.NoClient? || outcome.TitleMissing? || outcome.FileInvalid? ==>
      unchanged(session) && unchanged(widget) && shown == []
    ensures outcome == Submitted || outcome == SubmitFailed ==>
      form.file.Some? && shown == UploadPercents(TransferRun(form.file.value, s, videoId, b).progress)
    ensures outcome == Submitted ==> ShowsPending(session, widget, videoId, b.subscribeOk)
    ensures outcome == SubmitFailed ==> ShowsFailure(session, widget)
    ensures outcome == Submitted || outcome == SubmitFailed ==>
      var registered := TransferRun(form.file.value, s, videoId, b).result.Ok? && b.insertOk;
      session.realtime == old(session.realtime) + RemovalOf(old(session.channel)) + FollowCalls(videoId, s, b, registered)
  {
    steps, shown := [], [];
    if !s.clientConfigured {
      return NoClient, steps, shown;
    }
    if Trim(form.title) == "" {
      return TitleMissing, steps, shown;
    }
    var rejection := CheckFile(form.file, s);
    if rejection.Some? {
      return FileInvalid(rejection.value), steps, shown;
    }
    var file := form.file.value;
    session.Cleanup();
    widget.ResetUploadProgress();
    widget.UpdateUploadProgressStatus("uploading", Overrides("", "Feltöltés előkészítése…", Some(0)));
    widget.UpdateStatus("uploading", "info");

    var run;
    run, shown := TransferWithProgress(file, s, StoragePath(videoId), b.storage, widget);
    if run.result.Err? {
      ShowFailure(session, widget);
      return SubmitFailed, [Transfer(run.calls)], shown;
    }
    outcome, steps := Register(form, videoId, s, b, run, session, widget);
  }
}
