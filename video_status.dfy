/**
 * The submission status of a video and the two client-side lookup tables keyed by it
 * (STATUS_MESSAGES for the status line, PROGRESS_MESSAGES for the progress bar, app.js).
 */
module VideoStatus {
  import opened Wrappers

  datatype Status = Uploading | Verifying | Transcoding | Pending | Approved | Rejected | Failed

  /** The key under which a status is stored in the `videos.status` column and the tables. */
  function Key(s: Status): string {
    match s
    case Uploading => "uploading"
    case Verifying => "verifying"
    case Transcoding => "transcoding"
    case Pending => "pending"
    case Approved => "approved"
    case Rejected => "rejected"
    case Failed => "failed"
  }

  /** Reads a status key; any other text is not a status. */
  function ParseStatus(k: string): Option<Status> {
    if k == "uploading" then Some(Uploading)
    else if k == "verifying" then Some(Verifying)
    else if k == "transcoding" then Some(Transcoding)
    else if k == "pending" then Some(Pending)
    else if k == "approved" then Some(Approved)
    else if k == "rejected" then Some(Rejected)
    else if k == "failed" then Some(Failed)
    else None
  }

  /** Only a status key reads as a status, and it reads as the status it is the key of. */
  lemma ParseIsKey(k: string)
    ensures ParseStatus(k).Some? ==> Key(ParseStatus(k).value) == k
    ensures ParseStatus(k).None? ==> forall s :: Key(s) != k
  {
  }

  /** Every status is read back from its own key, so keys are distinct. */
  lemma ParseKey(s: Status)
    ensures ParseStatus(Key(s)) == Some(s)
  {
  }

  /** Statuses after which nothing automated happens; the push handler unsubscribes on these. */
  predicate IsTerminal(s: Status) {
    s == Approved || s == Rejected || s == Failed
  }

  /**
   * The submission state machine: uploading, verifying, transcoding and pending in that order,
   * a moderator decision from pending, and `failed` from any state that is not terminal.
   */
  predicate CanFollow(a: Status, b: Status) {
    || (a == Uploading && b == Verifying)
    || (a == Verifying && b == Transcoding)
    || (a == Transcoding && b == Pending)
    || (a == Pending && (b == Approved || b == Rejected))
    || (!IsTerminal(a) && b == Failed)
  }

  /** A sequence of statuses in which each one may follow the one before. */
  predicate IsRun(run: seq<Status>) {
    forall i :: 0 < i < |run| ==> CanFollow(run[i - 1], run[i])
  }

  /** Nothing may follow a terminal status. */
  lemma TerminalIsFinal(a: Status, b: Status)
    requires IsTerminal(a)
    ensures !CanFollow(a, b)
  {
  }

  /** The colour class of the progress bar and of the status line. */
  datatype Tone = Info | Success | Error

  /** The tone named by a tone string: anything but "success" and "error" shows as info (applyProgressTone). */
  function ToneNamed(name: string): (t: Tone)
    ensures t == Success <==> name == "success"
    ensures t == Error <==> name == "error"
  {
    if name == "success" then Success else if name == "error" then Error else Info
  }

  function ToneName(t: Tone): string {
    match t
    case Info => "info"
    case Success => "success"
    case Error => "error"
  }

  /** The tone both tables give a status: success for approved, error for rejected and failed, info otherwise. */
  function ToneOf(s: Status): Tone {
    if s == Approved then Success
    else if s == Rejected || s == Failed then Error
    else Info
  }

  datatype Entry = Entry(text: string, tone: Tone)

  /** The label PROGRESS_MESSAGES gives a status. */
  function ProgressLabel(s: Status): string {
    match s
    case Uploading => "Feltöltés folyamatban…"
    case Verifying => "Vírusellenőrzés…"
    case Transcoding => "Transzkódálás folyamatban…"
    case Pending => "Moderációra vár…"
    case Approved => "A videód jóváhagyva!"
    case Rejected => "A videót elutasítottuk."
    case Failed => "A feldolgozás sikertelen."
  }

  /** The message STATUS_MESSAGES gives a status. */
  function StatusMessage(s: Status): string {
    match s
    case Uploading => "Feltöltés folyamatban…"
    case Verifying => "Vírusellenőrzés folyamatban…"
    case Transcoding => "Transzkódálás folyamatban…"
    case Pending => "A videód feltöltve, moderációra vár."
    case Approved => "A videód jóváhagyásra került! Köszönjük a beküldést."
    case Rejected => "Sajnos a videót elutasítottuk. Ellenőrizd a szabályokat és próbáld újra."
    case Failed => "A videó feldolgozása közben hiba történt."
  }

  /** The tone written in the tables next to a status. */
  function TableTone(s: Status): Tone {
    match s
    case Approved => Success
    case Rejected => Error
    case Failed => Error
    case _ => Info
  }

  /** PROGRESS_MESSAGES: the progress-bar label and tone for a status key; unknown keys have no entry. */
  function ProgressEntry(key: string): (r: Option<Entry>)
    ensures r.Some? <==> ParseStatus(key).Some?
    ensures r.Some? ==> r.value.tone == ToneOf(ParseStatus(key).value) && r.value.text != ""
  {
    match ParseStatus(key)
    case None => None
    case Some(s) => Some(Entry(ProgressLabel(s), TableTone(s)))
  }

  /** STATUS_MESSAGES: the status-line message and tone for a status key; unknown keys have no entry. */
  function StatusEntry(key: string): (r: Option<Entry>)
    ensures r.Some? <==> ParseStatus(key).Some?
    ensures r.Some? ==> r.value.tone == ToneOf(ParseStatus(key).value)
  {
    match ParseStatus(key)
    case None => None
    case Some(s) => Some(Entry(StatusMessage(s), TableTone(s)))
  }

  /** The two tables cover the same keys and never disagree on a tone. */
  lemma TablesAgree(key: string)
    ensures ProgressEntry(key).Some? <==> StatusEntry(key).Some?
    ensures ProgressEntry(key).Some? ==> ProgressEntry(key).value.tone == StatusEntry(key).value.tone
  {
  }
}
