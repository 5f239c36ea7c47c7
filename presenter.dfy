/**
 * The submission progress bar and the status line of the public page (app.js): what each shows
 * for a status key and the overrides a caller passes.
 */
module Presenter {
  import opened Wrappers
  import opened VideoStatus

  /** The percentage the bar shows for a requested one: clamped into 0..100. */
  function Capped(percent: int): (r: int)
    ensures 0 <= r <= 100
    ensures 0 <= percent <= 100 ==> r == percent
    ensures percent < 0 ==> r == 0
    ensures percent > 100 ==> r == 100
  {
    if percent < 0 then 0 else if percent > 100 then 100 else percent
  }

  /** What a caller of updateUploadProgressStatus may force; an empty string forces nothing. */
  datatype Overrides = Overrides(tone: string, caption: string, percent: Option<int>)

  const NoOverrides: Overrides := Overrides("", "", None)

  /** The tone name: the override, else the table's tone for the key, else "info". */
  function ChosenToneName(key: string, overrideTone: string): (r: string)
    ensures overrideTone != "" ==> r == overrideTone
    ensures overrideTone == "" && ProgressEntry(key).Some? ==> ToneNamed(r) == ProgressEntry(key).value.tone
    ensures overrideTone == "" && ProgressEntry(key).None? ==> ToneNamed(r) == Info
  {
    if overrideTone != "" then overrideTone
    else match ProgressEntry(key)
      case Some(e) => ToneName(e.tone)
      case None => "info"
  }

  /** The caption: the override, else the table's caption for the key, else empty (which keeps the old caption). */
  function ChosenLabel(key: string, overrideLabel: string): (r: string)
    ensures overrideLabel != "" ==> r == overrideLabel
    ensures overrideLabel == "" && ProgressEntry(key).Some? ==> r == ProgressEntry(key).value.text && r != ""
    ensures overrideLabel == "" && ProgressEntry(key).None? ==> r == ""
  {
    if overrideLabel != "" then overrideLabel
    else match ProgressEntry(key)
      case Some(e) => e.text
      case None => ""
  }

  /** The percentage: a numeric override wins; otherwise 0 while uploading and 100 for any other key. */
  function ChosenPercent(key: string, overridePercent: Option<int>): (r: int)
    ensures overridePercent.Some? ==> r == overridePercent.value
    ensures overridePercent.None? ==> (r == 0 <==> key == "uploading") && (r == 0 || r == 100)
  {
    match overridePercent
    case Some(p) => p
    case None => if key == "uploading" then 0 else 100
  }

  /**
   * updateStatus: a status key shows its STATUS_MESSAGES entry; any other text shows as given with
   * the tone named by `typeName`; an empty text clears the line to the neutral tone.
   */
  function StatusLine(messageOrStatus: string, typeName: string): (r: Entry)
    ensures StatusEntry(messageOrStatus).Some? ==> r == StatusEntry(messageOrStatus).value
    ensures StatusEntry(messageOrStatus).None? && messageOrStatus != "" ==> r == Entry(messageOrStatus, ToneNamed(typeName))
    ensures messageOrStatus == "" ==> r == Entry("", Info)
  {
    match StatusEntry(messageOrStatus)
    case Some(e) => e
    case None => if messageOrStatus == "" then Entry("", Info) else Entry(messageOrStatus, ToneNamed(typeName))
  }

  /**
   * A status pushed without overrides shows the table's caption, the table's tone and 100% (0% while
   * uploading) on the bar, and the line shows the same tone as the bar whatever type is passed.
   */
  lemma PushedStatusShows(s: Status, typeName: string)
    ensures ChosenLabel(Key(s), "") == ProgressLabel(s)
    ensures ToneNamed(ChosenToneName(Key(s), "")) == ToneOf(s)
    ensures Capped(ChosenPercent(Key(s), None)) == (if s == Uploading then 0 else 100)
    ensures StatusLine(Key(s), typeName) == Entry(StatusMessage(s), ToneOf(s))
  {
    ParseKey(s);
  }

  /** The progress bar and the status line under the submit form. */
  class ProgressWidget {
    var visible: bool
    var percent: int
    var caption: string
    var tone: Tone
    var statusText: string
    var statusTone: Tone

    /** The bar shows a whole percentage in 0..100, and 0 whenever it is hidden. */
    predicate Valid()
      reads this
    {
      0 <= percent <= 100 && (!visible ==> percent == 0)
    }

    /** The page starts with the bar hidden at 0% and an empty status line. */
    constructor ()
      ensures Valid()
      ensures !visible && percent == 0 && caption == "" && tone == Info
      ensures statusText == "" && statusTone == Info
    {
      visible, percent, caption, tone := false, 0, "", Info;
      statusText, statusTone := "", Info;
    }

    /**
     * setUploadProgress: hiding zeroes the bar and keeps caption and tone; showing clamps the
     * percentage, replaces the caption only with a non-empty one, and applies the named tone.
     */
    method SetUploadProgress(show: bool, requested: int, newLabel: string, toneName: string)
      modifies this
      ensures Valid()
      ensures !show ==> !visible && percent == 0 && caption == old(caption) && tone == old(tone)
      ensures show ==> visible && percent == Capped(requested) && tone == ToneNamed(toneName)
      ensures show ==> caption == (if newLabel != "" then newLabel else old(caption))
      ensures statusText == old(statusText) && statusTone == old(statusTone)
    {
      if !show {
        visible := false;
        percent := 0;
        return;
      }
      visible := true;
      percent := Capped(requested);
      if newLabel != "" {
        caption := newLabel;
      }
      tone := ToneNamed(toneName);
    }

    /** resetUploadProgress: hides the bar at 0%. */
    method ResetUploadProgress()
      modifies this
      ensures Valid()
      ensures !visible && percent == 0 && caption == old(caption) && tone == old(tone)
      ensures statusText == old(statusText) && statusTone == old(statusTone)
    {
      SetUploadProgress(false, 0, "", "info");
    }

    /** updateUploadProgressStatus: shows the bar with what the table and the overrides choose for the key. */
    method UpdateUploadProgressStatus(key: string, o: Overrides)
      modifies this
      ensures Valid() && visible
      ensures percent == Capped(ChosenPercent(key, o.percent))
      ensures tone == ToneNamed(ChosenToneName(key, o.tone))
      ensures caption == (if ChosenLabel(key, o.caption) != "" then ChosenLabel(key, o.caption) else old(caption))
      ensures statusText == old(statusText) && statusTone == old(statusTone)
    {
      SetUploadProgress(true, ChosenPercent(key, o.percent), ChosenLabel(key, o.caption), ChosenToneName(key, o.tone));
    }

    /** updateStatus: writes the status line and leaves the bar alone. */
    method UpdateStatus(messageOrStatus: string, typeName: string)
      modifies this
      ensures statusText == StatusLine(messageOrStatus, typeName).text
      ensures statusTone == StatusLine(messageOrStatus, typeName).tone
      ensures visible == old(visible) && percent == old(percent) && caption == old(caption) && tone == old(tone)
      ensures Valid() <==> old(Valid())
    {
      var e := StatusLine(messageOrStatus, typeName);
      statusText, statusTone := e.text, e.tone;
    }
  }
}
