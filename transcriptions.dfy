/**
 * The transcription store: the list of transcription records with their
 * status, the current record, the two progress flags, and a history of
 * finished transcriptions capped at `MAX_HISTORY_ITEMS`, newest first.
 *
 * The speech-to-text and completion calls that drive it are external; this
 * module models only the bookkeeping.  Instants are integer milliseconds and
 * record ids (derived from the clock in the source) are parameters.
 */
module Transcriptions {
  import opened Optional
  import opened Seqs
  import JsMath
  import opened Importing
  import AudioValidation

  /** `maxHistoryItems`. */
  const MAX_HISTORY_ITEMS: nat := 50
  /** The error text recorded when none is given. */
  const UNKNOWN_ERROR: string := "Erreur inconnue"

  /**
   * The record status.  `Processing` is listed among the statuses a record
   * may take but no operation of the store sets it.
   */
  datatype Status = Pending | Processing | Transcribed | Completed | Error

  /** The morpheme-level analysis returned by the completion call, opaque here. */
  type Analysis = string

  datatype AudioFileInfo = AudioFileInfo(name: string, size: int, mimeType: string, duration: real)

  /** The request settings stored with every record; `temperature` is 0.2. */
  datatype Metadata = Metadata(modelUsed: string, temperature: real, language: string)

  const WHISPER_METADATA: Metadata := Metadata("whisper-1", 0.2, "ja")

  datatype Transcription = Transcription(
    id: string,
    audioFile: AudioFileInfo,
    rawText: string,
    japaneseAnalysis: Option<Analysis>,
    status: Status,
    error: Option<string>,
    createdAt: int,
    completedAt: Option<int>,
    processingTime: int,
    metadata: Metadata)

  /** The summary kept in the history. */
  datatype HistoryItem = HistoryItem(
    id: string,
    rawText: string,
    japaneseAnalysis: Option<Analysis>,
    createdAt: int,
    audioFileName: string,
    processingTime: int)

  /** The optional `data` argument of `updateTranscriptionStatus`. */
  datatype StatusData = StatusData(rawText: Option<string>, japaneseAnalysis: Option<Analysis>, error: Option<string>)

  /** A parsed export: `{ transcriptions, history }`, either of which may be missing. */
  datatype ImportData = ImportData(transcriptions: Option<seq<Transcription>>, history: Option<seq<HistoryItem>>)

  /** The record `createTranscription` builds: pending, no text, no error. */
  function NewTranscription(id: string, file: AudioValidation.AudioFile, duration: Option<real>, now: int): Transcription {
    Transcription(
      id,
      AudioFileInfo(file.name, file.size, file.mimeType, if duration.Some? then duration.value else 0.0),
      "", None, Pending, None, now, None, 0, WHISPER_METADATA)
  }

  /** `data.error || 'Erreur inconnue'`: a missing or empty message becomes the default. */
  function ErrorText(error: Option<string>): string {
    if error.Some? && error.value != "" then error.value else UNKNOWN_ERROR
  }

  /** The record after `updateTranscriptionStatus(id, status, data)` at instant `now`. */
  function WithStatus(t: Transcription, status: Status, data: StatusData, now: int): Transcription {
    var t := t.(status := status);
    if status == Completed then
      t.(completedAt := Some(now),
         processingTime := now - t.createdAt,
         rawText := if data.rawText.Some? && data.rawText.value != "" then data.rawText.value else t.rawText,
         japaneseAnalysis := if data.japaneseAnalysis.Some? then data.japaneseAnalysis else t.japaneseAnalysis)
    else if status == Error then
      t.(error := Some(ErrorText(data.error)), completedAt := Some(now))
    else t
  }

  /**
   * Completing stamps the completion instant and the processing time, and
   * takes only the non-empty text and the given analysis; failing records the
   * given message, or 'Erreur inconnue' when it is missing or empty; any other
   * status changes only the status.  Each branch names every field it writes;
   * all others, metadata included, are kept.
   */
  lemma WithStatusSpec(t: Transcription, status: Status, data: StatusData, now: int)
    ensures var r := WithStatus(t, status, data, now);
      && r.status == status && r.id == t.id && r.audioFile == t.audioFile && r.createdAt == t.createdAt
      && r.metadata == t.metadata
      && (status == Completed ==>
            && r.completedAt == Some(now) && r.processingTime == now - t.createdAt
            && (data.rawText == None || data.rawText == Some("") ==> r.rawText == t.rawText)
            && (data.rawText.Some? && data.rawText.value != "" ==> r.rawText == data.rawText.value)
            && (data.japaneseAnalysis.Some? ==> r.japaneseAnalysis == data.japaneseAnalysis)
            && (data.japaneseAnalysis.None? ==> r.japaneseAnalysis == t.japaneseAnalysis)
            && r == t.(status := status, completedAt := Some(now), processingTime := now - t.createdAt,
                       rawText := r.rawText, japaneseAnalysis := r.japaneseAnalysis))
      && (status == Error ==>
            && r.completedAt == Some(now) && r.error.Some? && r.error.value != ""
            && (data.error.Some? && data.error.value != "" ==> r.error == data.error)
            && (data.error == None || data.error == Some("") ==> r.error == Some(UNKNOWN_ERROR))
            && r == t.(status := status, completedAt := Some(now), error := r.error))
      && (status != Completed && status != Error ==> r == t.(status := status))
  {
  }

  /**
   * The list after `updateTranscriptionStatus(id, status, data)`: the first
   * record with that id is updated, nothing else changes.
   */
  function UpdatedRecords(ts: seq<Transcription>, id: string, status: Status, data: StatusData, now: int): seq<Transcription> {
    match FindIndex(ts, HasId(id))
    case None => ts
    case Some(i) => ts[i := WithStatus(ts[i], status, data, now)]
  }

  /** The current record after the same call: refreshed from the updated record when it has that id. */
  function UpdatedCurrent(ts: seq<Transcription>, current: Option<Transcription>, id: string, status: Status, data: StatusData, now: int): Option<Transcription> {
    match FindIndex(ts, HasId(id))
    case None => current
    case Some(i) => if current.Some? && current.value.id == id then Some(WithStatus(ts[i], status, data, now)) else current
  }

  /**
   * An update keeps the length and every id; an unknown id changes nothing;
   * otherwise exactly the first record with that id takes the new status and
   * every other record is unchanged.
   */
  lemma UpdatedRecordsSpec(ts: seq<Transcription>, id: string, status: Status, data: StatusData, now: int)
    ensures var r := UpdatedRecords(ts, id, status, data, now);
      && |r| == |ts|
      && (forall i :: 0 <= i < |ts| ==> r[i].id == ts[i].id)
      && ((forall i :: 0 <= i < |ts| ==> ts[i].id != id) ==> r == ts)
      && (forall i :: 0 <= i < |ts| && ts[i].id == id && (forall k :: 0 <= k < i ==> ts[k].id != id) ==>
            r[i] == WithStatus(ts[i], status, data, now) && r[i].status == status
            && forall k :: 0 <= k < |ts| && k != i ==> r[k] == ts[k])
  {
    var found := FindIndex(ts, HasId(id));
    if found.Some? {
      var j := found.value;
      forall i | 0 <= i < |ts| && ts[i].id == id && (forall k :: 0 <= k < i ==> ts[k].id != id)
        ensures i == j
      {
        assert HasId(id)(ts[i]);
      }
    }
  }

  /** The list after `deleteTranscription(id)`: the first record with that id spliced out. */
  function Removed(ts: seq<Transcription>, id: string): seq<Transcription> {
    match FindIndex(ts, HasId(id))
    case None => ts
    case Some(i) => ts[..i] + ts[i+1..]
  }

  /**
   * Deleting an unknown id changes nothing; otherwise exactly one record,
   * the first with that id, leaves the list and the others keep their order.
   */
  lemma RemovedSpec(ts: seq<Transcription>, id: string)
    ensures var r := Removed(ts, id);
      && ((forall i :: 0 <= i < |ts| ==> ts[i].id != id) ==> r == ts)
      && ((exists i :: 0 <= i < |ts| && ts[i].id == id) ==>
            && |r| == |ts| - 1
            && IsSubsequence(r, ts)
            && exists i :: 0 <= i < |ts| && ts[i].id == id && multiset(r) + multiset{ts[i]} == multiset(ts))
      && (forall i :: 0 <= i < |ts| && ts[i].id == id && (forall k :: 0 <= k < i ==> ts[k].id != id) ==>
            r == ts[..i] + ts[i+1..])
  {
    var found := FindIndex(ts, HasId(id));
    if found.Some? {
      var i := found.value;
      assert ts == ts[..i] + [ts[i]] + ts[i+1..];
      SpliceIsSubsequence(ts, i);
      forall j | 0 <= j < |ts| && ts[j].id == id && (forall k :: 0 <= k < j ==> ts[k].id != id)
        ensures j == i
      {
        assert HasId(id)(ts[j]);
      }
    }
  }

  /**
   * Only completion copies `rawText`: the text handed to `finishTranscription`
   * (status transcribed) is not stored, and the later completion, which
   * passes no text, leaves the record's text as it was.
   */
  lemma TranscribedKeepsText(t: Transcription, text: string, analysis: Option<Analysis>, now: int, later: int)
    ensures WithStatus(t, Transcribed, StatusData(Some(text), None, None), now) == t.(status := Transcribed)
    ensures WithStatus(WithStatus(t, Transcribed, StatusData(Some(text), None, None), now), Completed, StatusData(None, analysis, None), later).rawText
            == t.rawText
  {
  }

  /** The history summary of a record. */
  function HistoryItemOf(t: Transcription): HistoryItem {
    HistoryItem(t.id, t.rawText, t.japaneseAnalysis, t.createdAt, t.audioFile.name, t.processingTime)
  }

  /** `unshift(item)`, then cut to the first `max` entries if it grew beyond. */
  function PushCapped(history: seq<HistoryItem>, item: HistoryItem, max: nat): (r: seq<HistoryItem>)
    ensures |r| == if |history| + 1 > max then max else |history| + 1
    ensures |r| <= max || |r| == |history| + 1
    ensures max > 0 ==> r[0] == item && r[1..] == history[..|r| - 1]
  {
    var pushed := [item] + history;
    if |pushed| > max then pushed[..max] else pushed
  }

  function TranscriptionId(t: Transcription): string {
    t.id
  }

  function HistoryId(h: HistoryItem): string {
    h.id
  }

  /** The lookup callback `t => t.id === transcriptionId`. */
  function HasId(id: string): Transcription -> bool {
    (t: Transcription) => t.id == id
  }

  /** The filter callback `t => t.status === status`. */
  function HasStatus(status: Status): Transcription -> bool {
    (t: Transcription) => t.status == status
  }

  /** The filter callback of `filterByDate`: created within `[start, end]`, both ends included. */
  function CreatedWithin(start: int, end: int): Transcription -> bool {
    (t: Transcription) => start <= t.createdAt <= end
  }

  /** `filterByStatus(status)`: the records with that status, in list order. */
  function FilterByStatus(ts: seq<Transcription>, status: Status): (r: seq<Transcription>)
    ensures IsSubsequence(r, ts)
    ensures forall i :: 0 <= i < |r| ==> r[i].status == status
    ensures forall i :: 0 <= i < |ts| && ts[i].status == status ==> ts[i] in r
    ensures forall t :: multiset(r)[t] == if t.status == status then multiset(ts)[t] else 0
  {
    FilterIsSubsequence(ts, HasStatus(status));
    FilterCounts(ts, HasStatus(status));
    Filter(ts, HasStatus(status))
  }

  /** `filterByDate(startDate, endDate)`: the records created within the closed range, in list order. */
  function FilterByDate(ts: seq<Transcription>, start: int, end: int): (r: seq<Transcription>)
    ensures IsSubsequence(r, ts)
    ensures forall i :: 0 <= i < |r| ==> start <= r[i].createdAt <= end
    ensures forall i :: 0 <= i < |ts| && start <= ts[i].createdAt <= end ==> ts[i] in r
    ensures forall t :: multiset(r)[t] == if start <= t.createdAt <= end then multiset(ts)[t] else 0
  {
    FilterIsSubsequence(ts, CreatedWithin(start, end));
    FilterCounts(ts, CreatedWithin(start, end));
    Filter(ts, CreatedWithin(start, end))
  }

  /**
   * `getSuccessRate()`: 100 for an empty list, otherwise the percentage of
   * completed records rounded to the nearest integer (halves up).
   */
  function SuccessRate(ts: seq<Transcription>): (r: int)
    ensures ts == [] ==> r == 100
    ensures 0 <= r <= 100
    ensures ts != [] ==>
      var completed := |Filter(ts, HasStatus(Completed))|;
      2 * |ts| * r - |ts| <= 200 * completed < 2 * |ts| * r + |ts|
  {
    if |ts| == 0 then 100
    else
      var completed := |Filter(ts, HasStatus(Completed))|;
      var r := JsMath.RoundedQuotient(100 * completed, |ts|);
      PercentBounds(completed, |ts|, r);
      r
  }

  /** A rounded percentage of a part of a whole lies in 0..100. */
  lemma PercentBounds(part: nat, whole: nat, r: int)
    requires 0 < whole && part <= whole
    requires 2 * whole * r - whole <= 2 * (100 * part) < 2 * whole * r + whole
    ensures 0 <= r <= 100
  {
    assert whole * (2 * r + 1) > 0;
    PositiveFactor(whole, 2 * r + 1);
    assert whole * (2 * r - 201) <= 0;
    NonPositiveFactor(whole, 2 * r - 201);
  }

  lemma PositiveFactor(a: int, b: int)
    requires a > 0 && a * b > 0
    ensures b > 0
  {
  }

  lemma NonPositiveFactor(a: int, b: int)
    requires a > 0 && a * b <= 0
    ensures b <= 0
  {
  }

  /** The filter callback of `getAverageProcessingTime`: completed with a positive time. */
  function Timed(): Transcription -> bool {
    (t: Transcription) => t.status == Completed && t.processingTime > 0
  }

  function SumProcessingTime(ts: seq<Transcription>): int {
    if ts == [] then 0 else ts[0].processingTime + SumProcessingTime(ts[1..])
  }

  /** `getAverageProcessingTime()`: the rounded mean over completed, timed records; 0 if none. */
  function AverageProcessingTime(ts: seq<Transcription>): (r: int)
    ensures Filter(ts, Timed()) == [] ==> r == 0
    ensures Filter(ts, Timed()) != [] ==> r >= 1
    ensures var timed := Filter(ts, Timed());
      timed != [] ==> 2 * |timed| * r - |timed| <= 2 * SumProcessingTime(timed) < 2 * |timed| * r + |timed|
  {
    var timed := Filter(ts, Timed());
    if |timed| == 0 then 0
    else
      var total := SumProcessingTime(timed);
      PositiveTimesSum(timed);
      JsMath.RoundedQuotient(total, |timed|)
  }

  lemma {:induction false} PositiveTimesSum(ts: seq<Transcription>)
    requires forall i :: 0 <= i < |ts| ==> ts[i].processingTime > 0
    ensures SumProcessingTime(ts) >= |ts|
  {
    if ts != [] {
      PositiveTimesSum(ts[1..]);
    }
  }

  /** `getFromHistory(historyId)`: the first history entry with that id. */
  function FromHistory(history: seq<HistoryItem>, id: string): (r: Option<HistoryItem>)
    ensures r.None? <==> forall i :: 0 <= i < |history| ==> history[i].id != id
    ensures r.Some? ==> r.value in history && r.value.id == id
    ensures forall i :: 0 <= i < |history| && history[i].id == id && (forall k :: 0 <= k < i ==> history[k].id != id) ==>
      r == Some(history[i])
  {
    var r := Find(history, (h: HistoryItem) => h.id == id);
    assert forall i :: 0 <= i < |history| ==> ((h: HistoryItem) => h.id == id)(history[i]) == (history[i].id == id);
    r
  }

  class Store {
    var transcriptions: seq<Transcription>
    var currentTranscription: Option<Transcription>
    var isTranscribing: bool
    var isProcessingCompletion: bool
    var history: seq<HistoryItem>

    /** Start-up: whatever parsed from storage, empty lists otherwise. */
    constructor (savedTranscriptions: Option<seq<Transcription>>, savedHistory: Option<seq<HistoryItem>>)
      ensures transcriptions == (if savedTranscriptions.Some? then savedTranscriptions.value else [])
      ensures history == (if savedHistory.Some? then savedHistory.value else [])
      ensures currentTranscription == None && !isTranscribing && !isProcessingCompletion
    {
      transcriptions := if savedTranscriptions.Some? then savedTranscriptions.value else [];
      history := if savedHistory.Some? then savedHistory.value else [];
      currentTranscription := None;
      isTranscribing := false;
      isProcessingCompletion := false;
    }

    /** `createTranscription(audioFile, fileInfo)`: append a pending record and make it current. */
    method CreateTranscription(id: string, file: AudioValidation.AudioFile, duration: Option<real>, now: int) returns (t: Transcription)
      modifies this
      ensures t == NewTranscription(id, file, duration, now)
      ensures t.status == Pending && t.rawText == "" && t.error == None && t.createdAt == now
      ensures transcriptions == old(transcriptions) + [t]
      ensures currentTranscription == Some(t)
      ensures history == old(history)
      ensures isTranscribing == old(isTranscribing) && isProcessingCompletion == old(isProcessingCompletion)
    {
      t := NewTranscription(id, file, duration, now);
      transcriptions := transcriptions + [t];
      currentTranscription := Some(t);
    }

    /**
     * `updateTranscriptionStatus(id, status, data)`: update the first record
     * with that id; refresh the current record if it has that id.  Unknown ids
     * change nothing.
     */
    method UpdateTranscriptionStatus(id: string, status: Status, data: StatusData, now: int)
      modifies this
      ensures transcriptions == UpdatedRecords(old(transcriptions), id, status, data, now)
      ensures currentTranscription == UpdatedCurrent(old(transcriptions), old(currentTranscription), id, status, data, now)
      ensures history == old(history)
      ensures isTranscribing == old(isTranscribing) && isProcessingCompletion == old(isProcessingCompletion)
    {
      var found := FindIndex(transcriptions, HasId(id));
      if found.None? {
        return;
      }
      var i := found.value;
      var t := transcriptions[i];
      t := t.(status := status);
      if status == Completed {
        t := t.(completedAt := Some(now));
        t := t.(processingTime := now - t.createdAt);
        if data.rawText.Some? && data.rawText.value != "" {
          t := t.(rawText := data.rawText.value);
        }
        if data.japaneseAnalysis.Some? {
          t := t.(japaneseAnalysis := data.japaneseAnalysis);
        }
      } else if status == Error {
        t := t.(error := Some(ErrorText(data.error)));
        t := t.(completedAt := Some(now));
      }
      transcriptions := transcriptions[i := t];
      if currentTranscription.Some? && currentTranscription.value.id == id {
        currentTranscription := Some(t);
      }
    }

    /** `deleteTranscription(id)`: remove the first record with that id; clear the current one if it has that id. */
    method DeleteTranscription(id: string)
      modifies this
      ensures transcriptions == Removed(old(transcriptions), id)
      ensures currentTranscription ==
        (if (exists i :: 0 <= i < |old(transcriptions)| && old(transcriptions)[i].id == id)
            && old(currentTranscription).Some? && old(currentTranscription).value.id == id
         then None else old(currentTranscription))
      ensures history == old(history)
      ensures isTranscribing == old(isTranscribing) && isProcessingCompletion == old(isProcessingCompletion)
    {
      var found := FindIndex(transcriptions, HasId(id));
      if found.Some? {
        var i := found.value;
        transcriptions := transcriptions[..i] + transcriptions[i+1..];
        if currentTranscription.Some? && currentTranscription.value.id == id {
          currentTranscription := None;
        }
      }
    }

    /** `clearAllTranscriptions()`: empty both lists and drop the current record. */
    method ClearAllTranscriptions()
      modifies this
      ensures transcriptions == [] && history == [] && currentTranscription == None
      ensures isTranscribing == old(isTranscribing) && isProcessingCompletion == old(isProcessingCompletion)
    {
      transcriptions := [];
      currentTranscription := None;
      history := [];
    }

    /** `setCurrentTranscription(id)`: make the first record with that id current, if there is one. */
    method SetCurrentTranscription(id: string)
      modifies this
      ensures currentTranscription ==
        (match Find(old(transcriptions), HasId(id))
         case None => old(currentTranscription)
         case Some(t) => Some(t))
      ensures transcriptions == old(transcriptions) && history == old(history)
      ensures isTranscribing == old(isTranscribing) && isProcessingCompletion == old(isProcessingCompletion)
    {
      var found := Find(transcriptions, HasId(id));
      if found.Some? {
        currentTranscription := found;
      }
    }

    /** `startTranscription()`: raise the transcribing flag (the global loading flag is external). */
    method StartTranscription()
      modifies this
      ensures isTranscribing && isProcessingCompletion == old(isProcessingCompletion)
      ensures transcriptions == old(transcriptions) && history == old(history)
      ensures currentTranscription == old(currentTranscription)
    {
      isTranscribing := true;
    }

    /** `finishTranscription(id, rawText)`: lower the flag and mark the record transcribed with its text. */
    method FinishTranscription(id: string, rawText: string, now: int)
      modifies this
      ensures !isTranscribing && isProcessingCompletion == old(isProcessingCompletion)
      ensures transcriptions == UpdatedRecords(old(transcriptions), id, Transcribed, StatusData(Some(rawText), None, None), now)
      ensures currentTranscription ==
        UpdatedCurrent(old(transcriptions), old(currentTranscription), id, Transcribed, StatusData(Some(rawText), None, None), now)
      ensures history == old(history)
    {
      isTranscribing := false;
      UpdateTranscriptionStatus(id, Transcribed, StatusData(Some(rawText), None, None), now);
    }

    /** `startProcessingCompletion()`: raise the completion flag. */
    method StartProcessingCompletion()
      modifies this
      ensures isProcessingCompletion && isTranscribing == old(isTranscribing)
      ensures transcriptions == old(transcriptions) && history == old(history)
      ensures currentTranscription == old(currentTranscription)
    {
      isProcessingCompletion := true;
    }

    /**
     * `finishProcessingCompletion(id, analysis)`: lower the flag, mark the
     * record completed with its analysis, then log the current record.
     */
    method FinishProcessingCompletion(id: string, analysis: Option<Analysis>, now: int)
      modifies this
      ensures !isProcessingCompletion && isTranscribing == old(isTranscribing)
      ensures transcriptions == UpdatedRecords(old(transcriptions), id, Completed, StatusData(None, analysis, None), now)
      ensures currentTranscription ==
        UpdatedCurrent(old(transcriptions), old(currentTranscription), id, Completed, StatusData(None, analysis, None), now)
      ensures history == if currentTranscription.Some?
                         then PushCapped(old(history), HistoryItemOf(currentTranscription.value), MAX_HISTORY_ITEMS)
                         else old(history)
    {
      isProcessingCompletion := false;
      UpdateTranscriptionStatus(id, Completed, StatusData(None, analysis, None), now);
      AddToHistory(currentTranscription);
    }

    /** `handleError(id, error)`: lower both flags and mark the record failed (the app-wide error is external). */
    method HandleError(id: string, error: Option<string>, now: int)
      modifies this
      ensures !isTranscribing && !isProcessingCompletion
      ensures transcriptions == UpdatedRecords(old(transcriptions), id, Error, StatusData(None, None, error), now)
      ensures currentTranscription ==
        UpdatedCurrent(old(transcriptions), old(currentTranscription), id, Error, StatusData(None, None, error), now)
      ensures history == old(history)
    {
      isTranscribing := false;
      isProcessingCompletion := false;
      UpdateTranscriptionStatus(id, Error, StatusData(None, None, error), now);
    }

    /** `addToHistory(transcription)`: ignore `null`; otherwise put its summary first, keeping at most 50 entries. */
    method AddToHistory(t: Option<Transcription>)
      modifies this
      ensures t.None? ==> history == old(history)
      ensures t.Some? ==> history == PushCapped(old(history), HistoryItemOf(t.value), MAX_HISTORY_ITEMS)
      ensures t.Some? ==> |history| <= MAX_HISTORY_ITEMS && history[0] == HistoryItemOf(t.value)
      ensures transcriptions == old(transcriptions) && currentTranscription == old(currentTranscription)
      ensures isTranscribing == old(isTranscribing) && isProcessingCompletion == old(isProcessingCompletion)
    {
      if t.None? {
        return;
      }
      var item := HistoryItemOf(t.value);
      history := [item] + history;
      if |history| > MAX_HISTORY_ITEMS {
        history := history[..MAX_HISTORY_ITEMS];
      }
    }

    /** `clearHistory()`. */
    method ClearHistory()
      modifies this
      ensures history == []
      ensures transcriptions == old(transcriptions) && currentTranscription == old(currentTranscription)
      ensures isTranscribing == old(isTranscribing) && isProcessingCompletion == old(isProcessingCompletion)
    {
      history := [];
    }

    /**
     * `importTranscriptions(jsonData, replaceExisting)`: `parsed` is the parsed
     * export, `None` when parsing failed.  Replace overwrites both lists; merge
     * appends, to each list, the imported entries whose ids are new to it.
     */
    method ImportTranscriptions(parsed: Option<ImportData>, replaceExisting: bool) returns (r: ImportResult)
      modifies this
      ensures parsed.None? ==> r == ImportFailed && transcriptions == old(transcriptions) && history == old(history)
      ensures parsed.Some? ==>
        var incoming := if parsed.value.transcriptions.Some? then parsed.value.transcriptions.value else [];
        var incomingHistory := if parsed.value.history.Some? then parsed.value.history.value else [];
        && r == Imported(|incoming|)
        && (replaceExisting ==> transcriptions == incoming && history == incomingHistory)
        && (!replaceExisting ==>
              && transcriptions == old(transcriptions) + WithNewKeys(old(transcriptions), incoming, TranscriptionId)
              && history == old(history) + WithNewKeys(old(history), incomingHistory, HistoryId))
      ensures currentTranscription == old(currentTranscription)
      ensures isTranscribing == old(isTranscribing) && isProcessingCompletion == old(isProcessingCompletion)
    {
      if parsed.None? {
        return ImportFailed;
      }
      var data := parsed.value;
      var incoming := if data.transcriptions.Some? then data.transcriptions.value else [];
      var incomingHistory := if data.history.Some? then data.history.value else [];
      if replaceExisting {
        transcriptions := incoming;
        history := incomingHistory;
      } else {
        transcriptions := transcriptions + WithNewKeys(transcriptions, incoming, TranscriptionId);
        history := history + WithNewKeys(history, incomingHistory, HistoryId);
      }
      r := Imported(|incoming|);
    }
  }
}
