/** The dream journal's store and the pipeline that fills it. The store is the list of
    entries, newest first, the selected entry's id, the busy flag and the selected
    image size. The pipeline runs transcription, interpretation and illustration in
    turn, committing each result to the store, and stops at the first failure; it uses
    the image size selected when its recording began. */
module App {
  import opened Wrappers
  import opened Types
  import opened Text
  import opened DreamDisplay

  // ------------------------------------------------------------ store updaters

  /** `prev.map(d => d.id === id ? f(d) : d)`. */
  function UpdateWhereId(dreams: seq<DreamEntry>, id: string, f: DreamEntry -> DreamEntry)
    : (r: seq<DreamEntry>)
    ensures |r| == |dreams|
    ensures forall i :: 0 <= i < |dreams| ==> r[i] == if dreams[i].id == id then f(dreams[i]) else dreams[i]
  {
    if |dreams| == 0 then []
    else [if dreams[0].id == id then f(dreams[0]) else dreams[0]] + UpdateWhereId(dreams[1..], id, f)
  }

  /** `[entry, ...prev]`: one more entry, in front, the others after it in their order. */
  function Prepend(dreams: seq<DreamEntry>, entry: DreamEntry): (r: seq<DreamEntry>)
    ensures |r| == |dreams| + 1
    ensures r[0] == entry && r[1..] == dreams
  {
    [entry] + dreams
  }

  /** Stores an interpretation on every entry with the id (ids need not be unique);
      nothing else changes, on those entries or on the others. */
  function SetInterpretation(dreams: seq<DreamEntry>, id: string, interp: Interpretation)
    : (r: seq<DreamEntry>)
    ensures |r| == |dreams|
    ensures forall i :: 0 <= i < |dreams| && dreams[i].id == id ==>
      r[i] == dreams[i].(interpretation := Some(interp))
    ensures forall i :: 0 <= i < |dreams| && dreams[i].id != id ==> r[i] == dreams[i]
  {
    UpdateWhereId(dreams, id, (d: DreamEntry) => d.(interpretation := Some(interp)))
  }

  /** Stores an image on every entry with the id; nothing else changes. */
  function SetImageUrl(dreams: seq<DreamEntry>, id: string, url: string): (r: seq<DreamEntry>)
    ensures |r| == |dreams|
    ensures forall i :: 0 <= i < |dreams| && dreams[i].id == id ==> r[i] == dreams[i].(imageUrl := Some(url))
    ensures forall i :: 0 <= i < |dreams| && dreams[i].id != id ==> r[i] == dreams[i]
  {
    UpdateWhereId(dreams, id, (d: DreamEntry) => d.(imageUrl := Some(url)))
  }

  /** The parent's `onUpdate`: every entry with the updated entry's id is replaced by it,
      the others stay. */
  function ReplaceById(dreams: seq<DreamEntry>, updated: DreamEntry): (r: seq<DreamEntry>)
    ensures |r| == |dreams|
    ensures forall i :: 0 <= i < |dreams| && dreams[i].id == updated.id ==> r[i] == updated
    ensures forall i :: 0 <= i < |dreams| && dreams[i].id != updated.id ==> r[i] == dreams[i]
  {
    UpdateWhereId(dreams, updated.id, _ => updated)
  }

  /** `dreams.find(d => d.id === id)`: the first entry with the id; none when there is
      no such entry or no id is selected. */
  function FindById(dreams: seq<DreamEntry>, id: Option<string>): (r: Option<DreamEntry>)
    ensures r.Some? <==> id.Some? && exists i :: 0 <= i < |dreams| && dreams[i].id == id.value
    ensures r.Some? ==> exists i :: && 0 <= i < |dreams| && dreams[i] == r.value && dreams[i].id == id.value
                                    && forall j :: 0 <= j < i ==> dreams[j].id != id.value
  {
    if id.None? || |dreams| == 0 then None
    else if dreams[0].id == id.value then Some(dreams[0])
    else
      var r := FindById(dreams[1..], id);
      assert r.Some? ==> exists i :: 0 <= i < |dreams| && dreams[i] == r.value && dreams[i].id == id.value
                                      && forall j :: 0 <= j < i ==> dreams[j].id != id.value by {
        if r.Some? {
          var i :| 0 <= i < |dreams[1..]| && dreams[1..][i] == r.value && dreams[1..][i].id == id.value
                   && forall j :: 0 <= j < i ==> dreams[1..][j].id != id.value;
          assert dreams[i + 1] == r.value;
          assert forall j :: 0 <= j < i + 1 ==> dreams[j].id != id.value by {
            forall j | 0 <= j < i + 1 ensures dreams[j].id != id.value {
              if j > 0 { assert dreams[j] == dreams[1..][j - 1]; }
            }
          }
        }
      }
      assert (exists i :: 0 <= i < |dreams| && dreams[i].id == id.value) ==>
             (exists i :: 0 <= i < |dreams[1..]| && dreams[1..][i].id == id.value) by {
        if exists i :: 0 <= i < |dreams| && dreams[i].id == id.value {
          var i :| 0 <= i < |dreams| && dreams[i].id == id.value;
          assert i > 0 && dreams[1..][i - 1] == dreams[i];
        }
      }
      r
  }

  /** After the parent applies an update, finding by its id gives the update back. */
  lemma FindAfterReplace(dreams: seq<DreamEntry>, updated: DreamEntry)
    requires exists i :: 0 <= i < |dreams| && dreams[i].id == updated.id
    ensures FindById(ReplaceById(dreams, updated), Some(updated.id)) == Some(updated)
  {
  }

  // ------------------------------------------------------------------ pipeline

  /** The entry made from a transcription. Its id is the decimal form of one clock
      reading and its timestamp a second reading; the size is the one the recording
      was made under. */
  function NewEntry(idClock: nat, stampClock: int, text: string, size: ImageSize): (e: DreamEntry)
    ensures StagesOrdered(e) && ProgressOf(e) == Transcribed
    ensures e.chatHistory == [] && e.audioUrl.None?
    ensures e.transcription == text && e.imageSize == size && e.timestamp == stampClock
    ensures |e.id| >= 1 && AllDigits(e.id) && DecimalValue(e.id) == idClock
  {
    DecimalOfNatToString(idClock);
    DreamEntry(NatToString(idClock), stampClock, None, text, None, None, [], size)
  }

  /** A call to the service the pipeline waits on. */
  datatype Call =
    | Transcribe(audio: string)
    | Interpret(transcription: string)
    | Illustrate(interpretation: Interpretation, size: ImageSize)

  /** What the interface can observe while the pipeline waits on a call. */
  datatype Suspension = Suspension(call: Call, dreams: seq<DreamEntry>, selectedDreamId: Option<string>, isProcessing: bool)

  datatype View = View(dreams: seq<DreamEntry>, selectedDreamId: Option<string>, isProcessing: bool, imageSize: ImageSize)

  /** The final state, the calls waited on (with the state at each), and whether the
      failure alert was raised. */
  datatype Run = Run(final: View, trace: seq<Suspension>, alerted: bool)

  /** `handleRecordingComplete` on the store `v`, with the three calls' results given.
      `recordedSize` is the `config.imageSize` of the render in which recording began:
      the recorder's stop callback is the handler closed over that render, so the size
      used for the entry and the image is that one, not `v.imageSize`, which the size
      select may have changed while recording; the select itself is left as it is. */
  function Pipeline(v: View, recordedSize: ImageSize, audio: string, idClock: nat, stampClock: int,
                    transcribed: Result<string>, interpreted: Result<Interpretation>, illustrated: Result<string>)
    : (r: Run)
    ensures !r.final.isProcessing && r.final.imageSize == v.imageSize
    ensures 1 <= |r.trace| <= 3
    ensures forall k :: 0 <= k < |r.trace| ==> r.trace[k].isProcessing
    ensures r.trace[0] == Suspension(Transcribe(audio), v.dreams, v.selectedDreamId, true)
    ensures r.alerted <==> transcribed.Err? || interpreted.Err? || illustrated.Err?
  {
    var t0 := Suspension(Transcribe(audio), v.dreams, v.selectedDreamId, true);
    match transcribed
    case Err(_) => Run(v.(isProcessing := false), [t0], true)
    case Ok(text) =>
      var entry := NewEntry(idClock, stampClock, text, recordedSize);
      var added := Prepend(v.dreams, entry);
      var t1 := Suspension(Interpret(text), added, Some(entry.id), true);
      match interpreted
      case Err(_) => Run(View(added, Some(entry.id), false, v.imageSize), [t0, t1], true)
      case Ok(interp) =>
        var interpreted := SetInterpretation(added, entry.id, interp);
        var t2 := Suspension(Illustrate(interp, recordedSize), interpreted, Some(entry.id), true);
        match illustrated
        case Err(_) => Run(View(interpreted, Some(entry.id), false, v.imageSize), [t0, t1, t2], true)
        case Ok(url) =>
          Run(View(SetImageUrl(interpreted, entry.id, url), Some(entry.id), false, v.imageSize), [t0, t1, t2], false)
  }

  /** A failed transcription adds nothing, keeps the selection, and calls nothing else. */
  lemma PipelineTranscriptionFailure(v: View, recordedSize: ImageSize, audio: string, idClock: nat, stampClock: int,
                                     transcribed: Result<string>, interpreted: Result<Interpretation>,
                                     illustrated: Result<string>)
    requires transcribed.Err?
    ensures
      var r := Pipeline(v, recordedSize, audio, idClock, stampClock, transcribed, interpreted, illustrated);
      && r.final.dreams == v.dreams && r.final.selectedDreamId == v.selectedDreamId
      && |r.trace| == 1 && r.alerted
  {
  }

  /** A successful transcription adds exactly one entry, in front, and selects it: the
      entry carries the text, the size recording began with, an empty history and no
      interpretation or image when it is first shown, which is before interpretation
      is asked for; the older entries follow in their order. Whatever the later stages
      do, the new entry keeps its place, id, text, size and history. */
  lemma PipelineAddsOneEntry(v: View, recordedSize: ImageSize, audio: string, idClock: nat, stampClock: int,
                             transcribed: Result<string>, interpreted: Result<Interpretation>,
                             illustrated: Result<string>)
    requires transcribed.Ok?
    ensures
      var r := Pipeline(v, recordedSize, audio, idClock, stampClock, transcribed, interpreted, illustrated);
      var id := NatToString(idClock);
      var e := r.final.dreams[0];
      && |r.final.dreams| == |v.dreams| + 1
      && |r.trace| >= 2
      && r.trace[1].call == Interpret(transcribed.value)
      && r.trace[1].selectedDreamId == Some(id)
      && r.trace[1].dreams[0] == DreamEntry(id, stampClock, None, transcribed.value, None, None, [], recordedSize)
      && r.trace[1].dreams[1..] == v.dreams
      && e.id == id && e.timestamp == stampClock && e.transcription == transcribed.value
      && e.chatHistory == [] && e.imageSize == recordedSize && e.audioUrl.None?
      && r.final.selectedDreamId == Some(id)
      && FindById(r.final.dreams, r.final.selectedDreamId) == Some(e)
  {
  }

  /** The new entry's progress: interpreted only if interpretation succeeded, illustrated
      only if illustration succeeded too; its image is asked for only after its
      interpretation is stored, with the interpretation and the size recording began with. */
  lemma PipelineStageOrder(v: View, recordedSize: ImageSize, audio: string, idClock: nat, stampClock: int,
                           transcribed: Result<string>, interpreted: Result<Interpretation>,
                           illustrated: Result<string>)
    requires transcribed.Ok?
    ensures
      var r := Pipeline(v, recordedSize, audio, idClock, stampClock, transcribed, interpreted, illustrated);
      var e := r.final.dreams[0];
      && StagesOrdered(e)
      && (interpreted.Err? ==> ProgressOf(e) == Transcribed && |r.trace| == 2)
      && (interpreted.Ok? && illustrated.Err? ==>
            ProgressOf(e) == Interpreted && e.interpretation == Some(interpreted.value))
      && (interpreted.Ok? && illustrated.Ok? ==>
            ProgressOf(e) == Illustrated && e.interpretation == Some(interpreted.value)
            && e.imageUrl == Some(illustrated.value))
      && (|r.trace| == 3 <==> interpreted.Ok?)
      && (interpreted.Ok? ==>
            && r.trace[2].call == Illustrate(interpreted.value, recordedSize)
            && r.trace[2].dreams[0].interpretation == Some(interpreted.value))
  {
  }

  /** Changing the size select while recording changes neither the entries nor the
      calls: only the select's own value differs. */
  lemma PipelineIgnoresCurrentSize(v: View, current: ImageSize, recordedSize: ImageSize, audio: string,
                                   idClock: nat, stampClock: int, transcribed: Result<string>,
                                   interpreted: Result<Interpretation>, illustrated: Result<string>)
    ensures
      var r := Pipeline(v, recordedSize, audio, idClock, stampClock, transcribed, interpreted, illustrated);
      var r' := Pipeline(v.(imageSize := current), recordedSize, audio, idClock, stampClock,
                         transcribed, interpreted, illustrated);
      && r'.final == r.final.(imageSize := current)
      && r'.trace == r.trace && r'.alerted == r.alerted
  {
  }

  /** Older entries are left alone unless they share the new entry's id (two recordings
      in the same millisecond); those receive the new interpretation and image too. */
  lemma PipelineOlderEntries(v: View, recordedSize: ImageSize, audio: string, idClock: nat, stampClock: int,
                             transcribed: Result<string>, interpreted: Result<Interpretation>,
                             illustrated: Result<string>, i: int)
    requires transcribed.Ok? && 0 <= i < |v.dreams|
    ensures
      var r := Pipeline(v, recordedSize, audio, idClock, stampClock, transcribed, interpreted, illustrated);
      var old_ := v.dreams[i];
      var now := r.final.dreams[i + 1];
      && (old_.id != NatToString(idClock) ==> now == old_)
      && (old_.id == NatToString(idClock) ==>
            && now.(interpretation := old_.interpretation, imageUrl := old_.imageUrl) == old_
            && (interpreted.Ok? ==> now.interpretation == Some(interpreted.value))
            && (interpreted.Ok? && illustrated.Ok? ==> now.imageUrl == Some(illustrated.value)))
  {
  }

  /** If every entry had its image only after its interpretation, that stays so. */
  lemma PipelineKeepsStagesOrdered(v: View, recordedSize: ImageSize, audio: string, idClock: nat, stampClock: int,
                                   transcribed: Result<string>, interpreted: Result<Interpretation>,
                                   illustrated: Result<string>)
    requires forall i :: 0 <= i < |v.dreams| ==> StagesOrdered(v.dreams[i])
    ensures
      var r := Pipeline(v, recordedSize, audio, idClock, stampClock, transcribed, interpreted, illustrated);
      forall i :: 0 <= i < |r.final.dreams| ==> StagesOrdered(r.final.dreams[i])
  {
  }

  // --------------------------------------------------------------------- state

  /** The component's state; each method is one handler run to completion. */
  class AppState {
    var dreams: seq<DreamEntry>
    var selectedDreamId: Option<string>
    var isProcessing: bool
    var imageSize: ImageSize

    function Snapshot(): View
      reads this
    {
      View(dreams, selectedDreamId, isProcessing, imageSize)
    }

    constructor ()
      ensures Snapshot() == View([], None, false, Size1K)
    {
      dreams, selectedDreamId, isProcessing, imageSize := [], None, false, Size1K;
    }

    /** The size select. It stays enabled while recording, but a recording already
        under way keeps the size it began with (see `Pipeline`). */
    method SetImageSize(size: ImageSize)
      modifies this`imageSize
      ensures imageSize == size
    {
      imageSize := size;
    }

    /** Choosing an entry in the archive, or returning to it. */
    method SelectDream(id: Option<string>)
      modifies this`selectedDreamId
      ensures selectedDreamId == id
    {
      selectedDreamId := id;
    }

    /** The entry shown: the first with the selected id, if any. */
    function SelectedDream(): (r: Option<DreamEntry>)
      reads this
      ensures r.Some? ==> r.value in dreams && Some(r.value.id) == selectedDreamId
      ensures r.None? ==> selectedDreamId.None? || forall i :: 0 <= i < |dreams| ==> dreams[i].id != selectedDreamId.value
    {
      FindById(dreams, selectedDreamId)
    }

    /** An update handed up by the dream display. */
    method OnUpdate(updated: DreamEntry)
      modifies this`dreams
      ensures dreams == ReplaceById(old(dreams), updated)
    {
      dreams := ReplaceById(dreams, updated);
    }

    /** `handleRecordingComplete`, with the three service results and the two clock
        readings as parameters; `recordedSize` is the size selected when recording
        began, which the stale closure sees. */
    method HandleRecordingComplete(recordedSize: ImageSize, audio: string, idClock: nat, stampClock: int,
                                   transcribed: Result<string>, interpreted: Result<Interpretation>,
                                   illustrated: Result<string>)
      returns (trace: seq<Suspension>, alerted: bool)
      modifies this
      ensures Run(Snapshot(), trace, alerted)
           == Pipeline(old(Snapshot()), recordedSize, audio, idClock, stampClock, transcribed, interpreted, illustrated)
    {
      isProcessing := true;
      trace := [Suspension(Transcribe(audio), dreams, selectedDreamId, isProcessing)];
      alerted := false;
      if transcribed.Err? {
        alerted := true;
        isProcessing := false;
        return;
      }
      var text := transcribed.value;
      var entry := NewEntry(idClock, stampClock, text, recordedSize);
      dreams := Prepend(dreams, entry);
      selectedDreamId := Some(entry.id);

      trace := trace + [Suspension(Interpret(text), dreams, selectedDreamId, isProcessing)];
      assert trace == [trace[0], trace[1]];
      if interpreted.Err? {
        alerted := true;
        isProcessing := false;
        return;
      }
      var interp := interpreted.value;
      dreams := SetInterpretation(dreams, entry.id, interp);

      trace := trace + [Suspension(Illustrate(interp, recordedSize), dreams, selectedDreamId, isProcessing)];
      assert trace == [trace[0], trace[1], trace[2]];
      if illustrated.Err? {
        alerted := true;
        isProcessing := false;
        return;
      }
      dreams := SetImageUrl(dreams, entry.id, illustrated.value);
      isProcessing := false;
    }
  }

  // ------------------------------------------------------- chat and store together

  /** A chat reply is built from the entry as it was when the send began, so a field
      committed while the reply was pending is written back to its old value: here an
      interpretation stored in between is lost again, while the history gains the pair. */
  lemma StaleChatReplyRestoresSnapshot(dreams: seq<DreamEntry>, k: int, input: string,
                                        interp: Interpretation, reply: string)
    requires 0 <= k < |dreams|
    ensures
      var t := PendingTurn(dreams[k], input);
      var sent := ReplaceById(dreams, OptimisticUpdate(t));
      var meanwhile := SetInterpretation(sent, dreams[k].id, interp);
      var answered := ReplaceById(meanwhile, ReplyUpdate(t, Ok(reply)).value);
      && meanwhile[k].interpretation == Some(interp)
      && answered[k].interpretation == dreams[k].interpretation
      && answered[k].chatHistory == dreams[k].chatHistory + [ChatMessage(User, input), ChatMessage(Model, reply)]
  {
  }

  /** So the order of stages can break: chat on an entry that is not interpreted yet,
      let the interpretation land before the reply and the image after it, and the
      entry ends with an image but no interpretation. */
  lemma ChatRaceBreaksStageOrder(dreams: seq<DreamEntry>, k: int, input: string,
                                 interp: Interpretation, reply: string, url: string)
    requires 0 <= k < |dreams| && dreams[k].interpretation.None?
    ensures
      var id := dreams[k].id;
      var t := PendingTurn(dreams[k], input);
      var sent := ReplaceById(dreams, OptimisticUpdate(t));
      var meanwhile := SetInterpretation(sent, id, interp);
      var answered := ReplaceById(meanwhile, ReplyUpdate(t, Ok(reply)).value);
      var illustrated := SetImageUrl(answered, id, url);
      !StagesOrdered(illustrated[k])
  {
  }
}
