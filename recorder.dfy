/** The recording widget: its start/stop flags and seconds counter, the audio chunks it
    collects, the `m:ss` display of the counter, and the base64 payload it hands on.
    Microphone access, the media recorder, the blob reader and the interval timer are
    platform services; their outcomes and callbacks are parameters and methods here. */
module Recorder {
  import opened Wrappers
  import opened Text

  /** A piece of recorded audio; its size is the number of bytes. */
  datatype Blob = Blob(bytes: seq<bv8>)

  /** The chunks kept from a series of arrivals: the non-empty ones, in arrival order. */
  function NonEmptyChunks(arrivals: seq<Blob>): (kept: seq<Blob>)
    ensures |kept| <= |arrivals|
    ensures forall i :: 0 <= i < |kept| ==> |kept[i].bytes| > 0
  {
    if |arrivals| == 0 then []
    else (if |arrivals[0].bytes| > 0 then [arrivals[0]] else []) + NonEmptyChunks(arrivals[1..])
  }

  /** A chunk is kept exactly when it arrived and is not empty. */
  lemma {:induction false} NonEmptyChunksMembers(arrivals: seq<Blob>)
    ensures forall b :: b in NonEmptyChunks(arrivals) <==> b in arrivals && |b.bytes| > 0
  {
    if |arrivals| > 0 {
      NonEmptyChunksMembers(arrivals[1..]);
      assert arrivals == [arrivals[0]] + arrivals[1..];
    }
  }

  /** Filtering arrival by arrival is filtering them all at once. */
  lemma {:induction false} NonEmptyChunksAppend(a: seq<Blob>, b: seq<Blob>)
    ensures NonEmptyChunks(a + b) == NonEmptyChunks(a) + NonEmptyChunks(b)
  {
    if |a| == 0 {
      assert a + b == b;
    } else {
      assert (a + b)[0] == a[0] && (a + b)[1..] == a[1..] + b;
      NonEmptyChunksAppend(a[1..], b);
    }
  }

  class RecorderState {
    var isRecording: bool
    var timer: nat
    /** A media recorder has been created (the recorder reference is set). */
    var hasMediaRecorder: bool
    /** The one-second interval is scheduled. */
    var intervalRunning: bool
    var chunks: seq<Blob>

    ghost predicate Valid()
      reads this
    {
      && intervalRunning == isRecording
      && (isRecording ==> hasMediaRecorder)
    }

    constructor ()
      ensures Valid()
      ensures !isRecording && timer == 0 && !hasMediaRecorder && chunks == []
    {
      isRecording, timer := false, 0;
      hasMediaRecorder, intervalRunning := false, false;
      chunks := [];
    }

    /** Start: with microphone access, a new recorder, no chunks, the counter at 0 and
        the interval running; without it, an alert and nothing else. Only called while
        not recording: the button stops a running recording instead. */
    method StartRecording(micGranted: bool) returns (alerted: bool)
      requires Valid() && !isRecording
      modifies this
      ensures Valid()
      ensures alerted == !micGranted
      ensures !micGranted ==>
        && isRecording == old(isRecording) && timer == old(timer)
        && hasMediaRecorder == old(hasMediaRecorder) && chunks == old(chunks)
      ensures micGranted ==> isRecording && timer == 0 && hasMediaRecorder && chunks == []
    {
      if !micGranted {
        return true;
      }
      hasMediaRecorder := true;
      chunks := [];
      isRecording := true;
      timer := 0;
      intervalRunning := true;
      alerted := false;
    }

    /** A chunk arrives from the recorder: kept only when it is not empty. */
    method OnDataAvailable(b: Blob)
      requires Valid()
      modifies this`chunks
      ensures Valid()
      ensures chunks == old(chunks) + NonEmptyChunks([b])
    {
      if |b.bytes| > 0 {
        chunks := chunks + [b];
      }
    }

    /** One firing of the running interval. */
    method Tick()
      requires Valid() && intervalRunning
      modifies this`timer
      ensures Valid()
      ensures timer == old(timer) + 1
    {
      timer := timer + 1;
    }

    /** Stop: acts only when a recorder exists and a recording runs; then the recording
        and the interval stop, and the counter and the chunks stay as they are. */
    method StopRecording() returns (stopped: bool)
      requires Valid()
      modifies this
      ensures Valid()
      ensures stopped == (old(hasMediaRecorder) && old(isRecording))
      ensures stopped ==> !isRecording && !intervalRunning
      ensures !stopped ==> isRecording == old(isRecording) && intervalRunning == old(intervalRunning)
      ensures timer == old(timer) && chunks == old(chunks) && hasMediaRecorder == old(hasMediaRecorder)
    {
      stopped := hasMediaRecorder && isRecording;
      if stopped {
        isRecording := false;
        intervalRunning := false;
      }
    }
  }

  /** `dataUrl.split(',')[1]`: the text between the first and the second comma, or
      `undefined` (`None`) when there is no comma. */
  function Base64Payload(dataUrl: string): (payload: Option<string>)
    ensures payload.Some? <==> ',' in dataUrl
  {
    var pieces := Split(dataUrl, ",");
    if |pieces| >= 2 then Some(pieces[1]) else None
  }

  /** For a `data:` URL of RFC 2397 (section 3) in base64 form, the payload is exactly
      the encoded data. */
  lemma PayloadOfDataUrl(mediaType: string, data: string)
    requires ',' !in mediaType && ',' !in data
    ensures Base64Payload("data:" + mediaType + ";base64," + data) == Some(data)
  {
    var head := "data:" + mediaType + ";base64";
    assert ',' !in head;
    assert "data:" + mediaType + ";base64," + data == Join([head, data], ",");
    SplitJoin([head, data], ",");
  }

  /** The counter as `m:ss`: whole minutes, unpadded, then the remaining seconds
      left-padded with '0' to two characters. */
  function FormatTime(seconds: nat): (t: string)
    ensures var minutes := NatToString(seconds / 60);
      && |t| == |minutes| + 3
      && t[..|minutes|] == minutes && t[|minutes|] == ':'
      && AllDigits(t[|minutes| + 1..])
  {
    var minutes := NatToString(seconds / 60);
    var field := PadStart(NatToString(seconds % 60), 2, '0');
    SecondsFieldDigits(seconds % 60);
    ColonJoined(minutes, field);
    minutes + ":" + field
  }

  /** Where the parts of `minutes + ":" + field` lie. */
  lemma ColonJoined(minutes: string, field: string)
    ensures var t := minutes + ":" + field;
      && |t| == |minutes| + 1 + |field|
      && t[..|minutes|] == minutes && t[|minutes|] == ':' && t[|minutes| + 1..] == field
  {
  }

  /** The seconds field is two digits. */
  lemma SecondsFieldDigits(secs: nat)
    requires secs < 60
    ensures var field := PadStart(NatToString(secs), 2, '0');
      |field| == 2 && AllDigits(field)
  {
    var digits := NatToString(secs);
    var field := PadStart(digits, 2, '0');
    if secs < 10 {
      assert field == ['0'] + digits;
      assert field[0] == '0' && field[1] == digits[0];
    } else {
      assert field == digits;
    }
  }

  /** The display is four characters long (one minute digit) exactly below ten
      minutes. */
  lemma FormatTimeLength(seconds: nat)
    ensures |FormatTime(seconds)| == 4 <==> seconds < 600
  {
    var m := seconds / 60;
    assert m < 10 <==> seconds < 600;
    assert |NatToString(m)| == 1 <==> m < 10;
  }

  /** Reads an `m:ss` display back: minutes in decimal, a colon, two digits below 60. */
  function ParseTime(t: string): Option<nat> {
    if |t| >= 4 && t[|t| - 3] == ':' then ReadFields(t[..|t| - 3], t[|t| - 2..]) else None
  }

  /** The count shown by a minutes field and a seconds field, if both are digits and
      the seconds are below 60. */
  function ReadFields(minutes: string, field: string): Option<nat> {
    if AllDigits(minutes) && AllDigits(field) && DecimalValue(field) < 60
    then Some(DecimalValue(minutes) * 60 + DecimalValue(field))
    else None
  }

  /** The seconds field: two digits whose value is the seconds below a full minute. */
  lemma {:induction false} PaddedSecondsValue(secs: nat)
    requires secs < 60
    ensures var field := PadStart(NatToString(secs), 2, '0');
      |field| == 2 && AllDigits(field) && DecimalValue(field) == secs
  {
    var digits := NatToString(secs);
    var field := PadStart(digits, 2, '0');
    DecimalOfNatToString(secs);
    if secs < 10 {
      assert field == ['0'] + digits;
      assert field[..1] == ['0'];
      assert field[..|field| - 1] == ['0'];
      assert DecimalValue(['0']) == 0 by {
        assert ['0'][..0] == [];
      }
      assert field[1] == digits[0];
      assert digits[..0] == [];
    } else {
      assert field == digits;
    }
  }

  /** The display determines the count: reading it back gives the seconds. So the
      seconds field is below 60, and minutes * 60 + seconds is the count. */
  lemma FormatTimeRoundTrip(seconds: nat)
    ensures ParseTime(FormatTime(seconds)) == Some(seconds)
  {
    var m, secs := seconds / 60, seconds % 60;
    assert m * 60 + secs == seconds;
    assert FormatTime(seconds) == NatToString(m) + ":" + PadStart(NatToString(secs), 2, '0');
    ParseDisplay(m, secs);
  }

  /** Minutes and a seconds field below 60, displayed and read back. */
  lemma ParseDisplay(m: nat, secs: nat)
    requires secs < 60
    ensures ParseTime(NatToString(m) + ":" + PadStart(NatToString(secs), 2, '0')) == Some(m * 60 + secs)
  {
    PaddedSecondsValue(secs);
    DecimalOfNatToString(m);
    ParseDigits(NatToString(m), PadStart(NatToString(secs), 2, '0'), m, secs);
  }

  /** Digits worth `m`, a colon and a two-digit field worth `secs` below 60 read back
      as m * 60 + secs. */
  lemma ParseDigits(minutes: string, field: string, m: nat, secs: nat)
    requires |minutes| >= 1 && AllDigits(minutes) && DecimalValue(minutes) == m
    requires |field| == 2 && AllDigits(field) && DecimalValue(field) == secs && secs < 60
    ensures ParseTime(minutes + ":" + field) == Some(m * 60 + secs)
  {
    var t := minutes + ":" + field;
    assert t[..|t| - 3] == minutes && t[|t| - 3] == ':' && t[|t| - 2..] == field;
    assert ReadFields(minutes, field) == Some(m * 60 + secs);
  }

  /** Distinct counts are displayed differently. */
  lemma FormatTimeInjective(a: nat, b: nat)
    requires FormatTime(a) == FormatTime(b)
    ensures a == b
  {
    FormatTimeRoundTrip(a);
    FormatTimeRoundTrip(b);
  }

  /** Minutes are not padded: 605 seconds show as "10:05". */
  lemma FormatTimeExample()
    ensures FormatTime(605) == "10:05"
  {
  }
}
