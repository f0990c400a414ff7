/** Microphone capture (`AudioRecorder`): the chunk list built from the media recorder's
    `dataavailable` events and the guards of `start`, `stop` and `cancel`. The device, the
    media encoder and the level meter are outside the model; their outcomes are inputs. */
module Capture {
  import opened Common

  /** `MediaRecorder.state` (the client never pauses a recorder). */
  datatype RecorderState = Inactive | Recording

  /** `AudioRecorderResult`: the recorded blob, its wall-clock duration and its object URL. */
  datatype RecordedAudio = RecordedAudio(blob: Bytes, duration: int, url: string)

  /** The chunks the `dataavailable` handler keeps: the non-empty ones, in arrival order. */
  function NonEmpty(chunks: seq<Bytes>): (r: seq<Bytes>)
    ensures forall i | 0 <= i < |r| :: |r[i]| > 0
    ensures |r| <= |chunks|
  {
    if chunks == [] then []
    else (if |chunks[0]| > 0 then [chunks[0]] else []) + NonEmpty(chunks[1..])
  }

  /** A kept chunk is one that arrived and is non-empty, and every such chunk is kept. */
  lemma {:induction false} NonEmptyMembers(chunks: seq<Bytes>, c: Bytes)
    ensures c in NonEmpty(chunks) <==> c in chunks && |c| > 0
  {
    if chunks != [] {
      NonEmptyMembers(chunks[1..], c);
      assert chunks == [chunks[0]] + chunks[1..];
    }
  }

  /** Keeping chunks commutes with arrival: what a run of events keeps is what each
      event keeps, in order. */
  lemma {:induction false} NonEmptyAppend(a: seq<Bytes>, b: seq<Bytes>)
    ensures NonEmpty(a + b) == NonEmpty(a) + NonEmpty(b)
  {
    if a == [] {
      assert a + b == b;
    } else {
      assert (a + b)[1..] == a[1..] + b;
      NonEmptyAppend(a[1..], b);
    }
  }

  class AudioRecorder {
    /** The microphone stream is open. */
    var hasStream: bool
    /** `mediaRecorder`: none yet, or the state of the current one. */
    var recorder: Option<RecorderState>
    var chunks: seq<Bytes>
    var startTime: int
    /** The duration `stop()` measured, while its promise waits for the recorder's `stop` event. */
    var pendingStop: Option<int>
    /** The chunks passed to `onDataAvailable`, in order. */
    var delivered: seq<Bytes>

    constructor ()
      ensures !hasStream && recorder == None && chunks == [] && startTime == 0
      ensures pendingStop == None && delivered == []
    {
      hasStream := false;
      recorder := None;
      chunks := [];
      startTime := 0;
      pendingStop := None;
      delivered := [];
    }

    /** `isRecording`. */
    function IsRecording(): (r: bool)
      reads this
      ensures r ==> recorder.Some?
      ensures r <==> recorder.Some? && recorder.value == Recording
    {
      recorder == Some(Recording)
    }

    /** `start()`: open the microphone if needed (`denial` is the reason the request for
        it is refused, if it is), empty the chunk list and start a new recorder at time
        `now`. */
    method Start(denial: Option<string>, now: int) returns (r: Result<()>)
      modifies this
      ensures delivered == old(delivered)
      ensures !old(hasStream) && denial.Some? ==>
                r == Err("Microphone access denied: " + denial.value) && !hasStream &&
                recorder == old(recorder) && chunks == old(chunks) &&
                startTime == old(startTime) && pendingStop == old(pendingStop)
      ensures old(hasStream) || denial.None? ==>
                r == Ok(()) && hasStream && recorder == Some(Recording) &&
                chunks == [] && startTime == now && pendingStop == None
    {
      if !hasStream {
        if denial.Some? {
          return Err("Microphone access denied: " + denial.value);
        }
        hasStream := true;
      }
      chunks := [];
      startTime := now;
      recorder := Some(Recording);
      pendingStop := None;
      r := Ok(());
    }

    /** The recorder's `dataavailable` event: a non-empty chunk is kept and forwarded,
        an empty one is ignored. */
    method DataAvailable(chunk: Bytes)
      requires recorder.Some?
      modifies this`chunks, this`delivered
      ensures chunks == old(chunks) + NonEmpty([chunk])
      ensures delivered == old(delivered) + NonEmpty([chunk])
    {
      if |chunk| > 0 {
        chunks := chunks + [chunk];
        delivered := delivered + [chunk];
      }
    }

    /** `stop()` at time `now`: rejected unless a recorder is recording; otherwise the
        recorder goes inactive and the promise waits for its `stop` event. */
    method Stop(now: int) returns (r: Result<()>)
      modifies this`recorder, this`pendingStop
      ensures old(recorder) != Some(Recording) ==>
                r == Err("Recorder not active") && recorder == old(recorder) && pendingStop == old(pendingStop)
      ensures old(recorder) == Some(Recording) ==>
                r == Ok(()) && recorder == Some(Inactive) && pendingStop == Some(now - startTime)
    {
      if recorder.None? || recorder.value == Inactive {
        return Err("Recorder not active");
      }
      pendingStop := Some(now - startTime);
      recorder := Some(Inactive);
      r := Ok(());
    }

    /** The recorder's `stop` event; `url` is the object URL made for the blob. If `stop()`
        is waiting, its promise resolves with all kept chunks concatenated. */
    method Stopped(url: string) returns (result: Option<RecordedAudio>)
      modifies this`pendingStop
      ensures old(pendingStop).None? ==> result == None
      ensures old(pendingStop).Some? ==> result == Some(RecordedAudio(Flatten(chunks), old(pendingStop).value, url))
      ensures pendingStop == None
    {
      result := None;
      if pendingStop.Some? {
        result := Some(RecordedAudio(Flatten(chunks), pendingStop.value, url));
      }
      pendingStop := None;
    }

    /** `cancel()`: stop a recording recorder and drop the chunks. */
    method Cancel()
      modifies this`recorder, this`chunks
      ensures recorder == if old(recorder) == Some(Recording) then Some(Inactive) else old(recorder)
      ensures chunks == []
    {
      if recorder == Some(Recording) {
        recorder := Some(Inactive);
      }
      chunks := [];
    }

    /** `dispose()`. */
    method Dispose()
      modifies this
      ensures !hasStream && recorder == None && chunks == []
      ensures startTime == old(startTime) && pendingStop == old(pendingStop) && delivered == old(delivered)
    {
      Cancel();
      hasStream := false;
      recorder := None;
    }
  }

  /** One arriving chunk is kept iff it is non-empty. */
  lemma KeepOne(c: Bytes)
    ensures NonEmpty([c]) == if |c| > 0 then [c] else []
  {
    assert [c][1..] == [];
  }

  /** The blob of three chunks is their bytes in order. */
  lemma ThreeChunks(a: Bytes, b: Bytes, c: Bytes)
    ensures Flatten([a, b, c]) == a + b + c
  {
    assert [a, b, c][1..] == [b, c] && [b, c][1..] == [c] && [c][1..] == [];
    assert Flatten([c]) == c + Flatten([]);
    assert Flatten([b, c]) == b + Flatten([c]);
    assert Flatten([a, b, c]) == a + Flatten([b, c]);
  }
}
