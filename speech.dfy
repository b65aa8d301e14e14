/** The client's speech state of apps/frontend/src/hooks/useSpeech.jsx: the
    queue of assembled messages waiting to be played, the `loading` and
    `recording` flags, and the buffer of recorded chunks. Each request is
    split at its await: `BeginRequest` is what runs before the fetch, the
    `Finish...` methods what runs when it settles. */
module Speech {
  import opened Wrappers
  import opened Messages

  /** One piece of recorded audio as the recorder delivers it. */
  type Chunk = seq<bv8>

  /** How a /tts fetch settled: a response with `messages`, a non-ok
      status, or a thrown error. */
  datatype TtsOutcome = TtsDelivered(messages: seq<AssembledMessage>) | TtsNotOk | TtsThrew

  /** How a /sts fetch settled. */
  datatype StsOutcome = StsDelivered(messages: seq<AssembledMessage>) | StsThrew

  class SpeechProvider {
    var messages: seq<AssembledMessage>
    var loading: bool
    var recording: bool
    /** Whether a media recorder has been set up (`mediaRecorder` non-null). */
    var hasRecorder: bool
    var chunks: seq<Chunk>
    /** The value of `recording` in the render whose `sendAudioData` became
        the recorder's stop handler: the handler is installed once, when the
        recorder is set, and keeps that render's state. */
    var recordingSeenOnStop: bool

    constructor ()
      ensures messages == [] && !loading && !recording && !hasRecorder && chunks == []
      ensures !recordingSeenOnStop
    {
      messages, loading, recording, hasRecorder, chunks := [], false, false, false, [];
      recordingSeenOnStop := false;
    }

    /** The message the avatar plays: the head of the queue, or null. */
    function CurrentMessage(): (m: Option<AssembledMessage>)
      reads this
      ensures m.Some? <==> messages != []
      ensures m.Some? ==> m.value == messages[0]
    {
      if |messages| > 0 then Some(messages[0]) else None
    }

    /** The microphone became available: the recorder is set and its stop
        handler installed with the current render's state. */
    method SetupMediaRecorder()
      modifies this`hasRecorder, this`recordingSeenOnStop
      ensures hasRecorder && recordingSeenOnStop == recording
    {
      hasRecorder := true;
      recordingSeenOnStop := recording;
    }

    /** The recorder delivered a chunk. */
    method OnDataAvailable(c: Chunk)
      modifies this`chunks
      ensures chunks == old(chunks) + [c]
    {
      chunks := chunks + [c];
    }

    method StartRecording()
      modifies this`chunks, this`recording
      ensures hasRecorder ==> chunks == [] && recording
      ensures !hasRecorder ==> chunks == old(chunks) && recording == old(recording)
    {
      if hasRecorder {
        chunks := [];
        recording := true;
      }
    }

    method StopRecording()
      modifies this`recording
      ensures hasRecorder ==> !recording
      ensures !hasRecorder ==> recording == old(recording)
    {
      if hasRecorder {
        recording := false;
      }
    }

    /** The first part of sendAudioData: the chunks become the blob to send
        and the buffer is emptied. */
    method BuildAudioBlob() returns (blob: seq<Chunk>)
      modifies this`chunks
      ensures blob == old(chunks) && chunks == []
    {
      blob := chunks;
      chunks := [];
    }

    /** `setLoading(true)` before a fetch. */
    method BeginRequest()
      modifies this`loading
      ensures loading
    {
      loading := true;
    }

    /** The rest of tts once the fetch settles: a delivered response is
        queued behind what is already waiting; `finally` clears `loading`. */
    method FinishTts(outcome: TtsOutcome)
      modifies this`messages, this`loading
      ensures !loading
      ensures outcome.TtsDelivered? ==> messages == old(messages) + outcome.messages
      ensures !outcome.TtsDelivered? ==> messages == old(messages)
    {
      if outcome.TtsDelivered? {
        messages := messages + outcome.messages;
      }
      loading := false;
    }

    /** The rest of sendAudioData once the fetch settles, as it is evidently
        meant to run: the recorder restarts when recording is still on. */
    method FinishSts(outcome: StsOutcome) returns (restart: bool)
      modifies this`messages, this`loading
      ensures !loading
      ensures outcome.StsDelivered? ==> messages == old(messages) + outcome.messages
      ensures outcome.StsThrew? ==> messages == old(messages)
      ensures restart == recording
    {
      if outcome.StsDelivered? {
        messages := messages + outcome.messages;
      }
      loading := false;
      restart := recording;
    }

    /** The same as the source runs it: the restart test reads the
        `recording` that the stop handler saw when it was installed. */
    method FinishStsAsWritten(outcome: StsOutcome) returns (restart: bool)
      modifies this`messages, this`loading
      ensures !loading
      ensures outcome.StsDelivered? ==> messages == old(messages) + outcome.messages
      ensures outcome.StsThrew? ==> messages == old(messages)
      ensures restart == recordingSeenOnStop
    {
      if outcome.StsDelivered? {
        messages := messages + outcome.messages;
      }
      loading := false;
      restart := recordingSeenOnStop;
    }

    /** The avatar finished playing the current message: `slice(1)`. */
    method OnMessagePlayed()
      modifies this`messages
      ensures old(messages) != [] ==> messages == old(messages)[1..]
      ensures old(messages) == [] ==> messages == []
      ensures messages == Played(old(messages), 1)
    {
      if |messages| > 0 {
        messages := messages[1..];
      }
    }
  }

  /** The queue after `n` messages have been played: a suffix of the queue,
      `n` shorter, or empty once everything has played. */
  function Played(q: seq<AssembledMessage>, n: nat): (r: seq<AssembledMessage>)
    ensures |r| == if n <= |q| then |q| - n else 0
    ensures r == q[|q| - |r|..]
  {
    if n == 0 || q == [] then q else Played(q[1..], n - 1)
  }

  /** Playing drops exactly the first `n` messages (or all of them). */
  lemma {:induction false} PlayedDropsPrefix(q: seq<AssembledMessage>, n: nat)
    ensures n <= |q| ==> Played(q, n) == q[n..]
    ensures n > |q| ==> Played(q, n) == []
  {
    if n > 0 && q != [] {
      PlayedDropsPrefix(q[1..], n - 1);
      if n <= |q| {
        assert q[1..][n - 1..] == q[n..];
      }
    }
  }

  /** First in, first out: messages queued behind `q` become current in
      their own order, each once everything queued before it has played. */
  lemma QueuedInOrder(q: seq<AssembledMessage>, r: seq<AssembledMessage>, k: nat)
    requires k < |r|
    ensures Played(q + r, |q| + k) != [] && Played(q + r, |q| + k)[0] == r[k]
  {
    PlayedDropsPrefix(q + r, |q| + k);
    assert (q + r)[|q| + k] == r[k];
  }

  /** Continuous recording as written: the recorder is set up, recording
      starts, the silence timer stops the recorder and the speech turn
      comes back -- recording is still on, yet the recorder is not
      restarted; the intended version restarts it. */
  method ContinuousModeScenario() returns (stillRecording: bool, restartAsWritten: bool, restartIntended: bool)
    ensures stillRecording && !restartAsWritten && restartIntended
  {
    var asWritten := new SpeechProvider();
    asWritten.SetupMediaRecorder();
    asWritten.StartRecording();
    var blob := asWritten.BuildAudioBlob();
    asWritten.BeginRequest();
    restartAsWritten := asWritten.FinishStsAsWritten(StsDelivered([]));
    stillRecording := asWritten.recording;

    var intended := new SpeechProvider();
    intended.SetupMediaRecorder();
    intended.StartRecording();
    blob := intended.BuildAudioBlob();
    intended.BeginRequest();
    restartIntended := intended.FinishSts(StsDelivered([]));
  }
}
