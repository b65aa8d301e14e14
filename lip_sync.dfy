/** The per-message speech pipeline of apps/backend/modules/lip-sync.mjs:
    every planned message is synthesized, its phonemes extracted, and its
    audio and transcript read back; a message whose processing throws becomes
    null and the nulls are filtered out. The fan-out is modelled as a
    sequential map over the plan, in plan order. */
module LipSync {
  import opened Wrappers
  import opened Messages
  import opened ScratchFiles

  /** What the external collaborators do, keyed by what they are given:
      `synthesize(text, file)` -- the TTS call writing `file` resolves;
      `transcode(mp3, wav)`, `rhubarb(wav, json)` -- the two subprocesses of
      the phoneme extractor succeed; `readAudio(file)` -- the base64 read,
      None when it throws; `readTranscript(file)` -- the JSON read, None when
      it throws. */
  datatype Oracles = Oracles(
    synthesize: (string, string) -> bool,
    transcode: (string, string) -> bool,
    rhubarb: (string, string) -> bool,
    readAudio: string -> Option<string>,
    readTranscript: string -> Option<LipsyncData>)

  /** An external step attempted while processing one message. The TTS
      call writes the service's wav to `scratch` (the target name with
      `.mp3` replaced by `.wav`) and converts it into `target`. */
  datatype Step =
    | Synthesize(text: string, scratch: string, target: string)
    | Transcode(source: string, target: string)
    | Rhubarb(source: string, target: string)
    | ReadAudio(source: string)
    | ReadTranscript(source: string)

  /** Position of a step in the fixed per-message order. */
  function Stage(s: Step): nat {
    match s
    case Synthesize(_, _, _) => 0
    case Transcode(_, _) => 1
    case Rhubarb(_, _) => 2
    case ReadAudio(_) => 3
    case ReadTranscript(_) => 4
  }

  function FilesOf(s: Step): set<string> {
    match s
    case Synthesize(_, w, f) => {w, f}
    case Transcode(f, g) => {f, g}
    case Rhubarb(f, g) => {f, g}
    case ReadAudio(f) => {f}
    case ReadTranscript(f) => {f}
  }

  /** The scratch files that message `index` owns. */
  function OwnFiles(index: nat): set<string> {
    {Mp3Name(index), WavName(index), JsonName(index)}
  }

  ghost predicate InStageOrder(steps: seq<Step>) {
    forall i, j :: 0 <= i < j < |steps| ==> Stage(steps[i]) < Stage(steps[j])
  }

  /** getPhonemes({message: index}): mp3 to wav, then the phoneme tool from
      wav to json; a failing first subprocess skips the second, and every
      failure is caught inside, so the call never throws. The result is the
      list of subprocesses it ran. */
  function GetPhonemes(index: nat, o: Oracles): (steps: seq<Step>)
    ensures |steps| == (if o.transcode(Mp3Name(index), WavName(index)) then 2 else 1)
    ensures steps[0] == Transcode(Mp3Name(index), WavName(index))
    ensures |steps| == 2 ==> steps[1] == Rhubarb(WavName(index), JsonName(index))
  {
    var transcoded := Transcode(Mp3Name(index), WavName(index));
    if o.transcode(Mp3Name(index), WavName(index))
    then [transcoded, Rhubarb(WavName(index), JsonName(index))]
    else [transcoded]
  }

  /** The outcome of one message: the assembled message (None for the null
      that a caught error produces) and the external steps attempted. */
  datatype Attempt = Attempt(result: Option<AssembledMessage>, steps: seq<Step>)

  /** A message survives exactly when the TTS call, the audio read and the
      transcript read all succeed; the phoneme subprocesses do not matter. */
  predicate Succeeds(index: nat, m: MessagePlan, o: Oracles) {
    && o.synthesize(m.text, Mp3Name(index))
    && o.readAudio(Mp3Name(index)).Some?
    && o.readTranscript(JsonName(index)).Some?
  }

  /** The per-message callback of lipSync for the message at `index`. */
  function ProcessMessage(index: nat, m: MessagePlan, o: Oracles): (a: Attempt)
    ensures a.result.Some? <==> Succeeds(index, m, o)
    ensures a.result.Some? ==>
      a.result.value == Assemble(m, o.readAudio(Mp3Name(index)).value, o.readTranscript(JsonName(index)).value)
    ensures 1 <= |a.steps| && a.steps[0] == Synthesize(m.text, WavName(index), Mp3Name(index))
    ensures InStageOrder(a.steps)
    ensures forall k :: 0 <= k < |a.steps| ==> FilesOf(a.steps[k]) <= OwnFiles(index)
    ensures a.result.Some? ==> a.steps[|a.steps| - 1] == ReadTranscript(JsonName(index))
  {
    var mp3, json := Mp3Name(index), JsonName(index);
    var synthesized := [Synthesize(m.text, WavName(index), mp3)];
    if !o.synthesize(m.text, mp3) then
      Attempt(None, synthesized)
    else
      var read := synthesized + GetPhonemes(index, o) + [ReadAudio(mp3)];
      match o.readAudio(mp3)
      case None => Attempt(None, read)
      case Some(audio) =>
        match o.readTranscript(json)
        case None => Attempt(None, read + [ReadTranscript(json)])
        case Some(lipsync) => Attempt(Some(Assemble(m, audio, lipsync)), read + [ReadTranscript(json)])
  }

  /** When the phoneme tool did not run, a surviving message carries a
      transcript that no step of this message wrote: whatever the json file
      already held. */
  lemma PhonemeFailureKeepsMessage(index: nat, m: MessagePlan, o: Oracles)
    requires Succeeds(index, m, o) && !o.transcode(Mp3Name(index), WavName(index))
    ensures ProcessMessage(index, m, o).result.Some?
    ensures forall k :: 0 <= k < |ProcessMessage(index, m, o).steps| ==>
      !ProcessMessage(index, m, o).steps[k].Rhubarb?
  {
    var a := ProcessMessage(index, m, o);
    assert a.steps == [Synthesize(m.text, WavName(index), Mp3Name(index)), Transcode(Mp3Name(index), WavName(index)),
                       ReadAudio(Mp3Name(index)), ReadTranscript(JsonName(index))];
  }

  /** `messages.map(callback)`: one result per message, index by index. */
  function Processed(ms: seq<MessagePlan>, o: Oracles): (rs: seq<Option<AssembledMessage>>)
    ensures |rs| == |ms|
  {
    seq(|ms|, i requires 0 <= i < |ms| => ProcessMessage(i, ms[i], o).result)
  }

  /** After the map, a message is null exactly when its processing failed,
      and otherwise it keeps its own plan. */
  lemma ProcessedMeaning(ms: seq<MessagePlan>, o: Oracles)
    ensures forall i :: 0 <= i < |ms| ==> (Processed(ms, o)[i].Some? <==> Succeeds(i, ms[i], o))
    ensures forall i :: 0 <= i < |ms| && Processed(ms, o)[i].Some? ==> Processed(ms, o)[i].value.Plan() == ms[i]
  {
  }

  /** Positions of the non-null entries, in increasing order. */
  function SomeIndices<T>(xs: seq<Option<T>>): (ix: seq<nat>)
    ensures |ix| <= |xs|
    ensures forall k :: 0 <= k < |ix| ==> ix[k] < |xs| && xs[ix[k]].Some?
    ensures forall k, l :: 0 <= k < l < |ix| ==> ix[k] < ix[l]
    ensures forall i :: 0 <= i < |xs| && xs[i].Some? ==> i in ix
  {
    if xs == [] then []
    else
      var n := |xs| - 1;
      SomeIndices(xs[..n]) + (if xs[n].Some? then [n] else [])
  }

  /** `filter((m) => m !== null)`: the non-null entries, in order. */
  function DropNulls<T>(xs: seq<Option<T>>): (ys: seq<T>)
    ensures |ys| == |SomeIndices(xs)|
    ensures forall k :: 0 <= k < |ys| ==> xs[SomeIndices(xs)[k]] == Some(ys[k])
  {
    if xs == [] then []
    else
      var n := |xs| - 1;
      DropNulls(xs[..n]) + (match xs[n] case Some(v) => [v] case None => [])
  }

  /** lipSync({messages}): never longer than the plan, and every message it
      returns is one of the planned messages with its audio attached. */
  function LipSync(ms: seq<MessagePlan>, o: Oracles): (out: seq<AssembledMessage>)
    ensures |out| <= |ms|
    ensures forall k :: 0 <= k < |out| ==> out[k].Plan() in ms
  {
    var rs := Processed(ms, o);
    var out := DropNulls(rs);
    ProcessedMeaning(ms, o);
    assert forall k :: 0 <= k < |out| ==> rs[SomeIndices(rs)[k]] == Some(out[k]);
    out
  }

  /** Indices of the messages that survive, in plan order. */
  function SuccessIndices(ms: seq<MessagePlan>, o: Oracles): seq<nat> {
    SomeIndices(Processed(ms, o))
  }

  /** The output is exactly the surviving messages, in plan order, each with
      its own text, expression and animation plus its own audio and lip-sync. */
  lemma LipSyncSelectsSurvivors(ms: seq<MessagePlan>, o: Oracles)
    ensures var out, ix := LipSync(ms, o), SuccessIndices(ms, o);
      && |out| == |ix|
      && (forall k, l :: 0 <= k < l < |ix| ==> ix[k] < ix[l])
      && (forall i :: 0 <= i < |ms| ==> (i in ix <==> Succeeds(i, ms[i], o)))
      && (forall k :: 0 <= k < |ix| ==>
            && ix[k] < |ms|
            && out[k] == Assemble(ms[ix[k]], o.readAudio(Mp3Name(ix[k])).value,
                                  o.readTranscript(JsonName(ix[k])).value))
  {
    var rs, ix := Processed(ms, o), SuccessIndices(ms, o);
    forall i | 0 <= i < |ms| && i in ix ensures Succeeds(i, ms[i], o) {
      var k :| 0 <= k < |ix| && ix[k] == i;
      assert rs[i].Some?;
    }
    forall i | 0 <= i < |ms| && Succeeds(i, ms[i], o) ensures i in ix {
      assert rs[i].Some?;
    }
  }

  /** The output never grows, and an empty plan gives an empty output. */
  lemma LipSyncShrinks(ms: seq<MessagePlan>, o: Oracles)
    ensures |LipSync(ms, o)| <= |ms|
    ensures ms == [] ==> LipSync(ms, o) == []
  {
    assert |LipSync(ms, o)| == |SomeIndices(Processed(ms, o))|;
  }

  /** A plan where every message fails gives an empty output, not an error. */
  lemma AllFailedGivesEmpty(ms: seq<MessagePlan>, o: Oracles)
    requires forall i :: 0 <= i < |ms| ==> !Succeeds(i, ms[i], o)
    ensures LipSync(ms, o) == []
  {
    AllNullsDropToEmpty(Processed(ms, o));
  }

  lemma {:induction false} AllNullsDropToEmpty<T>(xs: seq<Option<T>>)
    requires forall i :: 0 <= i < |xs| ==> xs[i].None?
    ensures DropNulls(xs) == []
  {
    if xs != [] {
      AllNullsDropToEmpty(xs[..|xs| - 1]);
    }
  }

  /** A plan where every message succeeds loses nothing: the k-th output is
      the k-th planned message with its own audio and transcript. */
  lemma AllSucceededKeepsAll(ms: seq<MessagePlan>, o: Oracles)
    requires forall i :: 0 <= i < |ms| ==> Succeeds(i, ms[i], o)
    ensures |LipSync(ms, o)| == |ms|
    ensures forall k :: 0 <= k < |ms| ==>
      LipSync(ms, o)[k] == Assemble(ms[k], o.readAudio(Mp3Name(k)).value, o.readTranscript(JsonName(k)).value)
  {
    var rs := Processed(ms, o);
    var ix := SomeIndices(rs);
    forall i | 0 <= i < |ms| ensures i in ix {
      assert rs[i].Some?;
    }
    IncreasingCover(ix, |ms|);
    IncreasingCoverIsIdentity(ix, |ms|);
    LipSyncSelectsSurvivors(ms, o);
  }

  /** A strictly increasing sequence of exactly `n` indices below `n` is
      0, 1, ..., n - 1. */
  lemma {:induction false} IncreasingCoverIsIdentity(ix: seq<nat>, n: nat)
    requires |ix| == n
    requires forall k :: 0 <= k < |ix| ==> ix[k] < n
    requires forall k, l :: 0 <= k < l < |ix| ==> ix[k] < ix[l]
    ensures forall k :: 0 <= k < n ==> ix[k] == k
  {
    if n > 0 {
      var front := ix[..n - 1];
      assert forall k :: 0 <= k < n - 1 ==> front[k] < ix[n - 1];
      IncreasingCoverIsIdentity(front, n - 1);
      if n > 1 {
        assert ix[n - 2] == front[n - 2] == n - 2;
      }
      assert ix[n - 1] == n - 1;
      assert forall k :: 0 <= k < n - 1 ==> ix[k] == front[k];
    }
  }

  /** A strictly increasing sequence of indices below `n` that holds every
      index below `n` has exactly `n` elements. */
  lemma {:induction false} IncreasingCover(ix: seq<nat>, n: nat)
    requires forall k :: 0 <= k < |ix| ==> ix[k] < n
    requires forall k, l :: 0 <= k < l < |ix| ==> ix[k] < ix[l]
    requires forall i :: 0 <= i < n ==> i in ix
    ensures |ix| == n
  {
    if n > 0 {
      assert n - 1 in ix;
      var last :| 0 <= last < |ix| && ix[last] == n - 1;
      // n - 1 is the largest value, so it sits at the end
      assert ix[last] <= ix[|ix| - 1];
      var front := ix[..|ix| - 1];
      forall i | 0 <= i < n - 1 ensures i in front {
        assert i in ix;
        var k :| 0 <= k < |ix| && ix[k] == i;
        assert k != |ix| - 1;
        assert front[k] == i;
      }
      forall k | 0 <= k < |front| ensures front[k] < n - 1 {
        assert ix[k] < ix[|ix| - 1];
      }
      IncreasingCover(front, n - 1);
    }
  }

  /** Two environments that agree on every file outside `files`. */
  ghost predicate AgreeOutside(o1: Oracles, o2: Oracles, files: set<string>) {
    && (forall t, f :: f !in files ==> o1.synthesize(t, f) == o2.synthesize(t, f))
    && (forall f, g :: f !in files ==> o1.transcode(f, g) == o2.transcode(f, g))
    && (forall f, g :: f !in files ==> o1.rhubarb(f, g) == o2.rhubarb(f, g))
    && (forall f :: f !in files ==> o1.readAudio(f) == o2.readAudio(f))
    && (forall f :: f !in files ==> o1.readTranscript(f) == o2.readTranscript(f))
  }

  lemma OwnFilesDisjoint(i: nat, j: nat)
    requires i != j
    ensures OwnFiles(i) !! OwnFiles(j)
  {
    forall f | f in OwnFiles(i) && f in OwnFiles(j) ensures false {
      var e :| e in {"mp3", "wav", "json"} && f == ScratchName(i, e);
      var e' :| e' in {"mp3", "wav", "json"} && f == ScratchName(j, e');
      ScratchNameInjective(i, e, j, e');
    }
  }

  /** Whatever happens to the files of message `j` changes only message `j`:
      every other entry of the map is the same, and if `j` now fails the
      output is the old one with that message taken out. */
  lemma FailureIsLocal(ms: seq<MessagePlan>, o1: Oracles, o2: Oracles, j: nat)
    requires j < |ms| && AgreeOutside(o1, o2, OwnFiles(j))
    ensures forall i :: 0 <= i < |ms| && i != j ==> Processed(ms, o2)[i] == Processed(ms, o1)[i]
    ensures !Succeeds(j, ms[j], o2) ==> LipSync(ms, o2) == DropNulls(Processed(ms, o1)[j := None])
  {
    forall i | 0 <= i < |ms| && i != j ensures Processed(ms, o2)[i] == Processed(ms, o1)[i] {
      OwnFilesDisjoint(i, j);
      assert Mp3Name(i) !in OwnFiles(j) && WavName(i) !in OwnFiles(j) && JsonName(i) !in OwnFiles(j);
    }
    if !Succeeds(j, ms[j], o2) {
      assert Processed(ms, o2) == Processed(ms, o1)[j := None];
    }
  }

  /** A message object of the plan; lipSync adds `audio` and `lipsync` to it
      in place. */
  class Message {
    var text: string
    var facialExpression: string
    var animation: string
    var audio: Option<string>
    var lipsync: Option<LipsyncData>

    constructor (p: MessagePlan)
      ensures Plan() == p && audio == None && lipsync == None
    {
      text, facialExpression, animation := p.text, p.facialExpression, p.animation;
      audio, lipsync := None, None;
    }

    function Plan(): MessagePlan
      reads this
    {
      MessagePlan(text, facialExpression, animation)
    }

    /** The message as sent to the client, once both additions are present. */
    function Assembled(): Option<AssembledMessage>
      reads this
    {
      if audio.Some? && lipsync.Some? then Some(Assemble(Plan(), audio.value, lipsync.value)) else None
    }

    /** The try block of the per-message callback. `ok` is false where the
        callback returns null; the fields set before the throw stay set. */
    method Process(index: nat, o: Oracles) returns (ok: bool)
      modifies this
      ensures Plan() == old(Plan())
      ensures ok == ProcessMessage(index, old(Plan()), o).result.Some?
      ensures ok ==> Assembled() == ProcessMessage(index, old(Plan()), o).result
      ensures audio == (if o.synthesize(text, Mp3Name(index)) && o.readAudio(Mp3Name(index)).Some?
                        then o.readAudio(Mp3Name(index)) else old(audio))
      ensures lipsync == (if ok then o.readTranscript(JsonName(index)) else old(lipsync))
    {
      ok := false;
      var mp3 := Mp3Name(index);
      if !o.synthesize(text, mp3) {
        return;
      }
      // getPhonemes catches its own failures, so it cannot end the callback
      var base64 := o.readAudio(mp3);
      if base64.None? {
        return;
      }
      audio := base64;
      var transcript := o.readTranscript(JsonName(index));
      if transcript.None? {
        return;
      }
      lipsync := transcript;
      ok := true;
    }
  }

  function Plans(messages: seq<Message>): (ps: seq<MessagePlan>)
    reads set m | m in messages
    ensures |ps| == |messages|
  {
    seq(|messages|, i reads set m | m in messages requires 0 <= i < |messages| => messages[i].Plan())
  }

  /** Entries that are null in one sequence exactly when in the other keep
      the same positions after the nulls are dropped. */
  lemma {:induction false} SameNullsSameIndices<T, U>(xs: seq<Option<T>>, ys: seq<Option<U>>)
    requires |xs| == |ys|
    requires forall i :: 0 <= i < |xs| ==> (xs[i].Some? <==> ys[i].Some?)
    ensures SomeIndices(xs) == SomeIndices(ys)
  {
    if xs != [] {
      SameNullsSameIndices(xs[..|xs| - 1], ys[..|ys| - 1]);
    }
  }

  /** lipSync over message objects: each one is processed in place, the
      null results are dropped, and the surviving objects are returned. */
  method LipSyncInPlace(messages: seq<Message>, o: Oracles) returns (valid: seq<Message>)
    requires forall i, j :: 0 <= i < j < |messages| ==> messages[i] != messages[j]
    modifies set m | m in messages
    ensures Plans(messages) == old(Plans(messages))
    ensures |valid| == |LipSync(old(Plans(messages)), o)|
    ensures forall k :: 0 <= k < |valid| ==>
      && valid[k] == messages[SuccessIndices(old(Plans(messages)), o)[k]]
      && valid[k].Assembled() == Some(LipSync(old(Plans(messages)), o)[k])
  {
    ghost var plans := Plans(messages);
    ghost var expected := Processed(plans, o);
    var processed: seq<Option<Message>> := [];
    var i := 0;
    while i < |messages|
      invariant 0 <= i <= |messages| && |processed| == i
      invariant forall k :: 0 <= k < |messages| ==> messages[k].Plan() == plans[k]
      invariant forall k :: 0 <= k < i ==>
        && (processed[k].Some? <==> expected[k].Some?)
        && (processed[k].Some? ==> processed[k].value == messages[k] && messages[k].Assembled() == expected[k])
    {
      var ok := messages[i].Process(i, o);
      processed := processed + [if ok then Some(messages[i]) else None];
      i := i + 1;
    }
    valid := DropNulls(processed);
    SameNullsSameIndices(processed, expected);
  }
}
