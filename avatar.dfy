/** The per-frame decisions of apps/frontend/src/components/Avatar.jsx:
    which mouth cue is current, which viseme is driven toward 1 and which
    toward 0, which value each expression morph target is driven toward,
    and which animation plays. Targets are modelled; the interpolation
    toward them is not. */
module Avatar {
  import opened Wrappers
  import opened Messages

  const BlinkLeft: string := "eyeBlinkLeft"
  const BlinkRight: string := "eyeBlinkRight"
  const Idle: string := "Idle"

  /** `start <= t && t <= end`: both ends of a cue belong to it. */
  predicate Covers(c: MouthCue, t: real) {
    c.start <= t <= c.end
  }

  /** `visemesMapping[value]` when it names a morph target (a truthy value). */
  function VisemeOf(visemes: map<string, string>, value: string): Option<string> {
    if value in visemes && visemes[value] != "" then Some(visemes[value]) else None
  }

  /** `mapping?.[key] || 0`: the expression's value for a morph target, or
      0 when the expression or the key is missing. */
  function ExpressionValue(expressions: map<string, map<string, real>>, facialExpression: string, key: string): real {
    if facialExpression in expressions && key in expressions[facialExpression]
    then expressions[facialExpression][key]
    else 0.0
  }

  /** What one frame's lip-sync pass decides: the cue the loop stopped at,
      the visemes pushed to `appliedMorphTargets` (driven toward 1) and the
      mapped visemes driven toward 0. */
  datatype LipsyncTargets = LipsyncTargets(cue: Option<nat>, applied: seq<string>, resets: set<string>)

  /** The cue is the first one covering `t`; at most its viseme is applied;
      every other mapped viseme is reset. */
  ghost predicate IsLipsyncTargets(r: LipsyncTargets, cues: seq<MouthCue>, t: real, visemes: map<string, string>) {
    && (r.cue.Some? ==> r.cue.value < |cues| && Covers(cues[r.cue.value], t))
    && (r.cue.Some? ==> forall j :: 0 <= j < r.cue.value ==> !Covers(cues[j], t))
    && (r.cue.None? ==> forall j :: 0 <= j < |cues| ==> !Covers(cues[j], t))
    && r.applied == (if r.cue.Some? && VisemeOf(visemes, cues[r.cue.value].value).Some?
                     then [VisemeOf(visemes, cues[r.cue.value].value).value] else [])
    && r.resets == set v | v in visemes.Values && v !in r.applied
  }

  /** The lip-sync block of the frame loop: the search over `mouthCues`
      that breaks at the first covering cue whether or not its value maps to
      a viseme, then the reset of every mapped viseme not applied. */
  method LipsyncFrame(cues: seq<MouthCue>, t: real, visemes: map<string, string>) returns (r: LipsyncTargets)
    ensures IsLipsyncTargets(r, cues, t, visemes)
    ensures |r.applied| <= 1
    ensures forall v :: v in r.applied ==> v in visemes.Values && v !in r.resets
  {
    var applied: seq<string> := [];
    var cue: Option<nat> := None;
    var i := 0;
    while i < |cues|
      invariant 0 <= i <= |cues|
      invariant forall j :: 0 <= j < i ==> !Covers(cues[j], t)
      invariant cue == None && applied == []
    {
      if Covers(cues[i], t) {
        var viseme := VisemeOf(visemes, cues[i].value);
        if viseme.Some? {
          applied := applied + [viseme.value];
        }
        cue := Some(i);
        break;
      }
      i := i + 1;
    }
    var resets := set v | v in visemes.Values && v !in applied;
    r := LipsyncTargets(cue, applied, resets);
  }

  /** Every morph target of the list except the two blink keys is driven to
      the expression's value; the blink keys are driven to 1 while blinking
      and to 0 otherwise. */
  ghost predicate IsExpressionTargets(targets: map<string, real>, morphTargets: seq<string>,
                                      expressions: map<string, map<string, real>>, facialExpression: string, blink: bool)
  {
    && (forall k :: k in targets <==> k in morphTargets || k == BlinkLeft || k == BlinkRight)
    && (forall k :: k in targets && k != BlinkLeft && k != BlinkRight ==>
          targets[k] == ExpressionValue(expressions, facialExpression, k))
    && targets[BlinkLeft] == targets[BlinkRight] == (if blink then 1.0 else 0.0)
  }

  /** The expression block of the frame loop: the `forEach` over the morph
      target list, then the two blink keys. */
  method ExpressionTargets(morphTargets: seq<string>, expressions: map<string, map<string, real>>,
                           facialExpression: string, blink: bool) returns (targets: map<string, real>)
    ensures IsExpressionTargets(targets, morphTargets, expressions, facialExpression, blink)
  {
    targets := map[];
    var i := 0;
    while i < |morphTargets|
      invariant 0 <= i <= |morphTargets|
      invariant forall k :: k in targets <==> k in morphTargets[..i] && k != BlinkLeft && k != BlinkRight
      invariant forall k :: k in targets ==> targets[k] == ExpressionValue(expressions, facialExpression, k)
    {
      var key := morphTargets[i];
      if key != BlinkLeft && key != BlinkRight {
        targets := targets[key := ExpressionValue(expressions, facialExpression, key)];
      }
      assert morphTargets[..i + 1] == morphTargets[..i] + [key];
      i := i + 1;
    }
    assert morphTargets[..i] == morphTargets;
    var eyes := if blink then 1.0 else 0.0;
    targets := targets[BlinkLeft := eyes][BlinkRight := eyes];
  }

  /** The first animation: "Idle" when such a clip exists, else the first
      clip's name. */
  function InitialAnimation(clips: seq<string>): (name: string)
    requires |clips| > 0
    ensures name == Idle <==> Idle in clips
    ensures Idle !in clips ==> name == clips[0]
    ensures name in clips
  {
    if Idle in clips then Idle else clips[0]
  }

  /** What one frame drives: expression targets (none in setup mode) and,
      when a message is playing with its lip-sync data and audio, the
      lip-sync targets. */
  datatype FrameTargets = FrameTargets(expression: map<string, real>, lipsync: Option<LipsyncTargets>)

  /** The component's state that the message effect sets and the frame
      loop reads. */
  class Avatar {
    var animation: string
    var facialExpression: string
    var lipsync: Option<LipsyncData>
    /** The `src` of the current audio element. */
    var audio: Option<string>
    var blink: bool
    var setupMode: bool

    constructor (clips: seq<string>)
      requires |clips| > 0
      ensures animation == InitialAnimation(clips) && facialExpression == ""
      ensures lipsync == None && audio == None && !blink && !setupMode
    {
      animation := InitialAnimation(clips);
      facialExpression := "";
      lipsync, audio := None, None;
      blink, setupMode := false, false;
    }

    /** The effect on a new current message: no message sets "Idle" and
        keeps the rest; a message supplies animation, expression, lip-sync
        data and the audio to play. */
    method OnMessage(message: Option<AssembledMessage>)
      modifies this`animation, this`facialExpression, this`lipsync, this`audio
      ensures message.None? ==> animation == Idle && facialExpression == old(facialExpression)
      ensures message.None? ==> lipsync == old(lipsync) && audio == old(audio)
      ensures message.Some? ==> animation == message.value.animation && facialExpression == message.value.facialExpression
      ensures message.Some? ==> lipsync == Some(message.value.lipsync)
      ensures message.Some? ==> audio == Some("data:audio/mp3;base64," + message.value.audio)
    {
      if message.None? {
        animation := Idle;
        return;
      }
      var m := message.value;
      animation := m.animation;
      facialExpression := m.facialExpression;
      lipsync := Some(m.lipsync);
      audio := Some("data:audio/mp3;base64," + m.audio);
    }

    /** One call of the frame loop at audio time `t`. */
    method Frame(message: Option<AssembledMessage>, t: real, morphTargets: seq<string>,
                 expressions: map<string, map<string, real>>, visemes: map<string, string>)
      returns (f: FrameTargets)
      ensures setupMode ==> f.expression == map[]
      ensures !setupMode ==> IsExpressionTargets(f.expression, morphTargets, expressions, facialExpression, blink)
      ensures f.lipsync.Some? <==> message.Some? && lipsync.Some? && audio.Some?
      ensures f.lipsync.Some? ==> IsLipsyncTargets(f.lipsync.value, lipsync.value.mouthCues, t, visemes)
    {
      var expression: map<string, real> := map[];
      if !setupMode {
        expression := ExpressionTargets(morphTargets, expressions, facialExpression, blink);
      }
      var lips: Option<LipsyncTargets> := None;
      if message.Some? && lipsync.Some? && audio.Some? {
        var targets := LipsyncFrame(lipsync.value.mouthCues, t, visemes);
        lips := Some(targets);
      }
      f := FrameTargets(expression, lips);
    }
  }
}
