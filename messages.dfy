/** The records that travel between the planner, the speech pipeline and the
    client (apps/backend/modules/openAI.mjs and apps/backend/modules/lip-sync.mjs). */
module Messages {

  /** One planned utterance as the structured-output schema describes it.
      Both tags are free strings: the schema does not enforce the lists of
      expressions and animations that its descriptions mention. */
  datatype MessagePlan = MessagePlan(text: string, facialExpression: string, animation: string)

  /** A timed mouth shape produced by the phoneme extractor; times are seconds. */
  datatype MouthCue = MouthCue(value: string, start: real, end: real)

  /** The `{mouthCues: [...]}` document read back from the transcript file. */
  datatype LipsyncData = LipsyncData(mouthCues: seq<MouthCue>)

  /** A plan that has gained `audio` (base64 text) and `lipsync`. */
  datatype AssembledMessage = AssembledMessage(
    text: string,
    facialExpression: string,
    animation: string,
    audio: string,
    lipsync: LipsyncData)
  {
    /** The plan this message was assembled from. */
    function Plan(): MessagePlan {
      MessagePlan(text, facialExpression, animation)
    }
  }

  /** Attaches audio and lip-sync data to a plan, keeping its three fields. */
  function Assemble(p: MessagePlan, audio: string, lipsync: LipsyncData): (m: AssembledMessage)
    ensures m.Plan() == p && m.audio == audio && m.lipsync == lipsync
  {
    AssembledMessage(p.text, p.facialExpression, p.animation, audio, lipsync)
  }
}
