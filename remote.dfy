/** The two reply shapes the hosted language model endpoints give back.
    The network call itself is not modelled: a screen receives the reply
    as a value, and a failed call (connection error, a body that is not
    JSON) is one of the values. */
module Remote {
  import opened Wrappers
  import opened JsText

  /** The Gemini proxy: a JSON body with an optional `reply` string. */
  datatype ProxyReply = ProxyFailed | ProxyBody(reply: Option<string>)

  /** The candidates endpoint: `data.candidates[0].content.parts[0].text`.
      `NoCandidates` is a body without a `candidates` list; `NoContent` is
      a body whose first candidate, its content or its first part is
      missing. */
  datatype CandidatesReply =
    | CandidatesFailed
    | NoCandidates
    | NoContent
    | CandidateText(text: string)

  /** `(data.reply || "").trim()`: the call's failure propagates; an absent
      reply becomes the empty string. */
  function ReplyText(r: ProxyReply): (t: Result<string>)
    ensures t.Failed? <==> r.ProxyFailed?
    ensures t.Ok? ==> Trim(t.value) == t.value
    ensures t.Ok? ==> (t.value == "" <==> r.reply.None? || AllSpace(r.reply.value))
    ensures t.Ok? && r.reply.Some? ==> Contains(r.reply.value, t.value)
  {
    match r
    case ProxyFailed => Failed
    case ProxyBody(reply) =>
      var s := reply.GetOr("");
      TrimIdempotent(s);
      assert s == "" ==> AllSpace(s);
      Ok(Trim(s))
  }
}
