/** The chat-completion route end to end: gate, fallback loop over the
    candidate endpoints, exhaustion test, classification. */
module ChatHandler {
  import opened Wrappers
  import opened Json
  import opened Http
  import opened Endpoints
  import opened Resolver
  import opened Classifier
  import opened Gate
  import Strings

  const AllConfigurationsFailedReply := Reply(502, ErrorBody(
    "All NanoGPT API configurations failed",
    "Unable to find a working API endpoint. The NanoGPT service may be down or the API format has changed."))

  /** One run of the route: its result, the payload it forwarded (`None`
      when the gate refused the request) and the URLs it posted to, in order. */
  datatype ChatRun = ChatRun(outcome: Handled, outbound: Option<map<string, Json>>, contacted: seq<string>)

  /** The route for inbound body `body`, where `attempts[i]` is what posting
      the payload to candidate `i` yields. */
  function HandleChat(body: Option<Json>, attempts: seq<Attempt>): (run: ChatRun)
    requires |attempts| == |AlternativeBaseUrls|
    ensures run.outbound.None? <==> CheckRequest(body).Failure?
    ensures run.outbound.None? ==>
              && run.contacted == []
              && run.outcome == Replied(CheckRequest(body).error)
              && run.outcome.reply.status in {400, 500}
    ensures run.outbound.Some? ==> run.outbound.value == CheckRequest(body).value
    ensures |run.contacted| <= |AlternativeBaseUrls|
    ensures forall k :: 0 <= k < |run.contacted| ==> run.contacted[k] == CandidateUrl(k)
  {
    match CheckRequest(body)
    case Failure(reply) => ChatRun(Replied(reply), None, [])
    case Success(payload) =>
      var r := Resolve(attempts);
      var contacted := seq(|r.tried|, k requires 0 <= k < |r.tried| => CandidateUrl(r.tried[k]));
      if Exhausted(r.held) then ChatRun(Replied(AllConfigurationsFailedReply), Some(payload), contacted)
      else ChatRun(Classify(r.held.value), Some(payload), contacted)
  }

  /** No classified response is ever the "all configurations failed" reply,
      so that reply identifies exhaustion. */
  lemma ClassifyNeverExhaustion(resp: Response)
    ensures Classify(resp) != Replied(AllConfigurationsFailedReply)
  {
  }

  /** The route answers "all configurations failed" exactly when no candidate
      answered with a status other than 404 or 405, and then it has posted to
      all six candidates. */
  lemma ExhaustionIffNoUsableCandidate(body: Option<Json>, attempts: seq<Attempt>)
    requires |attempts| == |AlternativeBaseUrls|
    requires CheckRequest(body).Success?
    ensures HandleChat(body, attempts).outcome == Replied(AllConfigurationsFailedReply)
        <==> forall j :: 0 <= j < |attempts| ==> !Usable(attempts[j])
    ensures HandleChat(body, attempts).outcome == Replied(AllConfigurationsFailedReply)
        ==> |HandleChat(body, attempts).contacted| == |AlternativeBaseUrls|
  {
    var r := Resolve(attempts);
    ExhaustedIffNoUsable(attempts);
    if !Exhausted(r.held) {
      ClassifyNeverExhaustion(r.held.value);
    }
  }

  /** When every post raises, the route answers 502 "all configurations
      failed", not a timeout or connection error. */
  lemma TransportFailuresGive502(body: Option<Json>, attempts: seq<Attempt>)
    requires |attempts| == |AlternativeBaseUrls|
    requires CheckRequest(body).Success?
    requires forall j :: 0 <= j < |attempts| ==> attempts[j].TransportFailure?
    ensures HandleChat(body, attempts).outcome == Replied(AllConfigurationsFailedReply)
  {
    ExhaustionIffNoUsableCandidate(body, attempts);
  }

  /** After any number of candidates that raised or answered 404/405, the
      first candidate answering 200 with usable `choices` supplies the reply:
      its parsed body, unchanged, with status 200; the route has posted to
      exactly the candidates up to and including it. */
  lemma FirstGoodCandidateAnswers(body: Option<Json>, attempts: seq<Attempt>, k: nat, text: string, data: Json)
    requires |attempts| == |AlternativeBaseUrls|
    requires CheckRequest(body).Success?
    requires k < |attempts|
    requires forall j :: 0 <= j < k ==> !Usable(attempts[j])
    requires attempts[k] == Received(Response(200, text, Some(data)))
    requires HasChoices(data) && FirstContentLength(data.fields["choices"]).Some?
    ensures HandleChat(body, attempts).outcome == Replied(Reply(200, data))
    ensures |HandleChat(body, attempts).contacted| == k + 1
  {
    FirstUsableWins(attempts, k);
  }

  /** For an accepted request, the route's result is the classification of
      the first usable candidate's response, whatever its status: the 200
      pass-through, 502 or 500 of the 200 path, the unparsed-body outcome,
      the fixed 401 and 429 replies, or the relayed upstream error. */
  lemma FirstUsableClassified(body: Option<Json>, attempts: seq<Attempt>, k: nat)
    requires |attempts| == |AlternativeBaseUrls|
    requires CheckRequest(body).Success?
    requires k < |attempts| && Usable(attempts[k])
    requires forall j :: 0 <= j < k ==> !Usable(attempts[j])
    ensures HandleChat(body, attempts).outcome == Classify(attempts[k].response)
    ensures |HandleChat(body, attempts).contacted| == k + 1
  {
    FirstUsableWins(attempts, k);
  }

  /** Whatever status other than 200, 404 and 405 the first usable candidate
      answers with is the status the caller gets: 401 and 429 with their
      fixed replies, any other with the `NanoGPT API error` tag and the
      upstream text cut to 200 characters. */
  lemma UpstreamStatusRelayed(body: Option<Json>, attempts: seq<Attempt>, k: nat)
    requires |attempts| == |AlternativeBaseUrls|
    requires CheckRequest(body).Success?
    requires k < |attempts| && Usable(attempts[k]) && attempts[k].response.status != 200
    requires forall j :: 0 <= j < k ==> !Usable(attempts[j])
    ensures HandleChat(body, attempts).outcome.Replied?
    ensures HandleChat(body, attempts).outcome.reply.status == attempts[k].response.status
    ensures attempts[k].response.status == 401 ==> HandleChat(body, attempts).outcome.reply == AuthFailedReply
    ensures attempts[k].response.status == 429 ==> HandleChat(body, attempts).outcome.reply == RateLimitedReply
    ensures attempts[k].response.status !in {401, 429} ==>
              && ErrorTag(HandleChat(body, attempts).outcome.reply)
                   == ErrorTagPrefix + Strings.NatToString(attempts[k].response.status)
              && CarriesCutText(HandleChat(body, attempts).outcome.reply, attempts[k].response.text)
  {
    FirstUsableWins(attempts, k);
  }
}
