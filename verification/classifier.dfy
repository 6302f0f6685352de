/** How the chat route turns the response it settled on into its own reply. */
module Classifier {
  import opened Wrappers
  import opened Strings
  import opened Json
  import opened Http
  import opened Resolver

  /** Start of the `error` tag of a relayed upstream error. */
  const ErrorTagPrefix := "NanoGPT API error: "

  /** Length at which an upstream error text is cut before it is forwarded. */
  const ErrorTextLimit: nat := 200

  const AuthFailedReply := Reply(401, ErrorBody("Authentication failed", "Invalid or expired NanoGPT API key"))
  const RateLimitedReply := Reply(429, ErrorBody("Rate limit exceeded", "Too many requests to NanoGPT API"))
  const InvalidResponseReply := Reply(502, JObj(map["error" := JStr("Invalid response from NanoGPT API")]))

  /** The handler's result once a response has been settled on: a reply, or
      the exception raised by `response.json()` on a body that is not JSON.
      Which outer handler catches that exception depends on the HTTP
      library's exception hierarchy, so its reply is not modelled. */
  datatype Handled = Replied(reply: Reply) | BodyNotJson

  /** The shapes on which `choices[0].get('message', {}).get('content', '')`
      and its `len` do not raise: a non-empty list whose first element is an
      object, whose `message` is absent or an object, and whose `content` is
      absent or a str, list or object. */
  predicate ContentPathDefined(choices: Json) {
    && choices.JArr? && |choices.items| > 0
    && var first := choices.items[0];
       && first.JObj?
       && ("message" in first.fields ==> first.fields["message"].JObj?)
       && var message := if "message" in first.fields then first.fields["message"] else JObj(map[]);
          && ("content" in message.fields ==>
                var c := message.fields["content"]; c.JStr? || c.JArr? || c.JObj?)
  }

  /** The content a well-shaped first choice carries; `""` when absent. */
  function ContentOf(choices: Json): (c: Json)
    requires ContentPathDefined(choices)
  {
    var first := choices.items[0];
    var message := if "message" in first.fields then first.fields["message"] else JObj(map[]);
    if "content" in message.fields then message.fields["content"] else JStr("")
  }

  /** The length of the first choice's message content, computed only to be
      logged; `None` when computing it raises. The path is
      `choices[0].get('message', {}).get('content', '')`. */
  function FirstContentLength(choices: Json): (r: Option<nat>)
    ensures r.Some? ==> choices.JArr? && |choices.items| > 0 && choices.items[0].JObj?
    ensures r.Some? <==> ContentPathDefined(choices)
    ensures ContentPathDefined(choices) && ContentOf(choices).JStr? ==> r == Some(|ContentOf(choices).s|)
  {
    match PyFirst(choices)
    case None => None
    case Some(first) =>
      match PyGet(first, "message", JObj(map[]))
      case None => None
      case Some(message) =>
        match PyGet(message, "content", JStr(""))
        case None => None
        case Some(content) => PyLen(content)
  }

  /** A parsed 200 body that is a dict whose `choices` entry is present and
      non-empty. */
  predicate HasChoices(data: Json) {
    data.JObj? && "choices" in data.fields && Truthy(data.fields["choices"])
  }

  /** The 200 path once the body parsed as `data`: `'choices' not in data or
      not data['choices']` gives 502; otherwise the content length is taken
      for the log and `data` is returned unchanged. The `in`, the subscript
      and the length can each raise on an unexpected shape, and the
      catch-all handler then answers 500. */
  function ClassifyOk(data: Json): (r: Reply)
    ensures r.status == 200 || r == InvalidResponseReply || r == InternalError
    ensures r.status == 200 <==> HasChoices(data) && FirstContentLength(data.fields["choices"]).Some?
    ensures r.status == 200 ==> r.body == data
    ensures data.JObj? && !HasChoices(data) ==> r == InvalidResponseReply
    ensures r == InvalidResponseReply <==> PyIn("choices", data) == Some(false) || (data.JObj? && !HasChoices(data))
  {
    match PyIn("choices", data)
    case None => InternalError
    case Some(present) =>
      if !present then InvalidResponseReply
      else
        match PyIndexByKey(data, "choices")
        case None => InternalError
        case Some(choices) =>
          if !Truthy(choices) then InvalidResponseReply
          else if FirstContentLength(choices).None? then InternalError
          else Reply(200, data)
  }

  /** The reply for a status other than 200, 401 and 429: the upstream status
      itself, with the upstream text cut to its first 200 characters. */
  function UpstreamErrorReply(resp: Response): (r: Reply) {
    Reply(resp.status, ErrorBody(ErrorTagPrefix + NatToString(resp.status),
                                 Take(resp.text, ErrorTextLimit)))
  }

  /** The reply's `message` is the start of `text`: all of it up to 200
      characters, exactly 200 characters of it beyond that. */
  predicate CarriesCutText(reply: Reply, text: string) {
    && reply.body.JObj?
    && "message" in reply.body.fields
    && reply.body.fields["message"].JStr?
    && var msg := reply.body.fields["message"].s;
       && IsPrefix(msg, text)
       && |msg| == (if |text| <= ErrorTextLimit then |text| else ErrorTextLimit)
  }

  /** The classification of the settled response, checked in the order 200,
      401, 429, anything else. Every status other than 200 is relayed to the
      caller as-is; 200 becomes 200, 502 or 500. */
  function Classify(resp: Response): (h: Handled)
    ensures h.BodyNotJson? <==> resp.status == 200 && resp.json.None?
    ensures resp.status == 200 && resp.json.Some? ==> h == Replied(ClassifyOk(resp.json.value))
    ensures resp.status == 401 ==> h == Replied(AuthFailedReply)
    ensures resp.status == 429 ==> h == Replied(RateLimitedReply)
    ensures resp.status != 200 ==> h.Replied? && h.reply.status == resp.status
    ensures resp.status !in {200, 401, 429} ==> h.Replied? && CarriesCutText(h.reply, resp.text)
  {
    if resp.status == 200 then
      match resp.json
      case None => BodyNotJson
      case Some(data) => Replied(ClassifyOk(data))
    else if resp.status == 401 then Replied(AuthFailedReply)
    else if resp.status == 429 then Replied(RateLimitedReply)
    else Replied(UpstreamErrorReply(resp))
  }

  /** For a relayed upstream error, the `error` tag names the upstream
      status in decimal, and reading those digits back gives the status. */
  lemma ErrorTagCarriesStatus(resp: Response)
    requires resp.status !in {200, 401, 429}
    ensures Classify(resp).Replied?
    ensures var tag := ErrorTag(Classify(resp).reply);
      && IsPrefix(ErrorTagPrefix, tag)
      && |tag| > |ErrorTagPrefix|
      && (|tag| == |ErrorTagPrefix| + 1 || tag[|ErrorTagPrefix|] != '0')
      && (forall i :: |ErrorTagPrefix| <= i < |tag| ==> '0' <= tag[i] <= '9')
      && DigitsValue(tag[|ErrorTagPrefix|..]) == resp.status
  {
    var digits := NatToString(resp.status);
    var tag := ErrorTag(Classify(resp).reply);
    assert tag == ErrorTagPrefix + digits;
    assert tag[|ErrorTagPrefix|..] == digits;
    NatToStringRoundTrip(resp.status);
  }
}
