/** The checks the chat route makes on the inbound body before any upstream
    call, and the outbound payload it builds. */
module Gate {
  import opened Wrappers
  import opened Json
  import opened Http

  const DefaultModel := "moonshotai/Kimi-K2-Instruct-0905"

  const NoDataReply := Reply(400, JObj(map["error" := JStr("No JSON data provided")]))
  const MissingMessagesReply := Reply(400, JObj(map["error" := JStr("Missing required field: messages")]))

  /** The inbound body as `request.get_json()` returned it: `None` when there
      was no JSON body. A falsy value is refused as "no data". A truthy value
      that is not a dict makes the `request_data.get(...)` of the request log
      raise, and the catch-all handler answers 500. A dict without
      `messages` is refused. Otherwise the payload is the body with `model`
      defaulted when absent and `stream` forced to false. */
  function CheckRequest(body: Option<Json>): (r: Result<map<string, Json>, Reply>)
    ensures r == Failure(NoDataReply) <==> body.None? || !Truthy(body.value)
    ensures r == Failure(InternalError) <==> body.Some? && Truthy(body.value) && !body.value.JObj?
    ensures r == Failure(MissingMessagesReply)
        <==> body.Some? && body.value.JObj? && Truthy(body.value) && "messages" !in body.value.fields
    ensures r.Success? <==> body.Some? && body.value.JObj? && "messages" in body.value.fields
    ensures r.Success? ==>
              var inbound := body.value.fields;
              && r.value.Keys == inbound.Keys + {"model", "stream"}
              && r.value["stream"] == JBool(false)
              && r.value["model"] == (if "model" in inbound then inbound["model"] else JStr(DefaultModel))
              && forall k :: k in inbound && k != "model" && k != "stream" ==> r.value[k] == inbound[k]
  {
    RefusalsDiffer();
    if body.None? || !Truthy(body.value) then Failure(NoDataReply)
    else if !body.value.JObj? then Failure(InternalError)
    else
      var inbound := body.value.fields;
      if "messages" !in inbound then Failure(MissingMessagesReply)
      else
        var withModel := if "model" in inbound then inbound else inbound["model" := JStr(DefaultModel)];
        Success(withModel["stream" := JBool(false)])
  }

  /** The two 400 refusals are told apart by their `error` text. */
  lemma RefusalsDiffer()
    ensures NoDataReply != MissingMessagesReply
  {
    var a := NoDataReply.body.fields["error"].s;
    var b := MissingMessagesReply.body.fields["error"].s;
    assert a[0] == 'N' && b[0] == 'M';
  }
}
