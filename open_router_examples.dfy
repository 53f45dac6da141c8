/** The relay and the prober on particular answers from the endpoint. */
module OpenRouterExamples {
  import opened Wrappers
  import opened Json
  import opened OpenRouter

  /** The usual answer shape yields its content as the reply. */
  lemma HiThereReply(status: int)
    ensures ClassifyReply(Answered(status, Parsed(JObject(map["choices" :=
              JArray([JObject(map["message" := JObject(map["content" := JString("Hi there")])])])]))))
            == Reply(Of(JString("Hi there")))
  {
  }

  /** An empty object carries no choices. */
  lemma EmptyObjectNoResponse(status: int)
    ensures ClassifyReply(Answered(status, Parsed(JObject(map[])))) == Failure(NoResponse)
  {
  }

  /** A body JSON.parse rejects. */
  lemma NotJsonFails(status: int)
    ensures ClassifyReply(Answered(status, Unparseable)) == Failure(ParseFailure)
  {
  }

  /** An error object from the endpoint is a usable probe answer when it
      comes with status 200: the probe does not look inside the body. */
  lemma ErrorBodyProbesUsable(key: string, model: string, net: Network)
    requires key != "" && key != Placeholder
    requires net(ProbeRequest(model, key)) == Answered(200, Parsed(JObject(map["error" := JString("quota")])))
    ensures Works(Some(key), model, net)
  {
  }

  /** The same error object, relayed, is "No response from AI". */
  lemma ErrorBodyRelayed(status: int)
    ensures ClassifyReply(Answered(status, Parsed(JObject(map["error" := JString("quota")]))))
            == Failure(NoResponse)
  {
  }
}
