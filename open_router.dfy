/** The exchanges with the chat-completion endpoint: the one-token probe
    that decides whether a model is usable, the first-match search over the
    candidate models, and the relay of a user message with the
    classification of its answer. The network is an oracle from the request
    sent to what came back. */
module OpenRouter {
  import opened Wrappers
  import opened Json

  /** The models probed at start-up, most preferred first. */
  const Candidates: seq<string> := [
    "deepseek/deepseek-r1", "google/gemini-flash-1.5", "qwen/qwen-2.5-7b-instruct:free",
    "meta-llama/llama-3.2-3b-instruct:free", "microsoft/phi-3-mini-128k-instruct:free"
  ]

  /** The model the relay uses when none has been selected. */
  const DefaultModel: string := "deepseek/deepseek-r1"

  /** The environment variable holding the credential, and the value the
      sample configuration leaves in it. */
  const KeyName: string := "OPENROUTER_API_KEY"
  const Placeholder: string := "your_api_key_here"

  const ProbeContent: string := "Hi"
  const ProbeMaxTokens: nat := 5
  const RelayMaxTokens: nat := 1000

  const NoApiKey: string := "No API key"
  const TimeoutError: string := "timeout"
  const NoWorkingModels: string := "No working models found"
  const NoResponse: string := "No response from AI"
  const ParseFailure: string := "Failed to parse response"

  /** The parts of a chat-completion POST that vary: the model, the
      Authorization header, the one user message and the token cap. Host,
      path, the other headers and the relay's fixed temperature are constant. */
  datatype Request = Request(model: string, authorization: string, content: string, maxTokens: nat)

  /** What one request comes to: a complete response with its status code and
      collected body, a transport error with its message, or a connection that
      goes idle past the probe's 5000 ms socket timeout and never completes. */
  datatype Exchange = Answered(status: int, body: Body) | Failed(message: string) | Stalled

  /** The endpoint, as the agent sees it. */
  type Network = Request -> Exchange

  datatype ProbeResult = Usable | Unusable(error: Option<string>)

  /** One probe: its result, and the request it sent, if it sent one. */
  datatype Probe = Probe(result: ProbeResult, sent: Option<Request>)

  /** The prober's answer. */
  datatype Connection = Connected(model: string) | NotConnected(error: string)

  /** The relay's answer: the reply's content as JavaScript read it (possibly
      undefined or not a string), an error message, or no answer at all. */
  datatype RelayOutcome = Reply(content: Value) | Failure(error: string) | Pending

  /** process.env.OPENROUTER_API_KEY. */
  function ApiKey(env: map<string, string>): Option<string> {
    if KeyName in env then Some(env[KeyName]) else None
  }

  /** The probe refuses a credential that is missing, empty or the placeholder. */
  predicate UsableKey(key: Option<string>) {
    key.Some? && key.value != "" && key.value != Placeholder
  }

  /** The Authorization header; an absent key is interpolated as "undefined". */
  function Bearer(key: Option<string>): string {
    "Bearer " + (if key.Some? then key.value else "undefined")
  }

  function ProbeRequest(model: string, key: string): Request {
    Request(model, Bearer(Some(key)), ProbeContent, ProbeMaxTokens)
  }

  /** How a probe classifies what came back: usable exactly on status 200
      with a body JSON.parse accepts, whatever that body holds. */
  function ClassifyProbe(x: Exchange): (r: ProbeResult)
    ensures r.Usable? <==> x.Answered? && x.status == 200 && x.body.Parsed?
    ensures x.Stalled? ==> r == Unusable(Some(TimeoutError))
    ensures x.Answered? || x.Failed? ==> r.Usable? || r.error.None?
  {
    match x
    case Answered(status, body) => if status == 200 && body.Parsed? then Usable else Unusable(None)
    case Failed(_) => Unusable(None)
    case Stalled => Unusable(Some(TimeoutError))
  }

  /** tryModel: without a usable key, fail with "No API key" and send
      nothing; otherwise send the probe request and classify the outcome. */
  function TryModel(key: Option<string>, model: string, net: Network): (r: Probe)
    ensures r.sent.None? <==> !UsableKey(key)
    ensures !UsableKey(key) ==> r.result == Unusable(Some(NoApiKey))
    ensures UsableKey(key) ==> r.sent == Some(ProbeRequest(model, key.value))
    ensures r.result.Usable? <==>
              UsableKey(key) && net(ProbeRequest(model, key.value)).Answered?
              && net(ProbeRequest(model, key.value)).status == 200
              && net(ProbeRequest(model, key.value)).body.Parsed?
  {
    if !UsableKey(key) then Probe(Unusable(Some(NoApiKey)), None)
    else
      var request := ProbeRequest(model, key.value);
      Probe(ClassifyProbe(net(request)), Some(request))
  }

  predicate Works(key: Option<string>, model: string, net: Network) {
    TryModel(key, model, net).result.Usable?
  }

  /** The index of the first model whose probe succeeds. */
  function FirstUsable(key: Option<string>, models: seq<string>, net: Network): (r: Option<nat>)
    ensures r.Some? ==>
              r.value < |models| && Works(key, models[r.value], net)
              && forall j :: 0 <= j < r.value ==> !Works(key, models[j], net)
    ensures r.None? ==> forall j :: 0 <= j < |models| ==> !Works(key, models[j], net)
  {
    if models == [] then None
    else if Works(key, models[0], net) then Some(0)
    else match FirstUsable(key, models[1..], net)
      case None => None
      case Some(i) => Some(i + 1)
  }

  /** The requests that probing the models in order sends. */
  function ProbesSent(key: Option<string>, models: seq<string>, net: Network): (r: seq<Request>)
  {
    if models == [] then []
    else
      var last := TryModel(key, models[|models| - 1], net).sent;
      ProbesSent(key, models[..|models| - 1], net) + (if last.Some? then [last.value] else [])
  }

  /** With a usable key every probed model costs one request, in order; without
      one, probing sends nothing at all. */
  lemma {:induction false} ProbesSentShape(key: Option<string>, models: seq<string>, net: Network)
    ensures !UsableKey(key) ==> ProbesSent(key, models, net) == []
    ensures UsableKey(key) ==>
              |ProbesSent(key, models, net)| == |models|
              && forall i :: 0 <= i < |models| ==> ProbesSent(key, models, net)[i] == ProbeRequest(models[i], key.value)
  {
    if models != [] {
      var init := models[..|models| - 1];
      ProbesSentShape(key, init, net);
      assert forall i :: 0 <= i < |init| ==> init[i] == models[i];
    }
  }

  /** Without a usable key no model works. */
  lemma NoKeyNoModel(key: Option<string>, models: seq<string>, net: Network)
    requires !UsableKey(key)
    ensures FirstUsable(key, models, net) == None
  {
  }

  /** The relay's model: the selected one when it is set and non-empty (the
      || of JavaScript), otherwise the default. */
  function ChosenModel(selected: Option<string>): (r: string)
    ensures r != ""
    ensures selected.Some? && selected.value != "" ==> r == selected.value
    ensures selected.None? || selected.value == "" ==> r == DefaultModel
  {
    if selected.Some? && selected.value != "" then selected.value else DefaultModel
  }

  function RelayRequest(model: string, key: Option<string>, message: string): Request {
    Request(model, Bearer(key), message, RelayMaxTokens)
  }

  /** The relay's reading of a parsed body, in the order JavaScript evaluates
      response.choices && response.choices[0] and then
      response.choices[0].message.content; every TypeError on the way is
      caught and reported like a body JSON.parse rejects. */
  function ClassifyParsed(response: Value): RelayOutcome {
    match Property(response, Choices)
    case None => Failure(ParseFailure)
    case Some(choices) =>
      if !Truthy(choices) then Failure(NoResponse)
      else match Element0(choices)
        case None => Failure(ParseFailure)
        case Some(first) =>
          if !Truthy(first) then Failure(NoResponse)
          else match Property(first, Message)
            case None => Failure(ParseFailure)
            case Some(message) =>
              match Property(message, Content)
              case None => Failure(ParseFailure)
              case Some(content) => Reply(content)
  }

  /** How the relay turns what came back into its answer. The status code is
      not looked at; a transport error yields its own message; with no
      timeout set, a stalled connection leaves the call unsettled. */
  function ClassifyReply(x: Exchange): (r: RelayOutcome)
    ensures x.Failed? ==> r == Failure(x.message)
    ensures x.Stalled? <==> r.Pending?
    ensures x.Answered? && x.body.Unparseable? ==> r == Failure(ParseFailure)
  {
    match x
    case Failed(message) => Failure(message)
    case Stalled => Pending
    case Answered(_, Unparseable) => Failure(ParseFailure)
    case Answered(_, Parsed(json)) => ClassifyParsed(Of(json))
  }

  /** The first element of a choices value on which a reply can be read:
      element 0 of an array, or the key "0" of an object. */
  function FirstChoice(choices: Json): Option<Json> {
    if choices.JArray? && |choices.items| > 0 then Some(choices.items[0])
    else if choices.JObject? && "0" in choices.fields then Some(choices.fields["0"])
    else None
  }

  /** The shape of a body the relay takes a reply from: an object whose
      "choices" holds, as its first element, an object with a non-null
      "message". */
  predicate ReplyShaped(j: Json) {
    && j.JObject? && "choices" in j.fields
    && var first := FirstChoice(j.fields["choices"]);
    && first.Some? && first.value.JObject? && "message" in first.value.fields
    && first.value.fields["message"] != JNull
  }

  /** What such a body's message holds under "content", verbatim; undefined
      when the message is not an object or has no such key. */
  function ReplyContent(j: Json): Value
    requires ReplyShaped(j)
  {
    var message := FirstChoice(j.fields["choices"]).value.fields["message"];
    if message.JObject? && "content" in message.fields then Of(message.fields["content"]) else Undefined
  }

  /** A parsed body yields a reply exactly when it has the reply shape, and
      the reply is the message's content as it stands. */
  lemma ReplyIffShaped(j: Json)
    ensures ClassifyParsed(Of(j)).Reply? <==> ReplyShaped(j)
    ensures ReplyShaped(j) ==> ClassifyParsed(Of(j)) == Reply(ReplyContent(j))
  {
  }

  /** "No response from AI" is the answer exactly for a body other than null
      whose choices (undefined for a non-object body) are falsy, or whose
      choices' element 0 is falsy. */
  lemma NoResponseCases(j: Json)
    ensures ClassifyParsed(Of(j)) == Failure(NoResponse) <==>
              j != JNull
              && var c := Property(Of(j), Choices).value;
                 (!Truthy(c) || !Truthy(Element0(c).value))
  {
  }

  /** "Failed to parse response" is the answer for a parsed body exactly when
      one of the reads throws inside the try: the body null, or a truthy first
      choice that does not have the reply shape (no message, a null one, or
      one that is not an object at all). */
  lemma ParseFailureCases(j: Json)
    ensures ClassifyParsed(Of(j)) == Failure(ParseFailure) <==>
              j == JNull
              || (var c := Property(Of(j), Choices).value;
                  Truthy(c) && Truthy(Element0(c).value) && !ReplyShaped(j))
  {
    ReplyIffShaped(j);
  }

  /** The relay does not look at the status code. */
  lemma RelayIgnoresStatus(s1: int, s2: int, body: Body)
    ensures ClassifyReply(Answered(s1, body)) == ClassifyReply(Answered(s2, body))
  {
  }

  /** When probing finds nothing, the relay falls back to a model that has
      already failed its probe: the default is the first candidate. */
  lemma FallbackAlreadyFailed(key: Option<string>, net: Network)
    requires FirstUsable(key, Candidates, net) == None
    ensures !Works(key, ChosenModel(None), net)
  {
    assert ChosenModel(None) == Candidates[0];
  }
}
