/** The agent process: the state its start-up and its message handler
    change in place, process.env and global.selectedModel, and the
    operations that read and write them. */
module Agent {
  import opened Wrappers
  import opened JsText
  import opened EnvFile
  import opened Json
  import opened OpenRouter

  class AgentProcess {
    /** process.env */
    var env: map<string, string>
    /** global.selectedModel; None while it is undefined */
    var selectedModel: Option<string>

    constructor (initialEnv: map<string, string>)
      ensures env == initialEnv && selectedModel == None
    {
      env := initialEnv;
      selectedModel := None;
    }

    /** loadEnv: try the three candidate paths in order, and merge the lines
        of the first one that exists into the environment, one line at a time;
        report the path loaded, or None when none exists. */
    method LoadEnv(files: map<string, string>, cwd: string, home: string) returns (loaded: Option<string>)
      modifies this
      ensures selectedModel == old(selectedModel)
      ensures loaded == match FirstExisting(EnvPaths(cwd, home), files)
                        case None => None
                        case Some(i) => Some(EnvPaths(cwd, home)[i])
      ensures env == EnvAfterLoad(old(env), files, EnvPaths(cwd, home))
    {
      var envPaths := EnvPaths(cwd, home);
      for k := 0 to |envPaths|
        invariant forall j :: 0 <= j < k ==> envPaths[j] !in files
        invariant env == old(env) && selectedModel == old(selectedModel)
      {
        var envPath := envPaths[k];
        if envPath in files {
          EnvAfterLoadAt(env, files, envPaths, k);
          MergeLines(Split(files[envPath], '\n'));
          loaded := Some(envPath);
          return;
        }
      }
      EnvAfterLoadNone(env, files, envPaths);
      loaded := None;
    }

    /** The forEach over one file's lines: each line that assigns overrides
        its name in the environment, first line to last. */
    method MergeLines(lines: seq<string>)
      modifies this
      ensures env == ApplyEntries(old(env), ParseLines(lines))
      ensures selectedModel == old(selectedModel)
    {
      for n := 0 to |lines|
        invariant env == ApplyEntries(old(env), ParseLines(lines[..n]))
        invariant selectedModel == old(selectedModel)
      {
        var entry := ParseLine(lines[n]);
        ParseLinesSnoc(lines, n);
        ApplyEntriesSnoc(old(env), ParseLines(lines[..n]), entry);
        if entry.Some? {
          env := env[entry.value.key := entry.value.value];
        }
      }
      assert lines[..|lines|] == lines;
    }

    /** testOpenRouterConnection: probe the candidates in order, stop at the
        first usable one and select it. Also returns the candidates probed
        and the requests sent, in order. */
    method TestConnection(net: Network) returns (result: Connection, probed: seq<string>, sent: seq<Request>)
      modifies this
      ensures env == old(env)
      ensures match FirstUsable(ApiKey(env), Candidates, net)
              case Some(i) =>
                result == Connected(Candidates[i]) && selectedModel == Some(Candidates[i])
                && probed == Candidates[..i + 1]
              case None =>
                result == NotConnected(NoWorkingModels) && selectedModel == old(selectedModel)
                && probed == Candidates
      ensures sent == ProbesSent(ApiKey(env), probed, net)
    {
      probed, sent := [], [];
      for k := 0 to |Candidates|
        invariant probed == Candidates[..k]
        invariant sent == ProbesSent(ApiKey(env), probed, net)
        invariant forall j :: 0 <= j < k ==> !Works(ApiKey(env), Candidates[j], net)
        invariant env == old(env) && selectedModel == old(selectedModel)
      {
        var model := Candidates[k];
        var probe := TryModel(ApiKey(env), model, net);
        assert (probed + [model])[..k] == probed;
        probed := probed + [model];
        if probe.sent.Some? {
          sent := sent + [probe.sent.value];
        }
        if probe.result.Usable? {
          selectedModel := Some(model);
          result := Connected(model);
          return;
        }
      }
      assert Candidates[..|Candidates|] == Candidates;
      result := NotConnected(NoWorkingModels);
    }

    /** sendMessageToOpenRouter: send the message to the selected model, or to
        the default one, and classify what comes back. Returns the request
        sent beside the answer. */
    method SendMessage(message: string, net: Network) returns (outcome: RelayOutcome, sent: Request)
      ensures sent.model == ChosenModel(selectedModel) && sent.content == message
      ensures sent.authorization == Bearer(ApiKey(env)) && sent.maxTokens == RelayMaxTokens
      ensures outcome == ClassifyReply(net(sent))
    {
      var model := ChosenModel(selectedModel);
      sent := RelayRequest(model, ApiKey(env), message);
      outcome := ClassifyReply(net(sent));
    }

    /** The submit handler: a line that is blank once trimmed is dropped
        without a request; any other line is relayed as typed. */
    method Submit(text: string, net: Network) returns (outcome: Option<RelayOutcome>)
      ensures outcome.None? <==> AllSpace(text)
      ensures outcome.Some? ==>
                outcome.value == ClassifyReply(net(RelayRequest(ChosenModel(selectedModel), ApiKey(env), text)))
    {
      TrimEmptyIffSpace(text);
      if Trim(text) == "" {
        return None;
      }
      var reply, sent := SendMessage(text, net);
      outcome := Some(reply);
    }

    /** initialize: load the configuration, then probe the candidates with
        whatever key it provided. */
    method Initialize(files: map<string, string>, cwd: string, home: string, net: Network)
      returns (loaded: Option<string>, connection: Connection)
      modifies this
      ensures loaded == match FirstExisting(EnvPaths(cwd, home), files)
                        case None => None
                        case Some(i) => Some(EnvPaths(cwd, home)[i])
      ensures env == EnvAfterLoad(old(env), files, EnvPaths(cwd, home))
      ensures match FirstUsable(ApiKey(env), Candidates, net)
              case Some(i) => connection == Connected(Candidates[i]) && selectedModel == Some(Candidates[i])
              case None => connection == NotConnected(NoWorkingModels) && selectedModel == old(selectedModel)
    {
      loaded := LoadEnv(files, cwd, home);
      var probed, sent;
      connection, probed, sent := TestConnection(net);
    }
  }
}
