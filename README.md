# Replit Agent core, modelled in Dafny

The Replit Agent is a terminal chat client for the OpenRouter chat-completion
service. Its core logic lives in `bin/replit-agent.js`:

- `loadEnv` reads the first configuration file that exists among `./.env`,
  `~/.replit-agent.env` and `~/.env`. It merges that file's `KEY=VALUE` lines
  into `process.env`.
- `testOpenRouterConnection` probes five candidate models in a fixed order,
  through `tryModel`. Each probe is a one-turn "Hi" request capped at 5 tokens.
  The first model that answers with status 200 and a body `JSON.parse`
  accepts becomes `global.selectedModel`.
- `sendMessageToOpenRouter` relays a user message to the selected model, or
  to `deepseek/deepseek-r1`. It classifies the answer as a reply, "No
  response from AI", "Failed to parse response", or the transport's error
  message.
- The submit handler relays a typed line unless it is blank once trimmed.
  `initialize` runs the loader and then the prober.

The model has these modules:

- `JsText` models the JavaScript built-ins the loader calls:
  - `String.prototype.trim`, with the ECMAScript white-space and
    line-terminator set;
  - `startsWith`;
  - `split` with a one-character separator;
  - `Array.prototype.join`.

  It also defines `FirstIndex`, the first-occurrence search that `Split` is
  built on.

  Each comes with the lemmas that characterise it: `Trim` drops exactly the
  surrounding white space, and `Split` and `Join` are inverse to each other.
- `EnvFile` models the line parser, the left-to-right merge into the
  environment, the three candidate paths and the first-existing-file choice.
- `Json` models the values `JSON.parse` returns, with JavaScript truthiness
  and the property reads `x.choices`, `x[0]`, `x.message` and `x.content`.
  A read of `undefined` or `null` throws a TypeError.
- `OpenRouter` models the probe, the first-match search and the relay's
  classification of what came back.
- `Agent` holds the class `AgentProcess`. Its two fields, `env` (standing for
  `process.env`) and `selectedModel` (standing for `global.selectedModel`),
  are updated in place by the loader's loops and the prober's loop. Its
  methods are proved against the functions of the modules above.

The network is a parameter: a function from the request sent to what came
back. What came back is a complete answer (status code and body), a
transport error with its message, or a connection that never completes. The
file system is a map from the existing paths to their contents.

A few behaviours of the code are easy to misread; the model follows the code
as written:

- The relay sets no timeout. A connection that never completes leaves the
  relay's promise unsettled, so `ClassifyReply` gives `Pending`. Only the
  probe times out.
- The relay never looks at the status code. Any body with the right shape is
  a reply, even under an error status.
- Some bodies `JSON.parse` accepts still give "Failed to parse response".
  This happens when reading them throws inside the same `try`: the body
  `null`, and a first choice with no `message` or with a null one. A first
  choice whose `message` has no `content` gives a reply whose content is
  `undefined`.
- The probe treats any parsable body under status 200 as success, even an
  error object. The model keeps that behaviour (`ErrorBodyProbesUsable`).
- A line whose part before the first `=` is non-empty but blank (such as
  `" =v"`) passes the loader's `if (key ...)` test. It assigns the empty
  name.

## Model

| member | source | states |
|---|---|---|
| JsText.TrimStart | bin/replit-agent.js:128 | the result is a suffix of the input that does not start with white space |
| JsText.TrimEnd | bin/replit-agent.js:128 | the result is a prefix of the input that does not end with white space |
| JsText.TrimStartDropsSpace | bin/replit-agent.js:128 | every character dropped from the front is white space |
| JsText.TrimEndDropsSpace | bin/replit-agent.js:128 | every character dropped from the back is white space |
| JsText.Trim | bin/replit-agent.js:128 | the result has no white space at either end and is no longer than the input |
| JsText.TrimEmptyIffSpace | bin/replit-agent.js:128 | `trim()` is the empty, falsy string exactly when the line is all white space |
| JsText.TrimIsInfix | bin/replit-agent.js:131 | the trimmed text is the contiguous middle of the input, after its leading white space |
| JsText.TrimDropsSpace | bin/replit-agent.js:131 | what lies on either side of the trimmed text is white space |
| JsText.TrimOfPadded | bin/replit-agent.js:131 | a text with no white space at its ends, padded with white space, trims back to itself |
| JsText.TrimIdempotent | bin/replit-agent.js:131 | trimming twice equals trimming once |
| JsText.FirstIndex | bin/replit-agent.js:129 | None exactly when the character is absent; otherwise the index of its first occurrence |
| JsText.FirstIndexAt | bin/replit-agent.js:129 | an occurrence with none before it is the first one |
| JsText.Split | bin/replit-agent.js:127 | at least one piece, and no piece contains the separator |
| JsText.JoinSplit | bin/replit-agent.js:129-131 | joining a split's pieces with the separator restores the text |
| JsText.SplitCons | bin/replit-agent.js:129 | a separator-free text before the first separator splits off as the first piece |
| JsText.SplitJoin | bin/replit-agent.js:127 | splitting a join of separator-free pieces gives back the pieces |
| JsText.SplitAtFirst | bin/replit-agent.js:129-131 | the first piece is the text before the first separator; the other pieces join back to the text after it |
| EnvFile.ParseLineAtFirstEquals | bin/replit-agent.js:128-132 | a skipped line assigns nothing; any other line assigns only when its first `=` has a character before it, and then assigns the trimmed text before and after that `=` |
| EnvFile.ParseLineSplitsAt | bin/replit-agent.js:129-131 | a line that is not skipped, with its first `=` at a position above 0, assigns the trimmed text around that `=` |
| EnvFile.IgnoredIff | bin/replit-agent.js:128 | a line is skipped exactly when it is all white space or its very first character is `#` |
| EnvFile.ParseLineOf | bin/replit-agent.js:129-131 | `key=value`, with a non-empty `=`-free key that does not start with `#`, assigns the trimmed value to the trimmed key |
| EnvFile.ParseLines | bin/replit-agent.js:127 | one parse result per line |
| EnvFile.ParseLinesAt | bin/replit-agent.js:127 | the i-th result is the parse of the i-th line |
| EnvFile.ParseLinesSnoc | bin/replit-agent.js:127 | loop-step helper for the line loop of `MergeLines`: parsing one more line appends its parse result |
| EnvFile.ApplyEntriesSnoc | bin/replit-agent.js:131 | loop-step helper for the line loop of `MergeLines`: merging one more entry applies it to the environment built so far |
| EnvFile.LastValue | bin/replit-agent.js:131 | Some value only if an entry assigns it to that name and no later entry names it; None only if no entry names it |
| EnvFile.ApplyEntriesLookup | bin/replit-agent.js:127-134 | a name that some line assigns ends with the value of the last such line; every other name keeps its old value, or stays absent |
| EnvFile.EnvPaths | bin/replit-agent.js:118-122 | exactly three candidate paths |
| EnvFile.FirstExisting | bin/replit-agent.js:124-125 | the least index of an existing path, or None when no path exists |
| EnvFile.EnvAfterLoadAt | bin/replit-agent.js:124-137 | when path k is the first that exists, it is the one chosen, and loading applies that file's lines |
| EnvFile.EnvAfterLoadNone | bin/replit-agent.js:124-140 | when no path exists, none is chosen and the environment is unchanged |
| EnvFile.OnlyFirstFileRead | bin/replit-agent.js:124-138 | the result depends only on the first existing file and its contents, whatever exists after it |
| EnvFileExamples.IndentedHashAssigns | bin/replit-agent.js:128-131 | `"  #x=1"` is not a comment, and assigns `#x` the value `1` |
| EnvFileExamples.BlankKeyAssignsEmptyName | bin/replit-agent.js:130-131 | `" =v"` assigns `v` to the empty name |
| EnvFileExamples.AssignLine | bin/replit-agent.js:129-131 | `key=value`, with a key and a value that have no white space at their ends, assigns them unchanged |
| EnvFileExamples.LaterEqualsKept | bin/replit-agent.js:129-131 | `B=2=3` assigns B the value `2=3` |
| EnvFileExamples.CommentAndBlankSkipped | bin/replit-agent.js:128 | `# comment` and a line of tab, space and CR assign nothing |
| EnvFileExamples.EmptyLineSkipped | bin/replit-agent.js:128 | the empty line assigns nothing |
| EnvFileExamples.SampleLines | bin/replit-agent.js:127 | `"A=1\nB=2=3\n# comment\n\nC=4"` splits into its five lines |
| Json.Property | bin/replit-agent.js:219-220 | a property read throws exactly on undefined and null; a defined result comes from an object's own key |
| Json.Element0 | bin/replit-agent.js:219-220 | `x[0]` throws exactly on undefined and null |
| Json.TruthyReadable | bin/replit-agent.js:219 | a truthy value can be read without a TypeError |
| OpenRouter.ClassifyProbe | bin/replit-agent.js:184-193 | usable exactly on status 200 with a parsable body; a stall is the "timeout" error; other failures carry no error text |
| OpenRouter.TryModel | bin/replit-agent.js:164-197 | without a usable key (missing, empty or the placeholder): "No API key" and no request sent; otherwise one probe request, usable exactly when it is answered with status 200 and a parsable body |
| OpenRouter.FirstUsable | bin/replit-agent.js:151-161 | the least index of a working model, or None when no model works |
| OpenRouter.ProbesSentShape | bin/replit-agent.js:151-152 | a usable key costs exactly one probe request per model tried, in order; an unusable key costs none |
| OpenRouter.NoKeyNoModel | bin/replit-agent.js:166-168 | without a usable key no model works |
| OpenRouter.ChosenModel | bin/replit-agent.js:202 | a set, non-empty selection is the model used; otherwise, when it is unset or empty, the default is used; never empty |
| OpenRouter.ClassifyReply | bin/replit-agent.js:213-228 | a transport error yields its own message; a stall exactly leaves the call pending; an unparsable body yields "Failed to parse response" |
| OpenRouter.ReplyIffShaped | bin/replit-agent.js:218-220 | a parsed body yields a reply exactly when its first choice is an object with a non-null message; the reply is that message's content, verbatim |
| OpenRouter.NoResponseCases | bin/replit-agent.js:218-222 | for every parsed body: "No response from AI" exactly when the body is not null and its `choices` (undefined for a non-object) is falsy, or that value's element 0 is falsy |
| OpenRouter.ParseFailureCases | bin/replit-agent.js:218-224 | for every parsed body: "Failed to parse response" exactly when the body is null, or its first choice is truthy but without the reply shape (no message, a null one, or not an object) |
| OpenRouter.RelayIgnoresStatus | bin/replit-agent.js:216-225 | the relay's answer does not depend on the status code |
| OpenRouter.FallbackAlreadyFailed | bin/replit-agent.js:146-149 | for any key: when no candidate works, the relay's default model is one whose probe has already failed |
| OpenRouterExamples.HiThereReply | bin/replit-agent.js:219-220 | `{choices:[{message:{content:"Hi there"}}]}` yields the reply "Hi there" |
| OpenRouterExamples.EmptyObjectNoResponse | bin/replit-agent.js:221-222 | `{}` yields "No response from AI" |
| OpenRouterExamples.NotJsonFails | bin/replit-agent.js:224 | an unparsable body yields "Failed to parse response" |
| OpenRouterExamples.ErrorBodyProbesUsable | bin/replit-agent.js:184-187 | an error object under status 200 makes the probe succeed |
| OpenRouterExamples.ErrorBodyRelayed | bin/replit-agent.js:219-222 | the same error object, relayed, yields "No response from AI" |
| Agent.AgentProcess.LoadEnv | bin/replit-agent.js:117-143 | reports the first existing path, or None; the environment becomes the old one with that file's lines merged in order; the selected model is unchanged |
| Agent.AgentProcess.MergeLines | bin/replit-agent.js:127-134 | the environment becomes the old one with the file's lines applied first to last; the selected model is unchanged |
| Agent.AgentProcess.TestConnection | bin/replit-agent.js:145-162 | connects to, and selects, the first working candidate, having probed exactly the candidates up to it; otherwise "No working models found", all candidates probed and the selection unchanged; the requests sent are the probes of the candidates probed |
| Agent.AgentProcess.SendMessage | bin/replit-agent.js:199-231 | sends the message to the chosen model with the key's Bearer header and the 1000-token cap; the answer is the classification of what came back |
| Agent.AgentProcess.Submit | bin/replit-agent.js:258-272 | no request exactly when the line is all white space; otherwise the relay's answer to the line as typed |
| Agent.AgentProcess.Initialize | bin/replit-agent.js:233-256 | reports the path loaded as `LoadEnv` does; the environment after loading; then the prober's result and selection computed with the loaded key |

## Left out

- TryModel, SendMessage: a key holding a character that Node.js refuses in a header value makes `https.request` throw at once. Node accepts only tab, 0x20-0x7E and 0x80-0xFF, and refuses, for example, a trailing U+200B, which `trim()` keeps. The throw rejects the promise, so the `await` in `testOpenRouterConnection`, `initialize` or the submit handler throws and goes uncaught. This is not modelled: `UsableKey` accepts such a key, `TryModel` sends and classifies the probe, `TestConnection` goes on through every candidate, and `SendMessage` classifies the answer.

- The terminal interface (blessed screen, log and input boxes, chalk colours, key bindings, rendering) and every log message. The 1500 ms pause in `initialize` is left out too.
- The HTTPS transport itself: host, port, path, the constant headers, `Content-Length`, the relay's fixed `temperature: 0.7` and the JSON serialisation of the request. The request keeps only the model, Authorization header, message and token cap. Collecting the response chunks is taken as given.
- ClassifyProbe: a probe is a stall only when the socket goes idle for 5000 ms. A slow answer that would arrive later is not distinguished from one that never arrives, and clock time is not modelled.
- The relay's unsettled promise is the outcome `Pending`. The model does not capture that the agent then waits forever.
- Unreadable configuration files: `fs.readFileSync` can throw on a path that exists, and the model assumes every existing path is readable.
- `path.join` normalisation (`..`, repeated or trailing slashes). `PathJoin` is plain concatenation with `/`.
- How the host treats an environment variable with an empty name. Assigning one is modelled as a map update.
- String encoding: JavaScript strings are UTF-16 code units, while the model's strings are Unicode scalar values. None of the characters the loader looks for (`=`, newline, `#` and the white-space set) is a surrogate, so splitting and trimming come out the same.
- JSON numbers are reals rather than doubles. Property reads cover only the three names the relay reads and index 0. None of these is defined on the built-in prototypes.
- Concurrency: overlapping submissions while a relay is outstanding. Each `Submit` is modelled as finishing before the next.
- Whole-file parsing of the sample `"A=1\nB=2=3\n# comment\n\nC=4"` is shown as two parts: `SampleLines` proves that the file splits into those five lines, and the line lemmas prove what each line assigns. No single lemma states the resulting environment.
- Process exit on Escape, `q` or Ctrl-C.
