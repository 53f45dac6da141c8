/** The agent's configuration files: lines of KEY=VALUE text, of which the
    first existing file among three candidate locations is merged into the
    process environment, modelled as a map from names to values. */
module EnvFile {
  import opened Wrappers
  import opened JsText

  /** One name/value pair that a configuration line assigns. */
  datatype Entry = Entry(key: string, value: string)

  /** A line the loader skips: blank once trimmed, or starting with '#' as it
      stands, before any trimming. */
  predicate Ignored(line: string) {
    Trim(line) == "" || StartsWith(line, "#")
  }

  /** What a configuration line assigns, following the loader's steps: split
      the line at every '=', keep the first piece as the key, join the other
      pieces back with '=' as the value, and assign only when the untrimmed key
      is non-empty and there is at least one '='. Both sides are trimmed. */
  function ParseLine(line: string): Option<Entry> {
    if Ignored(line) then None
    else
      var parts := Split(line, '=');
      var key, valueParts := parts[0], parts[1..];
      if key != "" && |valueParts| > 0 then Some(Entry(Trim(key), Trim(Join(valueParts, '='))))
      else None
  }

  /** A line that is not skipped assigns exactly when it has an '=' with at
      least one character before it; the key is the trimmed text before the
      first '=' and the value the trimmed text after it, later '=' included. */
  lemma ParseLineAtFirstEquals(line: string)
    ensures Ignored(line) ==> ParseLine(line) == None
    ensures !Ignored(line) ==>
              ParseLine(line) ==
              match FirstIndex(line, '=')
              case None => None
              case Some(i) => if i == 0 then None else Some(Entry(Trim(line[..i]), Trim(line[i + 1..])))
  {
    SplitAtFirst(line, '=');
  }

  /** A line that is not skipped, with its first '=' at i > 0, assigns the
      trimmed text around that '='. */
  lemma ParseLineSplitsAt(line: string, i: nat, key: string, value: string)
    requires !Ignored(line) && FirstIndex(line, '=') == Some(i) && i > 0
    requires Trim(line[..i]) == key && Trim(line[i + 1..]) == value
    ensures ParseLine(line) == Some(Entry(key, value))
  {
    ParseLineAtFirstEquals(line);
  }

  /** The skip test in the loader's words: a line is skipped when it is all
      white space or its very first character is '#'. */
  lemma IgnoredIff(line: string)
    ensures Ignored(line) <==> AllSpace(line) || (|line| > 0 && line[0] == '#')
  {
    TrimEmptyIffSpace(line);
    if |line| > 0 {
      assert line[..1] == [line[0]];
    }
  }

  /** A line made of a key with no '=' in it that does not start with '#',
      then '=', then any text, assigns the trimmed key the trimmed text. */
  lemma {:induction false} ParseLineOf(key: string, value: string)
    requires key != "" && key[0] != '#' && '=' !in key
    ensures ParseLine(key + "=" + value) == Some(Entry(Trim(key), Trim(value)))
  {
    var line := key + "=" + value;
    var i := |key|;
    assert line[..i] == key && line[i + 1..] == value;
    assert !StartsWith(line, "#") by { assert line[..1][0] == key[0]; }
    assert !AllSpace(line) by { assert line[i] == '='; }
    TrimEmptyIffSpace(line);
    forall j | 0 <= j < i ensures line[j] != '=' {
      assert line[j] == key[j];
    }
    FirstIndexAt(line, '=', i);
    ParseLineAtFirstEquals(line);
  }

  /** What each line assigns, line by line. */
  function ParseLines(lines: seq<string>): (r: seq<Option<Entry>>)
    ensures |r| == |lines|
  {
    if lines == [] then [] else ParseLines(lines[..|lines| - 1]) + [ParseLine(lines[|lines| - 1])]
  }

  lemma {:induction false} ParseLinesAt(lines: seq<string>, i: nat)
    requires i < |lines|
    ensures ParseLines(lines)[i] == ParseLine(lines[i])
  {
    if i < |lines| - 1 {
      ParseLinesAt(lines[..|lines| - 1], i);
    }
  }

  /** Parsing one more line appends its entry. */
  lemma ParseLinesSnoc(lines: seq<string>, n: nat)
    requires n < |lines|
    ensures ParseLines(lines[..n + 1]) == ParseLines(lines[..n]) + [ParseLine(lines[n])]
  {
    assert lines[..n + 1][..n] == lines[..n];
  }

  /** The environment after one entry: the entry, if any, overrides its name. */
  function ApplyEntry(env: map<string, string>, e: Option<Entry>): map<string, string> {
    match e
    case None => env
    case Some(e) => env[e.key := e.value]
  }

  /** The environment after the entries, applied first to last. */
  function ApplyEntries(env: map<string, string>, es: seq<Option<Entry>>): map<string, string> {
    if es == [] then env else ApplyEntry(ApplyEntries(env, es[..|es| - 1]), es[|es| - 1])
  }

  /** Applying one more entry applies it to the environment so far. */
  lemma ApplyEntriesSnoc(env: map<string, string>, es: seq<Option<Entry>>, e: Option<Entry>)
    ensures ApplyEntries(env, es + [e]) == ApplyEntry(ApplyEntries(env, es), e)
  {
    assert (es + [e])[..|es|] == es;
  }

  /** The value that the last entry for key gives it, if any entry is for key. */
  function LastValue(es: seq<Option<Entry>>, key: string): (r: Option<string>)
    ensures r.Some? ==>
              exists i :: 0 <= i < |es| && es[i] == Some(Entry(key, r.value))
                          && forall j :: i < j < |es| && es[j].Some? ==> es[j].value.key != key
    ensures r.None? ==> forall i :: 0 <= i < |es| && es[i].Some? ==> es[i].value.key != key
  {
    if es == [] then None
    else if es[|es| - 1].Some? && es[|es| - 1].value.key == key then Some(es[|es| - 1].value.value)
    else
      var r := LastValue(es[..|es| - 1], key);
      assert forall i :: 0 <= i < |es| - 1 ==> es[..|es| - 1][i] == es[i];
      r
  }

  /** Applying the entries is a left-to-right fold: a name that some entry
      assigns ends with the value of the last such entry, and every other
      name keeps whatever value (or absence) it had before. */
  lemma {:induction false} ApplyEntriesLookup(env: map<string, string>, es: seq<Option<Entry>>, key: string)
    ensures LastValue(es, key).Some? ==>
              key in ApplyEntries(env, es) && ApplyEntries(env, es)[key] == LastValue(es, key).value
    ensures LastValue(es, key).None? ==>
              (key in ApplyEntries(env, es) <==> key in env)
              && (key in env ==> ApplyEntries(env, es)[key] == env[key])
  {
    if es != [] {
      ApplyEntriesLookup(env, es[..|es| - 1], key);
    }
  }

  /** The three candidate files, in the order they are tried: the current
      directory's .env, then .replit-agent.env and .env in the home directory. */
  function EnvPaths(cwd: string, home: string): (r: seq<string>)
    ensures |r| == 3
  {
    [PathJoin(cwd, ".env"), PathJoin(home, ".replit-agent.env"), PathJoin(home, ".env")]
  }

  /** path.join for a directory and a plain file name. */
  function PathJoin(dir: string, name: string): string {
    dir + "/" + name
  }

  /** The index of the first path that exists in files (a map from the
      existing paths to their contents). */
  function FirstExisting(paths: seq<string>, files: map<string, string>): (r: Option<nat>)
    ensures r.Some? ==>
              r.value < |paths| && paths[r.value] in files
              && forall j :: 0 <= j < r.value ==> paths[j] !in files
    ensures r.None? ==> forall j :: 0 <= j < |paths| ==> paths[j] !in files
  {
    if paths == [] then None
    else if paths[0] in files then Some(0)
    else match FirstExisting(paths[1..], files)
      case None => None
      case Some(i) => Some(i + 1)
  }

  /** The environment after loading: the lines of the first existing file
      applied to env, or env itself when none of the paths exists. */
  function EnvAfterLoad(env: map<string, string>, files: map<string, string>, paths: seq<string>): map<string, string> {
    match FirstExisting(paths, files)
    case None => env
    case Some(i) => ApplyEntries(env, ParseLines(Split(files[paths[i]], '\n')))
  }

  /** When path k is the first that exists, loading applies its lines. */
  lemma EnvAfterLoadAt(env: map<string, string>, files: map<string, string>, paths: seq<string>, k: nat)
    requires k < |paths| && paths[k] in files
    requires forall j :: 0 <= j < k ==> paths[j] !in files
    ensures FirstExisting(paths, files) == Some(k)
    ensures EnvAfterLoad(env, files, paths) == ApplyEntries(env, ParseLines(Split(files[paths[k]], '\n')))
  {
  }

  /** When no path exists, loading changes nothing. */
  lemma EnvAfterLoadNone(env: map<string, string>, files: map<string, string>, paths: seq<string>)
    requires forall j :: 0 <= j < |paths| ==> paths[j] !in files
    ensures FirstExisting(paths, files) == None
    ensures EnvAfterLoad(env, files, paths) == env
  {
  }

  /** Only the first existing file is read: two file systems that agree on
      which of the paths before it exist and on its contents give the same
      environment, whatever the later paths hold. */
  lemma OnlyFirstFileRead(env: map<string, string>, f1: map<string, string>, f2: map<string, string>, paths: seq<string>, i: nat)
    requires FirstExisting(paths, f1) == Some(i)
    requires forall j :: 0 <= j < i ==> paths[j] !in f2
    requires paths[i] in f2 && f2[paths[i]] == f1[paths[i]]
    ensures FirstExisting(paths, f2) == Some(i)
    ensures EnvAfterLoad(env, f1, paths) == EnvAfterLoad(env, f2, paths)
  {
  }
}
