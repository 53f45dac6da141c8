/** Worked configuration lines and files: the loader's behaviour on
    particular inputs, derived from the general lemmas. */
module EnvFileExamples {
  import opened Wrappers
  import opened JsText
  import opened EnvFile

  // The worked lines below are proved in small steps, one fact per lemma, and
  // take each literal through a requires: a proof goal that holds a concrete
  // line together with several unfolded ParseLine, Trim or FirstIndex terms
  // is too costly for the verifier, so each step keeps just one of them.

  lemma IndentedHashFacts(line: string)
    requires line == "  #x=1"
    ensures !Ignored(line) && FirstIndex(line, '=') == Some(4)
    ensures Trim(line[..4]) == "#x" && Trim(line[5..]) == "1"
  {
    LeadingNonSpace(line, 2);
    IndentedHashEquals(line);
    IndentedHashKey(line);
    IndentedHashValue(line);
  }

  lemma IndentedHashEquals(line: string)
    requires line == "  #x=1"
    ensures FirstIndex(line, '=') == Some(4)
  {
    FirstIndexAt(line, '=', 4);
  }

  lemma IndentedHashValue(line: string)
    requires line == "  #x=1"
    ensures Trim(line[5..]) == "1"
  {
    TrimOfPadded(line[5..], "", "1", "");
  }

  lemma IndentedHashKey(line: string)
    requires line == "  #x=1"
    ensures Trim(line[..4]) == "#x"
  {
    TrimOfPadded(line[..4], "  ", "#x", "");
  }

  /** A '#' after leading blanks does not make a comment: "  #x=1" assigns
      the name "#x". */
  lemma IndentedHashAssigns(line: string)
    requires line == "  #x=1"
    ensures ParseLine(line) == Some(Entry("#x", "1"))
  {
    IndentedHashFacts(line);
    ParseLineSplitsAt(line, 4, "#x", "1");
  }

  lemma BlankKeyFacts(line: string)
    requires line == " =v"
    ensures !Ignored(line) && FirstIndex(line, '=') == Some(1)
    ensures Trim(line[..1]) == "" && Trim(line[2..]) == "v"
  {
    LeadingNonSpace(line, 1);
    BlankKeyEquals(line);
    BlankKeyKey(line);
    BlankKeyValue(line);
  }

  lemma BlankKeyEquals(line: string)
    requires line == " =v"
    ensures FirstIndex(line, '=') == Some(1)
  {
    FirstIndexAt(line, '=', 1);
  }

  lemma BlankKeyValue(line: string)
    requires line == " =v"
    ensures Trim(line[2..]) == "v"
  {
    TrimOfPadded(line[2..], "", "v", "");
  }

  lemma BlankKeyKey(line: string)
    requires line == " =v"
    ensures Trim(line[..1]) == ""
  {
    TrimOfPadded(line[..1], " ", "", "");
  }

  /** A key of blanks only is not empty before trimming, so " =v" assigns
      the empty name. */
  lemma BlankKeyAssignsEmptyName(line: string)
    requires line == " =v"
    ensures ParseLine(line) == Some(Entry("", "v"))
  {
    BlankKeyFacts(line);
    ParseLineSplitsAt(line, 1, "", "v");
  }

  /** A line whose first character is not '#' and which holds a character
      other than white space is not skipped. */
  lemma LeadingNonSpace(line: string, j: nat)
    requires j < |line| && !IsSpace(line[j]) && line[0] != '#'
    ensures !Ignored(line)
  {
    IgnoredIff(line);
  }

  /** A line "key=value" whose key and value have no white space at their
      ends assigns them as they stand. */
  lemma AssignLine(line: string, key: string, value: string)
    requires line == key + "=" + value
    requires key != "" && key[0] != '#' && '=' !in key && Trimmed(key) && Trimmed(value)
    ensures ParseLine(line) == Some(Entry(key, value))
  {
    TrimOfPadded(key, "", key, "");
    TrimOfPadded(value, "", value, "");
    ParseLineOf(key, value);
  }

  /** Only the first '=' separates: "B=2=3" assigns B the value "2=3". */
  lemma LaterEqualsKept(key: string, value: string)
    requires key == "B" && value == "2=3"
    ensures ParseLine(key + "=" + value) == Some(Entry("B", "2=3"))
  {
    AssignLine(key + "=" + value, key, value);
  }

  /** Lines of the form "#...", and blank lines, assign nothing. */
  lemma CommentAndBlankSkipped(comment: string, blank: string)
    requires comment == "# comment" && blank == " \t\r"
    ensures ParseLine(comment) == None && ParseLine(blank) == None
  {
    assert StartsWith(comment, "#");
    assert AllSpace(blank);
    TrimEmptyIffSpace(blank);
    ParseLineAtFirstEquals(comment);
    ParseLineAtFirstEquals(blank);
  }

  /** The empty line assigns nothing. */
  lemma EmptyLineSkipped(line: string)
    requires line == ""
    ensures ParseLine(line) == None
  {
    TrimEmptyIffSpace(line);
    ParseLineAtFirstEquals(line);
  }

  /** The sample file "A=1\nB=2=3\n# comment\n\nC=4" splits into its five
      lines; LaterEqualsKept, AssignLine, CommentAndBlankSkipped and
      EmptyLineSkipped give what each of them assigns. */
  lemma SampleLines(file: string)
    requires file == "A=1\nB=2=3\n# comment\n\nC=4"
    ensures Split(file, '\n') == ["A=1", "B=2=3", "# comment", "", "C=4"]
  {
    var lines := ["A=1", "B=2=3", "# comment", "", "C=4"];
    assert Join(lines, '\n') == file;
    SplitJoin(lines, '\n');
  }
}
