/** The RPM metadata parser of the update manager: the text that
    `rpm -q -p --info` prints becomes a map from field names to values. */
module Rpm {
  import opened GoStrings

  /** RE2's `\w`: an ASCII letter, digit or underscore. */
  predicate IsWordChar(c: char)
  {
    'a' <= c <= 'z' || 'A' <= c <= 'Z' || '0' <= c <= '9' || c == '_'
  }

  /** RE2's `\s`: tab, newline, form feed, carriage return or space. */
  predicate IsRegexSpace(c: char)
  {
    c == '\t' || c == '\n' || c == '\U{0C}' || c == '\r' || c == ' '
  }

  /** Every character of `line` from `lo` up to `hi` is `\w` or `\s`. */
  predicate WordsOrSpaces(line: string, lo: nat, hi: nat)
    requires hi <= |line|
  {
    forall j :: lo <= j < hi ==> IsWordChar(line[j]) || IsRegexSpace(line[j])
  }

  /** The strings that the pattern `^\w+(\s*\w*)*\s*:` finds at the start of
      `line`: a word character, then word characters and white space, then a
      colon. */
  predicate MatchesKeyPattern(line: string)
  {
    |line| > 0 && IsWordChar(line[0]) &&
    exists c :: 1 <= c < |line| && line[c] == ':' && WordsOrSpaces(line, 1, c)
  }

  /** Scanning from `i`, a colon comes before any character that is neither a
      word character nor white space. */
  function ColonAfter(line: string, i: nat): bool
    decreases |line| - i
  {
    if i >= |line| then false
    else if line[i] == ':' then true
    else if IsWordChar(line[i]) || IsRegexSpace(line[i]) then ColonAfter(line, i + 1)
    else false
  }

  /** regexp.MatchString(`^\w+(\s*\w*)*\s*:`, line): a "<key> : <value>" line. */
  predicate IsKeyLine(line: string)
  {
    |line| > 0 && IsWordChar(line[0]) && ColonAfter(line, 1)
  }

  lemma {:induction false} ColonAfterIff(line: string, i: nat)
    ensures ColonAfter(line, i) <==>
            exists c :: i <= c < |line| && line[c] == ':' && WordsOrSpaces(line, i, c)
    decreases |line| - i
  {
    if i >= |line| {
    } else if line[i] == ':' {
      assert WordsOrSpaces(line, i, i);
    } else if IsWordChar(line[i]) || IsRegexSpace(line[i]) {
      ColonAfterIff(line, i + 1);
      if ColonAfter(line, i + 1) {
        var c :| i + 1 <= c < |line| && line[c] == ':' && WordsOrSpaces(line, i + 1, c);
        assert WordsOrSpaces(line, i, c);
      }
      forall c | i <= c < |line| && line[c] == ':' && WordsOrSpaces(line, i, c)
        ensures ColonAfter(line, i + 1)
      {
        assert c != i;
        assert WordsOrSpaces(line, i + 1, c);
      }
    } else {
      forall c | i <= c < |line| && line[c] == ':'
        ensures !WordsOrSpaces(line, i, c)
      {
        assert c != i;
      }
    }
  }

  /** The scanner decides exactly the language of the key-line pattern. */
  lemma KeyLineIff(line: string)
    ensures IsKeyLine(line) <==> MatchesKeyPattern(line)
  {
    ColonAfterIff(line, 1);
  }

  /** A key line always holds a colon. */
  lemma KeyLineHasColon(line: string)
    requires IsKeyLine(line)
    ensures ':' in line
  {
    KeyLineIff(line);
    var c :| 1 <= c < |line| && line[c] == ':' && WordsOrSpaces(line, 1, c);
  }

  /** The parser's state between two lines: the map built so far and the key
      that continuation lines extend. */
  datatype ParseState = ParseState(parsed: map<string, string>, key: string)

  /** Go's map read: the value of `k`, or "" when `k` is absent. */
  function Lookup(m: map<string, string>, k: string): string
  {
    if k in m then m[k] else ""
  }

  /** One iteration of ParseMetaData's loop. */
  function Step(st: ParseState, line: string): ParseState
  {
    if IsKeyLine(line) then
      var fields := Split(line, ':');
      var key := TrimSpace(fields[0]);
      if |fields| > 1 then ParseState(st.parsed[key := TrimSpace(Join(fields[1..], ':'))], key)
      else ParseState(st.parsed, key)
    else
      ParseState(st.parsed[st.key := Lookup(st.parsed, st.key) + TrimSpace(line)], st.key)
  }

  /** The state after the given lines, starting from an empty map and key "". */
  function ParseLines(lines: seq<string>): ParseState
    decreases |lines|
  {
    if lines == [] then ParseState(map[], "")
    else Step(ParseLines(lines[..|lines| - 1]), lines[|lines| - 1])
  }

  /** The state after the whole of `metaData`, split on newlines. */
  function Parse(metaData: string): ParseState
  {
    ParseLines(Split(metaData, '\n'))
  }

  /** rpm.ParseMetaData. */
  method ParseMetaData(metaData: string) returns (parsedData: map<string, string>)
    ensures parsedData == Parse(metaData).parsed
  {
    parsedData := map[];
    var key := "";
    var lines := Split(metaData, '\n');
    for i := 0 to |lines|
      invariant ParseState(parsedData, key) == ParseLines(lines[..i])
    {
      var line := lines[i];
      var matched := IsKeyLine(line);
      if matched {
        var fields := Split(line, ':');
        key := TrimSpace(fields[0]);
        if |fields| > 1 {
          parsedData := parsedData[key := TrimSpace(Join(fields[1..], ':'))];
        }
      } else {
        parsedData := parsedData[key := Lookup(parsedData, key) + TrimSpace(line)];
      }
      assert lines[..i + 1][..i] == lines[..i];
    }
    assert lines[..|lines|] == lines;
  }

  /** After any line the current key has a value. */
  lemma StepKeepsKey(st: ParseState, line: string)
    ensures Step(st, line).key in Step(st, line).parsed
  {
    if IsKeyLine(line) {
      KeyLineHasColon(line);
      SplitAtFirst(line, ':');
    }
  }

  /** Once a line has been read the current key has a value. */
  lemma KeyAlwaysPresent(metaData: string)
    ensures Parse(metaData).key in Parse(metaData).parsed
  {
    var lines := Split(metaData, '\n');
    StepKeepsKey(ParseLines(lines[..|lines| - 1]), lines[|lines| - 1]);
  }

  /** Parsing one more line reads it against the state the text before it
      left. */
  lemma ParseAppendLine(metaData: string, line: string)
    requires '\n' !in line
    ensures Parse(metaData + "\n" + line) == Step(Parse(metaData), line)
  {
    var lines := Split(metaData, '\n');
    assert metaData + "\n" + line == metaData + ['\n'] + line;
    SplitConcat(metaData, '\n', line);
    SplitWithoutSep(line, '\n');
    assert (lines + [line])[..|lines|] == lines;
  }

  /** A key line sets the trimmed text before its first colon to the trimmed
      rest of the line, later colons included, replacing any earlier value,
      and makes that key current. */
  lemma KeyLineSetsValue(metaData: string, keyText: string, rest: string)
    requires ':' !in keyText
    requires '\n' !in keyText + ":" + rest
    requires IsKeyLine(keyText + ":" + rest)
    ensures Parse(metaData + "\n" + keyText + ":" + rest) ==
            ParseState(Parse(metaData).parsed[TrimSpace(keyText) := TrimSpace(rest)], TrimSpace(keyText))
  {
    var line := keyText + ":" + rest;
    assert metaData + "\n" + keyText + ":" + rest == metaData + "\n" + line;
    ParseAppendLine(metaData, line);
    KeyLineFields(keyText, rest);
  }

  /** The pieces of a line split at its colons: the text before the first
      colon, and the rest joined back. */
  lemma KeyLineFields(keyText: string, rest: string)
    requires ':' !in keyText
    ensures var fields := Split(keyText + ":" + rest, ':');
            |fields| > 1 && fields[0] == keyText && Join(fields[1..], ':') == rest
  {
    var line := keyText + ":" + rest;
    assert line == keyText + [':'] + rest;
    IndexOfConcat(keyText, ':', rest);
    IndexOfUnique(keyText, ':', |keyText|);
    SplitAtFirst(line, ':');
    assert line[..|keyText|] == keyText;
    assert line[|keyText| + 1..] == rest;
  }

  /** A continuation line appends its trimmed text, with no separator, to the
      current key's value. */
  lemma ContinuationAppends(metaData: string, line: string)
    requires '\n' !in line
    requires !IsKeyLine(line)
    ensures Parse(metaData).key in Parse(metaData).parsed
    ensures Parse(metaData + "\n" + line) ==
            var st := Parse(metaData);
            ParseState(st.parsed[st.key := st.parsed[st.key] + TrimSpace(line)], st.key)
  {
    ParseAppendLine(metaData, line);
    KeyAlwaysPresent(metaData);
  }

  /** A blank line leaves a state whose current key has a value unchanged. */
  lemma StepBlank(st: ParseState, line: string)
    requires st.key in st.parsed
    requires forall k :: 0 <= k < |line| ==> IsSpace(line[k])
    ensures Step(st, line) == st
  {
    assert !IsKeyLine(line) by {
      if |line| > 0 {
        assert IsSpace(line[0]);
      }
    }
    var blank := TrimSpace(line);
    assert blank == "";
    assert st.parsed[st.key] + blank == st.parsed[st.key];
    assert st.parsed[st.key := st.parsed[st.key]] == st.parsed;
  }

  /** A line of white space only, such as the empty line after a trailing
      newline, changes nothing. */
  lemma BlankLineKeepsState(metaData: string, line: string)
    requires '\n' !in line
    requires forall k :: 0 <= k < |line| ==> IsSpace(line[k])
    ensures Parse(metaData + "\n" + line) == Parse(metaData)
  {
    ParseAppendLine(metaData, line);
    KeyAlwaysPresent(metaData);
    StepBlank(Parse(metaData), line);
  }

  /** A trailing newline changes nothing. */
  lemma TrailingNewlineIgnored(metaData: string)
    ensures Parse(metaData + "\n").parsed == Parse(metaData).parsed
  {
    assert metaData + "\n" == metaData + "\n" + "";
    BlankLineKeepsState(metaData, "");
  }

  /** Empty metadata parses to the single entry "" : "". */
  lemma EmptyMetaData()
    ensures Parse("").parsed == map["" := ""]
  {
    SplitWithoutSep("", '\n');
    assert Split("", '\n') == [""];
    assert [""][..0] == [];
    assert !IsKeyLine("");
    assert TrimSpace("") == "";
    var empty: map<string, string> := map[];
    assert "" + "" == "";
    assert empty["" := ""] == map["" := ""];
  }

  /** The trimmed texts of the lines, concatenated in order. */
  function TrimmedConcat(lines: seq<string>): string
    decreases |lines|
  {
    if lines == [] then "" else TrimmedConcat(lines[..|lines| - 1]) + TrimSpace(lines[|lines| - 1])
  }

  /** A continuation line under the empty key. */
  lemma ContinuationUnderEmptyKey(before: string, line: string)
    requires !IsKeyLine(line)
    ensures Step(ParseState(map["" := before], ""), line) ==
            ParseState(map["" := before + TrimSpace(line)], "")
  {
    var st := ParseState(map["" := before], "");
    assert Lookup(st.parsed, "") == before;
    assert st.parsed["" := before + TrimSpace(line)] == map["" := before + TrimSpace(line)];
  }

  /** Lines read before any key line accumulate under the empty key. */
  lemma {:induction false} LeadingLinesUnderEmptyKey(lines: seq<string>)
    requires |lines| >= 1
    requires forall i :: 0 <= i < |lines| ==> !IsKeyLine(lines[i])
    ensures ParseLines(lines) == ParseState(map["" := TrimmedConcat(lines)], "")
    decreases |lines|
  {
    var front := lines[..|lines| - 1];
    var last := lines[|lines| - 1];
    assert !IsKeyLine(last);
    if |front| >= 1 {
      assert forall i :: 0 <= i < |front| ==> front[i] == lines[i];
      LeadingLinesUnderEmptyKey(front);
      ContinuationUnderEmptyKey(TrimmedConcat(front), last);
    } else {
      assert ParseLines(front) == ParseState(map[], "");
      assert TrimmedConcat(lines) == "" + TrimSpace(last);
      assert map[]["" := "" + TrimSpace(last)] == map["" := TrimmedConcat(lines)];
    }
  }

  /** Metadata with no key line is one entry under the empty key. */
  lemma NoKeyLinesUnderEmptyKey(metaData: string)
    requires forall i :: 0 <= i < |Split(metaData, '\n')| ==> !IsKeyLine(Split(metaData, '\n')[i])
    ensures Parse(metaData).parsed == map["" := TrimmedConcat(Split(metaData, '\n'))]
  {
    LeadingLinesUnderEmptyKey(Split(metaData, '\n'));
  }

  /** The key a key line sets: the trimmed text before its first colon. */
  function LineKey(line: string): string
  {
    TrimSpace(line[..IndexOf(line, ':')])
  }

  /** `k` is "" or the key of one of the key lines. */
  predicate KeyFromLines(k: string, lines: seq<string>)
  {
    k == "" || exists i :: 0 <= i < |lines| && IsKeyLine(lines[i]) && k == LineKey(lines[i])
  }

  lemma KeyFromLinesGrows(k: string, lines: seq<string>)
    requires |lines| >= 1
    requires KeyFromLines(k, lines[..|lines| - 1])
    ensures KeyFromLines(k, lines)
  {
    var front := lines[..|lines| - 1];
    if k != "" {
      var i :| 0 <= i < |front| && IsKeyLine(front[i]) && k == LineKey(front[i]);
      assert lines[i] == front[i];
    }
  }

  /** Every key of the result, and the current key, is "" or the trimmed
      prefix of some key line. */
  lemma {:induction false} KeysComeFromKeyLines(lines: seq<string>)
    ensures KeyFromLines(ParseLines(lines).key, lines)
    ensures forall k :: k in ParseLines(lines).parsed ==> KeyFromLines(k, lines)
    decreases |lines|
  {
    if lines != [] {
      var front := lines[..|lines| - 1];
      var line := lines[|lines| - 1];
      var st := ParseLines(front);
      KeysComeFromKeyLines(front);
      forall k | k in st.parsed || k == st.key
        ensures KeyFromLines(k, lines)
      {
        KeyFromLinesGrows(k, lines);
      }
      if IsKeyLine(line) {
        assert Split(line, ':')[0] == line[..IndexOf(line, ':')];
        assert KeyFromLines(LineKey(line), lines);
      }
    }
  }

  /** Every key that ParseMetaData returns is "" or the trimmed prefix of one
      of the input's key lines. */
  lemma KeysOfMetaData(metaData: string, k: string)
    requires k in Parse(metaData).parsed
    ensures KeyFromLines(k, Split(metaData, '\n'))
  {
    KeysComeFromKeyLines(Split(metaData, '\n'));
  }
}
