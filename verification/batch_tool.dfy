/**
 * The pure parts of the batch script that draws every subscription: the
 * file-name sanitiser, the count of table rows in the `list-rg` output, and
 * the output file and argument list of one `export` invocation. Running the
 * commands is outside the model; their results are parameters.
 */
module BatchTool {
  import opened Text

  // ------------------------------------------------------------- sanitise

  /** Characters kept by the sanitiser: `\w` (ASCII) and '-'. */
  predicate SafeChar(c: char) {
    IsWordChar(c) || c == '-'
  }

  predicate NoDoubleUnderscore(s: string) {
    forall i :: 0 <= i < |s| - 1 ==> !(s[i] == '_' && s[i + 1] == '_')
  }

  /** The shape every sanitised name has. */
  predicate Sanitized(s: string) {
    && (forall i :: 0 <= i < |s| ==> SafeChar(s[i]))
    && NoDoubleUnderscore(s)
    && (s != [] ==> s[0] != '_' && s[|s| - 1] != '_')
  }

  /** Every character outside the safe class becomes '_'. */
  function ReplaceUnsafe(s: string): (r: string)
    ensures |r| == |s|
    ensures forall i :: 0 <= i < |s| ==> r[i] == if SafeChar(s[i]) then s[i] else '_'
  {
    if s == [] then [] else [if SafeChar(s[0]) then s[0] else '_'] + ReplaceUnsafe(s[1..])
  }

  /** Each run of '_' shrinks to one '_'. */
  function CollapseUnderscores(s: string): (r: string)
    ensures |r| <= |s|
    ensures s != [] ==> r != [] && r[0] == s[0]
    ensures forall c :: c in r ==> c in s
    ensures NoDoubleUnderscore(r)
  {
    if |s| <= 1 then s
    else if s[0] == '_' && s[1] == '_' then CollapseUnderscores(s[1..])
    else
      var rest := CollapseUnderscores(s[1..]);
      assert forall c :: c in s[1..] ==> c in s;
      [s[0]] + rest
  }

  /** `sanitize_filename`: replace, collapse, then strip '_' from both ends. */
  function Sanitize(name: string): (r: string)
    ensures Sanitized(r)
  {
    var collapsed := CollapseUnderscores(ReplaceUnsafe(name));
    var left := StripCharLeft(collapsed, '_');
    var r := StripCharRight(left, '_');
    StripCharLeftSub(collapsed, '_');
    StripCharRightSub(left, '_');
    assert forall i :: 0 <= i < |r| ==> r[i] == collapsed[|collapsed| - |left| + i];
    assert forall i :: 0 <= i < |r| ==> r[i] in collapsed;
    assert r != [] ==> r[0] == left[0];
    r
  }

  lemma {:induction false} CollapseFixed(s: string)
    requires NoDoubleUnderscore(s)
    ensures CollapseUnderscores(s) == s
  {
    if |s| > 1 {
      CollapseFixed(s[1..]);
    }
  }

  /** A sanitised name is its own sanitisation, so sanitising twice changes nothing. */
  lemma SanitizeIdempotent(s: string)
    ensures Sanitized(s) ==> Sanitize(s) == s
    ensures Sanitize(Sanitize(s)) == Sanitize(s)
  {
    forall t | Sanitized(t) ensures Sanitize(t) == t {
      assert ReplaceUnsafe(t) == t;
      CollapseFixed(t);
    }
  }

  /** The characters other than '_', in order. */
  function Letters(s: string): string {
    if s == [] then [] else (if s[0] == '_' then [] else [s[0]]) + Letters(s[1..])
  }

  /** The safe characters of a name other than '_', in order: what a sanitised name spells. */
  function KeptChars(s: string): string {
    if s == [] then [] else (if SafeChar(s[0]) && s[0] != '_' then [s[0]] else []) + KeptChars(s[1..])
  }

  lemma {:induction false} LettersConcat(a: string, b: string)
    ensures Letters(a + b) == Letters(a) + Letters(b)
  {
    if a == [] {
      assert a + b == b;
    } else {
      var head := if a[0] == '_' then [] else [a[0]];
      LettersConcat(a[1..], b);
      assert (a + b)[0] == a[0] && (a + b)[1..] == a[1..] + b;
      calc {
        Letters(a + b);
        head + Letters(a[1..] + b);
        head + (Letters(a[1..]) + Letters(b));
        (head + Letters(a[1..])) + Letters(b);
      }
    }
  }

  lemma {:induction false} LettersOfReplaced(s: string)
    ensures Letters(ReplaceUnsafe(s)) == KeptChars(s)
  {
    if s != [] {
      LettersOfReplaced(s[1..]);
    }
  }

  lemma {:induction false} LettersOfCollapsed(s: string)
    ensures Letters(CollapseUnderscores(s)) == Letters(s)
  {
    if |s| > 1 {
      LettersOfCollapsed(s[1..]);
    }
  }

  lemma {:induction false} LettersOfStripLeft(s: string)
    ensures Letters(StripCharLeft(s, '_')) == Letters(s)
  {
    if s != [] && s[0] == '_' {
      LettersOfStripLeft(s[1..]);
    }
  }

  lemma {:induction false} LettersOfStripRight(s: string)
    ensures Letters(StripCharRight(s, '_')) == Letters(s)
    decreases |s|
  {
    if s != [] && s[|s| - 1] == '_' {
      var init := s[..|s| - 1];
      LettersOfStripRight(init);
      assert s == init + ['_'];
      LettersConcat(init, ['_']);
    }
  }

  /** Sanitising keeps every safe character other than '_', in order, and nothing else besides '_'. */
  lemma SanitizeKeepsContent(name: string)
    ensures Letters(Sanitize(name)) == KeptChars(name)
  {
    var replaced := ReplaceUnsafe(name);
    var collapsed := CollapseUnderscores(replaced);
    LettersOfReplaced(name);
    LettersOfCollapsed(replaced);
    LettersOfStripLeft(collapsed);
    LettersOfStripRight(StripCharLeft(collapsed, '_'));
  }

  // --------------------------------------------------- resource-group count

  /** A row of the table body: it holds '│' and none of the header and border glyphs. */
  predicate IsDataLine(line: string) {
    '│' in line && !('┏' in line || '┃' in line || '┗' in line || '┯' in line || '┷' in line)
  }

  function DataLines(lines: seq<string>): (rows: seq<string>)
    ensures |rows| <= |lines|
    ensures forall l :: l in rows <==> l in lines && IsDataLine(l)
  {
    if lines == [] then []
    else
      var rest := DataLines(lines[1..]);
      assert forall l :: l in lines <==> l == lines[0] || l in lines[1..];
      (if IsDataLine(lines[0]) then [lines[0]] else []) + rest
  }

  lemma {:induction false} DataLinesAppend(a: seq<string>, b: seq<string>)
    ensures DataLines(a + b) == DataLines(a) + DataLines(b)
  {
    if a == [] {
      assert a + b == b;
    } else {
      var head := if IsDataLine(a[0]) then [a[0]] else [];
      DataLinesAppend(a[1..], b);
      assert (a + b)[0] == a[0] && (a + b)[1..] == a[1..] + b;
      calc {
        DataLines(a + b);
        head + DataLines(a[1..] + b);
        head + (DataLines(a[1..]) + DataLines(b));
        (head + DataLines(a[1..])) + DataLines(b);
      }
    }
  }

  /** A finished command: exit status and captured output. */
  datatype Completed = Completed(returnCode: int, stdout: string, stderr: string)

  datatype GroupCheck = GroupCheck(hasGroups: bool, count: nat, error: string)

  /**
   * `check_resource_groups` on the result of `list-rg`: on success the
   * table rows are counted; otherwise nothing is counted and the trimmed
   * error output is reported.
   */
  function CheckResourceGroups(result: Completed): (c: GroupCheck)
    ensures result.returnCode != 0 ==> c == GroupCheck(false, 0, Strip(result.stderr))
    ensures result.returnCode == 0 ==> c.error == "" && (c.hasGroups <==> c.count > 0)
    ensures result.returnCode == 0 ==> c.count <= |Split(Strip(result.stdout), '\n')|
    ensures result.returnCode == 0 ==> c.count == |DataLines(Split(Strip(result.stdout), '\n'))|
    ensures result.returnCode == 0 ==>
      (c.hasGroups <==> exists l :: l in Split(Strip(result.stdout), '\n') && IsDataLine(l))
  {
    if result.returnCode == 0 then
      var rows := DataLines(Split(Strip(result.stdout), '\n'));
      assert rows != [] ==> rows[0] in rows;
      GroupCheck(|rows| > 0, |rows|, "")
    else GroupCheck(false, 0, Strip(result.stderr))
  }

  /** Header and border lines add nothing to the count; each body row adds one. */
  lemma RowsCounted(lines: seq<string>, line: string)
    ensures |DataLines(lines + [line])| == |DataLines(lines)| + (if IsDataLine(line) then 1 else 0)
  {
    DataLinesAppend(lines, [line]);
  }

  // ------------------------------------------------------------- invocation

  /** The file one subscription's diagram is written to: `output_dir/<sanitised name>.<format>`. */
  function OutputFile(outputDir: string, subscriptionName: string, format: string): (file: string)
    ensures EndsWith(file, "." + format)
    ensures exists stem :: Sanitized(stem) && file == JoinPath(outputDir, stem + "." + format)
    ensures file == JoinPath(outputDir, Sanitize(subscriptionName) + "." + format)
  {
    var stem := Sanitize(subscriptionName);
    var file := JoinPath(outputDir, stem + "." + format);
    assert file == (outputDir + "/" + stem) + ("." + format);
    file
  }

  /** The output file's stem spells the subscription name's safe characters, in order, with only '_' in between. */
  lemma OutputFileSpellsName(outputDir: string, subscriptionName: string, format: string)
    ensures exists stem :: && OutputFile(outputDir, subscriptionName, format) == JoinPath(outputDir, stem + "." + format)
                           && Sanitized(stem)
                           && Letters(stem) == KeptChars(subscriptionName)
  {
    var stem := Sanitize(subscriptionName);
    SanitizeKeepsContent(subscriptionName);
    assert OutputFile(outputDir, subscriptionName, format) == JoinPath(outputDir, stem + "." + format);
  }

  /** The `export` command line; `--legend` is added last, and only when requested. */
  function ExportArguments(command: string, subscriptionName: string, format: string, file: string,
                           theme: string, includeLegend: bool): (args: seq<string>)
    ensures |args| == if includeLegend then 13 else 12
    ensures includeLegend ==> args[12] == "--legend"
    ensures args[0] == command && args[1] == "export"
    ensures args[2] == "--subscription" && args[3] == subscriptionName
    ensures args[4] == "--format" && args[5] == format
    ensures args[6] == "--output" && args[7] == file
    ensures args[8..12] == ["--theme", theme, "--verbosity", "2"]
  {
    var base := [command, "export", "--subscription", subscriptionName, "--format", format,
                 "--output", file, "--theme", theme, "--verbosity", "2"];
    if includeLegend then base + ["--legend"] else base
  }

  /**
   * The command line asks for a legend exactly when one was requested, as
   * long as no passed-through value is itself the flag.
   */
  lemma LegendFlagIffRequested(command: string, subscriptionName: string, format: string, file: string,
                               theme: string, includeLegend: bool)
    requires "--legend" !in {command, subscriptionName, format, file, theme}
    ensures "--legend" in ExportArguments(command, subscriptionName, format, file, theme, includeLegend) <==> includeLegend
  {
    var args := ExportArguments(command, subscriptionName, format, file, theme, includeLegend);
    if includeLegend {
      assert args[12] == "--legend";
    } else {
      forall i | 0 <= i < |args| ensures args[i] != "--legend" {
        assert i < 8 || args[i] == args[8..12][i - 8];
      }
    }
  }

  /** `generate_diagram`: the file on success, the trimmed error output otherwise. */
  function DiagramOutcome(outputDir: string, subscriptionName: string, format: string,
                          result: Completed): (outcome: (bool, string))
    ensures outcome.0 <==> result.returnCode == 0
    ensures outcome.0 ==> outcome.1 == OutputFile(outputDir, subscriptionName, format)
    ensures !outcome.0 ==> outcome.1 == "Export failed: " + Strip(result.stderr)
  {
    if result.returnCode == 0 then (true, OutputFile(outputDir, subscriptionName, format))
    else (false, "Export failed: " + Strip(result.stderr))
  }
}
