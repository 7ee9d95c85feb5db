/**
 * The fallback of the migration script: the schema text cut into statements, one line at a
 * time, keeping dollar-quoted function bodies whole.
 */
module Migrate {
  import opened Text

  /** The loop's variables: the statements so far, the text gathered since the last boundary, and the `$$` flag. */
  datatype ScanState = ScanState(statements: seq<string>, current: string, inFunction: bool)

  /** A line containing `$$` flips the flag, once however many times it appears. */
  function Toggled(inFunction: bool, line: string): bool {
    if Contains(line, "$$") then !inFunction else inFunction
  }

  /** A boundary: outside a function body, a line whose trimmed text ends with `;`. */
  predicate EndsStatement(inFunction: bool, line: string) {
    !inFunction && EndsWith(Trim(line), ";")
  }

  /** A finished chunk is kept when, trimmed, it is non-empty and does not start with `--`. */
  predicate Kept(stmt: string) {
    stmt != "" && !StartsWith(stmt, "--")
  }

  /** One pass of the loop body over `line`. */
  function Step(st: ScanState, line: string): ScanState {
    var current := st.current + line + "\n";
    var inFunction := Toggled(st.inFunction, line);
    if EndsStatement(inFunction, line) then
      var stmt := Trim(current);
      ScanState(if Kept(stmt) then st.statements + [stmt] else st.statements, "", inFunction)
    else
      ScanState(st.statements, current, inFunction)
  }

  /** The loop's variables after the given lines. */
  function Scan(lines: seq<string>): ScanState
    decreases |lines|
  {
    if |lines| == 0 then ScanState([], "", false)
    else Step(Scan(lines[..|lines| - 1]), lines[|lines| - 1])
  }

  /** The statement list the fallback executes, one by one, for the schema text. */
  method SplitStatements(schema: string) returns (statements: seq<string>)
    ensures statements == Scan(Split(schema, '\n')).statements
  {
    var lines := Split(schema, '\n');
    statements := [];
    var current, inFunction := "", false;
    for i := 0 to |lines|
      invariant ScanState(statements, current, inFunction) == Scan(lines[..i])
    {
      var line := lines[i];
      assert lines[..i + 1][..i] == lines[..i];
      current := current + line + "\n";
      if Contains(line, "$$") {
        inFunction := !inFunction;
      }
      if !inFunction && EndsWith(Trim(line), ";") {
        var stmt := Trim(current);
        if stmt != "" && !StartsWith(stmt, "--") {
          statements := statements + [stmt];
        }
        current := "";
      }
    }
    assert lines[..|lines|] == lines;
  }

  // ---------------------------------------------------------------------------
  // Properties of the splitter

  /** Every statement is non-empty, does not start with `--`, and ends with `;`. */
  predicate WellShaped(stmt: string) {
    stmt != "" && !StartsWith(stmt, "--") && EndsWith(stmt, ";")
  }

  lemma {:induction false} StatementsWellShaped(lines: seq<string>)
    ensures forall k :: 0 <= k < |Scan(lines).statements| ==> WellShaped(Scan(lines).statements[k])
    decreases |lines|
  {
    if |lines| > 0 {
      var st, line := Scan(lines[..|lines| - 1]), lines[|lines| - 1];
      StatementsWellShaped(lines[..|lines| - 1]);
      var inFunction := Toggled(st.inFunction, line);
      if EndsStatement(inFunction, line) {
        var current := st.current + line + "\n";
        LastNonBlankOf(st.current, line, "\n");
        TrimEndsAt(current, |st.current| + |TrimEnd(line)| - 1);
      }
    }
  }

  /** How many of the lines contain `$$`. */
  function DollarLines(lines: seq<string>): nat {
    if |lines| == 0 then 0
    else DollarLines(lines[..|lines| - 1]) + if Contains(lines[|lines| - 1], "$$") then 1 else 0
  }

  /** The loop is inside a function body exactly after an odd number of `$$` lines. */
  lemma {:induction false} InFunctionParity(lines: seq<string>)
    ensures Scan(lines).inFunction <==> DollarLines(lines) % 2 == 1
    decreases |lines|
  {
    if |lines| > 0 {
      InFunctionParity(lines[..|lines| - 1]);
    }
  }

  /** Inside a function body no line ends a statement: the line is only gathered. */
  lemma NoBoundaryInsideFunction(st: ScanState, line: string)
    ensures Step(st, line).inFunction ==>
      Step(st, line).statements == st.statements && Step(st, line).current == st.current + line + "\n"
  {
  }

  /**
   * Text after the last boundary is never emitted: lines none of which ends with `;` add no
   * statement (there is no flush after the loop).
   */
  lemma {:induction false} TrailingTextDropped(lines: seq<string>, more: seq<string>)
    requires forall k :: 0 <= k < |more| ==> !EndsWith(Trim(more[k]), ";")
    ensures Scan(lines + more).statements == Scan(lines).statements
    decreases |more|
  {
    if |more| > 0 {
      var shorter := more[..|more| - 1];
      TrailingTextDropped(lines, shorter);
      assert (lines + more)[..|lines + more| - 1] == lines + shorter;
      assert (lines + more)[|lines + more| - 1] == more[|more| - 1];
      assert !EndsWith(Trim(more[|more| - 1]), ";");
    } else {
      assert lines + more == lines;
    }
  }

  /**
   * At a statement start, a `--` comment line followed by a line ending with `;` swallows
   * that statement: both are gathered into one chunk, which starts with `--` and is dropped.
   */
  lemma CommentSwallowsStatement(st: ScanState, comment: string, line: string)
    requires st.current == "" && !st.inFunction
    requires StartsWith(comment, "--") && !EndsWith(Trim(comment), ";") && !Contains(comment, "$$")
    requires EndsWith(Trim(line), ";") && !Contains(line, "$$")
    ensures Step(Step(st, comment), line) == ScanState(st.statements, "", false)
  {
    var first := Step(st, comment);
    assert first.current == comment + "\n" && !first.inFunction;
    var current := comment + "\n" + line + "\n";
    assert first.current + line + "\n" == current;
    LastNonBlankOf(comment + "\n", line, "\n");
    var p := |comment + "\n"| + |TrimEnd(line)| - 1;
    assert current[0] == '-' && current[1] == '-';
    TrimKeepsHead(current, p);
    assert Trim(current)[..2] == "--";
  }

  // ---------------------------------------------------------------------------
  // Where each statement comes from

  /** The lines, each followed by `\n`, as `current` gathers them. */
  function Gathered(lines: seq<string>): string
    decreases |lines|
  {
    if |lines| == 0 then "" else Gathered(lines[..|lines| - 1]) + lines[|lines| - 1] + "\n"
  }

  /**
   * The line ranges `[from, to)` of the emitted statements, and the first line of the text
   * gathered since the last boundary.
   */
  ghost function Spans(lines: seq<string>): (r: (seq<(nat, nat)>, nat))
    decreases |lines|
  {
    if |lines| == 0 then ([], 0)
    else
      var n, prefix, line := |lines|, lines[..|lines| - 1], lines[|lines| - 1];
      var spans, start := Spans(prefix).0, Spans(prefix).1;
      var st := Scan(prefix);
      var inFunction := Toggled(st.inFunction, line);
      if EndsStatement(inFunction, line) then
        (if Kept(Trim(st.current + line + "\n")) then spans + [(start, n)] else spans, n)
      else (spans, start)
  }

  /**
   * Statements come out in source order, and each is the trimmed text of a run of consecutive
   * input lines, each followed by `\n`; the pending text is the run since the last boundary.
   */
  lemma {:induction false} StatementsAreLineRuns(lines: seq<string>)
    ensures var spans, start, st := Spans(lines).0, Spans(lines).1, Scan(lines);
      && |spans| == |st.statements|
      && start <= |lines|
      && st.current == Gathered(lines[start..])
      && (forall k :: 0 <= k < |spans| ==>
            && spans[k].0 < spans[k].1 <= start
            && st.statements[k] == Trim(Gathered(lines[spans[k].0..spans[k].1])))
      && (forall k, l :: 0 <= k < l < |spans| ==> spans[k].1 <= spans[l].0)
    decreases |lines|
  {
    if |lines| > 0 {
      var n, prefix, line := |lines|, lines[..|lines| - 1], lines[|lines| - 1];
      StatementsAreLineRuns(prefix);
      var spans0, start := Spans(prefix).0, Spans(prefix).1;
      var st := Scan(prefix);
      assert lines[start..][..|lines[start..]| - 1] == prefix[start..];
      assert Gathered(lines[start..]) == st.current + line + "\n";
      forall k | 0 <= k < |spans0|
        ensures st.statements[k] == Trim(Gathered(lines[spans0[k].0..spans0[k].1]))
      {
        assert lines[spans0[k].0..spans0[k].1] == prefix[spans0[k].0..spans0[k].1];
      }
      assert lines[n..] == [];
      assert lines[start..n] == lines[start..];
    }
  }
}
