/** GCodeCommandBuilder: a hand-written block of G-code commands, one line
    per non-blank command with its parameter and comment, optionally
    framed by START/END markers and followed by a return to the origin.
    The StringBuilder is modelled as the sequence of lines it receives
    through AppendLine; the text is each line followed by a newline, so the
    empty sequence is the empty string. */
module CommandBuilder {
  import opened Text

  /** One entry of the loop: the command (trimmed and upper-cased), the
      parameter and the comment (trimmed). */
  datatype Entry = Entry(cmd: string, param: string, comment: string)

  /** The parameter or comment of entry i, trimmed; "" past the end of the
      list. */
  function TextAt(xs: seq<string>, i: nat): string
  {
    if i < |xs| then Trim(xs[i]) else ""
  }

  /** Entry i of the loop: parameters and comments are matched to the
      commands by index. */
  function EntryAt(cmds: seq<string>, ps: seq<string>, cs: seq<string>, i: nat): Entry
    requires i < |cmds|
  {
    Entry(ToUpper(Trim(cmds[i])), TextAt(ps, i), TextAt(cs, i))
  }

  /** The line of one command: the command, then " " and the parameter
      when there is one, then " ; " and the comment when there is one. The
      parts are trimmed, so a blank part is an empty one (TrimmedBlank). */
  function CommandLine(e: Entry): string
  {
    e.cmd + (if e.param == [] then "" else " " + e.param)
    + (if e.comment == [] then "" else " ; " + e.comment)
  }

  /** The line of an entry, or nothing when its command is blank. */
  function EntryLines(e: Entry): seq<string>
  {
    if e.cmd == [] then [] else [CommandLine(e)]
  }

  /** The lines of a list of entries, in order. */
  function LinesOf(es: seq<Entry>): seq<string>
  {
    if es == [] then [] else LinesOf(es[..|es| - 1]) + EntryLines(es[|es| - 1])
  }

  /** The first n entries the loop visits. */
  function Entries(cmds: seq<string>, ps: seq<string>, cs: seq<string>, n: nat): (es: seq<Entry>)
    requires n <= |cmds|
    ensures |es| == n
  {
    if n == 0 then [] else Entries(cmds, ps, cs, n - 1) + [EntryAt(cmds, ps, cs, n - 1)]
  }

  /** The command lines of a block. */
  function CommandLines(cmds: seq<string>, ps: seq<string>, cs: seq<string>): seq<string>
  {
    LinesOf(Entries(cmds, ps, cs, |cmds|))
  }

  const ReturnLine := "G0 X0 Y0 ; Return to origin"

  function StartMarker(name: string): string
  {
    "; ---- START OF " + ToUpper(Trim(name)) + " ----"
  }

  function EndMarker(name: string): string
  {
    "; ---- END OF " + ToUpper(Trim(name)) + " ----"
  }

  /** The lines of an enabled block around its command lines. */
  function Frame(newline: bool, named: bool, start: string, body: seq<string>,
                 returnToOrigin: bool, end: string): seq<string>
  {
    (if newline then [""] else [])
    + (if named then [start] else [])
    + body
    + (if returnToOrigin then [ReturnLine] else [])
    + (if named then [end] else [])
  }

  /** The lines of an enabled block. */
  function BlockLines(cmds: seq<string>, ps: seq<string>, cs: seq<string>, newline: bool,
                      name: string, returnToOrigin: bool): seq<string>
  {
    Frame(newline, !IsBlank(name), StartMarker(name), CommandLines(cmds, ps, cs),
          returnToOrigin, EndMarker(name))
  }

  /** SolveInstance: nothing when disabled; otherwise the block. */
  method BuildBlock(cmds: seq<string>, ps: seq<string>, cs: seq<string>, enabled: bool,
                    newline: bool, name: string, returnToOrigin: bool)
    returns (lines: seq<string>)
    ensures lines == (if enabled then BlockLines(cmds, ps, cs, newline, name, returnToOrigin) else [])
  {
    if !enabled {
      return [];
    }
    lines := [];
    if newline {
      lines := lines + [""];
    }
    if !IsBlank(name) {
      lines := lines + [StartMarker(name)];
    }
    ghost var head := lines;
    lines := AppendCommands(lines, cmds, ps, cs);
    ghost var middle := lines;
    if returnToOrigin {
      lines := lines + [ReturnLine];
    }
    if !IsBlank(name) {
      lines := lines + [EndMarker(name)];
    }
    FrameSteps(head, middle, lines, newline, !IsBlank(name), StartMarker(name),
               CommandLines(cmds, ps, cs), returnToOrigin, EndMarker(name));
  }

  /** Appending the parts of a block one after the other builds its
      frame. */
  lemma FrameSteps(head: seq<string>, middle: seq<string>, lines: seq<string>, newline: bool,
                   named: bool, start: string, body: seq<string>, returnToOrigin: bool, end: string)
    requires head == (if newline then [""] else []) + (if named then [start] else [])
    requires middle == head + body
    requires lines == middle + (if returnToOrigin then [ReturnLine] else []) + (if named then [end] else [])
    ensures lines == Frame(newline, named, start, body, returnToOrigin, end)
  {
  }

  /** The loop over the commands: one line per non-blank command. */
  method AppendCommands(lines0: seq<string>, cmds: seq<string>, ps: seq<string>, cs: seq<string>)
    returns (lines: seq<string>)
    ensures lines == lines0 + CommandLines(cmds, ps, cs)
  {
    lines := lines0;
    ghost var seen: seq<Entry> := [];
    for i := 0 to |cmds|
      invariant seen == Entries(cmds, ps, cs, i)
      invariant lines == lines0 + LinesOf(seen)
    {
      var cmd, param, comment := ReadEntry(cmds, ps, cs, i);
      ghost var e := Entry(cmd, param, comment);
      LinesOfSnoc(lines0, seen, e);
      seen := seen + [e];
      if IsBlank(cmd) {
        continue;
      }
      var line := FormatLine(cmd, param, comment);
      lines := lines + [line];
    }
  }

  /** One more entry appends its line, if any. */
  lemma LinesOfSnoc(lines0: seq<string>, es: seq<Entry>, e: Entry)
    ensures lines0 + LinesOf(es + [e]) == lines0 + LinesOf(es) + EntryLines(e)
  {
    assert (es + [e])[..|es|] == es;
  }

  /** The text appended for one non-blank command. */
  method FormatLine(cmd: string, param: string, comment: string) returns (line: string)
    requires IsBlank(param) <==> param == []
    requires IsBlank(comment) <==> comment == []
    ensures line == CommandLine(Entry(cmd, param, comment))
  {
    line := cmd;
    if !IsBlank(param) {
      line := line + " " + param;
    }
    if !IsBlank(comment) {
      line := line + " ; " + comment;
    }
  }

  /** The trimmed command, parameter and comment of entry i. */
  method ReadEntry(cmds: seq<string>, ps: seq<string>, cs: seq<string>, i: nat)
    returns (cmd: string, param: string, comment: string)
    requires i < |cmds|
    ensures Entry(cmd, param, comment) == EntryAt(cmds, ps, cs, i)
    ensures IsBlank(cmd) <==> cmd == []
    ensures IsBlank(param) <==> param == []
    ensures IsBlank(comment) <==> comment == []
  {
    cmd := ToUpper(Trim(cmds[i]));
    param := if i < |ps| then Trim(ps[i]) else "";
    comment := if i < |cs| then Trim(cs[i]) else "";
    TrimmedBlank(cmds[i]);
    if i < |ps| {
      TrimmedBlank(ps[i]);
    }
    if i < |cs| {
      TrimmedBlank(cs[i]);
    }
  }

  /** A trimmed part is blank exactly when it is empty, with or without
      upper-casing, and exactly when the untrimmed text was blank. So a
      marker is emitted exactly when the label it carries is not empty. */
  lemma TrimmedBlank(s: string)
    ensures IsBlank(Trim(s)) <==> Trim(s) == []
    ensures IsBlank(ToUpper(Trim(s))) <==> ToUpper(Trim(s)) == []
    ensures IsBlank(s) <==> ToUpper(Trim(s)) == []
  {
    TrimBlank(s);
    ToUpperKeepsBlank(Trim(s));
  }

  /** The frame of a block: a blank line first when asked; the start
      marker right after it and the end marker last, both iff the block is
      named; the return line right after the command lines and before the
      end marker, iff asked. */
  lemma FrameShape(newline: bool, named: bool, start: string, body: seq<string>,
                   returnToOrigin: bool, end: string)
    ensures var b := Frame(newline, named, start, body, returnToOrigin, end);
            var lead := (if newline then 1 else 0) + (if named then 1 else 0);
            var tail := (if returnToOrigin then 1 else 0) + (if named then 1 else 0);
            && |b| == lead + |body| + tail
            && (newline ==> b[0] == "")
            && (named ==> b[lead - 1] == start && b[|b| - 1] == end)
            && b[lead..lead + |body|] == body
            && (returnToOrigin ==> b[lead + |body|] == ReturnLine)
            && (returnToOrigin && !named ==> b[|b| - 1] == ReturnLine)
  {
  }

  /** Entry i of the list is the loop's entry i. */
  lemma EntriesIndex(cmds: seq<string>, ps: seq<string>, cs: seq<string>, n: nat)
    requires n <= |cmds|
    ensures forall i :: 0 <= i < n ==> Entries(cmds, ps, cs, n)[i] == EntryAt(cmds, ps, cs, i)
  {
    forall i | 0 <= i < n ensures Entries(cmds, ps, cs, n)[i] == EntryAt(cmds, ps, cs, i) {
      EntryOfEntries(cmds, ps, cs, n, i);
    }
  }

  /** The same, for one index. */
  lemma {:induction false} EntryOfEntries(cmds: seq<string>, ps: seq<string>, cs: seq<string>, n: nat, i: nat)
    requires i < n <= |cmds|
    ensures Entries(cmds, ps, cs, n)[i] == EntryAt(cmds, ps, cs, i)
  {
    if i < n - 1 {
      EntryOfEntries(cmds, ps, cs, n - 1, i);
    }
  }

  /** The indices of the entries with a non-empty command, in order. */
  function Selected(es: seq<Entry>): (r: seq<nat>)
    ensures forall k :: 0 <= k < |r| ==> r[k] < |es|
  {
    if es == [] then []
    else Selected(es[..|es| - 1]) + (if es[|es| - 1].cmd == [] then [] else [|es| - 1])
  }

  /** The selected indices are exactly the entries with a non-empty
      command, strictly increasing. */
  lemma {:induction false} SelectedFacts(es: seq<Entry>)
    ensures forall i :: 0 <= i < |es| ==> (i in Selected(es) <==> es[i].cmd != [])
    ensures forall k, m :: 0 <= k < m < |Selected(es)| ==> Selected(es)[k] < Selected(es)[m]
  {
    if es != [] {
      var init := es[..|es| - 1];
      SelectedFacts(init);
      assert forall i :: 0 <= i < |init| ==> es[i] == init[i];
    }
  }

  /** The lines are those of the entries with a non-empty command, one
      each, in input order. */
  lemma {:induction false} LinesAreSelected(es: seq<Entry>)
    ensures var sel := Selected(es);
            |LinesOf(es)| == |sel|
            && forall k :: 0 <= k < |sel| ==> LinesOf(es)[k] == CommandLine(es[sel[k]])
  {
    if es != [] {
      var init := es[..|es| - 1];
      LinesAreSelected(init);
      assert forall i :: 0 <= i < |init| ==> es[i] == init[i];
    }
  }

  /** A command line starts with its command; the parameter follows after
      one space exactly when there is one; the comment closes the line
      after " ; " exactly when there is one. */
  lemma CommandLineShape(e: Entry)
    ensures var line := CommandLine(e);
            && line[..|e.cmd|] == e.cmd
            && |line| == |e.cmd| + (if e.param == [] then 0 else 1 + |e.param|)
                         + (if e.comment == [] then 0 else 3 + |e.comment|)
            && (e.param != [] ==> line[|e.cmd|..|e.cmd| + 1 + |e.param|] == " " + e.param)
            && (e.comment != [] ==> line[|line| - |e.comment| - 3..] == " ; " + e.comment)
  {
  }

  /** Entries are matched by index: the lines depend on the i-th trimmed
      parameter and comment only. */
  lemma {:induction false} MatchedByIndex(cmds: seq<string>, ps: seq<string>, cs: seq<string>,
                                          ps': seq<string>, cs': seq<string>, n: nat)
    requires n <= |cmds|
    requires forall i :: 0 <= i < n ==> TextAt(ps, i) == TextAt(ps', i) && TextAt(cs, i) == TextAt(cs', i)
    ensures Entries(cmds, ps, cs, n) == Entries(cmds, ps', cs', n)
  {
    if n > 0 {
      MatchedByIndex(cmds, ps, cs, ps', cs', n - 1);
      assert EntryAt(cmds, ps, cs, n - 1) == EntryAt(cmds, ps', cs', n - 1);
    }
  }

  /** Extra parameters and comments beyond the commands are ignored. */
  lemma ExtrasIgnored(cmds: seq<string>, ps: seq<string>, cs: seq<string>,
                      moreP: seq<string>, moreC: seq<string>)
    requires |cmds| <= |ps| && |cmds| <= |cs|
    ensures CommandLines(cmds, ps + moreP, cs + moreC) == CommandLines(cmds, ps, cs)
  {
    forall i | 0 <= i < |cmds|
      ensures TextAt(ps + moreP, i) == TextAt(ps, i) && TextAt(cs + moreC, i) == TextAt(cs, i)
    {
      assert (ps + moreP)[i] == ps[i];
      assert (cs + moreC)[i] == cs[i];
    }
    MatchedByIndex(cmds, ps + moreP, cs + moreC, ps, cs, |cmds|);
  }

  /** Missing parameters and comments behave as empty ones: padding both
      lists with "" up to the number of commands changes nothing. */
  lemma MissingIsEmpty(cmds: seq<string>, ps: seq<string>, cs: seq<string>)
    requires |ps| <= |cmds| && |cs| <= |cmds|
    ensures CommandLines(cmds, ps, cs)
              == CommandLines(cmds, ps + seq(|cmds| - |ps|, _ => ""), cs + seq(|cmds| - |cs|, _ => ""))
  {
    var ps' := ps + seq(|cmds| - |ps|, _ => "");
    var cs' := cs + seq(|cmds| - |cs|, _ => "");
    assert Trim("") == "";
    forall i | 0 <= i < |cmds|
      ensures TextAt(ps, i) == TextAt(ps', i) && TextAt(cs, i) == TextAt(cs', i)
    {
      if i >= |ps| {
        assert ps'[i] == "";
      } else {
        assert ps'[i] == ps[i];
      }
      if i >= |cs| {
        assert cs'[i] == "";
      } else {
        assert cs'[i] == cs[i];
      }
    }
    MatchedByIndex(cmds, ps, cs, ps', cs', |cmds|);
  }
}
