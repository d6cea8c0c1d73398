/** Splitting a command line into the texts of its stages (loop.c:124-182):
    allSpaces and parseCommandLine. */
module CommandLine {
  import opened StageRecord
  import opened Tokenizer
  import opened LineReader

  /** isspace in the C locale: space, tab, newline, vertical tab, form feed,
      carriage return. */
  predicate IsSpace(c: char)
  {
    c == ' ' || c == '\t' || c == '\n' || c == '\U{000B}' || c == '\U{000C}' || c == '\r'
  }

  /** Every character of s is white space (true of the empty string). */
  predicate AllSpace(s: string)
  {
    forall i :: 0 <= i < |s| ==> IsSpace(s[i])
  }

  /** allSpaces: looks at every character and answers whether all of them
      are white space. */
  method AllSpaces(str: string) returns (allSpace: bool)
    ensures allSpace <==> AllSpace(str)
  {
    allSpace := true;
    for i := 0 to |str|
      invariant allSpace <==> forall j :: 0 <= j < i ==> IsSpace(str[j])
    {
      if !IsSpace(str[i]) {
        allSpace := false;
      }
    }
  }

  /** The index of the first segment made only of white space, or |segs|. */
  function FirstBlank(segs: seq<string>): (k: nat)
    ensures k <= |segs|
    ensures forall j :: 0 <= j < k ==> !AllSpace(segs[j])
    ensures k < |segs| ==> AllSpace(segs[k])
  {
    if segs == [] || AllSpace(segs[0]) then 0 else 1 + FirstBlank(segs[1..])
  }

  datatype LineError = InvalidPipe | TooManyCommands

  /** The stage texts of a line, or why the line is refused. */
  datatype Split = Segments(cmds: seq<string>) | Refused(error: LineError)

  /** A '|' at either end of the line. */
  predicate BarAtEnd(line: string)
    requires line != []
  {
    line[0] == '|' || line[|line| - 1] == '|'
  }

  /** What parseCommandLine makes of a line: a '|' at either end, or a segment
      between bars made only of white space, is an invalid pipe; more than
      MAX_CMDS segments are too many; otherwise the segments in order. Runs of
      bars separate like one bar. */
  function SplitPipeline(line: string): (r: Split)
    requires line != []
    ensures r.Segments? ==> 1 <= |r.cmds| <= MAX_CMDS
    ensures r.Segments? ==> forall k :: 0 <= k < |r.cmds| ==> '|' !in r.cmds[k] && !AllSpace(r.cmds[k])
  {
    if BarAtEnd(line) then Refused(InvalidPipe)
    else
      var segs := Tokens(line, '|');
      TokensShape(line, '|', 0);
      if FirstBlank(segs) < |segs| then Refused(InvalidPipe)
      else if |segs| > MAX_CMDS then Refused(TooManyCommands)
      else Segments(segs)
  }

  /** The segments the loop of loop.c:163-172 reaches and stores before it
      stops: none when a bar ends the line, otherwise those before the first
      blank one. */
  function Examined(line: string): (segs: seq<string>)
    requires line != []
  {
    if BarAtEnd(line) then [] else
      var segs := Tokens(line, '|');
      segs[..FirstBlank(segs)]
  }

  /** The pointer array after the words xs have been stored from slot 0 on,
      as far as the array reaches; the other slots keep their values. */
  function Overlay(a: seq<Option<string>>, xs: seq<string>): (r: seq<Option<string>>)
    ensures |r| == |a|
  {
    seq(|a|, k requires 0 <= k < |a| => if k < |xs| then Some(xs[k]) else a[k])
  }

  /** The number of pointer slots loop.c:169 writes, as written: one for every
      segment examined, with no check against the MAX_CMDS slots of
      allCommands. */
  function SlotsWritten(line: string): (slots: nat)
    requires line != []
  {
    |Examined(line)|
  }

  /** As written, every line refused for too many commands has first written
      past the last slot of allCommands. */
  lemma TooManyCommandsWritesPastArray(line: string)
    requires line != []
    requires SplitPipeline(line) == Refused(TooManyCommands)
    ensures SlotsWritten(line) > MAX_CMDS
  {
  }

  /** A line of n one-letter words separated by d, with its newline, is
      what fgets may return, and is neither too long nor blank. */
  lemma AlternatingFits(n: nat, d: char)
    requires 1 <= n <= 512 && (d == '|' || d == ' ')
    ensures FgetsLine(Alternating(n, d) + "\n")
    ensures LineText(Alternating(n, d) + "\n") == Alternating(n, d)
    ensures !TooLong(Alternating(n, d) + "\n")
  {
    var line := Alternating(n, d);
    var full := line + "\n";
    assert full[..|full| - 1] == line;
    assert full[|full| - 1] == '\n';
    forall i | 0 <= i < |full| - 1 ensures full[i] != '\n' && full[i] != '\0' {
      assert full[i] == line[i];
    }
    CStringNoNul(full);
  }

  /** Such a line starts with the word "a" or "a|a...", never "exit". */
  lemma AlternatingFirstWord(n: nat, d: char)
    requires n >= 1
    ensures FirstWord(Alternating(n, d)).Some?
    ensures FirstWord(Alternating(n, d)) != Some("exit")
  {
    var line := Alternating(n, d);
    SkipDelimsUnique(line, 0, ' ', 0);
    var e := FindDelim(line, 0, ' ');
    TokensStep(line, ' ', 0, 0, e);
    assert Tokens(line, ' ')[0][0] == 'a';
  }

  /** A line of n one-letter words separated by d, and its newline, fits the
      buffer and is passed on to the parser. */
  lemma AlternatingAccepted(n: nat, d: char)
    requires 1 <= n <= 512 && (d == '|' || d == ' ')
    ensures FgetsLine(Alternating(n, d) + "\n")
    ensures ClassifyLine(Alternating(n, d) + "\n") == Accepted(Alternating(n, d))
  {
    AlternatingFits(n, d);
    AlternatingFirstWord(n, d);
  }

  /** Lines that show the overrun: any number n of one-letter stages from 21
      to 512 fits in the buffer, readLine accepts the line, and
      parseCommandLine writes n slots of the 20-slot allCommands before it
      reports too many commands. */
  lemma TooManyCommandsWitness(n: nat)
    requires MAX_CMDS < n <= 512
    ensures ClassifyLine(Alternating(n, '|') + "\n") == Accepted(Alternating(n, '|'))
    ensures SplitPipeline(Alternating(n, '|')) == Refused(TooManyCommands)
    ensures SlotsWritten(Alternating(n, '|')) == n > MAX_CMDS
  {
    AlternatingAccepted(n, '|');
    var line := Alternating(n, '|');
    TokensOfAlternating(n, '|');
    var segs := Tokens(line, '|');
    assert FirstBlank(segs) == n by {
      forall k | 0 <= k < |segs| ensures !AllSpace(segs[k]) {
        assert segs[k][0] == 'a';
      }
    }
    assert segs[..n] == segs;
  }

  /** Two bars in a row separate the same two stages as one bar. */
  lemma DoubleBarIsOneSeparator(a: string, b: string)
    ensures Tokens(a + "||" + b, '|') == Tokens(a + "|" + b, '|')
  {
    assert a + "||" + b == a + ['|'] + ("|" + b);
    assert a + "|" + b == a + ['|'] + b;
    TokensSplit(a, "|" + b, '|');
    TokensSplit(a, b, '|');
    TokensSkip("|" + b, '|');
    assert ("|" + b)[1..] == b;
  }

  /** Two stages, neither blank nor holding a bar, joined by one bar: the
      line splits into exactly those two stages. */
  lemma TwoStagesSplit(a: string, b: string)
    requires a != [] && b != [] && '|' !in a && '|' !in b
    requires !AllSpace(a) && !AllSpace(b)
    ensures SplitPipeline(a + "|" + b) == Segments([a, b])
  {
    var line := a + "|" + b;
    assert line[0] == a[0] && line[|line| - 1] == b[|b| - 1];
    TokensSplit(a, b, '|');
    TokensOfWord(a, '|');
    TokensOfWord(b, '|');
  }

  /** Slot by slot, b holds xs stored over a. */
  lemma OverlayFrom(a: seq<Option<string>>, b: seq<Option<string>>, xs: seq<string>)
    requires |b| == |a|
    requires forall k :: 0 <= k < |a| ==> b[k] == if k < |xs| then Some(xs[k]) else a[k]
    ensures b == Overlay(a, xs)
  {
  }

  /** Storing one more word extends the overlay by one slot while it fits. */
  lemma OverlayPush(a: seq<Option<string>>, xs: seq<string>, x: string)
    ensures |xs| < |a| ==> Overlay(a, xs + [x]) == Overlay(a, xs)[|xs| := Some(x)]
    ensures |xs| >= |a| ==> Overlay(a, xs + [x]) == Overlay(a, xs)
  {
  }

  /** The scan meets a blank segment right after the segments seen so far. */
  lemma FirstBlankAt(segs: seq<string>, seen: seq<string>, remaining: seq<string>)
    requires segs == seen + remaining
    requires forall j :: 0 <= j < |seen| ==> !AllSpace(seen[j])
    requires remaining != [] && AllSpace(remaining[0])
    ensures FirstBlank(segs) == |seen| < |segs|
    ensures segs[..|seen|] == seen
  {
    assert segs[|seen|] == remaining[0];
    assert forall j :: 0 <= j < |seen| ==> segs[j] == seen[j];
  }

  /** The scan ran out of segments without meeting a blank one. */
  lemma FirstBlankNone(segs: seq<string>)
    requires forall j :: 0 <= j < |segs| ==> !AllSpace(segs[j])
    ensures FirstBlank(segs) == |segs|
    ensures segs[..|segs|] == segs
  {
  }

  /** Moving the first element of r to the end of a keeps a + r. */
  lemma MoveFirst<T>(a: seq<T>, r: seq<T>)
    requires r != []
    ensures a + r == (a + [r[0]]) + r[1..]
  {
    assert r == [r[0]] + r[1..];
  }

  /** The loop of loop.c:161-172, corrected: takes the segments one by one
      with strtok, stops at the first blank one, and otherwise stores each in
      the next slot of allCommands. The source stores at allCommands[idx++]
      with no bound (loop.c:169); the guard idx < MAX_CMDS below is the
      correction. SlotsWritten and TooManyCommandsWitness give the slots
      written as the code stands. It reports whether it met a blank segment
      and how many segments it counted before that. */
  method StoreSegments(cmdLine: string, allCommands: array<Option<string>>) returns (blank: bool, cmds: nat)
    requires allCommands.Length == MAX_CMDS
    modifies allCommands
    ensures cmds == FirstBlank(Tokens(cmdLine, '|'))
    ensures blank <==> cmds < |Tokens(cmdLine, '|')|
    ensures allCommands[..] == Overlay(old(allCommands[..]), Tokens(cmdLine, '|')[..cmds])
  {
    ghost var segs := Tokens(cmdLine, '|');
    var idx: nat := 0;
    cmds := 0;
    var command, pos := NextToken(cmdLine, 0, '|');
    ghost var seen: seq<string> := [];
    ghost var remaining := segs;
    OverlayFrom(allCommands[..], allCommands[..], []);
    while command.Some?
      invariant pos <= |cmdLine|
      invariant cmds == idx == |seen|
      invariant segs == seen + remaining
      invariant command.Some? ==> remaining == [command.value] + TokensFrom(cmdLine, pos, '|')
      invariant command.None? ==> remaining == []
      invariant forall j :: 0 <= j < |seen| ==> !AllSpace(seen[j])
      invariant allCommands[..] == Overlay(old(allCommands[..]), seen)
      decreases |cmdLine| - pos + (if command.Some? then 1 else 0)
    {
      var allSpace := AllSpaces(command.value);
      if allSpace {
        FirstBlankAt(segs, seen, remaining);
        return true, cmds;
      }
      OverlayPush(old(allCommands[..]), seen, command.value);
      if idx < MAX_CMDS {
        allCommands[idx] := command;
      }
      idx := idx + 1;
      cmds := cmds + 1;
      MoveFirst(seen, remaining);
      seen := seen + [command.value];
      remaining := remaining[1..];
      command, pos := NextToken(cmdLine, pos, '|');
    }
    assert seen + [] == seen;
    FirstBlankNone(segs);
    blank := false;
  }

  datatype LineStatus = Parsed(numCmds: nat) | Invalid(error: LineError)

  /** parseCommandLine, corrected to store only the segments that fit in
      allCommands (see StoreSegments).
      Its verdict is that of SplitPipeline; on success the first numCmds slots
      hold the stage texts in order. Every slot written lies inside the array. */
  method ParseCommandLine(cmdLine: string, allCommands: array<Option<string>>) returns (r: LineStatus)
    requires cmdLine != [] && allCommands.Length == MAX_CMDS
    modifies allCommands
    ensures r.Parsed? <==> SplitPipeline(cmdLine).Segments?
    ensures r.Parsed? ==> r.numCmds == |SplitPipeline(cmdLine).cmds|
    ensures r.Parsed? ==> forall k :: 0 <= k < r.numCmds ==> allCommands[k] == Some(SplitPipeline(cmdLine).cmds[k])
    ensures r.Invalid? ==> SplitPipeline(cmdLine) == Refused(r.error)
    ensures allCommands[..] == Overlay(old(allCommands[..]), Examined(cmdLine))
  {
    if cmdLine[0] == '|' || cmdLine[|cmdLine| - 1] == '|' {
      OverlayFrom(allCommands[..], allCommands[..], []);
      return Invalid(InvalidPipe);
    }
    var blank, cmds := StoreSegments(cmdLine, allCommands);
    if blank {
      return Invalid(InvalidPipe);
    }
    if cmds > MAX_CMDS {
      return Invalid(TooManyCommands);
    }
    r := Parsed(cmds);
  }
}
