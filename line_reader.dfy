/** The part of reading a line that decides what happens to it
    (loop.c:53-114): removeNewline, and the classification readLine makes once
    fgets has filled the buffer: leave the shell, reject the line, or pass it
    on to the parser. */
module LineReader {
  import opened StageRecord
  import opened Tokenizer

  /** What fgets leaves in the line buffer before its terminator: at most
      MAX_LEN - 1 characters, with a newline at most as the last one. A NUL
      byte read from the input is stored like any other character. */
  predicate FgetsLine(line: string)
  {
    && |line| <= MAX_LEN - 1
    && forall i :: 0 <= i < |line| - 1 ==> line[i] != '\n'
  }

  /** The C string a buffer holds: the characters before its first NUL.
      FindDelim(buf, 0, c) is the index of the first c in buf, or |buf|. */
  function CString(buf: seq<char>): (s: seq<char>)
    ensures '\0' !in s
  {
    FindDelimRun(buf, 0, '\0');
    buf[..FindDelim(buf, 0, '\0')]
  }

  /** A buffer without NUL is its own C string. */
  lemma CStringNoNul(buf: seq<char>)
    requires '\0' !in buf
    ensures CString(buf) == buf
  {
    FindDelimUnique(buf, 0, '\0', |buf|);
  }

  /** The buffer with its first newline, if it has one, overwritten by NUL;
      every other character stays as it was. */
  function NewlineRemoved(buf: seq<char>): (r: seq<char>)
    ensures |r| == |buf|
  {
    var k := FindDelim(buf, 0, '\n');
    if k < |buf| then buf[k := '\0'] else buf
  }

  /** removeNewline: scans the whole buffer and ends the string at its first
      newline. */
  method RemoveNewline(line: array<char>)
    requires line.Length == MAX_LEN
    modifies line
    ensures line[..] == NewlineRemoved(old(line[..]))
  {
    for i := 0 to MAX_LEN
      invariant forall j :: 0 <= j < i ==> line[j] != '\n'
      invariant line[..] == old(line[..])
    {
      if line[i] == '\n' {
        FindDelimUnique(line[..], 0, '\n', i);
        line[i] := '\0';
        return;
      }
    }
    FindDelimUnique(line[..], 0, '\n', MAX_LEN);
  }

  /** With k the index of the first newline of the buffer (or |buf| when it
      has none), removeNewline turns that newline into NUL and changes
      nothing else; a buffer without a newline is left as it was. */
  lemma NewlineRemovedFirstOnly(buf: seq<char>, k: nat)
    requires k <= |buf|
    requires forall j :: 0 <= j < k ==> buf[j] != '\n'
    requires k < |buf| ==> buf[k] == '\n'
    ensures NewlineRemoved(buf) == if k < |buf| then buf[k := '\0'] else buf
  {
    FindDelimUnique(buf, 0, '\n', k);
  }

  /** The string without its trailing newline. */
  function Chomp(line: string): (chomped: string)
  {
    if line != [] && line[|line| - 1] == '\n' then line[..|line| - 1] else line
  }

  /** The text readLine works on once removeNewline has run: the C string
      of what fgets read, without its trailing newline. */
  function LineText(line: string): (text: string)
  {
    Chomp(CString(line))
  }

  /** Whatever follows the terminator fgets writes, removeNewline followed by
      reading the buffer as a C string gives LineText of the line: a newline
      after a NUL read from the input, or in the stale part of the buffer,
      is overwritten without effect. */
  lemma RemoveNewlineEndsString(line: string, rest: seq<char>)
    requires FgetsLine(line)
    ensures CString(NewlineRemoved(line + ['\0'] + rest)) == LineText(line)
  {
    var buf := line + ['\0'] + rest;
    var n := |line|;
    var p := FindDelim(line, 0, '\0');
    FindDelimRun(line, 0, '\0');
    assert forall j :: 0 <= j < n ==> buf[j] == line[j];
    assert buf[n] == '\0';
    FindDelimUnique(buf, 0, '\0', p);
    if p == n && n > 0 && line[n - 1] == '\n' {
      FindDelimUnique(buf, 0, '\n', n - 1);
      var r := buf[n - 1 := '\0'];
      FindDelimUnique(r, 0, '\0', n - 1);
      assert r[..n - 1] == line[..n - 1];
    } else {
      assert forall j :: 0 <= j <= p ==> buf[j] != '\n';
      var k := FindDelim(buf, 0, '\n');
      assert k > p;
      var r := NewlineRemoved(buf);
      assert forall j :: 0 <= j <= p ==> r[j] == buf[j];
      FindDelimUnique(r, 0, '\0', p);
      assert r[..p] == line[..p];
    }
  }

  /** The text holds neither newline nor NUL; unless the line was flagged
      too long it leaves room for the terminator and one more character. */
  lemma LineTextShape(line: string)
    requires FgetsLine(line)
    ensures '\n' !in LineText(line) && '\0' !in LineText(line)
    ensures !TooLong(line) ==> |LineText(line)| <= MAX_LEN - 2
  {
    var n := |line|;
    var p := FindDelim(line, 0, '\0');
    assert CString(line) == line[..p];
    if p == n && n > 0 && line[n - 1] == '\n' {
      assert LineText(line) == line[..n - 1];
    } else {
      assert LineText(line) == line[..p];
      assert forall j :: 0 <= j < p ==> line[j] != '\n';
    }
  }

  /** The first word strtok finds when the text is split on spaces. */
  function FirstWord(s: string): (word: Option<string>)
  {
    var ts := Tokens(s, ' ');
    if ts == [] then None else Some(ts[0])
  }

  /** The first k characters are spaces. */
  predicate LeadingSpaces(s: string, k: nat)
  {
    k <= |s| && forall j :: 0 <= j < k ==> s[j] == ' '
  }

  /** The word "exit" starts at k: the four letters, then a space or the
      end of the text. */
  predicate ExitAt(s: string, k: nat)
  {
    k + 4 <= |s| && s[k..k + 4] == "exit" && (k + 4 == |s| || s[k + 4] == ' ')
  }

  /** After its leading spaces the text starts with the word "exit". */
  predicate StartsWithExit(s: string)
  {
    exists k: nat :: k <= |s| && LeadingSpaces(s, k) && ExitAt(s, k)
  }

  /** strtok finds no word exactly when the text is all spaces. */
  lemma FirstWordNone(s: string)
    ensures FirstWord(s).None? <==> forall j :: 0 <= j < |s| ==> s[j] == ' '
  {
    TokensShape(s, ' ', 0);
  }

  /** The word "exit" after leading spaces is the first word strtok finds. */
  lemma ExitAtIsFirstWord(s: string, k: nat)
    requires LeadingSpaces(s, k) && ExitAt(s, k)
    ensures FirstWord(s) == Some("exit")
  {
    assert s[k] == s[k..k + 4][0];
    SkipDelimsUnique(s, 0, ' ', k);
    assert forall j :: k <= j < k + 4 ==> s[j] == s[k..k + 4][j - k];
    FindDelimUnique(s, k, ' ', k + 4);
    TokensStep(s, ' ', 0, k, k + 4);
  }

  /** A first word "exit" starts after the leading spaces. */
  lemma FirstWordIsExitAt(s: string)
    requires FirstWord(s) == Some("exit")
    ensures LeadingSpaces(s, SkipDelims(s, 0, ' ')) && ExitAt(s, SkipDelims(s, 0, ' '))
  {
    var k := SkipDelims(s, 0, ' ');
    SkipDelimsRun(s, 0, ' ');
    var e := FindDelim(s, k, ' ');
    TokensStep(s, ' ', 0, k, e);
    assert s[k..e] == "exit";
  }

  /** strtok's first word is "exit" exactly when the text starts with that
      word after its leading spaces. */
  lemma FirstWordExit(s: string)
    ensures FirstWord(s) == Some("exit") <==> StartsWithExit(s)
  {
    if FirstWord(s) == Some("exit") {
      FirstWordIsExitAt(s);
    }
    if StartsWithExit(s) {
      var k: nat :| k <= |s| && LeadingSpaces(s, k) && ExitAt(s, k);
      ExitAtIsFirstWord(s, k);
    }
  }

  /** strlen of the buffer is 1024 and the string holds no newline
      (loop.c:66). A NUL read from the input shortens strlen. */
  predicate TooLong(line: string)
  {
    |CString(line)| == MAX_LEN - 1 && '\n' !in CString(line)
  }

  /** What readLine decides about a line: leave the shell with success, reject
      the line, or hand the text to the parser. */
  datatype LineVerdict = Exit | Rejected | Accepted(cmdLine: string)

  /** readLine once fgets has returned a line (loop.c:65-87). A line handed to
      the parser is non-empty, at most MAX_LEN - 2 characters long, free of
      newline and NUL, and holds a character other than a space. */
  function ClassifyLine(line: string): (v: LineVerdict)
    requires FgetsLine(line)
    ensures v.Accepted? ==> 0 < |v.cmdLine| <= MAX_LEN - 2
    ensures v.Accepted? ==> '\n' !in v.cmdLine && '\0' !in v.cmdLine
    ensures v.Accepted? ==> exists j :: 0 <= j < |v.cmdLine| && v.cmdLine[j] != ' '
  {
    var cmd := LineText(line);
    var first := FirstWord(cmd);
    LineTextShape(line);
    FirstWordNone(cmd);
    if first == Some("exit") then Exit
    else if first.None? || TooLong(line) then Rejected
    else Accepted(cmd)
  }

  /** A line whose text starts with the word "exit", after any spaces, leaves
      the shell, even when it filled the buffer and was flagged as too
      long. */
  lemma ExitWinsOverTooLong(line: string)
    requires FgetsLine(line) && StartsWithExit(LineText(line))
    ensures ClassifyLine(line) == Exit
  {
    FirstWordExit(LineText(line));
  }

  /** A line whose text is spaces alone is rejected. */
  lemma BlankLineRejected(line: string)
    requires FgetsLine(line)
    requires forall j :: 0 <= j < |LineText(line)| ==> LineText(line)[j] == ' '
    ensures ClassifyLine(line) == Rejected
  {
    FirstWordNone(LineText(line));
  }

  /** Any other line, one with a character other than a space that does not
      start with the word "exit", is rejected exactly when it was flagged as
      too long, and otherwise its text is passed on. */
  lemma OtherLinesRejectedIffTooLong(line: string)
    requires FgetsLine(line)
    requires exists j :: 0 <= j < |LineText(line)| && LineText(line)[j] != ' '
    requires !StartsWithExit(LineText(line))
    ensures ClassifyLine(line) == Rejected <==> TooLong(line)
    ensures !TooLong(line) ==> ClassifyLine(line) == Accepted(LineText(line))
  {
    FirstWordNone(LineText(line));
    FirstWordExit(LineText(line));
  }

  /** A text of at most MAX_LEN - 2 characters without newline or NUL,
      holding a character other than a space and not starting with the word
      "exit", typed with its newline: fgets returns it whole and readLine
      passes the text on unchanged. */
  lemma PlainLineAccepted(text: string)
    requires |text| <= MAX_LEN - 2 && '\n' !in text && '\0' !in text
    requires exists j :: 0 <= j < |text| && text[j] != ' '
    requires !StartsWithExit(text)
    ensures FgetsLine(text + "\n")
    ensures ClassifyLine(text + "\n") == Accepted(text)
  {
    var line := text + "\n";
    assert forall j :: 0 <= j < |text| ==> line[j] == text[j];
    CStringNoNul(line);
    assert line[..|text|] == text;
    assert LineText(line) == text;
    var j :| 0 <= j < |text| && text[j] != ' ';
    assert LineText(line)[j] != ' ';
    OtherLinesRejectedIffTooLong(line);
  }

  /** A NUL read from the input ends the text, and a line holding one is
      never flagged too long. */
  lemma NulEndsText(line: string, p: nat)
    requires FgetsLine(line) && p < |line| && line[p] == '\0'
    requires forall j :: 0 <= j < p ==> line[j] != '\0'
    ensures LineText(line) == line[..p]
    ensures !TooLong(line)
  {
    FindDelimUnique(line, 0, '\0', p);
    assert forall j :: 0 <= j < p ==> line[j] != '\n';
  }

  /** "ls", a NUL, "x" and the newline: readLine passes "ls" on. */
  lemma NulLineAccepted()
    ensures ClassifyLine("ls\0x\n") == Accepted("ls")
  {
    NulEndsText("ls\0x\n", 2);
    TokensOfWord("ls", ' ');
  }
}
