/** Turning the text of each stage into a pipeStage record (loop.c:184-304
    and resetStage, loop.c:445-456): splitWords, redirectSymbols,
    redirectionCheck, commandCheck, parseCommand and makeStages. */
module StageBuilder {
  import opened StageRecord
  import opened Tokenizer
  import opened LineReader
  import opened CommandLine

  // ---------------------------------------------------------------------
  // Words

  /** splitWords: the words strtok finds when the stage text is split on
      spaces alone (a tab stays inside its word), in order. A text of n
      characters has at most (n + 1) / 2 of them. */
  method SplitWords(command: string) returns (words: seq<string>)
    ensures words == Tokens(command, ' ')
    ensures 2 * |words| <= |command| + 1
  {
    var curWord, pos := NextToken(command, 0, ' ');
    words := [];
    while curWord.Some?
      invariant pos <= |command|
      invariant curWord.Some? ==> Tokens(command, ' ') == words + [curWord.value] + TokensFrom(command, pos, ' ')
      invariant curWord.None? ==> Tokens(command, ' ') == words
      decreases |command| - pos + (if curWord.Some? then 1 else 0)
    {
      words := words + [curWord.value];
      curWord, pos := NextToken(command, pos, ' ');
      if curWord.None? {
        assert words + [] == words;
      }
    }
    TokenCountBound(command, ' ', 0);
  }

  /** The slots of the words array of loop.c:219 that splitWords writes, as
      written: one per word and one for the terminating NULL. */
  function WordSlotsWritten(command: string): (slots: nat)
  {
    |Tokens(command, ' ')| + 1
  }

  /** A line of n one-letter words, for n up to 512, is accepted by
      readLine, is a single stage for parseCommandLine, and splitWords writes
      n + 1 slots for it. */
  lemma OneLetterWordsLine(n: nat)
    requires 1 <= n <= 512
    ensures ClassifyLine(Alternating(n, ' ') + "\n") == Accepted(Alternating(n, ' '))
    ensures SplitPipeline(Alternating(n, ' ')) == Segments([Alternating(n, ' ')])
    ensures WordSlotsWritten(Alternating(n, ' ')) == n + 1
  {
    var line := Alternating(n, ' ');
    AlternatingAccepted(n, ' ');
    TokensOfAlternating(n, ' ');
    assert '|' !in line;
    TokensOfWord(line, '|');
    assert !AllSpace(line) by {
      assert !IsSpace(line[0]);
    }
  }

  /** As written, the words array is one slot short: a line of 512 one-letter
      words is accepted by readLine, is a single stage for parseCommandLine,
      and splitWords writes 513 slots of the MAX_WORDS-slot array. */
  lemma SplitWordsOverrunWitness()
    ensures ClassifyLine(Alternating(MAX_WORDS, ' ') + "\n") == Accepted(Alternating(MAX_WORDS, ' '))
    ensures SplitPipeline(Alternating(MAX_WORDS, ' ')) == Segments([Alternating(MAX_WORDS, ' ')])
    ensures WordSlotsWritten(Alternating(MAX_WORDS, ' ')) == MAX_WORDS + 1
  {
    OneLetterWordsLine(MAX_WORDS);
  }

  /** With the terminator kept out of the word list, every stage of every
      accepted line fits: at most MAX_WORDS words, so MAX_WORDS + 1 slots
      hold them and the NULL. */
  lemma WordsFit(line: string, k: nat)
    requires FgetsLine(line) && ClassifyLine(line).Accepted?
    requires SplitPipeline(ClassifyLine(line).cmdLine).Segments?
    requires k < |SplitPipeline(ClassifyLine(line).cmdLine).cmds|
    ensures |Tokens(SplitPipeline(ClassifyLine(line).cmdLine).cmds[k], ' ')| <= MAX_WORDS
  {
    var cmdLine := ClassifyLine(line).cmdLine;
    TokenLengthBound(cmdLine, '|', 0);
    TokenCountBound(SplitPipeline(cmdLine).cmds[k], ' ', 0);
  }

  // ---------------------------------------------------------------------
  // How a word list reads

  /** redirectSymbols: the word holds a '<' or a '>' somewhere, that is,
      strchr finds one of them before the end of the word. */
  predicate RedirectSymbols(symbol: string): (r: bool)
    ensures r <==> FindDelim(symbol, 0, '<') < |symbol| || FindDelim(symbol, 0, '>') < |symbol|
  {
    FindDelimRun(symbol, 0, '<');
    FindDelimRun(symbol, 0, '>');
    '<' in symbol || '>' in symbol
  }

  /** One unit of a stage as parseCommand reads it: a program or argument
      word, an operator with the word after it as its path, or an operator
      with nothing after it. */
  datatype Item = Plain(word: string) | Redirect(op: string, target: string) | Dangling(op: string)

  /** The unit that starts at word i: a program word, an operator with the
      next word as its path, or an operator that ends the list. */
  function Head(ws: seq<string>, i: nat): (item: Item)
    requires i < |ws|
  {
    if !RedirectSymbols(ws[i]) then Plain(ws[i])
    else if i + 1 == |ws| then Dangling(ws[i])
    else Redirect(ws[i], ws[i + 1])
  }

  /** The number of words that unit takes. */
  function Step(ws: seq<string>, i: nat): (n: nat)
    requires i < |ws|
    ensures 1 <= n && i + n <= |ws|
  {
    if RedirectSymbols(ws[i]) && i + 1 < |ws| then 2 else 1
  }

  /** The units of a word list from index i on, left to right. An operator
      takes the next word as its path whatever that word is, even another
      operator. */
  function ItemsFrom(ws: seq<string>, i: nat): (items: seq<Item>)
    requires i <= |ws|
    decreases |ws| - i
  {
    if i == |ws| then [] else [Head(ws, i)] + ItemsFrom(ws, i + Step(ws, i))
  }

  function Items(ws: seq<string>): (items: seq<Item>)
  {
    ItemsFrom(ws, 0)
  }

  /** The words the units were read from. */
  function Words(items: seq<Item>): (ws: seq<string>)
  {
    if items == [] then []
    else
      var first := match items[0]
        case Plain(w) => [w]
        case Redirect(op, t) => [op, t]
        case Dangling(op) => [op];
      first + Words(items[1..])
  }

  lemma WordsCons(x: Item, rest: seq<Item>)
    ensures Words([x] + rest) == Words([x]) + Words(rest)
  {
    assert ([x] + rest)[1..] == rest;
    assert [x][1..] == [];
  }

  /** Reading a word list into units loses and adds no word. */
  lemma {:induction false} ItemsWords(ws: seq<string>, i: nat)
    requires i <= |ws|
    ensures Words(ItemsFrom(ws, i)) == ws[i..]
    decreases |ws| - i
  {
    if i < |ws| {
      var n := Step(ws, i);
      ItemsWords(ws, i + n);
      WordsCons(Head(ws, i), ItemsFrom(ws, i + n));
      if n == 2 {
        assert ws[i..] == [ws[i], ws[i + 1]] + ws[i + 2..];
      } else {
        assert ws[i..] == [ws[i]] + ws[i + 1..];
      }
    }
  }

  /** Only the last unit can be an operator without a path. */
  lemma {:induction false} DanglingOnlyLast(ws: seq<string>, i: nat)
    requires i <= |ws|
    ensures forall k :: 0 <= k < |ItemsFrom(ws, i)| - 1 ==> !ItemsFrom(ws, i)[k].Dangling?
    decreases |ws| - i
  {
    if i < |ws| {
      var n := Step(ws, i);
      var rest := ItemsFrom(ws, i + n);
      DanglingOnlyLast(ws, i + n);
      if Head(ws, i).Dangling? {
        assert rest == [];
      }
      assert forall k :: 1 <= k < |rest| + 1 ==> ([Head(ws, i)] + rest)[k] == rest[k - 1];
    }
  }

  /** Program and argument words, in order. */
  function Plains(items: seq<Item>): (ps: seq<string>)
    ensures |ps| <= |items|
  {
    if items == [] then [] else (if items[0].Plain? then [items[0].word] else []) + Plains(items[1..])
  }

  /** The units end with an operator that has no path (only the last unit
      can be one). */
  predicate HasDangling(items: seq<Item>)
  {
    items != [] && items[|items| - 1].Dangling?
  }

  predicate AnyRedirect(items: seq<Item>)
  {
    exists k :: 0 <= k < |items| && items[k].Redirect?
  }

  /** An operator sets the input path when it holds '<', the output path
      otherwise. */
  predicate SetsInput(op: string)
  {
    '<' in op
  }

  /** The unit sets the path of the given direction. */
  predicate Sets(item: Item, input: bool)
  {
    item.Redirect? && SetsInput(item.op) == input
  }

  /** The path of one direction after the units, starting from d: each
      operator of that direction overwrites what the earlier ones set. */
  function LastTarget(items: seq<Item>, input: bool, d: Option<string>): (target: Option<string>)
  {
    if items == [] then d
    else
      var d' := if Sets(items[0], input) then Some(items[0].target) else d;
      LastTarget(items[1..], input, d')
  }

  /** The argument vector with the words ws stored in the slots at, at + 1,
      and so on, as far as the vector reaches; the other slots keep their
      values. */
  function Place(args: ArgVector, at: nat, ws: seq<string>): (placed: ArgVector)
    decreases |ws|
  {
    if ws == [] then args
    else
      var rest := Place(args, at + 1, ws[1..]);
      if at < ARG_SLOTS then rest[at := Some(ws[0])] else rest
  }

  /** Slot by slot: the slots from at on hold the words, the others are
      untouched. */
  lemma {:induction false} PlaceSlot(args: ArgVector, at: nat, ws: seq<string>, k: nat)
    requires k < ARG_SLOTS
    ensures Place(args, at, ws)[k] == if at <= k < at + |ws| then Some(ws[k - at]) else args[k]
    decreases |ws|
  {
    if ws != [] {
      PlaceSlot(args, at + 1, ws[1..], k);
    }
  }

  /** Storing one more word after the others fills the next slot, if there
      is one. */
  lemma PlaceSnoc(args: ArgVector, at: nat, ws: seq<string>, w: string)
    ensures at + |ws| < ARG_SLOTS ==> Place(args, at, ws + [w]) == Place(args, at, ws)[at + |ws| := Some(w)]
    ensures at + |ws| >= ARG_SLOTS ==> Place(args, at, ws + [w]) == Place(args, at, ws)
  {
    var a := Place(args, at, ws + [w]);
    var b := Place(args, at, ws);
    forall k | 0 <= k < ARG_SLOTS
      ensures a[k] == if k == at + |ws| then Some(w) else b[k]
    {
      PlaceSlot(args, at, ws + [w], k);
      PlaceSlot(args, at, ws, k);
    }
  }

  /** Storing ps and then run after it is storing ps + run. */
  lemma PlaceConcat(args: ArgVector, ps: seq<string>, run: seq<string>)
    ensures Place(args, 0, ps + run) == Place(Place(args, 0, ps), |ps|, run)
  {
    var a := Place(args, 0, ps + run);
    var b := Place(Place(args, 0, ps), |ps|, run);
    forall k | 0 <= k < ARG_SLOTS ensures a[k] == b[k] {
      PlaceSlot(args, 0, ps + run, k);
      PlaceSlot(Place(args, 0, ps), |ps|, run, k);
      PlaceSlot(args, 0, ps, k);
    }
  }

  /** The record after the units have been applied to init without error:
      the first program word is the file, the program words fill the argument
      slots from slot 0 and leave the slots after them as they were, any
      operator sets the flag, and each path is the last one given. */
  function Applied(items: seq<Item>, init: PipeStage): (stage: PipeStage)
  {
    var ps := Plains(items);
    PipeStage(
      if ps == [] then init.file else Some(ps[0]),
      Place(init.args, 0, ps),
      init.redirection || AnyRedirect(items),
      LastTarget(items, true, init.inFile),
      LastTarget(items, false, init.outFile))
  }

  datatype StageError = TooManyArguments(program: string) | SyntaxError

  /** Why parseCommand fails on a word list: more than MAX_ARGS words after
      the program word (named by the program word), or an operator that ends
      the list. The argument count is checked word by word before the list
      ends, so it wins when both apply. */
  function BuildError(ws: seq<string>): (e: Option<StageError>)
  {
    var items := Items(ws);
    var ps := Plains(items);
    if |ps| > MAX_ARGS + 1 then Some(TooManyArguments(ps[0]))
    else if HasDangling(items) then Some(SyntaxError)
    else None
  }

  /** The record parseCommand leaves, starting from init: cleared after an
      error, the units applied otherwise. */
  function BuiltStage(ws: seq<string>, init: PipeStage): (st: PipeStage)
  {
    if BuildError(ws).Some? then ClearedStage() else Applied(Items(ws), init)
  }

  // ---------------------------------------------------------------------
  // Facts about the units

  /** The plain units of the words ws[i..e]. */
  function PlainRun(ws: seq<string>, i: nat, e: nat): (run: seq<Item>)
    requires i <= e <= |ws|
    decreases e - i
  {
    if i == e then [] else [Plain(ws[i])] + PlainRun(ws, i + 1, e)
  }

  lemma {:induction false} PlainsConcat(a: seq<Item>, b: seq<Item>)
    ensures Plains(a + b) == Plains(a) + Plains(b)
    decreases |a|
  {
    if a != [] {
      assert (a + b)[1..] == a[1..] + b;
      PlainsConcat(a[1..], b);
    } else {
      assert a + b == b;
    }
  }

  lemma {:induction false} LastTargetConcat(a: seq<Item>, b: seq<Item>, input: bool, d: Option<string>)
    ensures LastTarget(a + b, input, d) == LastTarget(b, input, LastTarget(a, input, d))
    decreases |a|
  {
    if a != [] {
      assert (a + b)[1..] == a[1..] + b;
      var d' := if Sets(a[0], input) then Some(a[0].target) else d;
      LastTargetConcat(a[1..], b, input, d');
    } else {
      assert a + b == b;
    }
  }

  /** What a single unit contributes. */
  lemma SingleItem(x: Item, input: bool, d: Option<string>)
    ensures Plains([x]) == if x.Plain? then [x.word] else []
    ensures LastTarget([x], input, d) == if Sets(x, input) then Some(x.target) else d
    ensures AnyRedirect([x]) == x.Redirect?
  {
    assert [x][1..] == [];
    assert [x][0] == x;
  }

  lemma {:induction false} PlainRunOnly(ws: seq<string>, i: nat, e: nat, input: bool, d: Option<string>)
    requires i <= e <= |ws|
    ensures Plains(PlainRun(ws, i, e)) == ws[i..e]
    ensures LastTarget(PlainRun(ws, i, e), input, d) == d
    ensures forall k :: 0 <= k < |PlainRun(ws, i, e)| ==> PlainRun(ws, i, e)[k].Plain?
    decreases e - i
  {
    if i < e {
      PlainRunOnly(ws, i + 1, e, input, d);
      var x := Plain(ws[i]);
      var rest := PlainRun(ws, i + 1, e);
      assert ([x] + rest)[1..] == rest;
      assert ws[i..e] == [ws[i]] + ws[i + 1..e];
    }
  }

  /** A run of program words reads as that many plain units. */
  lemma {:induction false} ItemsRun(ws: seq<string>, i: nat, e: nat)
    requires i <= e <= |ws|
    requires forall j :: i <= j < e ==> !RedirectSymbols(ws[j])
    ensures ItemsFrom(ws, i) == PlainRun(ws, i, e) + ItemsFrom(ws, e)
    decreases e - i
  {
    if i < e {
      ItemsRun(ws, i + 1, e);
    }
  }

  /** Every unit is followed by the units after its words. */
  lemma ItemsFromCons(ws: seq<string>, i: nat)
    requires i < |ws|
    ensures ItemsFrom(ws, i) == [Head(ws, i)] + ItemsFrom(ws, i + Step(ws, i))
  {
  }

  /** Only the words a unit takes decide it. */
  lemma HeadAgree(a: seq<string>, i: nat, b: seq<string>, j: nat)
    requires i < |a| && j < |b| && a[i] == b[j]
    requires RedirectSymbols(a[i]) ==> (i + 1 < |a| <==> j + 1 < |b|)
    requires RedirectSymbols(a[i]) && i + 1 < |a| ==> a[i + 1] == b[j + 1]
    ensures Head(a, i) == Head(b, j) && Step(a, i) == Step(b, j)
  {
  }

  /** Two lists that agree on the words of the unit at a[i] and b[j] start
      there with the same unit, followed by what comes after it. */
  lemma ConsAgree(a: seq<string>, i: nat, b: seq<string>, j: nat)
    requires i < |a| && j < |b| && a[i] == b[j]
    requires RedirectSymbols(a[i]) ==> (i + 1 < |a| <==> j + 1 < |b|)
    requires RedirectSymbols(a[i]) && i + 1 < |a| ==> a[i + 1] == b[j + 1]
    ensures ItemsFrom(a, i) == [Head(a, i)] + ItemsFrom(a, i + Step(a, i))
    ensures ItemsFrom(b, j) == [Head(a, i)] + ItemsFrom(b, j + Step(a, i))
  {
    HeadAgree(a, i, b, j);
    ItemsFromCons(a, i);
    ItemsFromCons(b, j);
  }

  /** What comes before position |p| does not change the units read. */
  lemma {:induction false} ItemsShift(p: seq<string>, b: seq<string>, j: nat)
    requires j <= |b|
    ensures ItemsFrom(p + b, |p| + j) == ItemsFrom(b, j)
    decreases |b| - j
  {
    if j < |b| {
      var t := p + b;
      assert t[|p| + j] == b[j];
      if j + 1 < |b| {
        assert t[|p| + j + 1] == b[j + 1];
      }
      ConsAgree(b, j, t, |p| + j);
      var k := j + Step(b, j);
      ItemsShift(p, b, k);
    }
  }

  /** In a list without a dangling operator, the first unit is not one and
      the units after it have none either. */
  lemma HeadNotDangling(a: seq<string>, i: nat)
    requires i < |a| && !HasDangling(ItemsFrom(a, i))
    ensures !Head(a, i).Dangling?
    ensures !HasDangling(ItemsFrom(a, i + Step(a, i)))
  {
    ItemsFromCons(a, i);
    var h := Head(a, i);
    var rest := ItemsFrom(a, i + Step(a, i));
    assert ([h] + rest)[|rest|] == if rest == [] then h else rest[|rest| - 1];
  }

  /** A unit of a that is not dangling is read the same way in a + b. */
  lemma ConcatCons(a: seq<string>, b: seq<string>, i: nat)
    requires i < |a| && !Head(a, i).Dangling?
    ensures ItemsFrom(a, i) == [Head(a, i)] + ItemsFrom(a, i + Step(a, i))
    ensures ItemsFrom(a + b, i) == [Head(a, i)] + ItemsFrom(a + b, i + Step(a, i))
  {
    var t := a + b;
    assert t[i] == a[i];
    if RedirectSymbols(a[i]) {
      assert t[i + 1] == a[i + 1];
    }
    ConsAgree(a, i, t, i);
  }

  /** After the units of a prefix without a dangling operator, the units of
      the rest follow. */
  lemma {:induction false} ItemsConcatFrom(a: seq<string>, b: seq<string>, i: nat)
    requires i <= |a|
    requires !HasDangling(ItemsFrom(a, i))
    ensures ItemsFrom(a + b, i) == ItemsFrom(a, i) + Items(b)
    decreases |a| - i
  {
    if i == |a| {
      ItemsShift(a, b, 0);
    } else {
      HeadNotDangling(a, i);
      ConcatCons(a, b, i);
      var k := i + Step(a, i);
      ItemsConcatFrom(a, b, k);
      assert [Head(a, i)] + (ItemsFrom(a, k) + Items(b)) == ([Head(a, i)] + ItemsFrom(a, k)) + Items(b);
    }
  }

  /** Last write wins: with an operator of the given direction at index k and
      none after it, the path is that operator's target; with none at all
      (k = -1), the starting value is kept. */
  lemma {:induction false} LastWriteWins(items: seq<Item>, input: bool, d: Option<string>, k: int)
    requires -1 <= k < |items|
    requires k >= 0 ==> Sets(items[k], input)
    requires forall j :: k < j < |items| ==> !Sets(items[j], input)
    ensures LastTarget(items, input, d) == if k >= 0 then Some(items[k].target) else d
    decreases |items|
  {
    if items != [] {
      var d' := if Sets(items[0], input) then Some(items[0].target) else d;
      if k <= 0 {
        LastWriteWins(items[1..], input, d', -1);
      } else {
        LastWriteWins(items[1..], input, d', k - 1);
      }
    }
  }

  /** The index of the last operator of the given direction, or -1. */
  function LastMatching(items: seq<Item>, input: bool): (k: int)
    ensures -1 <= k < |items|
    ensures k >= 0 ==> Sets(items[k], input)
    ensures forall j :: k < j < |items| ==> !Sets(items[j], input)
  {
    if items == [] then -1
    else if Sets(items[|items| - 1], input) then |items| - 1
    else LastMatching(items[..|items| - 1], input)
  }

  /** Starting from no path, a path is set exactly when an operator of that
      direction appeared. */
  lemma TargetSetIffOperator(items: seq<Item>, input: bool)
    ensures LastTarget(items, input, None).Some? <==> exists k :: 0 <= k < |items| && Sets(items[k], input)
  {
    LastWriteWins(items, input, None, LastMatching(items, input));
  }

  // ---------------------------------------------------------------------
  // The operations

  /** resetStage: every pointer of the record NULL, every argument slot
      included, and the flag cleared. */
  method ResetStage(stage: PipeStage) returns (cleared: PipeStage)
    ensures cleared == ClearedStage()
  {
    var args := stage.args;
    for i := 0 to ARG_SLOTS
      invariant forall j :: 0 <= j < i ==> args[j] == None
    {
      args := args[i := None];
    }
    assert args == NoArgs();
    cleared := stage.(redirection := false, file := None, inFile := None, outFile := None, args := args);
  }

  /** redirectionCheck at the operator words[curIdx]: marks the record as
      redirected; with no word after the operator it reports a syntax error
      and clears the record; otherwise the word after it becomes the input
      path when the operator holds '<' and the output path when it does not.
      Either way the scan moves past the word after the operator. */
  method RedirectionCheck(words: seq<string>, curIdx: nat, stage: PipeStage)
    returns (stage': PipeStage, curIdx': nat, syntaxError: bool)
    requires curIdx < |words|
    ensures curIdx' == curIdx + 1
    ensures syntaxError <==> curIdx + 1 == |words|
    ensures syntaxError ==> stage' == ClearedStage()
    ensures !syntaxError && SetsInput(words[curIdx]) ==>
      stage' == stage.(redirection := true, inFile := Some(words[curIdx + 1]))
    ensures !syntaxError && !SetsInput(words[curIdx]) ==>
      stage' == stage.(redirection := true, outFile := Some(words[curIdx + 1]))
  {
    stage' := stage.(redirection := true);
    syntaxError := false;
    if curIdx + 1 == |words| {
      stage' := ResetStage(stage');
      syntaxError := true;
    } else if '<' !in words[curIdx] {
      stage' := stage'.(outFile := Some(words[curIdx + 1]));
    } else {
      stage' := stage'.(inFile := Some(words[curIdx + 1]));
    }
    curIdx' := curIdx + 1;
  }

  /** The end of the run of program words starting at i: the first operator
      at or after i, or the end of the list. */
  function RunEnd(words: seq<string>, i: nat): (e: nat)
    requires i <= |words|
    ensures i <= e <= |words|
    ensures e < |words| ==> RedirectSymbols(words[e])
    decreases |words| - i
  {
    if i == |words| || RedirectSymbols(words[i]) then i else RunEnd(words, i + 1)
  }

  /** Every word of the run is a program word. */
  lemma {:induction false} RunEndRun(words: seq<string>, i: nat)
    requires i <= |words|
    ensures forall j :: i <= j < RunEnd(words, i) ==> !RedirectSymbols(words[j])
    decreases |words| - i
  {
    if i < |words| && !RedirectSymbols(words[i]) {
      RunEndRun(words, i + 1);
    }
  }

  /** commandCheck at the program word words[curIdx]: the first program word
      of the stage becomes the file; the run of program words up to the next
      operator fills the argument slots from argIdx on. It fails, clearing the
      record and naming args[0], once more than MAX_ARGS words follow the
      program word; otherwise the scan resumes at the last word of the run. */
  method CommandCheck(words: seq<string>, curIdx: nat, argCount: int, argIdx: nat, stage: PipeStage)
    returns (failed: bool, name: Option<string>, curIdx': nat, argCount': int, argIdx': nat, stage': PipeStage)
    requires curIdx < |words| && !RedirectSymbols(words[curIdx])
    requires argIdx <= MAX_ARGS + 1 && argCount == argIdx - 1
    ensures failed <==> argIdx + (RunEnd(words, curIdx) - curIdx) > MAX_ARGS + 1
    ensures failed ==> stage' == ClearedStage()
    ensures failed ==> name == if argIdx == 0 then Some(words[curIdx]) else stage.args[0]
    ensures !failed ==> curIdx' + 1 == RunEnd(words, curIdx)
    ensures !failed ==> argIdx' == argIdx + (RunEnd(words, curIdx) - curIdx) && argCount' == argIdx' - 1
    ensures !failed ==> stage' == stage.(
      file := if argIdx == 0 then Some(words[curIdx]) else stage.file,
      args := Place(stage.args, argIdx, words[curIdx..RunEnd(words, curIdx)]))
  {
    var idx := curIdx;
    stage' := stage;
    if argIdx == 0 {
      stage' := stage'.(file := Some(words[idx]));
    }
    argIdx', argCount' := argIdx, argCount;
    ghost var e := RunEnd(words, curIdx);
    RunEndRun(words, curIdx);
    while idx < |words| && !RedirectSymbols(words[idx])
      invariant curIdx <= idx <= e
      invariant argIdx' == argIdx + (idx - curIdx) <= MAX_ARGS + 1
      invariant argCount' == argIdx' - 1
      invariant stage' == stage.(
        file := if argIdx == 0 then Some(words[curIdx]) else stage.file,
        args := Place(stage.args, argIdx, words[curIdx..idx]))
    {
      PlaceSnoc(stage.args, argIdx, words[curIdx..idx], words[idx]);
      assert words[curIdx..idx + 1] == words[curIdx..idx] + [words[idx]];
      stage' := stage'.(args := stage'.args[argIdx' := Some(words[idx])]);
      argIdx' := argIdx' + 1;
      idx := idx + 1;
      argCount' := argCount' + 1;
      if argCount' > MAX_ARGS {
        PlaceSlot(stage.args, argIdx, words[curIdx..idx], 0);
        name := stage'.args[0];
        stage' := ResetStage(stage');
        failed, curIdx' := true, idx;
        return;
      }
    }
    failed, name, curIdx' := false, None, idx - 1;
  }

  /** What the scan of parseCommand knows before the word at i: the units so
      far are done, none of them failed, and the record and the argument
      index reflect them. */
  predicate Scanned(words: seq<string>, i: nat, done: seq<Item>, init: PipeStage, stage: PipeStage, argIdx: nat)
  {
    && i <= |words|
    && Items(words) == done + ItemsFrom(words, i)
    && !HasDangling(done)
    && argIdx == |Plains(done)| <= MAX_ARGS + 1
    && stage == Applied(done, init)
  }

  /** Appending program words adds no operator. */
  lemma AnyRedirectPlain(done: seq<Item>, ws: seq<string>, i: nat, e: nat)
    requires i <= e <= |ws|
    ensures AnyRedirect(done + PlainRun(ws, i, e)) == AnyRedirect(done)
  {
    var run := PlainRun(ws, i, e);
    var done' := done + run;
    PlainRunOnly(ws, i, e, true, None);
    forall j | |done| <= j < |done'| ensures done'[j].Plain? {
      assert done'[j] == run[j - |done|];
    }
    if AnyRedirect(done') {
      var k :| 0 <= k < |done'| && done'[k].Redirect?;
      assert k < |done| && done[k] == done'[k];
    }
    if AnyRedirect(done) {
      var k :| 0 <= k < |done| && done[k].Redirect?;
      assert done'[k] == done[k];
    }
  }

  /** Applying a run of program words after done fills the next argument
      slots and, for the first program word, the file. */
  lemma AppliedRun(done: seq<Item>, ws: seq<string>, i: nat, e: nat, init: PipeStage)
    requires i < e <= |ws|
    ensures var ps := Plains(done);
      Applied(done + PlainRun(ws, i, e), init) == Applied(done, init).(
        file := if ps == [] then Some(ws[i]) else Applied(done, init).file,
        args := Place(Applied(done, init).args, |ps|, ws[i..e]))
  {
    var run := PlainRun(ws, i, e);
    PlainRunOnly(ws, i, e, true, LastTarget(done, true, init.inFile));
    PlainRunOnly(ws, i, e, false, LastTarget(done, false, init.outFile));
    PlainsConcat(done, run);
    LastTargetConcat(done, run, true, init.inFile);
    LastTargetConcat(done, run, false, init.outFile);
    AnyRedirectPlain(done, ws, i, e);
    PlaceConcat(init.args, Plains(done), ws[i..e]);
  }

  /** A run of program words that fits keeps the scan going after it. */
  lemma RunStep(words: seq<string>, i: nat, done: seq<Item>, init: PipeStage, stage: PipeStage, argIdx: nat)
    requires Scanned(words, i, done, init, stage, argIdx)
    requires i < |words| && !RedirectSymbols(words[i])
    requires argIdx + (RunEnd(words, i) - i) <= MAX_ARGS + 1
    ensures var e := RunEnd(words, i);
      Scanned(words, e, done + PlainRun(words, i, e), init,
        stage.(file := if argIdx == 0 then Some(words[i]) else stage.file,
               args := Place(stage.args, argIdx, words[i..e])),
        argIdx + (e - i))
  {
    var e := RunEnd(words, i);
    var run := PlainRun(words, i, e);
    var done' := done + run;
    RunEndRun(words, i);
    ItemsRun(words, i, e);
    AppliedRun(done, words, i, e, init);
    PlainsConcat(done, run);
    PlainRunOnly(words, i, e, true, init.inFile);
    assert done'[|done'| - 1] == run[|run| - 1];
  }

  /** The program words of the stage, split around the run that starts
      at i. */
  lemma RunPlains(words: seq<string>, i: nat, done: seq<Item>)
    requires i <= |words| && Items(words) == done + ItemsFrom(words, i)
    ensures var e := RunEnd(words, i);
      Plains(Items(words)) == Plains(done) + words[i..e] + Plains(ItemsFrom(words, e))
  {
    var e := RunEnd(words, i);
    var run := PlainRun(words, i, e);
    RunEndRun(words, i);
    ItemsRun(words, i, e);
    assert done + (run + ItemsFrom(words, e)) == (done + run) + ItemsFrom(words, e);
    PlainsConcat(done + run, ItemsFrom(words, e));
    PlainsConcat(done, run);
    PlainRunOnly(words, i, e, true, None);
  }

  /** A run of program words that does not fit makes the whole stage fail
      with too many arguments, named by the program word. */
  lemma RunOverflow(words: seq<string>, i: nat, done: seq<Item>, init: PipeStage, stage: PipeStage, argIdx: nat)
    requires Scanned(words, i, done, init, stage, argIdx)
    requires i < |words| && !RedirectSymbols(words[i])
    requires argIdx + (RunEnd(words, i) - i) > MAX_ARGS + 1
    ensures BuildError(words) == Some(TooManyArguments(if argIdx == 0 then words[i] else stage.args[0].value))
  {
    var e := RunEnd(words, i);
    RunPlains(words, i, done);
    var ps := Plains(done);
    var all := Plains(Items(words));
    assert |all| > MAX_ARGS + 1;
    assert all[0] == if ps == [] then words[i] else ps[0];
    if ps != [] {
      PlaceSlot(init.args, 0, ps, 0);
    }
  }

  /** Applying an operator with a path after done sets the flag and the
      path of its direction, and nothing else. */
  lemma AppliedRedirect(done: seq<Item>, item: Item, init: PipeStage)
    requires item.Redirect?
    ensures Plains(done + [item]) == Plains(done)
    ensures Applied(done + [item], init) ==
      if SetsInput(item.op) then Applied(done, init).(redirection := true, inFile := Some(item.target))
      else Applied(done, init).(redirection := true, outFile := Some(item.target))
  {
    var done' := done + [item];
    PlainsConcat(done, [item]);
    SingleItem(item, true, LastTarget(done, true, init.inFile));
    SingleItem(item, false, LastTarget(done, false, init.outFile));
    LastTargetConcat(done, [item], true, init.inFile);
    LastTargetConcat(done, [item], false, init.outFile);
    assert Plains(done) + [] == Plains(done);
    assert done'[|done|] == item;
    assert AnyRedirect(done');
  }

  /** An operator with a path keeps the scan going after its path. */
  lemma RedirectStep(words: seq<string>, i: nat, done: seq<Item>, init: PipeStage, stage: PipeStage, argIdx: nat)
    requires Scanned(words, i, done, init, stage, argIdx)
    requires i + 1 < |words| && RedirectSymbols(words[i])
    ensures Scanned(words, i + 2, done + [Redirect(words[i], words[i + 1])], init,
      if SetsInput(words[i]) then stage.(redirection := true, inFile := Some(words[i + 1]))
      else stage.(redirection := true, outFile := Some(words[i + 1])),
      argIdx)
  {
    var item := Redirect(words[i], words[i + 1]);
    var done' := done + [item];
    var rest := ItemsFrom(words, i + 2);
    ItemsFromCons(words, i);
    assert done + ([item] + rest) == done' + rest;
    AppliedRedirect(done, item, init);
    assert done'[|done|] == item;
  }

  /** An operator that ends the list makes the stage fail with a syntax
      error, unless the argument count has failed first. */
  lemma DanglingStep(words: seq<string>, i: nat, done: seq<Item>, init: PipeStage, stage: PipeStage, argIdx: nat)
    requires Scanned(words, i, done, init, stage, argIdx)
    requires i + 1 == |words| && RedirectSymbols(words[i])
    ensures BuildError(words) == Some(SyntaxError)
  {
    var item := Dangling(words[i]);
    var done' := done + [item];
    ItemsFromCons(words, i);
    assert ItemsFrom(words, i + 1) == [];
    assert done + ([item] + []) == done';
    PlainsConcat(done, [item]);
    SingleItem(item, true, None);
    assert Plains(done) + [] == Plains(done);
    assert done'[|done|] == item;
  }

  lemma EndStep(words: seq<string>, done: seq<Item>, init: PipeStage, stage: PipeStage, argIdx: nat)
    requires Scanned(words, |words|, done, init, stage, argIdx)
    ensures BuildError(words) == None && BuiltStage(words, init) == stage
  {
    assert Items(words) == done;
  }

  /** parseCommand: reads the words of one stage into the record it is given.
      The verdict is BuildError of the words and the record is BuiltStage of
      the words over what the record held before: cleared after an error, and
      otherwise only the fields and slots the words set are changed. */
  method ParseCommand(command: string, stage: PipeStage) returns (failure: Option<StageError>, stage': PipeStage)
    ensures failure == BuildError(Tokens(command, ' '))
    ensures stage' == BuiltStage(Tokens(command, ' '), stage)
  {
    var words := SplitWords(command);
    var i: nat, argIdx: nat, argCount: int := 0, 0, -1;
    var syntaxError := false;
    stage' := stage;
    ghost var done: seq<Item> := [];
    while i < |words|
      invariant !syntaxError ==> Scanned(words, i, done, stage, stage', argIdx) && argCount == argIdx - 1
      invariant syntaxError ==> i == |words| + 1 && stage' == ClearedStage() && BuildError(words) == Some(SyntaxError)
      decreases |words| + 1 - i
    {
      if RedirectSymbols(words[i]) {
        if i + 1 < |words| {
          RedirectStep(words, i, done, stage, stage', argIdx);
          done := done + [Redirect(words[i], words[i + 1])];
        } else {
          DanglingStep(words, i, done, stage, stage', argIdx);
        }
        stage', i, syntaxError := RedirectionCheck(words, i, stage');
      } else {
        ghost var e := RunEnd(words, i);
        ghost var run := PlainRun(words, i, e);
        if argIdx + (e - i) > MAX_ARGS + 1 {
          RunOverflow(words, i, done, stage, stage', argIdx);
        } else {
          RunStep(words, i, done, stage, stage', argIdx);
        }
        var failed, name;
        failed, name, i, argCount, argIdx, stage' := CommandCheck(words, i, argCount, argIdx, stage');
        if failed {
          return Some(TooManyArguments(name.value)), stage';
        }
        done := done + run;
      }
      i := i + 1;
    }
    if syntaxError {
      failure := Some(SyntaxError);
    } else {
      EndStep(words, done, stage, stage', argIdx);
      failure := None;
    }
  }

  // ---------------------------------------------------------------------
  // All stages of a line

  /** The verdict of parseCommand on a stage text. */
  function StageVerdict(command: string): (e: Option<StageError>)
  {
    BuildError(Tokens(command, ' '))
  }

  /** The record parseCommand leaves when it parses a stage text into a
      cleared record. */
  function ParsedStage(command: string): (stage: PipeStage)
  {
    BuiltStage(Tokens(command, ' '), ClearedStage())
  }

  /** The index of the first stage text that fails to parse, or n. */
  function FirstFailing(commands: seq<Option<string>>, n: nat): (f: nat)
    requires n <= |commands| && forall k :: 0 <= k < n ==> commands[k].Some?
    ensures f <= n
  {
    if n == 0 then 0
    else
      var f := FirstFailing(commands, n - 1);
      if f < n - 1 then f
      else if StageVerdict(commands[n - 1].value).Some? then n - 1
      else n
  }

  /** Every stage before the first failing one parses, and that one fails. */
  lemma {:induction false} FirstFailingSpec(commands: seq<Option<string>>, n: nat)
    requires n <= |commands| && forall k :: 0 <= k < n ==> commands[k].Some?
    ensures forall k :: 0 <= k < FirstFailing(commands, n) ==> StageVerdict(commands[k].value).None?
    ensures FirstFailing(commands, n) < n ==> StageVerdict(commands[FirstFailing(commands, n)].value).Some?
  {
    if n > 0 {
      FirstFailingSpec(commands, n - 1);
    }
  }

  /** One stage of makeStages as corrected: the record is cleared, then the
      stage text is parsed into it. As written, loop.c:202 parses over the
      record as it stands (StaleStageLeaks). */
  method ParseFresh(command: string, stage: PipeStage) returns (failure: Option<StageError>, stage': PipeStage)
    ensures failure == StageVerdict(command)
    ensures stage' == ParsedStage(command)
  {
    var cleared := ResetStage(stage);
    failure, stage' := ParseCommand(command, cleared);
  }

  /** The records of the first n stage texts, each parsed into a cleared
      record. */
  function ParsedStages(commands: seq<Option<string>>, n: nat): (r: seq<PipeStage>)
    requires n <= |commands| && forall k :: 0 <= k < n ==> commands[k].Some?
    ensures |r| == n
  {
    if n == 0 then [] else ParsedStages(commands, n - 1) + [ParsedStage(commands[n - 1].value)]
  }

  /** Record k of the list is the one parsed from stage text k. */
  lemma {:induction false} ParsedStagesAt(commands: seq<Option<string>>, n: nat, k: nat)
    requires n <= |commands| && forall k :: 0 <= k < n ==> commands[k].Some?
    requires k < n
    ensures ParsedStages(commands, n)[k] == ParsedStage(commands[k].value)
  {
    if k < n - 1 {
      ParsedStagesAt(commands, n - 1, k);
    }
  }

  /** The number of records makeStages writes: up to and including the
      first failing stage, or all of them. */
  function Written(commands: seq<Option<string>>, n: nat): (m: nat)
    requires n <= |commands| && forall k :: 0 <= k < n ==> commands[k].Some?
    ensures m <= n
  {
    var f := FirstFailing(commands, n);
    if f < n then f + 1 else n
  }

  /** Storing the next record after the ones written so far. */
  lemma StoreNext(done: seq<PipeStage>, initial: seq<PipeStage>, i: nat, x: PipeStage)
    requires |done| == i < |initial|
    ensures (done + initial[i..])[i := x] == (done + [x]) + initial[i + 1..]
  {
  }

  /** makeStages corrected so that each record is cleared before its stage
      is parsed into it; StaleStageLeaks shows what the code as written
      does instead. The stages are parsed in order until one fails; that one's error is
      the verdict. The records up to and including the failing one, or all
      of them, hold the records parsed from their texts over cleared records;
      the records after them are untouched. */
  method MakeStages(commands: seq<Option<string>>, numCmds: nat, stages: array<PipeStage>)
    returns (failure: Option<StageError>)
    requires |commands| == MAX_CMDS && stages.Length == MAX_CMDS && numCmds <= MAX_CMDS
    requires forall k :: 0 <= k < numCmds ==> commands[k].Some?
    modifies stages
    ensures failure.None? <==> FirstFailing(commands, numCmds) == numCmds
    ensures failure.Some? ==> failure == StageVerdict(commands[FirstFailing(commands, numCmds)].value)
    ensures stages[..] == ParsedStages(commands, Written(commands, numCmds)) + old(stages[..])[Written(commands, numCmds)..]
  {
    ghost var f := FirstFailing(commands, numCmds);
    ghost var initial := stages[..];
    FirstFailingSpec(commands, numCmds);
    for i := 0 to numCmds
      invariant i <= f
      invariant stages[..] == ParsedStages(commands, i) + initial[i..]
    {
      var stage;
      failure, stage := ParseFresh(commands[i].value, stages[i]);
      StoreNext(ParsedStages(commands, i), initial, i, stage);
      stages[i] := stage;
      if failure.Some? {
        assert f == i;
        return;
      }
    }
    failure := None;
  }

  // ---------------------------------------------------------------------
  // What a parsed stage holds

  /** The words before the first NULL slot are the only list the slots
      spell out. */
  lemma {:induction false} ArgvUnique(args: seq<Option<string>>, ps: seq<string>)
    requires |ps| < |args| && args[|ps|] == None
    requires forall k :: 0 <= k < |ps| ==> args[k] == Some(ps[k])
    ensures Argv(args) == ps
    decreases |ps|
  {
    if ps != [] {
      ArgvUnique(args[1..], ps[1..]);
    }
  }

  /** Over a cleared record, the list execvp sees is exactly the program
      words, in order: the slot after the last one is still NULL. */
  lemma ArgvIsProgramWords(ws: seq<string>)
    requires BuildError(ws).None?
    ensures Argv(BuiltStage(ws, ClearedStage()).args) == Plains(Items(ws))
  {
    var ps := Plains(Items(ws));
    var args := BuiltStage(ws, ClearedStage()).args;
    forall k | 0 <= k < ARG_SLOTS ensures args[k] == if k < |ps| then Some(ps[k]) else None {
      PlaceSlot(NoArgs(), 0, ps, k);
    }
    ArgvUnique(args, ps);
  }

  /** The first program word is both the file and args[0]. */
  lemma FileIsFirstArgument(ws: seq<string>, init: PipeStage)
    requires BuildError(ws).None? && Plains(Items(ws)) != []
    ensures BuiltStage(ws, init).file == Some(Plains(Items(ws))[0])
    ensures BuiltStage(ws, init).args[0] == BuiltStage(ws, init).file
  {
    PlaceSlot(init.args, 0, Plains(Items(ws)), 0);
  }

  /** Neither an operator nor its path enters the arguments: inserting a
      redirection between two word lists leaves the arguments those of the
      two lists. */
  lemma RedirectionNotArgument(a: seq<string>, op: string, path: string, b: seq<string>)
    requires !HasDangling(Items(a)) && RedirectSymbols(op)
    ensures Plains(Items(a + [op, path] + b)) == Plains(Items(a)) + Plains(Items(b))
  {
    var r := [op, path] + b;
    ItemsConcatFrom(a, r, 0);
    assert a + [op, path] + b == a + r;
    assert r[0] == op && r[1] == path;
    assert Items(r) == [Redirect(op, path)] + ItemsFrom(r, 2);
    ItemsShift([op, path], b, 0);
    PlainsConcat([Redirect(op, path)], ItemsFrom(r, 2));
    PlainsConcat(Items(a), Items(r));
  }

  /** Over a cleared record the flag is set exactly when a path is; over any
      other record the flag and paths are those of the record unless an
      operator sets them. */
  lemma RedirectionFlagMatchesPaths(ws: seq<string>)
    requires BuildError(ws).None?
    ensures var st := BuiltStage(ws, ClearedStage());
      st.redirection <==> st.inFile.Some? || st.outFile.Some?
  {
    var items := Items(ws);
    TargetSetIffOperator(items, true);
    TargetSetIffOperator(items, false);
    if AnyRedirect(items) {
      var k :| 0 <= k < |items| && items[k].Redirect?;
      assert Sets(items[k], SetsInput(items[k].op));
    }
  }

  /** The arguments are accepted up to the program word and MAX_ARGS more;
      one more word is too many, named by the program word. */
  lemma ArgumentLimit(ws: seq<string>)
    requires forall j :: 0 <= j < |ws| ==> !RedirectSymbols(ws[j])
    ensures |ws| <= MAX_ARGS + 1 ==> BuildError(ws).None?
    ensures |ws| > MAX_ARGS + 1 ==> BuildError(ws) == Some(TooManyArguments(ws[0]))
  {
    var run := PlainRun(ws, 0, |ws|);
    ItemsRun(ws, 0, |ws|);
    assert ItemsFrom(ws, |ws|) == [];
    assert run + [] == run;
    assert ws[0..|ws|] == ws;
    PlainRunOnly(ws, 0, |ws|, true, None);
    if ws != [] {
      assert run[|run| - 1].Plain?;
    }
  }

  /** A stage of redirections alone parses without error and names no
      program. */
  lemma RedirectionOnlyStage(op: string, path: string)
    requires RedirectSymbols(op)
    ensures BuildError([op, path]).None?
    ensures BuiltStage([op, path], ClearedStage()).file == None
    ensures BuiltStage([op, path], ClearedStage()).redirection
  {
    var w := [op, path];
    assert ItemsFrom(w, 2) == [];
    assert Items(w) == [Redirect(op, path)];
    SingleItem(Redirect(op, path), true, None);
  }

  /** "cat < in" parses and leaves the record redirected from "in". */
  lemma CatFromIn()
    ensures BuildError(["cat", "<", "in"]).None?
    ensures BuiltStage(["cat", "<", "in"], ClearedStage()).inFile == Some("in")
  {
    var w := ["cat", "<", "in"];
    assert !RedirectSymbols("cat") && RedirectSymbols("<");
    assert ItemsFrom(w, 1) == [Redirect("<", "in")];
    assert Items(w) == [Plain("cat"), Redirect("<", "in")];
  }

  /** "ls" parsed over a record keeps that record's paths and flag. */
  lemma LsKeepsPaths(init: PipeStage)
    ensures BuildError(["ls"]).None?
    ensures BuiltStage(["ls"], init).redirection == init.redirection
    ensures BuiltStage(["ls"], init).inFile == init.inFile
  {
    var w := ["ls"];
    assert !RedirectSymbols("ls");
    assert ItemsFrom(w, 1) == [];
    assert Items(w) == [Plain("ls")];
    SingleItem(Plain("ls"), true, init.inFile);
    SingleItem(Plain("ls"), false, init.outFile);
  }

  /** The second stage of the stale-record witness below: " a a ... a",
      n words "a". */
  function WordsStage(n: nat): (stage: string)
    requires n >= 1
    ensures |stage| == 2 * n
    ensures forall j :: 0 <= j < |stage| ==> stage[j] == ' ' || stage[j] == 'a'
    ensures Tokens(stage, ' ') == seq(n, _ => "a")
  {
    var stage := [' '] + Alternating(n, ' ');
    TokensSkip(stage, ' ');
    assert stage[1..] == Alternating(n, ' ');
    TokensOfAlternating(n, ' ');
    stage
  }

  /** The line "cat < in | a a ... a", n words "a" after the bar. */
  function StaleLine(n: nat): (line: string)
    requires n >= 1
    ensures |line| == 2 * n + 10
  {
    "cat < in " + "|" + WordsStage(n)
  }

  /** splitWords gives cat, < and in for the first stage. */
  lemma CatStageWords()
    ensures Tokens("cat < in ", ' ') == ["cat", "<", "in"]
  {
    var ws := ["cat", "<", "in"];
    assert Spaced(ws, ' ') == "cat < in ";
    TokensOfSpaced(ws, ' ');
  }

  /** readLine passes the line on while it fits the buffer. */
  lemma StaleLineAccepted(n: nat)
    requires 1 <= n <= 500
    ensures FgetsLine(StaleLine(n) + "\n") && ClassifyLine(StaleLine(n) + "\n") == Accepted(StaleLine(n))
  {
    var line := StaleLine(n);
    var cat, words := "cat < in ", WordsStage(n);
    forall i | 0 <= i < |line| ensures line[i] != '\n' && line[i] != '\0' {
      if 10 <= i {
        assert line[i] == words[i - 10];
      } else if i < 9 {
        assert line[i] == cat[i];
      }
    }
    assert line == "cat" + line[3..];
    TokensWord("cat", line[3..], ' ');
    FirstWordExit(line);
    assert line[0] != ' ';
    PlainLineAccepted(line);
  }

  /** parseCommandLine splits the line into its two stages. */
  lemma StaleLineSplits(n: nat)
    requires n >= 1
    ensures SplitPipeline(StaleLine(n)) == Segments(["cat < in ", WordsStage(n)])
  {
    var cat, words := "cat < in ", WordsStage(n);
    assert !IsSpace(cat[0]) && !IsSpace(words[1]);
    TwoStagesSplit(cat, words);
  }

  /** "cat < in" parses into a record redirected from "in"; "ls" parsed
      over that record keeps the redirection, and over a cleared one has
      none. */
  lemma LsOverCatRecord()
    ensures var left := BuiltStage(["cat", "<", "in"], ClearedStage());
      && BuildError(["cat", "<", "in"]).None?
      && BuildError(["ls"]).None?
      && BuiltStage(["ls"], left).redirection
      && BuiltStage(["ls"], left).inFile == Some("in")
      && BuiltStage(["ls"], ClearedStage()).inFile == None
  {
    CatFromIn();
    var left := BuiltStage(["cat", "<", "in"], ClearedStage());
    assert left.redirection by {
      assert Items(["cat", "<", "in"])[1].Redirect?;
    }
    LsKeepsPaths(left);
    LsKeepsPaths(ClearedStage());
  }

  /** n > MAX_ARGS + 1 words "a" are too many arguments. */
  lemma ManyWordsRefused(n: nat)
    requires n > MAX_ARGS + 1
    ensures BuildError(seq(n, _ => "a")) == Some(TooManyArguments("a"))
  {
    var ws: seq<string> := seq(n, _ => "a");
    forall j | 0 <= j < |ws| ensures !RedirectSymbols(ws[j]) {
      assert ws[j] == "a";
    }
    ArgumentLimit(ws);
  }

  /** As written, makeStages parses into records it never clears: the
      records start indeterminate (loop.c:24), and a stage parsed before a
      failing one keeps its fields into the next line. The line StaleLine(n),
      for n from 12 to 500 ("cat < in | a a a a a a a a a a a a" for 12), is
      accepted, splits into the stages "cat < in " and n words "a", fails at
      its second stage and leaves the first record redirected from "in"; the
      next line "ls" is then parsed over that record and runs with input from
      "in". */
  lemma StaleStageLeaks(n: nat)
    requires MAX_ARGS + 1 < n <= 500
    ensures FgetsLine(StaleLine(n) + "\n") && ClassifyLine(StaleLine(n) + "\n") == Accepted(StaleLine(n))
    ensures SplitPipeline(StaleLine(n)) == Segments(["cat < in ", WordsStage(n)])
    ensures Tokens("cat < in ", ' ') == ["cat", "<", "in"]
    ensures Tokens(WordsStage(n), ' ') == seq(n, _ => "a")
    ensures var left := BuiltStage(["cat", "<", "in"], ClearedStage());
      && BuildError(["cat", "<", "in"]).None?
      && BuildError(seq(n, _ => "a")) == Some(TooManyArguments("a"))
      && BuildError(["ls"]).None?
      && BuiltStage(["ls"], left).redirection
      && BuiltStage(["ls"], left).inFile == Some("in")
      && BuiltStage(["ls"], ClearedStage()).inFile == None
  {
    StaleLineAccepted(n);
    StaleLineSplits(n);
    CatStageWords();
    LsOverCatRecord();
    ManyWordsRefused(n);
  }
}
