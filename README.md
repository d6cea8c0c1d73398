# cshell pipeline core in Dafny

A model of the core of cshell, a small Unix shell. The model covers two
pieces of `loop.c` and the record and limits declared in `loop.h`.

**The line and stage parser.**
- `removeNewline` and the verdict `readLine` reaches on a line: leave the shell, reject the line, or pass it on.
- `allSpaces` and `parseCommandLine`, which split the line into at most 20 stage texts on `|`.
- `splitWords`, `redirectSymbols`, `redirectionCheck`, `commandCheck`, `parseCommand`, `makeStages` and `resetStage`. Together they turn each stage text into a `pipeStage` record: program, argument vector, redirection flag, input and output paths.

**The descriptor bookkeeping of the launcher.**
- `executeCommands`, `copyAndPipe`, `childProcess`, `closeAndDupChildren`, `redirect`, `openAndDup`, `parentProcess`, `closeParent`, `waitForChildren`, and `makePipe`, `closeFd` and `dupCheck` underneath them.
- A process is a `Process` object holding a descriptor table (`map<int, Desc>`), the next descriptor number, the number of pipes it has made and the number of children it has waited for.
- `fork` copies the table into a fresh `Process`.
- `execvp` is an event that records the program, the argument vector and the table the child holds.
- Whether `open` succeeds is a `FileSystem` parameter.

Each method is proved against a specification function:
- `Tokens` for `strtok`.
- `SplitPipeline` for `parseCommandLine`.
- `BuildError` and `BuiltStage` for `parseCommand`.
- `ExpectedEnd` and `Launches` for what each child ends up with.

The lemmas then state what those functions promise.

Files:
- `stage_record.dfy` covers `loop.h`.
- `tokenizer.dfy` covers `strtok`.
- `line_reader.dfy` covers `removeNewline` and `readLine`.
- `command_line.dfy` covers `parseCommandLine`.
- `stage_builder.dfy` covers `splitWords` through `makeStages`.
- `launcher.dfy` covers `executeCommands` and its helpers.

Behaviour of the code worth noting:
- A stage made only of redirections (`< in`) is accepted, with no program (loop.c:224-234 never reaches loop.c:287).
- An operator word holding both `<` and `>` sets the input path. loop.c:270 tests for `<`, not for `>`.
- A child keeps its original copies of the pipe ends it duplicated onto stdin and stdout. Only the read end of its own pipe is closed (loop.c:403, 408). It holds no end of any other pipe.
- A record is cleared only after its stage has been forked (loop.c:328). As written, `makeStages` parses each stage over whatever the record still holds, so a line it rejects leaves its records for the next line (StageBuilder.ParseCommand over the old record; StageBuilder.StaleStageLeaks). StageBuilder.MakeStages is the corrected `makeStages` of the loop.c:201-203 finding, which clears each record before parsing into it (see Findings).

## Model

| member | source | states |
|---|---|---|
| StageRecord.Argv | loop.c:416 | the list execvp reads from an argument vector is the words before its first NULL slot, and that slot is NULL |
| Tokenizer.NextToken | loop.c:248-253 | one strtok call from a position returns the next token and a later resume point, with the tokens after it unchanged; none only when no token is left |
| Tokenizer.TokensShape | loop.c:161-171 | strtok never yields an empty token or one holding the delimiter, and yields none exactly when only delimiters remain |
| Tokenizer.TokensSplit | loop.c:161-171 | splitting a string at one delimiter splits its token list in two |
| Tokenizer.TokenCountBound | loop.c:242-255 | a string of n characters has at most (n + 1) / 2 tokens |
| Tokenizer.TokenLengthBound | loop.c:248-253 | no token is longer than what is left of the string |
| Tokenizer.TokensOfSpaced | loop.c:248-253 | words without the delimiter, each followed by one delimiter, split back into the same words |
| LineReader.RemoveNewline | loop.c:104-114 | the buffer afterwards is the old buffer with its first newline replaced by NUL |
| LineReader.NewlineRemovedFirstOnly | loop.c:104-114 | only the first newline changes, into NUL; a buffer without a newline is unchanged |
| LineReader.RemoveNewlineEndsString | loop.c:72-73 | whatever follows the line in the buffer, the C string left is the line's text: its characters before the first NUL, without the newline |
| LineReader.LineTextShape | loop.c:66-73 | the text holds neither newline nor NUL and, unless the line was flagged too long, leaves room for the terminator |
| LineReader.FirstWordNone | loop.c:76-81 | strtok finds no first word iff the text is all spaces |
| LineReader.FirstWordExit | loop.c:76-84 | the first word is "exit" iff, after its leading spaces, the text starts with exit followed by a space or the end |
| LineReader.ClassifyLine | loop.c:65-87 | the verdict is reached on the C string fgets left, up to any NUL read from the input; a line passed on is non-empty, at most 1023 characters, free of newline and NUL, and has a non-space character |
| LineReader.ExitWinsOverTooLong | loop.c:65-85 | a line whose text starts, after any spaces, with the word exit leaves the shell even when flagged too long |
| LineReader.BlankLineRejected | loop.c:79-81 | a line whose text is spaces alone is rejected |
| LineReader.OtherLinesRejectedIffTooLong | loop.c:65-87 | a line whose text holds a non-space character and does not start with the word exit is rejected iff it was flagged too long, and otherwise its text is passed on |
| LineReader.PlainLineAccepted | loop.c:60-87 | a text of at most 1023 characters without newline or NUL, holding a non-space and not starting with the word exit, typed with its newline, is read whole and passed on unchanged |
| LineReader.NulEndsText | loop.c:66-77 | a NUL read from the input ends the text, and a line holding one is never flagged too long |
| LineReader.NulLineAccepted | loop.c:65-87 | the line `ls`, NUL, `x`, newline passes `ls` on |
| CommandLine.AllSpaces | loop.c:124-135 | the answer is true iff every character is white space in the sense of isspace |
| CommandLine.SplitPipeline | loop.c:156-181 | accepted lines give 1 to 20 segments, none holding a bar or blank |
| CommandLine.DoubleBarIsOneSeparator | loop.c:161-171 | two adjacent bars separate the same two stages as one bar |
| CommandLine.TwoStagesSplit | loop.c:156-181 | two stages, neither blank nor holding a bar, joined by one bar split into exactly those two stages |
| CommandLine.StoreSegments | loop.c:161-172 | the corrected parseCommandLine of the loop.c:169-177 finding, its storing loop: stops at the first blank segment, reports whether it met one, and stores the segments before it in order while the array has room |
| CommandLine.ParseCommandLine | loop.c:147-182 | the corrected parseCommandLine of the loop.c:169-177 finding: succeeds iff SplitPipeline accepts; numCmds is the segment count and slots 0..numCmds-1 hold the segments in order; every slot written lies inside the 20-slot array |
| CommandLine.TooManyCommandsWritesPastArray | loop.c:169-177 | as written, every line refused for too many commands has written more than 20 slots |
| CommandLine.TooManyCommandsWitness | loop.c:163-177 | each line of n one-letter stages, 21 <= n <= 512, is accepted by readLine, refused for too many commands, and writes n slots first |
| StageBuilder.SplitWords | loop.c:242-255 | the words are the space-separated tokens in order, tabs kept inside words; n characters give at most (n + 1) / 2 words |
| StageBuilder.OneLetterWordsLine | loop.c:242-255 | a line of n one-letter words, n up to 512, is accepted as one stage and makes splitWords write n + 1 slots |
| StageBuilder.SplitWordsOverrunWitness | loop.c:242-255 | as written, a line of 512 one-letter words is accepted as one stage and makes splitWords write 513 slots of the 512-slot array |
| StageBuilder.WordsFit | loop.c:216-222 | every stage of every accepted line has at most MAX_WORDS words |
| StageBuilder.ItemsWords | loop.c:224-231 | reading the words into programs, operators and paths loses and adds no word |
| StageBuilder.DanglingOnlyLast | loop.c:264-268 | only the last word can be an operator without a path |
| StageBuilder.LastWriteWins | loop.c:269-274 | a path is the target of the last operator of its direction, or what the record held when there is none |
| StageBuilder.TargetSetIffOperator | loop.c:262-274 | from a cleared record, a path is set iff an operator of that direction appeared |
| StageBuilder.ResetStage | loop.c:445-456 | the record has every pointer NULL, all 12 argument slots included, and the flag cleared |
| StageBuilder.RedirectSymbols | loop.c:236-240 | a word is a redirection operator iff strchr, a scan for the first occurrence, finds '<' or '>' before its end |
| StageBuilder.RedirectionCheck | loop.c:257-277 | an operator as the last word is a syntax error that clears the record; otherwise the flag is set and the next word becomes the input path if the operator holds '<', else the output path; the index moves past the path |
| StageBuilder.CommandCheck | loop.c:279-304 | the first program word becomes the file and the run of program words fills the next argument slots; more than MAX_ARGS words after the program word fail, clear the record and name args[0]; otherwise the scan resumes at the last word of the run |
| StageBuilder.ParseCommand | loop.c:216-234 | the verdict is BuildError of the words and the record is BuiltStage of the words over the old record |
| StageBuilder.FirstFailingSpec | loop.c:201-204 | every stage before the first failing one parses, and that one fails |
| StageBuilder.ParseFresh | loop.c:202 | the loop body of the corrected makeStages of the loop.c:201-203 finding: clearing the record, then parsing a stage text into it, gives that text's verdict and record whatever the record held |
| StageBuilder.MakeStages | loop.c:195-207 | the corrected makeStages of the loop.c:201-203 finding, which clears each record before parsing into it: succeeds iff no stage fails, else reports the first failure; the records up to and including it hold what parsing into a cleared record gives; later records are untouched |
| StageBuilder.ArgvIsProgramWords | loop.c:287-299 | over a cleared record, execvp's argument list is exactly the program words in order |
| StageBuilder.FileIsFirstArgument | loop.c:287-292 | the first program word is both file and args[0] |
| StageBuilder.RedirectionNotArgument | loop.c:224-231 | neither an operator nor its path enters the argument list |
| StageBuilder.RedirectionFlagMatchesPaths | loop.c:262-274 | over a cleared record, the flag is set iff some path is set |
| StageBuilder.ArgumentLimit | loop.c:291-298 | the program word and up to 10 more are accepted; one more fails, named by the program word |
| StageBuilder.RedirectionOnlyStage | loop.c:224-234 | a stage of one operator and its path parses, with the flag set and no program |
| StageBuilder.CatFromIn | loop.c:269-274 | "cat < in" parses with input path "in" |
| StageBuilder.LsKeepsPaths | loop.c:285-303 | "ls" parsed over a record keeps that record's flag and input path |
| StageBuilder.CatStageWords | loop.c:242-255 | the stage text "cat < in " splits into the words cat, < and in |
| StageBuilder.StaleLineAccepted | loop.c:65-87 | the line "cat < in \| a ... a" with n words a, 1 <= n <= 500, is passed on by readLine |
| StageBuilder.StaleLineSplits | loop.c:156-181 | that line splits into the stages "cat < in " and " a ... a" |
| StageBuilder.LsOverCatRecord | loop.c:216-234 | "cat < in" parses into a record redirected from "in"; "ls" parsed over it keeps that input path, over a cleared record it has none |
| StageBuilder.ManyWordsRefused | loop.c:291-298 | more than 11 words "a" fail with too many arguments, named "a" |
| StageBuilder.StaleStageLeaks | loop.c:195-207 | as written, for 12 <= n <= 500 the line "cat < in \| a ... a" is accepted, splits into "cat < in " (words cat, <, in) and n words a, and fails at its second stage; the record left redirected from "in" is what the next line "ls" is parsed over, so it runs with input from "in" |
| Launcher.Process.MakePipe | loop.c:490-494 | two fresh descriptors, read end then write end, of a new pipe |
| Launcher.Process.CloseFd | loop.c:501-507 | the descriptor leaves the table; nothing else changes |
| Launcher.Process.DupCheck | loop.c:478-482 | fd2 now refers to what fd1 refers to |
| Launcher.Process.Fork | loop.c:319-323 | the child is a new process with a copy of the parent's table |
| Launcher.Process.Wait | loop.c:469 | one more child reaped, the table unchanged |
| Launcher.Process.CopyAndPipe | loop.c:342-350 | prevFd becomes the current read end for middle stages; a pipe is made exactly for stages that feed a next one |
| Launcher.Process.CloseAndDupChildren | loop.c:399-412 | the table becomes Wired: own read end closed, write end on stdout, the previous read end on stdin for middle stages |
| Launcher.Process.OpenAndDup | loop.c:385-397 | succeeds iff the path can be opened with the flags; then the file, mode 0600, is open at a fresh descriptor and on fd2 |
| Launcher.Process.RedirectAndExec | loop.c:374-383 | the input path is opened read-only onto stdin, then the output path write-only, created and truncated onto stdout; the first failing open ends the child naming its path |
| Launcher.Process.ChildProcess | loop.c:352-372 | the child ends as LaunchEnd of its wired table: pipe wiring by position first, then redirection |
| Launcher.Process.CloseParent | loop.c:433-443 | the parent drops the new write end, and the previous read end for middle stages |
| Launcher.Process.ParentProcess | loop.c:422-431 | after a feeding stage the parent closes as closeParent does; after the last stage it closes the read end it holds |
| Launcher.Process.WaitForChildren | loop.c:464-470 | exactly numChildren waits, the table unchanged |
| Launcher.Process.LaunchStage | loop.c:317-326 | child i ends as ExpectedEnd; the parent then holds its own table plus only the read end of pipe i when a stage follows |
| Launcher.Process.ExecuteCommands | loop.c:311-331 | the children end as Launches says; the parent ends with exactly its starting table, having made N-1 pipes and waited N times; every record is cleared |
| Launcher.ChildOutcome | loop.c:352-397 | a child fails iff a redirection path cannot be opened, naming the input path first; otherwise it runs the record's program, with stdin from its input file, else pipe i-1, else the shell's; stdout from its output file, else pipe i, else the shell's |
| Launcher.SingleStageKeepsTable | loop.c:360-371 | a single stage without redirection runs with the shell's own table |
| Launcher.ChildPipeEnds | loop.c:342-412 | of this launch's pipes, child i holds only the read end of pipe i-1 and the write end of pipe i |
| Launcher.PipeHolders | loop.c:316-329 | among the children that exec, only child k holds the write end of pipe k and only child k+1 its read end |

## Left out

- fgets, the prompt, flushLine and the exit calls of readLine are interactive I/O. LineReader.ClassifyLine takes the line fgets returned as its parameter.
- mainLoop only chains the four steps, so it is not a member. The witness lemmas compose those steps by hand.
- Strings are values. Stage texts and words do not alias the command-line buffer that strtok edits in place.
- The diagnostic texts written to stderr are not modelled. Errors are the datatypes LineError and StageError.
- StageBuilder.ParseCommand: after an operator that ends the list, loop.c:224 reads one slot past the NULL. The model stops at the end of the list.
- Launcher.Process.MakePipe: pipe failure and its errorAndExit are not modelled. New descriptors come from a counter starting at 3 or above, not from the lowest free number.
- Launcher.Process.Fork: fork failure is not modelled. The child is a separate object, not a process running the same code.
- Launcher.Process.CloseFd: requires an open descriptor, so the "close error" exit is not modelled. The launcher is proved to close only open descriptors.
- Launcher.Process.DupCheck: requires an open descriptor, so the "dup2 error" exit is not modelled. The launcher is proved to duplicate only open descriptors.
- Launcher.Process.OpenAndDup: only whether open succeeds is modelled. Creating and truncating the file is not.
- Launcher.Process.RedirectAndExec: execvp is an event. Its failure path (loop.c:417-419) is left out.
- Launcher.Process.ExecuteCommands: curFds and prevFd are uninitialised in the source; the model starts them at -1. Both are passed by value to childProcess and parentProcess on every iteration (loop.c:321-326). prevFd is unset on the first iteration, and unset or stale on the last; neither iteration uses it. curFds is unset and unused only when the line has a single stage. On the last stage of a longer pipeline, curFds[0] is the read end of the previous pipe, which both processes use (loop.c:364, 429); only curFds[1] goes unused.
- Launcher.Process.WaitForChildren: the wait status is not modelled.
- Bytes through pipes, scheduling and end-of-file delivery are left to the operating system. Launcher.PipeHolders states the descriptor ownership that end-of-file depends on.

## Findings

| source | as written | input that shows it | evidently intended | confidence | as-written member | corrected member |
|---|---|---|---|---|---|---|
| loop.c:169-177 | every segment is stored in allCommands[idx++] before the count is checked against 20 | a line of 21 one-letter stages `a\|a\|...\|a` writes slot 20 of the 20-slot array | store only while the array has room, or check the count first | high, not executed | CommandLine.TooManyCommandsWitness | CommandLine.ParseCommandLine |
| loop.c:249-253 | splitWords writes one slot per word plus the terminating NULL into a MAX_WORDS (512) slot array | one stage of 512 one-letter words `a a ... a` (1023 characters, accepted by readLine) writes 513 slots | room for MAX_WORDS words and the NULL | high, not executed | StageBuilder.SplitWordsOverrunWitness | StageBuilder.WordsFit |
| loop.c:201-203 | makeStages parses into records it never clears. They are uninitialised on the first line (loop.c:24) and keep what an earlier rejected line left | `cat < in \| a a a a a a a a a a a a` is rejected, then `ls` runs with input from `in` | clear each record before parsing into it | high, not executed | StageBuilder.StaleStageLeaks | StageBuilder.MakeStages |
