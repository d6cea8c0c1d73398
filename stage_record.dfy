/** The limits of the shell and the record that describes one stage of a
    pipeline (loop.h). */
module StageRecord {

  /** Size of the line buffer: 1024 visible characters and the terminator. */
  const MAX_LEN: nat := 1025
  /** Arguments a stage may give after its program name. */
  const MAX_ARGS: nat := 10
  /** Stages a line may hold. */
  const MAX_CMDS: nat := 20
  /** Word slots of a stage, the terminating NULL included. */
  const MAX_WORDS: nat := 512
  /** Slots of the argument vector: the program name, MAX_ARGS arguments and
      the NULL sentinel that execvp needs. */
  const ARG_SLOTS: nat := MAX_ARGS + 2

  datatype Option<T> = None | Some(value: T)

  /** The argument vector of a stage: exactly ARG_SLOTS pointers, each NULL
      (None) or a word. */
  type ArgVector = a: seq<Option<string>> | |a| == ARG_SLOTS
    witness [None, None, None, None, None, None, None, None, None, None, None, None]

  /** One stage of a pipeline: the program to run, its argument vector, whether
      a redirection operator appeared, and at most one input and one output
      path, each possibly absent. */
  datatype PipeStage = PipeStage(
    file: Option<string>,
    args: ArgVector,
    redirection: bool,
    inFile: Option<string>,
    outFile: Option<string>)

  /** The argument vector with every slot NULL. */
  function NoArgs(): (a: ArgVector)
    ensures forall k :: 0 <= k < |a| ==> a[k] == None
  {
    [None, None, None, None, None, None, None, None, None, None, None, None]
  }

  /** The record as resetStage leaves it: every pointer NULL, no redirection. */
  function ClearedStage(): (stage: PipeStage)
  {
    PipeStage(None, NoArgs(), false, None, None)
  }

  /** The argument list execvp sees: the words before the first NULL slot. */
  function Argv(args: seq<Option<string>>): (argv: seq<string>)
    ensures |argv| <= |args|
    ensures forall k :: 0 <= k < |argv| ==> args[k] == Some(argv[k])
    ensures |argv| < |args| ==> args[|argv|] == None
  {
    if args == [] || args[0].None? then [] else [args[0].value] + Argv(args[1..])
  }
}
