/** The descriptor bookkeeping of the pipeline launcher (loop.c:306-518):
    executeCommands with copyAndPipe, childProcess, closeAndDupChildren,
    redirect, openAndDup, parentProcess, closeParent and waitForChildren,
    over an abstract descriptor table. */
module Launcher {
  import opened StageRecord
  import opened StageBuilder

  // ---------------------------------------------------------------------
  // Descriptors

  const STDIN_FILENO: int := 0
  const STDOUT_FILENO: int := 1

  /** The flags of open(2) that the launcher uses. */
  datatype OpenFlags = OpenFlags(writeOnly: bool, create: bool, truncate: bool)

  /** O_RDONLY (loop.c:14). */
  const READ_FLAGS := OpenFlags(false, false, false)
  /** O_WRONLY | O_CREAT | O_TRUNC (loop.c:15). */
  const WRITE_FLAGS := OpenFlags(true, true, true)
  /** The mode openAndDup passes to open: 0600, read and write for the owner. */
  const CREATE_MODE: int := 0x180

  /** What a descriptor refers to: something the shell already had open, an
      end of a pipe the launcher made (pipes are numbered in the order they
      are made), or a file openAndDup opened. */
  datatype Desc =
    | Inherited(id: int)
    | PipeRead(pipe: nat)
    | PipeWrite(pipe: nat)
    | File(path: string, flags: OpenFlags, mode: int)

  predicate IsPipeEnd(d: Desc)
  {
    d.PipeRead? || d.PipeWrite?
  }

  /** The paths open(2) succeeds on, for reading and for writing. */
  datatype FileSystem = FileSystem(readable: set<string>, writable: set<string>)

  predicate CanOpen(fs: FileSystem, path: string, flags: OpenFlags)
  {
    if flags.writeOnly then path in fs.writable else path in fs.readable
  }

  /** How a child ends: it calls execvp with the record's file and argument
      vector holding the descriptor table it built, or it could not open a
      redirection path and exits with failure after naming the path. */
  datatype ChildEnd =
    | Exec(file: Option<string>, args: ArgVector, fds: map<int, Desc>)
    | OpenFailed(path: string)

  function Lookup(fds: map<int, Desc>, fd: int): (d: Option<Desc>)
  {
    if fd in fds then Some(fds[fd]) else None
  }

  /** Every descriptor is below next, and next is above the standard
      streams. */
  predicate FreshFrom(fds: map<int, Desc>, next: int)
  {
    3 <= next && forall fd :: fd in fds ==> 0 <= fd < next
  }

  /** Every pipe end in the table belongs to a pipe numbered below made. */
  predicate PipesBelow(fds: map<int, Desc>, made: nat)
  {
    forall fd :: fd in fds && IsPipeEnd(fds[fd]) ==> fds[fd].pipe < made
  }

  // ---------------------------------------------------------------------
  // Where each stage sits in the pipeline

  /** A first or middle stage of a pipeline of n > 1 stages: it writes into
      a pipe of its own (loop.c:347, 358, 425). */
  predicate Feeds(i: nat, n: nat)
  {
    n > 1 && i < n - 1
  }

  /** The last stage of a pipeline of n > 1 stages (loop.c:361, 428). */
  predicate IsLast(i: nat, n: nat)
  {
    n > 1 && i == n - 1
  }

  // ---------------------------------------------------------------------
  // The child's side, as functions of the table it forked with

  /** The table after closeAndDupChildren or the dup of childProcess: the
      first stage closes the read end of its pipe and puts the write end on
      stdout; a middle stage does the same and puts the previous read end
      on stdin; the last stage puts the read end it holds on stdin; a single
      stage keeps its table. */
  function Wired(t: map<int, Desc>, i: nat, n: nat, curRead: int, curWrite: int, prevFd: int): (wired: map<int, Desc>)
    requires Feeds(i, n) ==> curRead in t && curWrite in t && curWrite != curRead
    requires Feeds(i, n) && i > 0 ==> prevFd in t && prevFd != curRead && curWrite != STDIN_FILENO
    requires IsLast(i, n) ==> curRead in t
  {
    if Feeds(i, n) then
      var t1 := t - {curRead};
      if i == 0 then t1[STDOUT_FILENO := t1[curWrite]]
      else
        var t2 := t1[STDIN_FILENO := t1[prevFd]];
        t2[STDOUT_FILENO := t2[curWrite]]
    else if IsLast(i, n) then t[STDIN_FILENO := t[curRead]]
    else t
  }

  /** openAndDup succeeded: the file is open at the next descriptor and that
      descriptor is duplicated onto the target. */
  function OpenedOnto(t: map<int, Desc>, next: int, path: string, flags: OpenFlags, target: int): (after: map<int, Desc>)
  {
    t[next := File(path, flags, CREATE_MODE)][target := File(path, flags, CREATE_MODE)]
  }

  /** How the child ends after redirect and executeCommand, from its wired
      table: with the flag set, the input path is opened read-only onto
      stdin and then the output path write-only, created and truncated onto
      stdout; the first path that cannot be opened ends the child. */
  function LaunchEnd(t: map<int, Desc>, next: int, stage: PipeStage, fs: FileSystem): (end: ChildEnd)
  {
    if !stage.redirection then Exec(stage.file, stage.args, t)
    else if stage.inFile.Some? && !CanOpen(fs, stage.inFile.value, READ_FLAGS) then OpenFailed(stage.inFile.value)
    else
      var t1 := if stage.inFile.Some? then OpenedOnto(t, next, stage.inFile.value, READ_FLAGS, STDIN_FILENO) else t;
      var next1 := if stage.inFile.Some? then next + 1 else next;
      if stage.outFile.Some? && !CanOpen(fs, stage.outFile.value, WRITE_FLAGS) then OpenFailed(stage.outFile.value)
      else
        var t2 := if stage.outFile.Some? then OpenedOnto(t1, next1, stage.outFile.value, WRITE_FLAGS, STDOUT_FILENO) else t1;
        Exec(stage.file, stage.args, t2)
  }

  // ---------------------------------------------------------------------
  // The whole launch, as a function of the parent's starting state

  /** Pipe k made by the launch gets the descriptors n0 + 2k (read end) and
      n0 + 2k + 1 (write end) and the number base + k. */
  function ReadFd(n0: int, k: int): (fd: int) { n0 + 2 * k }
  function WriteFd(n0: int, k: int): (fd: int) { n0 + 2 * k + 1 }

  /** The parent's table at the start of iteration i: its own table, plus,
      from the second stage to the last, the read end of the previous pipe.
      The write end of every pipe is already closed. */
  function ParentAt(f0: map<int, Desc>, n0: int, base: nat, n: nat, i: nat): (fds: map<int, Desc>)
  {
    if 0 < i < n then f0[ReadFd(n0, i - 1) := PipeRead(base + i - 1)] else f0
  }

  /** The parent's table when child i is forked: a stage that feeds the next
      one has made its pipe. */
  function ForkedAt(f0: map<int, Desc>, n0: int, base: nat, n: nat, i: nat): (fds: map<int, Desc>)
  {
    var p := ParentAt(f0, n0, base, n, i);
    if Feeds(i, n) then p[ReadFd(n0, i) := PipeRead(base + i)][WriteFd(n0, i) := PipeWrite(base + i)] else p
  }

  /** The pipes made before iteration i. */
  function PipesBefore(n: nat, i: nat): (pipes: nat)
  {
    if i == n && n > 0 then n - 1 else i
  }

  /** The next descriptor when child i is forked. */
  function NextAt(n0: int, n: nat, i: nat): (next: int)
  {
    n0 + 2 * (if Feeds(i, n) then i + 1 else i)
  }

  /** The table of child i once its pipe ends are wired, before any
      redirection. */
  function WiredAt(f0: map<int, Desc>, n0: int, base: nat, n: nat, i: nat): (fds: map<int, Desc>)
    requires FreshFrom(f0, n0) && i < n
  {
    var curRead := if Feeds(i, n) then ReadFd(n0, i) else ReadFd(n0, i - 1);
    var curWrite := if Feeds(i, n) then WriteFd(n0, i) else WriteFd(n0, i - 1);
    Wired(ForkedAt(f0, n0, base, n, i), i, n, curRead, curWrite, ReadFd(n0, i - 1))
  }

  /** How child i of n ends, given the parent's table f0, next descriptor n0
      and pipe count base when executeCommands started. */
  function ExpectedEnd(f0: map<int, Desc>, n0: int, base: nat, n: nat, i: nat, stage: PipeStage, fs: FileSystem): (end: ChildEnd)
    requires FreshFrom(f0, n0) && i < n
  {
    LaunchEnd(WiredAt(f0, n0, base, n, i), NextAt(n0, n, i), stage, fs)
  }

  /** How the first m children end. */
  function Launches(f0: map<int, Desc>, n0: int, base: nat, n: nat, stages: seq<PipeStage>, fs: FileSystem, m: nat): (r: seq<ChildEnd>)
    requires FreshFrom(f0, n0) && m <= n <= |stages|
    ensures |r| == m
  {
    if m == 0 then []
    else Launches(f0, n0, base, n, stages, fs, m - 1) + [ExpectedEnd(f0, n0, base, n, m - 1, stages[m - 1], fs)]
  }

  /** m cleared records. */
  function ClearedStages(m: nat): (r: seq<PipeStage>)
    ensures |r| == m
  {
    if m == 0 then [] else ClearedStages(m - 1) + [ClearedStage()]
  }

  // ---------------------------------------------------------------------
  // A process and its descriptor table

  class Process {
    /** The open descriptors. */
    var fds: map<int, Desc>
    /** The descriptor the next pipe or open returns. */
    var nextFd: int
    /** The pipes this process has made. */
    var pipesMade: nat
    /** The children this process has waited for. */
    var waited: nat

    predicate Valid()
      reads this
    {
      FreshFrom(fds, nextFd) && PipesBelow(fds, pipesMade)
    }

    constructor(fds0: map<int, Desc>, next0: int, made0: nat)
      requires FreshFrom(fds0, next0) && PipesBelow(fds0, made0)
      ensures Valid()
      ensures fds == fds0 && nextFd == next0 && pipesMade == made0 && waited == 0
    {
      fds, nextFd, pipesMade, waited := fds0, next0, made0, 0;
    }

    /** makePipe: a new pipe, read end first. */
    method MakePipe() returns (readFd: int, writeFd: int)
      requires Valid()
      modifies this
      ensures Valid()
      ensures readFd == old(nextFd) && writeFd == old(nextFd) + 1
      ensures fds == old(fds)[readFd := PipeRead(old(pipesMade))][writeFd := PipeWrite(old(pipesMade))]
      ensures nextFd == old(nextFd) + 2 && pipesMade == old(pipesMade) + 1 && waited == old(waited)
    {
      readFd, writeFd := nextFd, nextFd + 1;
      fds := fds[readFd := PipeRead(pipesMade)][writeFd := PipeWrite(pipesMade)];
      nextFd, pipesMade := nextFd + 2, pipesMade + 1;
    }

    /** closeFd, on a descriptor that is open (closing any other is the
        "close error" exit). */
    method CloseFd(fd: int)
      requires Valid() && fd in fds
      modifies this
      ensures Valid()
      ensures fds == old(fds) - {fd}
      ensures nextFd == old(nextFd) && pipesMade == old(pipesMade) && waited == old(waited)
    {
      fds := fds - {fd};
    }

    /** dupCheck: dup2 of an open descriptor onto fd2 (a descriptor that is
        not open is the "dup2 error" exit). */
    method DupCheck(fd1: int, fd2: int)
      requires Valid() && fd1 in fds && 0 <= fd2 < 3
      modifies this
      ensures Valid()
      ensures fds == old(fds)[fd2 := old(fds)[fd1]]
      ensures nextFd == old(nextFd) && pipesMade == old(pipesMade) && waited == old(waited)
    {
      fds := fds[fd2 := fds[fd1]];
    }

    /** fork: a new process with a copy of the table. */
    method Fork() returns (child: Process)
      requires Valid()
      ensures fresh(child) && child.Valid()
      ensures child.fds == fds && child.nextFd == nextFd && child.pipesMade == pipesMade && child.waited == 0
    {
      child := new Process(fds, nextFd, pipesMade);
    }

    /** wait: one child reaped. */
    method Wait()
      modifies this
      ensures fds == old(fds) && nextFd == old(nextFd) && pipesMade == old(pipesMade)
      ensures waited == old(waited) + 1
    {
      waited := waited + 1;
    }

    /** copyAndPipe: from the second stage on, except for the last one, the
        read end of the current pipe is kept as prevFd; every stage that
        feeds the next one makes a new pipe. */
    method CopyAndPipe(numCmd: nat, numCmds: nat, curRead: int, curWrite: int, prevFd: int)
      returns (curRead': int, curWrite': int, prevFd': int)
      requires Valid()
      modifies this
      ensures Valid()
      ensures prevFd' == if numCmd > 0 && numCmd != numCmds - 1 then curRead else prevFd
      ensures Feeds(numCmd, numCmds) ==>
        && curRead' == old(nextFd) && curWrite' == old(nextFd) + 1
        && fds == old(fds)[curRead' := PipeRead(old(pipesMade))][curWrite' := PipeWrite(old(pipesMade))]
        && nextFd == old(nextFd) + 2 && pipesMade == old(pipesMade) + 1
      ensures !Feeds(numCmd, numCmds) ==>
        curRead' == curRead && curWrite' == curWrite && fds == old(fds) && nextFd == old(nextFd) && pipesMade == old(pipesMade)
      ensures waited == old(waited)
    {
      prevFd' := prevFd;
      if numCmd > 0 && numCmd != numCmds - 1 {
        prevFd' := curRead;
      }
      curRead', curWrite' := curRead, curWrite;
      if numCmds > 1 && numCmd < numCmds - 1 {
        curRead', curWrite' := MakePipe();
      }
    }

    /** closeAndDupChildren, in a child that feeds the next stage. */
    method CloseAndDupChildren(numCmd: nat, numCmds: nat, curRead: int, curWrite: int, prevFd: int)
      requires Valid() && Feeds(numCmd, numCmds)
      requires curRead in fds && curWrite in fds && curWrite != curRead && curWrite != STDIN_FILENO
      requires numCmd > 0 ==> prevFd in fds && prevFd != curRead
      modifies this
      ensures Valid()
      ensures fds == Wired(old(fds), numCmd, numCmds, curRead, curWrite, prevFd)
      ensures nextFd == old(nextFd) && pipesMade == old(pipesMade) && waited == old(waited)
    {
      if numCmd == 0 {
        CloseFd(curRead);
        DupCheck(curWrite, STDOUT_FILENO);
      } else {
        CloseFd(curRead);
        DupCheck(prevFd, STDIN_FILENO);
        DupCheck(curWrite, STDOUT_FILENO);
      }
    }

    /** openAndDup: opens the path with the flags and mode 0600 and
        duplicates the new descriptor onto fd2; false when open fails (the
        child then exits after naming the path). */
    method OpenAndDup(fileName: string, flags: OpenFlags, fd2: int, fs: FileSystem) returns (ok: bool)
      requires Valid() && 0 <= fd2 < 3
      modifies this
      ensures Valid()
      ensures ok == CanOpen(fs, fileName, flags)
      ensures ok ==> fds == OpenedOnto(old(fds), old(nextFd), fileName, flags, fd2) && nextFd == old(nextFd) + 1
      ensures !ok ==> fds == old(fds) && nextFd == old(nextFd)
      ensures pipesMade == old(pipesMade) && waited == old(waited)
    {
      if !CanOpen(fs, fileName, flags) {
        return false;
      }
      var fd := nextFd;
      fds := fds[fd := File(fileName, flags, CREATE_MODE)];
      nextFd := nextFd + 1;
      DupCheck(fd, fd2);
      ok := true;
    }

    /** redirect followed by executeCommand: the paths are opened in order,
        input first; the child ends at the first one it cannot open, or
        calls execvp. */
    method RedirectAndExec(stage: PipeStage, fs: FileSystem) returns (end: ChildEnd)
      requires Valid() && stage.redirection
      modifies this
      ensures end == LaunchEnd(old(fds), old(nextFd), stage, fs)
    {
      if stage.inFile.Some? {
        var ok := OpenAndDup(stage.inFile.value, READ_FLAGS, STDIN_FILENO, fs);
        if !ok {
          return OpenFailed(stage.inFile.value);
        }
      }
      if stage.outFile.Some? {
        var ok := OpenAndDup(stage.outFile.value, WRITE_FLAGS, STDOUT_FILENO, fs);
        if !ok {
          return OpenFailed(stage.outFile.value);
        }
      }
      end := Exec(stage.file, stage.args, fds);
    }

    /** childProcess: wires the pipe ends of its position onto stdin and
        stdout, then applies the record's redirections and calls execvp
        with the record's file and argument vector. */
    method ChildProcess(numCmd: nat, numCmds: nat, curRead: int, curWrite: int, prevFd: int, stage: PipeStage, fs: FileSystem)
      returns (end: ChildEnd)
      requires Valid()
      requires Feeds(numCmd, numCmds) ==> curRead in fds && curWrite in fds && curWrite != curRead && curWrite != STDIN_FILENO
      requires Feeds(numCmd, numCmds) && numCmd > 0 ==> prevFd in fds && prevFd != curRead
      requires IsLast(numCmd, numCmds) ==> curRead in fds
      modifies this
      ensures end == LaunchEnd(Wired(old(fds), numCmd, numCmds, curRead, curWrite, prevFd), old(nextFd), stage, fs)
    {
      if numCmds > 1 && numCmd < numCmds - 1 {
        CloseAndDupChildren(numCmd, numCmds, curRead, curWrite, prevFd);
      } else if numCmds > 1 && numCmd == numCmds - 1 {
        DupCheck(curRead, STDIN_FILENO);
      }
      if stage.redirection {
        end := RedirectAndExec(stage, fs);
      } else {
        end := Exec(stage.file, stage.args, fds);
      }
    }

    /** closeParent: the first stage's parent closes the write end of the
        new pipe; a middle stage's parent also closes the previous read
        end. */
    method CloseParent(numCmd: nat, curWrite: int, prevFd: int)
      requires Valid() && curWrite in fds
      requires numCmd > 0 ==> prevFd in fds && prevFd != curWrite
      modifies this
      ensures Valid()
      ensures fds == if numCmd == 0 then old(fds) - {curWrite} else old(fds) - {prevFd} - {curWrite}
      ensures nextFd == old(nextFd) && pipesMade == old(pipesMade) && waited == old(waited)
    {
      if numCmd == 0 {
        CloseFd(curWrite);
      } else {
        CloseFd(prevFd);
        CloseFd(curWrite);
      }
    }

    /** parentProcess: after forking a stage that feeds the next one the
        parent closes its ends as closeParent says; after the last stage it
        closes the read end it still holds. */
    method ParentProcess(numCmd: nat, numCmds: nat, curRead: int, curWrite: int, prevFd: int)
      requires Valid()
      requires Feeds(numCmd, numCmds) ==> curWrite in fds && (numCmd > 0 ==> prevFd in fds && prevFd != curWrite)
      requires IsLast(numCmd, numCmds) ==> curRead in fds
      modifies this
      ensures Valid()
      ensures Feeds(numCmd, numCmds) ==>
        fds == if numCmd == 0 then old(fds) - {curWrite} else old(fds) - {prevFd} - {curWrite}
      ensures IsLast(numCmd, numCmds) ==> fds == old(fds) - {curRead}
      ensures !Feeds(numCmd, numCmds) && !IsLast(numCmd, numCmds) ==> fds == old(fds)
      ensures nextFd == old(nextFd) && pipesMade == old(pipesMade) && waited == old(waited)
    {
      if numCmds > 1 && numCmd < numCmds - 1 {
        CloseParent(numCmd, curWrite, prevFd);
      } else if numCmds > 1 && numCmd == numCmds - 1 {
        CloseFd(curRead);
      }
    }

    /** waitForChildren: one wait per child. */
    method WaitForChildren(numChildren: nat)
      modifies this
      ensures fds == old(fds) && nextFd == old(nextFd) && pipesMade == old(pipesMade)
      ensures waited == old(waited) + numChildren
    {
      for i := 0 to numChildren
        invariant fds == old(fds) && nextFd == old(nextFd) && pipesMade == old(pipesMade)
        invariant waited == old(waited) + i
      {
        Wait();
      }
    }

    /** One iteration of executeCommands for stage i of n, the record
        reset left out: copyAndPipe, fork, the child's side and the parent's
        side. f0, n0 and base are the table, the next descriptor and the
        pipe count the launch started with. */
    method LaunchStage(ghost f0: map<int, Desc>, ghost n0: int, ghost base: nat, i: nat, n: nat,
                       curRead: int, curWrite: int, prevFd: int, stage: PipeStage, fs: FileSystem)
      returns (end: ChildEnd, curRead': int, curWrite': int, prevFd': int)
      requires Valid() && FreshFrom(f0, n0) && i < n
      requires fds == ParentAt(f0, n0, base, n, i) && pipesMade == base + i && nextFd == n0 + 2 * i
      requires 0 < i ==> curRead == ReadFd(n0, i - 1) && curWrite == WriteFd(n0, i - 1)
      modifies this
      ensures Valid() && waited == old(waited)
      ensures end == ExpectedEnd(f0, n0, base, n, i, stage, fs)
      ensures fds == ParentAt(f0, n0, base, n, i + 1)
      ensures pipesMade == base + PipesBefore(n, i + 1) && nextFd == n0 + 2 * PipesBefore(n, i + 1)
      ensures 0 < i + 1 < n ==> curRead' == ReadFd(n0, i) && curWrite' == WriteFd(n0, i)
    {
      curRead', curWrite', prevFd' := CopyAndPipe(i, n, curRead, curWrite, prevFd);
      ghost var t := ForkedAt(f0, n0, base, n, i);
      assert fds == t && nextFd == NextAt(n0, n, i);
      var child := Fork();
      end := child.ChildProcess(i, n, curRead', curWrite', prevFd', stage, fs);
      ghost var r := if Feeds(i, n) then ReadFd(n0, i) else ReadFd(n0, i - 1);
      ghost var w := if Feeds(i, n) then WriteFd(n0, i) else WriteFd(n0, i - 1);
      WiredAgrees(t, i, n, curRead', curWrite', prevFd', r, w, ReadFd(n0, i - 1));
      assert end == LaunchEnd(WiredAt(f0, n0, base, n, i), NextAt(n0, n, i), stage, fs);
      ParentProcess(i, n, curRead', curWrite', prevFd');
      ParentStep(f0, n0, base, n, i);
    }

    /** executeCommands: forks one child per stage, wiring consecutive
        stages through pipes, clears each record after its fork and waits
        for every child. The children end as Launches says; the parent ends
        with the table it started with, having made one pipe fewer than
        there are stages and waited once per stage. */
    method ExecuteCommands(numCmds: nat, stages: array<PipeStage>, fs: FileSystem) returns (children: seq<ChildEnd>)
      requires Valid() && numCmds <= stages.Length
      modifies this, stages
      ensures Valid()
      ensures children == Launches(old(fds), old(nextFd), old(pipesMade), numCmds, old(stages[..]), fs, numCmds)
      ensures fds == old(fds)
      ensures pipesMade == old(pipesMade) + PipesBefore(numCmds, numCmds)
      ensures nextFd == old(nextFd) + 2 * PipesBefore(numCmds, numCmds)
      ensures waited == old(waited) + numCmds
      ensures stages[..] == ClearedStages(numCmds) + old(stages[..])[numCmds..]
    {
      ghost var f0, n0, base, s0 := fds, nextFd, pipesMade, stages[..];
      var curRead, curWrite, prevFd := -1, -1, -1;
      children := [];
      for i := 0 to numCmds
        invariant Valid() && waited == old(waited)
        invariant fds == ParentAt(f0, n0, base, numCmds, i)
        invariant pipesMade == base + PipesBefore(numCmds, i) && nextFd == n0 + 2 * PipesBefore(numCmds, i)
        invariant 0 < i < numCmds ==> curRead == ReadFd(n0, i - 1) && curWrite == WriteFd(n0, i - 1)
        invariant children == Launches(f0, n0, base, numCmds, s0, fs, i)
        invariant stages[..] == ClearedStages(i) + s0[i..]
      {
        var end;
        end, curRead, curWrite, prevFd := LaunchStage(f0, n0, base, i, numCmds, curRead, curWrite, prevFd, stages[i], fs);
        children := children + [end];
        var cleared := ResetStage(stages[i]);
        StoreNext(ClearedStages(i), s0, i, cleared);
        stages[i] := cleared;
      }
      WaitForChildren(numCmds);
    }
  }

  /** Wiring reads only the descriptors the stage's position uses. */
  lemma WiredAgrees(t: map<int, Desc>, i: nat, n: nat, r1: int, w1: int, p1: int, r2: int, w2: int, p2: int)
    requires Feeds(i, n) ==> r1 in t && w1 in t && w1 != r1 && r1 == r2 && w1 == w2
    requires Feeds(i, n) && i > 0 ==> p1 in t && p1 != r1 && w1 != STDIN_FILENO && p1 == p2
    requires IsLast(i, n) ==> r1 in t && r1 == r2
    ensures Wired(t, i, n, r1, w1, p1) == Wired(t, i, n, r2, w2, p2)
  {
  }

  /** The parent's table after iteration i is the one iteration i + 1
      starts with. */
  lemma ParentStep(f0: map<int, Desc>, n0: int, base: nat, n: nat, i: nat)
    requires FreshFrom(f0, n0) && i < n
    ensures Feeds(i, n) && i == 0 ==>
      ForkedAt(f0, n0, base, n, i) - {WriteFd(n0, i)} == ParentAt(f0, n0, base, n, i + 1)
    ensures Feeds(i, n) && i > 0 ==>
      ForkedAt(f0, n0, base, n, i) - {ReadFd(n0, i - 1)} - {WriteFd(n0, i)} == ParentAt(f0, n0, base, n, i + 1)
    ensures IsLast(i, n) ==>
      ForkedAt(f0, n0, base, n, i) - {ReadFd(n0, i - 1)} == ParentAt(f0, n0, base, n, i + 1)
    ensures !Feeds(i, n) && !IsLast(i, n) ==> ForkedAt(f0, n0, base, n, i) == ParentAt(f0, n0, base, n, i + 1)
  {
  }

  // ---------------------------------------------------------------------
  // What each child is wired to

  /** A pipe end of this launch (numbered base or above) that a table holds
      is one child i of n may hold: the read end of the previous pipe, or the
      write end of its own. */
  predicate OwnPipeEnds(t: map<int, Desc>, base: nat, n: nat, i: nat)
  {
    forall fd :: fd in t && IsPipeEnd(t[fd]) && t[fd].pipe >= base ==>
      (n > 1 && i > 0 && t[fd] == PipeRead(base + i - 1)) || (Feeds(i, n) && t[fd] == PipeWrite(base + i))
  }

  /** The standard streams of child i once wired: stdin is the read end of
      the previous pipe from the second stage on, stdout the write end of its
      own pipe up to the stage before the last; otherwise the shell's own. */
  lemma WiredStreams(f0: map<int, Desc>, n0: int, base: nat, n: nat, i: nat)
    requires FreshFrom(f0, n0) && i < n
    ensures Lookup(WiredAt(f0, n0, base, n, i), STDIN_FILENO) ==
      if n > 1 && i > 0 then Some(PipeRead(base + i - 1)) else Lookup(f0, STDIN_FILENO)
    ensures Lookup(WiredAt(f0, n0, base, n, i), STDOUT_FILENO) ==
      if Feeds(i, n) then Some(PipeWrite(base + i)) else Lookup(f0, STDOUT_FILENO)
    ensures FreshFrom(WiredAt(f0, n0, base, n, i), NextAt(n0, n, i))
  {
  }

  /** Child i, once wired, holds no end of this launch's pipes but its own. */
  lemma WiredPipeEnds(f0: map<int, Desc>, n0: int, base: nat, n: nat, i: nat)
    requires FreshFrom(f0, n0) && PipesBelow(f0, base) && i < n
    ensures OwnPipeEnds(WiredAt(f0, n0, base, n, i), base, n, i)
  {
  }

  /** redirect touches only stdin, stdout and the descriptors it opens. */
  lemma LaunchKeeps(t: map<int, Desc>, next: int, stage: PipeStage, fs: FileSystem)
    requires FreshFrom(t, next) && LaunchEnd(t, next, stage, fs).Exec?
    ensures Lookup(LaunchEnd(t, next, stage, fs).fds, STDIN_FILENO) ==
      if stage.redirection && stage.inFile.Some? then Some(File(stage.inFile.value, READ_FLAGS, CREATE_MODE))
      else Lookup(t, STDIN_FILENO)
    ensures Lookup(LaunchEnd(t, next, stage, fs).fds, STDOUT_FILENO) ==
      if stage.redirection && stage.outFile.Some? then Some(File(stage.outFile.value, WRITE_FLAGS, CREATE_MODE))
      else Lookup(t, STDOUT_FILENO)
    ensures forall fd :: fd in LaunchEnd(t, next, stage, fs).fds && !LaunchEnd(t, next, stage, fs).fds[fd].File? ==>
      fd in t && LaunchEnd(t, next, stage, fs).fds[fd] == t[fd]
  {
  }

  // ---------------------------------------------------------------------
  // Properties of the launch

  /** How child i of n ends. It fails on the first redirection path it
      cannot open, input before output; otherwise it runs the record's
      program and argument vector with stdin taken from its input file, else
      from the previous pipe (second stage on), else the shell's own, and
      stdout from its output file, else its own pipe (every stage but the
      last), else the shell's own. */
  lemma ChildOutcome(f0: map<int, Desc>, n0: int, base: nat, n: nat, i: nat, stage: PipeStage, fs: FileSystem)
    requires FreshFrom(f0, n0) && i < n
    ensures ExpectedEnd(f0, n0, base, n, i, stage, fs).OpenFailed? <==>
      stage.redirection &&
      ((stage.inFile.Some? && stage.inFile.value !in fs.readable) ||
       (stage.outFile.Some? && stage.outFile.value !in fs.writable))
    ensures ExpectedEnd(f0, n0, base, n, i, stage, fs).OpenFailed? ==>
      ExpectedEnd(f0, n0, base, n, i, stage, fs).path ==
        if stage.inFile.Some? && stage.inFile.value !in fs.readable then stage.inFile.value else stage.outFile.value
    ensures ExpectedEnd(f0, n0, base, n, i, stage, fs).Exec? ==>
      && ExpectedEnd(f0, n0, base, n, i, stage, fs).file == stage.file
      && ExpectedEnd(f0, n0, base, n, i, stage, fs).args == stage.args
      && Lookup(ExpectedEnd(f0, n0, base, n, i, stage, fs).fds, STDIN_FILENO) ==
        (if stage.redirection && stage.inFile.Some? then Some(File(stage.inFile.value, READ_FLAGS, CREATE_MODE))
         else if n > 1 && i > 0 then Some(PipeRead(base + i - 1))
         else Lookup(f0, STDIN_FILENO))
      && Lookup(ExpectedEnd(f0, n0, base, n, i, stage, fs).fds, STDOUT_FILENO) ==
        (if stage.redirection && stage.outFile.Some? then Some(File(stage.outFile.value, WRITE_FLAGS, CREATE_MODE))
         else if Feeds(i, n) then Some(PipeWrite(base + i))
         else Lookup(f0, STDOUT_FILENO))
  {
    WiredStreams(f0, n0, base, n, i);
    if ExpectedEnd(f0, n0, base, n, i, stage, fs).Exec? {
      LaunchKeeps(WiredAt(f0, n0, base, n, i), NextAt(n0, n, i), stage, fs);
    }
  }

  /** A single stage without redirection runs with the shell's own table. */
  lemma SingleStageKeepsTable(f0: map<int, Desc>, n0: int, base: nat, stage: PipeStage, fs: FileSystem)
    requires FreshFrom(f0, n0) && !stage.redirection
    ensures ExpectedEnd(f0, n0, base, 1, 0, stage, fs) == Exec(stage.file, stage.args, f0)
  {
  }

  /** Child i of n holds no end of this launch's pipes but the read end of
      the previous pipe and the write end of its own. */
  lemma ChildPipeEnds(f0: map<int, Desc>, n0: int, base: nat, n: nat, i: nat, stage: PipeStage, fs: FileSystem)
    requires FreshFrom(f0, n0) && PipesBelow(f0, base) && i < n
    requires ExpectedEnd(f0, n0, base, n, i, stage, fs).Exec?
    ensures OwnPipeEnds(ExpectedEnd(f0, n0, base, n, i, stage, fs).fds, base, n, i)
  {
    WiredStreams(f0, n0, base, n, i);
    WiredPipeEnds(f0, n0, base, n, i);
    LaunchKeeps(WiredAt(f0, n0, base, n, i), NextAt(n0, n, i), stage, fs);
  }

  /** Child j of the launch ends as ExpectedEnd says. */
  lemma {:induction false} LaunchesAt(f0: map<int, Desc>, n0: int, base: nat, n: nat, stages: seq<PipeStage>, fs: FileSystem, m: nat, j: nat)
    requires FreshFrom(f0, n0) && m <= n <= |stages| && j < m
    ensures Launches(f0, n0, base, n, stages, fs, m)[j] == ExpectedEnd(f0, n0, base, n, j, stages[j], fs)
  {
    if j < m - 1 {
      LaunchesAt(f0, n0, base, n, stages, fs, m - 1, j);
    }
  }

  /** Each pipe of the launch connects exactly two neighbours: among the
      children that reach execvp, only child k holds the write end of pipe
      base + k and only child k + 1 its read end, so the reader sees end of
      file once the writer is done. */
  lemma PipeHolders(f0: map<int, Desc>, n0: int, base: nat, n: nat, stages: seq<PipeStage>, fs: FileSystem, j: nat, fd: int, k: nat)
    requires FreshFrom(f0, n0) && PipesBelow(f0, base) && j < n <= |stages|
    requires Launches(f0, n0, base, n, stages, fs, n)[j].Exec?
    requires fd in Launches(f0, n0, base, n, stages, fs, n)[j].fds
    ensures Launches(f0, n0, base, n, stages, fs, n)[j].fds[fd] == PipeWrite(base + k) ==> j == k && k < n - 1
    ensures Launches(f0, n0, base, n, stages, fs, n)[j].fds[fd] == PipeRead(base + k) ==> j == k + 1
  {
    LaunchesAt(f0, n0, base, n, stages, fs, n, j);
    ChildPipeEnds(f0, n0, base, n, j, stages[j], fs);
  }
}
