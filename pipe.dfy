/** The core of louvijan/pipe.py: `PipeLine` turns its positional arguments into a FIFO queue of
    stages (commands, parallel groups, nested pipelines), dispatches the queue against an abstract
    execution backend under the force-continue policy, records failures in the instance's and the
    process-wide error lists, and on teardown picks the instance or the global report.

    Process-wide class state of `PipeLine` (`_count`, `_errors`) lives in a `Context` object shared
    by all pipelines. Effects the program has on the outside world are recorded in the context:
    the commands handed to the backend (`calls`), the mails handed to the transport (`mails`) and
    whether the process was killed (`terminated`). */
module Pipe {
  import opened Wrappers
  import opened Text
  import Manager
  import Mail

  // ------------------------------------------------------------------------------------------
  // Values
  // ------------------------------------------------------------------------------------------

  /** A positional argument of `PipeLine(...)`: a script name, a (nested) list meaning a parallel
      group, another pipeline, or a value of any other Python type. */
  datatype Arg = Str(s: string) | List(items: seq<Arg>) | Nested(p: Pipeline) | Other

  /** A member of a parallel group after flattening. `Inert` stands for a leaf of another type,
      which is queued but fails with a swallowed TypeError when its worker runs it. */
  datatype Member = Command(cmd: string) | Child(p: Pipeline) | Inert

  /** A queue entry: a command string, a flattened parallel group, or a nested pipeline. */
  datatype Stage = Cmd(cmd: string) | Group(members: seq<Member>) | Sub(p: Pipeline)

  /** Construction errors: ValueError for a blank name, TypeError for an unsupported argument. */
  datatype BuildError = EmptyCommand | InvalidType

  /** An error record: the status and the failure text. */
  datatype Failure = Failure(status: int, msg: string)

  /** A command handed to the backend: a local process or the remote session. */
  datatype Call = Local(cmd: string) | Remote(cmd: string)

  /** A mail body: a failure text, or a success report, whose text (elapsed seconds) is not modelled. */
  datatype Message = Text(text: string) | SuccessReport

  /** The execution backend a pipeline uses (the local process runner, or the remote session when
      connected): the status a command returns, or None when issuing it raises. In the source such
      an exception is swallowed by `__exec_cmd`; the local runner raises, for instance, when the log
      section has no `path`, and the remote one whenever the command prints output, because the log
      manager it reports to has no `info` or `error` method. */
  type Backend = string -> Option<int>

  /** `'{} {}'.format(executable, name)`: the executable, one space, then the name. */
  function CommandLine(executable: string, name: string): (r: string)
    ensures |r| == |executable| + 1 + |name|
    ensures r[..|executable|] == executable && r[|executable|] == ' ' && r[|executable| + 1..] == name
  {
    executable + " " + name
  }

  /** `'{}\nRun Failed.\n'.format(command)`: the command, then a fixed failure line. */
  function FailureMessage(cmd: string): (r: string)
    ensures |r| == |cmd| + 13
    ensures r[..|cmd|] == cmd && r[|cmd|..] == "\nRun Failed.\n"
  {
    cmd + "\nRun Failed.\n"
  }

  /** Python truthiness of a converted option, as used by `if not self.force`. */
  predicate Truthy(v: Manager.Value)
    ensures !Truthy(v) <==> v == Manager.Bool(false) || v == Manager.Int(0) || v == Manager.Str("")
  {
    match v
    case Bool(b) => b
    case Int(n) => n != 0
    case Str(s) => s != ""
  }

  // ------------------------------------------------------------------------------------------
  // Normalizer: specification
  // ------------------------------------------------------------------------------------------

  /** Number of nodes of an argument tree; it drops with every step of the flatten loop. */
  function Size(a: Arg): nat
  {
    match a
    case List(xs) => 1 + SizeSeq(xs)
    case _ => 1
  }

  function SizeSeq(xs: seq<Arg>): nat
  {
    if xs == [] then 0 else Size(xs[0]) + SizeSeq(xs[1..])
  }

  /** A flattened element: never a list and never exactly the empty string. */
  predicate IsLeaf(a: Arg)
  {
    !a.List? && a != Str("")
  }

  /** The depth-first, left-to-right non-list leaves of `xs`, without the entries equal to ''. */
  function Leaves(xs: seq<Arg>): (r: seq<Arg>)
    ensures forall i {:trigger r[i]} :: 0 <= i < |r| ==> IsLeaf(r[i])
  {
    if xs == [] then [] else LeavesOf(xs[0]) + Leaves(xs[1..])
  }

  function LeavesOf(a: Arg): (r: seq<Arg>)
    ensures forall i {:trigger r[i]} :: 0 <= i < |r| ==> IsLeaf(r[i])
  {
    match a
    case List(ys) => Leaves(ys)
    case _ => if a == Str("") then [] else [a]
  }

  /** The output loop of `__flatten`: strings get the executable prefix, anything else stays. */
  function ToMember(a: Arg, executable: string): Member
    requires !a.List?
  {
    match a
    case Str(s) => Command(CommandLine(executable, s))
    case Nested(q) => Child(q)
    case Other => Inert
  }

  function ToMembers(leaves: seq<Arg>, executable: string): (r: seq<Member>)
    requires forall i :: 0 <= i < |leaves| ==> !leaves[i].List?
    ensures |r| == |leaves|
  {
    seq(|leaves|, i requires 0 <= i < |leaves| => ToMember(leaves[i], executable))
  }

  /** Number of pipelines among flat elements. */
  function PipeCount(xs: seq<Arg>): nat
  {
    if xs == [] then 0 else (if xs[0].Nested? then 1 else 0) + PipeCount(xs[1..])
  }

  /** Number of pipelines anywhere in an argument tree. */
  function DeepPipes(a: Arg): nat
  {
    match a
    case Nested(_) => 1
    case List(xs) => DeepPipesSeq(xs)
    case _ => 0
  }

  function DeepPipesSeq(xs: seq<Arg>): nat
  {
    if xs == [] then 0 else DeepPipes(xs[0]) + DeepPipesSeq(xs[1..])
  }

  /** The arguments the constructor refuses: a blank name or a value of another type. */
  predicate Rejected(a: Arg)
  {
    a.Other? || (a.Str? && Strip(a.s) == "")
  }

  /** The queue entry one top-level argument becomes, or the error it raises. */
  function StageOf(a: Arg, executable: string): (r: Result<Stage, BuildError>)
    ensures r.Err? <==> Rejected(a)
    ensures a.Other? ==> r == Err(InvalidType)
    ensures a.Str? && Strip(a.s) == "" ==> r == Err(EmptyCommand)
    ensures a.Nested? ==> r == Ok(Sub(a.p))
  {
    match a
    case Str(s) => if Strip(s) == "" then Err(EmptyCommand) else Ok(Cmd(CommandLine(executable, Strip(s))))
    case List(xs) => Ok(Group(ToMembers(Leaves(xs), executable)))
    case Nested(q) => Ok(Sub(q))
    case Other => Err(InvalidType)
  }

  /** The queue built from all arguments, or the error of the first rejected one: construction
      succeeds iff the stages queued before any refusal cover every argument, its queue is then
      those stages, and otherwise its error is that of the argument the queueing stopped at. */
  function Normalized(args: seq<Arg>, executable: string): (r: Result<seq<Stage>, BuildError>)
    ensures r.Ok? <==> |Built(args, executable)| == |args|
    ensures r.Ok? ==> r.value == Built(args, executable)
    ensures r.Err? ==> r.error == StageOf(args[|Built(args, executable)|], executable).error
  {
    if args == [] then Ok([])
    else match StageOf(args[0], executable)
      case Err(e) => Err(e)
      case Ok(st) => Prepend([st], Normalized(args[1..], executable))
  }

  /** The stages queued before the constructor stops, at the end or at the first refused argument:
      at most one per argument, and when they fall short the next argument is refused. */
  function Built(args: seq<Arg>, executable: string): (r: seq<Stage>)
    ensures |r| <= |args|
    ensures |r| < |args| ==> Rejected(args[|r|])
  {
    if args == [] || Rejected(args[0]) then [] else [StageOf(args[0], executable).value] + Built(args[1..], executable)
  }

  function Prepend(stages: seq<Stage>, r: Result<seq<Stage>, BuildError>): Result<seq<Stage>, BuildError>
  {
    match r
    case Ok(rest) => Ok(stages + rest)
    case Err(e) => Err(e)
  }

  /** Pipelines the constructor meets in one argument (each raises the shared count by one):
      every pipeline in the argument, at any depth. */
  function PipesMet(a: Arg): (r: nat)
    ensures r == DeepPipes(a)
  {
    match a
    case Nested(_) => 1
    case List(xs) => LeavesCountPipes(xs); PipeCount(Leaves(xs))
    case _ => 0
  }

  /** Pipelines met before the constructor stops, at the end or at the first rejected argument;
      never more than the pipelines anywhere in the arguments. */
  function MetCount(args: seq<Arg>): (r: nat)
    ensures r <= DeepPipesSeq(args)
  {
    if args == [] || Rejected(args[0]) then 0 else PipesMet(args[0]) + MetCount(args[1..])
  }

  /** Every pipeline in the argument tree belongs to `pipes`. */
  ghost predicate ArgWithin(a: Arg, pipes: set<Pipeline>)
  {
    match a
    case Nested(q) => q in pipes
    case List(xs) => forall i :: 0 <= i < |xs| ==> ArgWithin(xs[i], pipes)
    case _ => true
  }

  /** Every pipeline a stage refers to belongs to `pipes` and was created before rank `bound`. */
  ghost predicate StageWithin(st: Stage, pipes: set<Pipeline>, bound: nat)
  {
    match st
    case Cmd(_) => true
    case Sub(q) => q in pipes && q.rank < bound
    case Group(ms) => forall j :: 0 <= j < |ms| ==> MemberWithin(ms[j], pipes, bound)
  }

  ghost predicate MemberWithin(m: Member, pipes: set<Pipeline>, bound: nat)
  {
    m.Child? ==> m.p in pipes && m.p.rank < bound
  }

  lemma StageWithinGrows(st: Stage, pipes: set<Pipeline>, more: set<Pipeline>, bound: nat)
    requires StageWithin(st, pipes, bound) && pipes <= more
    ensures StageWithin(st, more, bound)
  {
    if st.Group? {
      assert forall j :: 0 <= j < |st.members| ==> MemberWithin(st.members[j], more, bound);
    }
  }

  // ------------------------------------------------------------------------------------------
  // Normalizer: lemmas the methods need
  // ------------------------------------------------------------------------------------------

  lemma Assoc<T>(a: seq<T>, b: seq<T>, c: seq<T>)
    ensures (a + b) + c == a + (b + c)
  {
  }

  lemma {:induction false} LeavesAppend(a: seq<Arg>, b: seq<Arg>)
    ensures Leaves(a + b) == Leaves(a) + Leaves(b)
  {
    if a == [] {
      assert a + b == b;
    } else {
      assert (a + b)[0] == a[0];
      assert (a + b)[1..] == a[1..] + b;
      LeavesAppend(a[1..], b);
      assert Leaves(a + b) == LeavesOf(a[0]) + Leaves(a[1..] + b);
    }
  }

  lemma {:induction false} SizeSeqAppend(a: seq<Arg>, b: seq<Arg>)
    ensures SizeSeq(a + b) == SizeSeq(a) + SizeSeq(b)
  {
    if a == [] {
      assert a + b == b;
    } else {
      assert (a + b)[0] == a[0];
      assert (a + b)[1..] == a[1..] + b;
      SizeSeqAppend(a[1..], b);
      assert SizeSeq(a + b) == Size(a[0]) + SizeSeq(a[1..] + b);
    }
  }

  lemma {:induction false} PipeCountAppend(a: seq<Arg>, b: seq<Arg>)
    ensures PipeCount(a + b) == PipeCount(a) + PipeCount(b)
  {
    if a == [] {
      assert a + b == b;
    } else {
      assert (a + b)[0] == a[0];
      assert (a + b)[1..] == a[1..] + b;
      PipeCountAppend(a[1..], b);
      assert PipeCount(a + b) == (if a[0].Nested? then 1 else 0) + PipeCount(a[1..] + b);
    }
  }

  /** Flattening keeps every pipeline of the tree, at any depth, and nothing else counts. */
  lemma {:induction false} LeavesCountPipes(xs: seq<Arg>)
    ensures PipeCount(Leaves(xs)) == DeepPipesSeq(xs)
  {
    if xs != [] {
      LeavesCountPipes(xs[1..]);
      PipeCountAppend(LeavesOf(xs[0]), Leaves(xs[1..]));
      match xs[0]
      case List(ys) =>
        LeavesCountPipes(ys);
      case Nested(_) =>
        assert PipeCount([xs[0]]) == 1 + PipeCount([]);
      case Str(s) =>
        if s != "" {
          assert PipeCount([xs[0]]) == 0 + PipeCount([]);
        }
      case Other =>
        assert PipeCount([xs[0]]) == 0 + PipeCount([]);
    }
  }

  /** Splicing a leading list into the front keeps the leaves and shrinks the tree. */
  lemma SpliceStep(input: seq<Arg>)
    requires input != [] && input[0].List?
    ensures Leaves(input[0].items + input[1..]) == Leaves(input)
    ensures SizeSeq(input[0].items + input[1..]) < SizeSeq(input)
  {
    LeavesAppend(input[0].items, input[1..]);
    SizeSeqAppend(input[0].items, input[1..]);
  }

  /** Popping a leading leaf moves it to the kept ones unless it is ''. */
  lemma PopStep(kept: seq<Arg>, input: seq<Arg>)
    requires input != [] && !input[0].List?
    ensures var k := if input[0] == Str("") then kept else kept + [input[0]];
      kept + Leaves(input) == k + Leaves(input[1..])
      && PipeCount(k) == PipeCount(kept) + (if input[0].Nested? then 1 else 0)
    ensures SizeSeq(input[1..]) < SizeSeq(input)
  {
    var head := input[0];
    assert Leaves(input) == LeavesOf(head) + Leaves(input[1..]);
    if head != Str("") {
      PipeCountAppend(kept, [head]);
      assert [head][1..] == [];
      assert kept + ([head] + Leaves(input[1..])) == (kept + [head]) + Leaves(input[1..]);
    } else {
      assert LeavesOf(head) == [];
    }
  }

  /** The leaves of registered arguments are registered. */
  lemma {:induction false} LeavesWithin(xs: seq<Arg>, pipes: set<Pipeline>)
    requires forall i :: 0 <= i < |xs| ==> ArgWithin(xs[i], pipes)
    ensures forall i :: 0 <= i < |Leaves(xs)| ==> ArgWithin(Leaves(xs)[i], pipes)
  {
    if xs != [] {
      LeavesWithin(xs[1..], pipes);
      var head := LeavesOf(xs[0]);
      assert Leaves(xs) == head + Leaves(xs[1..]);
      assert ArgWithin(xs[0], pipes);
      if xs[0].List? {
        LeavesWithin(xs[0].items, pipes);
      }
      forall i | 0 <= i < |Leaves(xs)|
        ensures ArgWithin(Leaves(xs)[i], pipes)
      {
        if i >= |head| {
          assert Leaves(xs)[i] == Leaves(xs[1..])[i - |head|];
        } else if !xs[0].List? {
          assert Leaves(xs)[i] == xs[0];
        } else {
          assert head == Leaves(xs[0].items);
          assert Leaves(xs)[i] == head[i];
        }
      }
    }
  }

  /** The i-th stage queued is the stage of the i-th argument, which was accepted. */
  lemma {:induction false} BuiltIndex(args: seq<Arg>, executable: string)
    ensures |Built(args, executable)| <= |args|
    ensures forall i :: 0 <= i < |Built(args, executable)| ==>
      !Rejected(args[i]) && Built(args, executable)[i] == StageOf(args[i], executable).value
  {
    if args != [] && !Rejected(args[0]) {
      BuiltIndex(args[1..], executable);
      var rest := Built(args[1..], executable);
      assert Built(args, executable) == [StageOf(args[0], executable).value] + rest;
      forall i | 0 <= i < |Built(args, executable)|
        ensures !Rejected(args[i]) && Built(args, executable)[i] == StageOf(args[i], executable).value
      {
        if i > 0 {
          assert Built(args, executable)[i] == rest[i - 1];
          assert args[1..][i - 1] == args[i];
        }
      }
    }
  }

  /** Stages built from registered arguments refer only to registered pipelines. */
  lemma BuiltWithin(args: seq<Arg>, executable: string, pipes: set<Pipeline>, bound: nat)
    requires forall i :: 0 <= i < |args| ==> ArgWithin(args[i], pipes)
    requires forall q :: q in pipes ==> q.rank < bound
    ensures forall i :: 0 <= i < |Built(args, executable)| ==> StageWithin(Built(args, executable)[i], pipes, bound)
  {
    BuiltIndex(args, executable);
    forall i | 0 <= i < |Built(args, executable)|
      ensures StageWithin(Built(args, executable)[i], pipes, bound)
    {
      StageOfWithin(args[i], executable, pipes, bound);
    }
  }

  lemma StageOfWithin(a: Arg, executable: string, pipes: set<Pipeline>, bound: nat)
    requires ArgWithin(a, pipes) && !Rejected(a)
    requires forall q :: q in pipes ==> q.rank < bound
    ensures StageWithin(StageOf(a, executable).value, pipes, bound)
  {
    if a.List? {
      LeavesWithin(a.items, pipes);
      var ls := Leaves(a.items);
      forall j | 0 <= j < |ls|
        ensures MemberWithin(ToMember(ls[j], executable), pipes, bound)
      {
        assert ArgWithin(ls[j], pipes);
      }
    }
  }

  // ------------------------------------------------------------------------------------------
  // Dispatcher: specification
  // ------------------------------------------------------------------------------------------

  /** Everything dispatch changes: every pipeline's queue and error list, the global error list,
      and the effects recorded in the context. */
  datatype State = State(
    queues: map<Pipeline, seq<Stage>>,
    errors: map<Pipeline, seq<Failure>>,
    globalErrors: seq<Failure>,
    calls: seq<Call>,
    mails: seq<Message>,
    terminated: bool)

  function QueueOf(s: State, p: Pipeline): seq<Stage>
  {
    if p in s.queues then s.queues[p] else []
  }

  function ErrorsOf(s: State, p: Pipeline): seq<Failure>
  {
    if p in s.errors then s.errors[p] else []
  }

  /** The status `__exec_cmd` reaches its status test with, or None when the backend call raised
      and the test is skipped. Locally it is what the backend returns. A connected pipeline keeps
      the initial -1 whenever its remote call returns, because the remote status is never assigned
      to `ret`; without a logger it does not call the remote session at all. */
  function StatusOf(p: Pipeline, cmd: string, status: Backend): (r: Option<int>)
    ensures !p.connected ==> r == status(cmd)
    ensures p.connected ==> (r.None? <==> p.logging && status(cmd).None?)
    ensures p.connected && r.Some? ==> r.value == -1
  {
    if !p.connected then status(cmd)
    else if p.logging && status(cmd).None? then None
    else Some(-1)
  }

  /** Whether `__exec_cmd` records a failure: the backend call returned a nonzero status and a
      logger exists (without one, `self.__logger.error` raises first and the exception is
      swallowed). */
  predicate Records(p: Pipeline, cmd: string, status: Backend)
    ensures Records(p, cmd, status) <==>
      p.logging && status(cmd).Some? && (p.connected || status(cmd).value != 0)
  {
    StatusOf(p, cmd, status).Some? && StatusOf(p, cmd, status).value != 0 && p.logging
  }

  /** Whether a recorded failure kills the process: force is false and the mail gate did not
      raise (a raise is swallowed before `kill`). */
  predicate Kills(p: Pipeline, cmd: string, status: Backend)
    ensures Kills(p, cmd, status) <==>
      Records(p, cmd, status) && !Truthy(p.force) && !(p.mailEnable && p.mailFlag.None?)
  {
    Records(p, cmd, status) && !Truthy(p.force)
    && !Mail.Send(p.mailEnable, p.mailFlag, Text(FailureMessage(cmd))).Raised?
  }

  /** `__exec_cmd` on a command string. */
  function ExecCommand(p: Pipeline, cmd: string, status: Backend, s: State): (r: State)
    ensures r.queues == s.queues
    ensures r.calls == s.calls + (if p.connected && !p.logging then [] else if p.connected then [Remote(cmd)] else [Local(cmd)])
    ensures Records(p, cmd, status) ==>
      var f := Failure(StatusOf(p, cmd, status).value, FailureMessage(cmd));
      r.globalErrors == s.globalErrors + [f] && r.errors == s.errors[p := ErrorsOf(s, p) + [f]]
    ensures !Records(p, cmd, status) ==> r.globalErrors == s.globalErrors && r.errors == s.errors
    ensures r.terminated <==> s.terminated || Kills(p, cmd, status)
    ensures r.mails == s.mails
      + (if Kills(p, cmd, status) && Mail.Send(p.mailEnable, p.mailFlag, Text(FailureMessage(cmd))).Delivered?
         then [Text(FailureMessage(cmd))] else [])
  {
    var s1 := Called(p, cmd, s);
    if !Records(p, cmd, status) then s1
    else
      var s2 := Recorded(p, Failure(StatusOf(p, cmd, status).value, FailureMessage(cmd)), s1);
      if Truthy(p.force) then s2 else Killed(p, FailureMessage(cmd), s2)
  }

  /** The command handed to the backend. A connected pipeline hands commands to the remote
      session only while its logger is enabled; without one the command is not run at all. */
  function Called(p: Pipeline, cmd: string, s: State): (r: State)
    ensures r == s.(calls := r.calls)
    ensures r.calls == s.calls + (if p.connected && !p.logging then [] else [if p.connected then Remote(cmd) else Local(cmd)])
  {
    if p.connected then (if p.logging then s.(calls := s.calls + [Remote(cmd)]) else s)
    else s.(calls := s.calls + [Local(cmd)])
  }

  /** The failure appended to the global list, then to the instance list. */
  function Recorded(p: Pipeline, f: Failure, s: State): (r: State)
    ensures r == s.(globalErrors := r.globalErrors, errors := r.errors)
    ensures r.globalErrors == s.globalErrors + [f] && ErrorsOf(r, p) == ErrorsOf(s, p) + [f]
    ensures r.errors.Keys == s.errors.Keys + {p}
    ensures forall q :: q in s.errors && q != p ==> r.errors[q] == s.errors[q]
  {
    s.(globalErrors := s.globalErrors + [f], errors := s.errors[p := ErrorsOf(s, p) + [f]])
  }

  /** `send` the failure text, then `kill` the process; a raise in `send` skips the kill. */
  function Killed(p: Pipeline, msg: string, s: State): (r: State)
    ensures r == s.(mails := r.mails, terminated := r.terminated)
    ensures r.terminated <==> s.terminated || !(p.mailEnable && p.mailFlag.None?)
    ensures r.mails == s.mails + (if Mail.Send(p.mailEnable, p.mailFlag, Text(msg)).Delivered? then [Text(msg)] else [])
  {
    match Mail.Send(p.mailEnable, p.mailFlag, Text(msg))
    case Raised => s
    case Skipped => s.(terminated := true)
    case Delivered(m) => s.(mails := s.mails + [m], terminated := true)
  }

  /** `p.dispatch()`: drains p's queue in FIFO order until it is empty or the process is killed. */
  ghost function RunPipe(p: Pipeline, status: Backend, s: State): (r: State)
    ensures s.terminated ==> r == s
    decreases p.rank, 4, 0
  {
    RunStages(p, QueueOf(s, p), status, s)
  }

  /** The dispatch loop over the entries still queued: pop the head, then execute it. */
  ghost function RunStages(p: Pipeline, stages: seq<Stage>, status: Backend, s: State): (r: State)
    ensures s.terminated ==> r == s
    decreases p.rank, 3, |stages|
  {
    if stages == [] || s.terminated then s
    else
      var popped := s.(queues := s.queues[p := stages[1..]]);
      RunStages(p, stages[1..], status, ExecStage(p, stages[0], status, popped))
  }

  /** One queue entry: a command runs through `__exec_cmd`, a nested pipeline is dispatched
      recursively, a group runs every member. The rank test never fails for a pipeline built by
      `Pipeline.Create`; it keeps the definition total. */
  ghost function ExecStage(p: Pipeline, st: Stage, status: Backend, s: State): (r: State)
    ensures s.terminated ==> r.terminated
    decreases p.rank, 2, 0
  {
    match st
    case Cmd(c) => ExecCommand(p, c, status, s)
    case Sub(q) => if q.rank < p.rank then RunPipe(q, status, s) else s
    case Group(ms) => ExecMembers(p, ms, status, s)
  }

  /** A parallel group, run as one admissible schedule: the members in list order, each once,
      abandoning the rest once the process is killed. */
  ghost function ExecMembers(p: Pipeline, ms: seq<Member>, status: Backend, s: State): (r: State)
    ensures s.terminated ==> r == s
    decreases p.rank, 1, |ms|
  {
    if ms == [] || s.terminated then s
    else ExecMembers(p, ms[1..], status, ExecMember(p, ms[0], status, s))
  }

  /** `__do_task` on one member: a command string runs with the group owner's settings, a
      pipeline is dispatched (the TypeError that follows is swallowed by its future), anything
      else raises a swallowed TypeError. */
  ghost function ExecMember(p: Pipeline, m: Member, status: Backend, s: State): (r: State)
    ensures s.terminated ==> r.terminated
    decreases p.rank, 0, 0
  {
    match m
    case Command(c) => ExecCommand(p, c, status, s)
    case Child(q) => if q.rank < p.rank then RunPipe(q, status, s) else s
    case Inert => s
  }

  // ------------------------------------------------------------------------------------------
  // Reports
  // ------------------------------------------------------------------------------------------

  /** `''.join(msg for _, msg in errors)`. */
  function JoinMessages(errs: seq<Failure>): (r: string)
    ensures |errs| == 1 ==> r == errs[0].msg
    ensures forall i :: 0 <= i < |errs| ==> |errs[i].msg| <= |r|
  {
    if errs == [] then ""
    else
      var init := errs[..|errs| - 1];
      assert forall i :: 0 <= i < |init| ==> init[i] == errs[i];
      JoinMessages(init) + errs[|errs| - 1].msg
  }

  /** `__format_msg`: a success report when no error was recorded, else the joined messages. */
  method FormatMsg(errs: seq<Failure>) returns (m: Message)
    ensures m.SuccessReport? <==> errs == []
    ensures m.Text? ==> m.text == JoinMessages(errs)
  {
    if |errs| == 0 {
      return SuccessReport;
    }
    var text := "";
    var i := 0;
    while i < |errs|
      invariant 0 <= i <= |errs|
      invariant text == JoinMessages(errs[..i])
    {
      text := text + errs[i].msg;
      assert errs[..i + 1][..i] == errs[..i];
      i := i + 1;
    }
    assert errs[..i] == errs;
    m := Text(text);
  }

  // ------------------------------------------------------------------------------------------
  // Configuration read by the constructor
  // ------------------------------------------------------------------------------------------

  /** `executable` of the execution section, else the interpreter running the program. */
  function ConfiguredExecutable(config: Manager.Config, defaultExecutable: string): string
  {
    if "execution" in config && "executable" in config["execution"] then config["execution"]["executable"]
    else defaultExecutable
  }

  /** `getattr('force')` of the execution manager, whose `force` defaults to True. */
  function ConfiguredForce(config: Manager.Config): Manager.Value
  {
    Manager.Convert(
      if "execution" in config && "force" in config["execution"] then Manager.Str(config["execution"]["force"])
      else Manager.Bool(true))
  }

  /** The raw `send_mail_flag` attribute of the e-mail manager, if set. */
  function ConfiguredMailFlag(config: Manager.Config): Option<Manager.Value>
  {
    if "email" in config && "send_mail_flag" in config["email"] then Some(Manager.Str(config["email"]["send_mail_flag"]))
    else None
  }

  // ------------------------------------------------------------------------------------------
  // Process-wide state
  // ------------------------------------------------------------------------------------------

  /** The class attributes `_count` and `_errors` of `PipeLine`, and the recorded effects. */
  class Context {
    var count: int
    var globalErrors: seq<Failure>
    var calls: seq<Call>
    var mails: seq<Message>
    var terminated: bool
    /** Every pipeline created so far, and the rank the next one gets. */
    ghost var all: set<Pipeline>
    ghost var nextRank: nat

    /** Process start: `_count = 1`, `_errors = []`. */
    constructor ()
      ensures count == 1 && globalErrors == [] && calls == [] && mails == [] && !terminated
      ensures all == {} && Valid()
    {
      count := 1;
      globalErrors := [];
      calls := [];
      mails := [];
      terminated := false;
      all := {};
      nextRank := 0;
    }

    /** Every pipeline refers only to older pipelines of this same context. */
    ghost predicate Valid()
      reads this`all, this`nextRank, all`queue
    {
      forall p :: p in all ==> p.ctx == this && p.rank < nextRank && p.QueueWithin(all)
    }

    /** Adds a new pipeline, whose stages refer only to registered pipelines, to the registry. */
    method Register(p: Pipeline)
      requires Valid() && p !in all && p.ctx == this && p.rank == nextRank && p.QueueWithin(all)
      modifies this`all, this`nextRank
      ensures Valid() && all == old(all) + {p} && nextRank == old(nextRank) + 1
    {
      forall q | q in all + {p}
        ensures q.QueueWithin(all + {p})
      {
        forall i | 0 <= i < |q.queue|
          ensures StageWithin(q.queue[i], all + {p}, q.rank)
        {
          StageWithinGrows(q.queue[i], all, all + {p}, q.rank);
        }
      }
      all := all + {p};
      nextRank := nextRank + 1;
    }

    ghost function Queues(): map<Pipeline, seq<Stage>>
      reads this`all, all`queue
    {
      map p | p in all :: p.queue
    }

    ghost function Errors(): map<Pipeline, seq<Failure>>
      reads this`all, all`errors
    {
      map p | p in all :: p.errors
    }

    ghost function Abs(): State
      reads this, all
    {
      State(Queues(), Errors(), globalErrors, calls, mails, terminated)
    }
  }

  // ------------------------------------------------------------------------------------------
  // Pipelines
  // ------------------------------------------------------------------------------------------

  class Pipeline {
    var queue: seq<Stage>
    var errors: seq<Failure>
    /** `self.force` (converted by `getattr`). */
    const force: Manager.Value
    const executable: string
    /** Whether the log manager is enabled, i.e. a logger exists. */
    const logging: bool
    /** Whether the remote manager connected. */
    const connected: bool
    /** The e-mail manager's `enable` and raw `send_mail_flag`. */
    const mailEnable: bool
    const mailFlag: Option<Manager.Value>
    const ctx: Context
    ghost const rank: nat

    ghost predicate QueueWithin(pipes: set<Pipeline>)
      reads this`queue
    {
      forall i :: 0 <= i < |queue| ==> StageWithin(queue[i], pipes, rank)
    }

    constructor Init(queue: seq<Stage>, force: Manager.Value, executable: string, logging: bool,
                     connected: bool, mailEnable: bool, mailFlag: Option<Manager.Value>,
                     ctx: Context, ghost rank: nat)
      ensures this.queue == queue && this.errors == [] && this.force == force
      ensures this.executable == executable && this.logging == logging && this.connected == connected
      ensures this.mailEnable == mailEnable && this.mailFlag == mailFlag
      ensures this.ctx == ctx && this.rank == rank
    {
      this.queue := queue;
      this.errors := [];
      this.force := force;
      this.executable := executable;
      this.logging := logging;
      this.connected := connected;
      this.mailEnable := mailEnable;
      this.mailFlag := mailFlag;
      this.ctx := ctx;
      this.rank := rank;
    }

    /** `__flatten`: the leaves in order with the executable prefix on strings; every kept
        pipeline raises the shared count. */
    static method Flatten(items: seq<Arg>, executable: string, ctx: Context) returns (members: seq<Member>)
      modifies ctx`count
      ensures members == ToMembers(Leaves(items), executable)
      ensures ctx.count == old(ctx.count) + PipeCount(Leaves(items))
    {
      var kept := Unnest(items, ctx);
      members := Prefix(kept, executable);
    }

    /** The first loop of `__flatten`, on a copy of the list: splice a leading list into the
        front, or pop the leading leaf and keep it unless it is ''. */
    static method Unnest(items: seq<Arg>, ctx: Context) returns (kept: seq<Arg>)
      modifies ctx`count
      ensures kept == Leaves(items)
      ensures ctx.count == old(ctx.count) + PipeCount(kept)
    {
      var input := items;
      kept := [];
      while input != []
        invariant Leaves(items) == kept + Leaves(input)
        invariant ctx.count == old(ctx.count) + PipeCount(kept)
        decreases SizeSeq(input)
      {
        var head := input[0];
        if head.List? {
          SpliceStep(input);
          input := head.items + input[1..];
        } else {
          PopStep(kept, input);
          if head != Str("") {
            kept := kept + [head];
            if head.Nested? {
              ctx.count := ctx.count + 1;
            }
          }
          input := input[1..];
        }
      }
    }

    /** The second loop of `__flatten`: `'{} {}'.format(executable, item)` for strings. */
    static method Prefix(kept: seq<Arg>, executable: string) returns (members: seq<Member>)
      requires forall i :: 0 <= i < |kept| ==> !kept[i].List?
      ensures members == ToMembers(kept, executable)
    {
      members := [];
      var i := 0;
      while i < |kept|
        invariant 0 <= i <= |kept|
        invariant members == ToMembers(kept[..i], executable)
      {
        members := members + [ToMember(kept[i], executable)];
        i := i + 1;
      }
      assert kept[..i] == kept;
    }

    /** The argument loop of `__init__`: one queue entry per argument, in order, stopping with an
        error at the first blank name or unsupported value. `built` is what was queued, also when
        the loop stopped early. */
    static method Normalize(args: seq<Arg>, executable: string, ctx: Context)
      returns (r: Result<seq<Stage>, BuildError>, built: seq<Stage>)
      modifies ctx`count
      ensures r == Normalized(args, executable)
      ensures built == Built(args, executable) && (r.Ok? ==> r.value == built)
      ensures ctx.count == old(ctx.count) + MetCount(args)
    {
      var stages: seq<Stage> := [];
      var i := 0;
      assert args[i..] == args && stages + Built(args, executable) == Built(args, executable);
      while i < |args|
        invariant 0 <= i <= |args| && |stages| == i
        invariant Built(args, executable) == stages + Built(args[i..], executable)
        invariant old(ctx.count) + MetCount(args) == ctx.count + MetCount(args[i..])
      {
        assert args[i..][0] == args[i] && args[i..][1..] == args[i + 1..];
        var st := Resolve(args[i], executable, ctx);
        if st.Err? {
          assert Built(args[i..], executable) == [] && stages + [] == stages;
          return Err(st.error), stages;
        }
        Assoc(stages, [st.value], Built(args[i + 1..], executable));
        stages := stages + [st.value];
        i := i + 1;
      }
      assert args[i..] == [] && stages + [] == stages;
      r, built := Ok(stages), stages;
    }

    /** The body of the argument loop of `__init__` for one argument. */
    static method Resolve(arg: Arg, executable: string, ctx: Context) returns (r: Result<Stage, BuildError>)
      modifies ctx`count
      ensures r == StageOf(arg, executable)
      ensures ctx.count == old(ctx.count) + (if Rejected(arg) then 0 else PipesMet(arg))
    {
      match arg
      case Nested(q) =>
        ctx.count := ctx.count + 1;
        r := Ok(Sub(q));
      case List(xs) =>
        var members := Flatten(xs, executable, ctx);
        r := Ok(Group(members));
      case Str(s) =>
        var name := Strip(s);
        if name == "" {
          r := Err(EmptyCommand);
        } else {
          r := Ok(Cmd(CommandLine(executable, name)));
        }
      case Other =>
        r := Err(InvalidType);
    }

    /** `PipeLine(*args, config=...)`: builds the managers, normalizes the arguments and connects
        to the remote host when configured. `connectOk` is whether the SSH connection succeeds.
        The object exists before the argument loop starts, so it is returned also when an argument
        is refused (`err` is then the exception the caller gets): its queue holds the stages put
        before the refusal, and its `__del__` still runs, which `Teardown` models. */
    static method Create(args: seq<Arg>, config: Manager.Config, defaultExecutable: string,
                         connectOk: bool, ctx: Context)
      returns (p: Pipeline, err: Option<BuildError>)
      requires ctx.Valid()
      requires forall i :: 0 <= i < |args| ==> ArgWithin(args[i], ctx.all)
      modifies ctx
      ensures ctx.Valid() && fresh(p) && ctx.all == old(ctx.all) + {p} && p.ctx == ctx
      ensures ctx.count == old(ctx.count) + MetCount(args)
      ensures ctx.globalErrors == old(ctx.globalErrors) && ctx.calls == old(ctx.calls)
      ensures ctx.mails == old(ctx.mails) && ctx.terminated == old(ctx.terminated)
      ensures err.None? ==> Normalized(args, p.executable) == Ok(p.queue)
      ensures err.Some? ==> Normalized(args, p.executable) == Err(err.value)
      ensures p.queue == Built(args, p.executable) && p.errors == []
      ensures p.executable == ConfiguredExecutable(config, defaultExecutable)
        && p.force == ConfiguredForce(config)
        && p.logging == ("log" in config)
        && p.connected == (err.None? && "remote" in config && connectOk)
        && p.mailEnable == ("email" in config)
        && p.mailFlag == ConfiguredMailFlag(config)
    {
      var force, executable, logging, remote, mailEnable, flag := Settings(config, defaultExecutable);
      var built, stages := Normalize(args, executable, ctx);
      err := if built.Err? then Some(built.error) else None;
      BuiltWithin(args, executable, ctx.all, ctx.nextRank);
      p := new Pipeline.Init(stages, force, executable, logging, err.None? && remote && connectOk,
                             mailEnable, flag, ctx, ctx.nextRank);
      ctx.Register(p);
    }

    /** The settings the constructor reads through its four plugin managers. */
    static method Settings(config: Manager.Config, defaultExecutable: string)
      returns (force: Manager.Value, executable: string, logging: bool, remote: bool,
               mailEnable: bool, flag: Option<Manager.Value>)
      ensures force == ConfiguredForce(config) && executable == ConfiguredExecutable(config, defaultExecutable)
      ensures logging == ("log" in config) && remote == ("remote" in config)
      ensures mailEnable == ("email" in config) && flag == ConfiguredMailFlag(config)
    {
      force, executable := ExecutionSettings(config, defaultExecutable);
      var log := new Manager.PluginManager("log", config);
      var remoteManager := new Manager.PluginManager("remote", config);
      var email := new Manager.PluginManager("email", config);
      logging := log.enable;
      remote := remoteManager.enable;
      mailEnable := email.enable;
      flag := if "send_mail_flag" in email.options then Some(email.options["send_mail_flag"]) else None;
    }

    /** The execution manager: `force` and `executable` default to True and the interpreter;
        `force` is read through `getattr`, `executable` as the raw attribute. */
    static method ExecutionSettings(config: Manager.Config, defaultExecutable: string)
      returns (force: Manager.Value, executable: string)
      ensures force == ConfiguredForce(config) && executable == ConfiguredExecutable(config, defaultExecutable)
    {
      var execution := new Manager.PluginManager("execution", config);
      execution.SetDefault("force", Manager.Bool(true));
      execution.SetDefault("executable", Manager.Str(defaultExecutable));
      force := execution.GetAttr("force").value;
      executable := Manager.ToStr(execution.options["executable"]);
    }

    /** `__exec_cmd` on a command string. */
    method ExecCmd(cmd: string, status: Backend)
      requires this in ctx.all && ctx.Valid()
      modifies this`errors, ctx`globalErrors, ctx`calls, ctx`mails, ctx`terminated
      ensures ctx.Valid()
      ensures ctx.Abs() == ExecCommand(this, cmd, status, old(ctx.Abs()))
    {
      var ret := CallBackend(cmd, status);
      if ret.Some? && ret.value != 0 && logging {
        var f := Failure(ret.value, FailureMessage(cmd));
        RecordFailure(f);
        if !Truthy(force) {
          Kill(f.msg);
        }
      }
    }

    /** Runs the command locally, or on the remote session whose status is discarded; None when
        the call raised. */
    method CallBackend(cmd: string, status: Backend) returns (ret: Option<int>)
      requires this in ctx.all && ctx.Valid()
      modifies ctx`calls
      ensures ctx.Valid()
      ensures ret == StatusOf(this, cmd, status)
      ensures ctx.Abs() == Called(this, cmd, old(ctx.Abs()))
    {
      ret := Some(-1);
      if connected {
        if logging {
          ctx.calls := ctx.calls + [Remote(cmd)];
          if status(cmd).None? {
            ret := None;
          }
        }
      } else {
        ret := status(cmd);
        ctx.calls := ctx.calls + [Local(cmd)];
      }
    }

    /** `self.__class__._errors.append(...)`, then `self.errors.append(...)`. */
    method RecordFailure(f: Failure)
      requires this in ctx.all && ctx.Valid()
      modifies this`errors, ctx`globalErrors
      ensures ctx.Valid()
      ensures ctx.Abs() == Recorded(this, f, old(ctx.Abs()))
    {
      ghost var s := ctx.Abs();
      ctx.globalErrors := ctx.globalErrors + [f];
      errors := errors + [f];
      assert ctx.Errors() == s.errors[this := ErrorsOf(s, this) + [f]];
    }

    /** The branch taken when force is false: mail the failure text, then kill the process. */
    method Kill(msg: string)
      requires this in ctx.all && ctx.Valid()
      modifies ctx`mails, ctx`terminated
      ensures ctx.Valid()
      ensures ctx.Abs() == Killed(this, msg, old(ctx.Abs()))
    {
      var outcome := Mail.Send(mailEnable, mailFlag, Text(msg));
      match outcome
      case Raised =>
      case Skipped =>
        ctx.terminated := true;
      case Delivered(m) =>
        ctx.mails := ctx.mails + [m];
        ctx.terminated := true;
    }

    /** `dispatch`: pops and executes queue entries until the queue is empty or the process is
        killed. */
    method Dispatch(status: Backend)
      requires this in ctx.all && ctx.Valid()
      modifies ctx, ctx.all
      ensures ctx.Valid() && ctx.all == old(ctx.all) && ctx.nextRank == old(ctx.nextRank)
      ensures ctx.count == old(ctx.count)
      ensures ctx.Abs() == RunPipe(this, status, old(ctx.Abs()))
      decreases rank, 2
    {
      var rest := queue;
      assert ctx.Abs().queues[this] == rest;
      while rest != [] && !ctx.terminated
        invariant ctx.Valid() && ctx.all == old(ctx.all) && ctx.nextRank == old(ctx.nextRank)
        invariant ctx.count == old(ctx.count)
        invariant forall i :: 0 <= i < |rest| ==> StageWithin(rest[i], ctx.all, rank)
        invariant RunPipe(this, status, old(ctx.Abs())) == RunStages(this, rest, status, ctx.Abs())
        decreases |rest|
      {
        var item := rest[0];
        rest := rest[1..];
        SetQueue(rest);
        RunStage(item, status);
      }
    }

    /** `self.__queue.get()`: the queue keeps the entries after the popped one. */
    method SetQueue(rest: seq<Stage>)
      requires this in ctx.all && ctx.Valid()
      requires forall i :: 0 <= i < |rest| ==> StageWithin(rest[i], ctx.all, rank)
      modifies this`queue
      ensures ctx.Valid() && queue == rest
      ensures ctx.Abs() == old(ctx.Abs()).(queues := old(ctx.Abs()).queues[this := rest])
    {
      ghost var s := ctx.Abs();
      queue := rest;
      assert ctx.Queues() == s.queues[this := rest];
    }

    /** One queue entry of `dispatch`. */
    method RunStage(item: Stage, status: Backend)
      requires this in ctx.all && ctx.Valid() && StageWithin(item, ctx.all, rank)
      modifies ctx, ctx.all
      ensures ctx.Valid() && ctx.all == old(ctx.all) && ctx.nextRank == old(ctx.nextRank)
      ensures ctx.count == old(ctx.count)
      ensures ctx.Abs() == ExecStage(this, item, status, old(ctx.Abs()))
      decreases rank, 1
    {
      match item
      case Cmd(c) =>
        ExecCmd(c, status);
      case Sub(q) =>
        q.Dispatch(status);
      case Group(ms) =>
        var i := 0;
        while i < |ms| && !ctx.terminated
          invariant 0 <= i <= |ms|
          invariant ctx.Valid() && ctx.all == old(ctx.all) && ctx.nextRank == old(ctx.nextRank)
          invariant ctx.count == old(ctx.count)
          invariant ExecMembers(this, ms, status, old(ctx.Abs())) == ExecMembers(this, ms[i..], status, ctx.Abs())
        {
          assert ms[i..][1..] == ms[i + 1..];
          RunMember(ms[i], status);
          i := i + 1;
        }
        if i == |ms| {
          assert ms[i..] == [];
        }
    }

    /** `__do_task` on one member of a group. */
    method RunMember(m: Member, status: Backend)
      requires this in ctx.all && ctx.Valid() && MemberWithin(m, ctx.all, rank)
      modifies ctx, ctx.all
      ensures ctx.Valid() && ctx.all == old(ctx.all) && ctx.nextRank == old(ctx.nextRank)
      ensures ctx.count == old(ctx.count)
      ensures ctx.Abs() == ExecMember(this, m, status, old(ctx.Abs()))
      decreases rank, 0
    {
      match m
      case Command(c) =>
        ExecCmd(c, status);
      case Child(q) =>
        q.Dispatch(status);
      case Inert =>
    }

    /** `__del__` made explicit: decrement the shared count, pick the global report when it
        reaches 0 and the instance report otherwise, and hand it to this pipeline's mail gate.
        It runs only in a live process: `SIGKILL` ends the process without collecting its
        objects, so after a kill no `__del__` runs and no report is mailed. */
    method Teardown() returns (global: bool, report: Message)
      requires !ctx.terminated
      modifies ctx`count, ctx`mails
      ensures ctx.count == old(ctx.count) - 1
      ensures global <==> ctx.count == 0
      ensures report.SuccessReport? <==> (if global then ctx.globalErrors else errors) == []
      ensures report.Text? ==> report.text == JoinMessages(if global then ctx.globalErrors else errors)
      ensures ctx.mails == old(ctx.mails)
        + (if Mail.Send(mailEnable, mailFlag, report).Delivered? then [report] else [])
    {
      ctx.count := ctx.count - 1;
      global := ctx.count == 0;
      if global {
        report := FormatMsg(ctx.globalErrors);
      } else {
        report := FormatMsg(errors);
      }
      var outcome := Mail.Send(mailEnable, mailFlag, report);
      if outcome.Delivered? {
        ctx.mails := ctx.mails + [outcome.message];
      }
    }
  }
}
