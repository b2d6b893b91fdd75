/** Properties of dispatch and of `__exec_cmd`: draining, idempotence, the force-continue policy,
    the kill, and the effect of the remote and logging settings. */
module DispatchProperties {
  import opened Wrappers
  import Manager
  import Mail
  import opened Pipe

  // ------------------------------------------------------------------------------------------
  // Frame: running a pipeline changes the queues of that pipeline and of older ones only
  // ------------------------------------------------------------------------------------------

  lemma {:induction false} RunPipeFrame(q: Pipeline, status: Backend, s: State, x: Pipeline)
    requires x.rank > q.rank
    ensures QueueOf(RunPipe(q, status, s), x) == QueueOf(s, x)
    decreases q.rank, 4, 0
  {
    RunStagesFrame(q, QueueOf(s, q), status, s, x);
  }

  lemma {:induction false} RunStagesFrame(p: Pipeline, stages: seq<Stage>, status: Backend, s: State, x: Pipeline)
    requires x.rank > p.rank
    ensures QueueOf(RunStages(p, stages, status, s), x) == QueueOf(s, x)
    decreases p.rank, 3, |stages|
  {
    if stages != [] && !s.terminated {
      var popped := s.(queues := s.queues[p := stages[1..]]);
      ExecStageFrame(p, stages[0], status, popped, x);
      RunStagesFrame(p, stages[1..], status, ExecStage(p, stages[0], status, popped), x);
    }
  }

  lemma {:induction false} ExecStageFrame(p: Pipeline, st: Stage, status: Backend, s: State, x: Pipeline)
    requires x.rank >= p.rank
    ensures QueueOf(ExecStage(p, st, status, s), x) == QueueOf(s, x)
    decreases p.rank, 2, 0
  {
    match st
    case Cmd(_) =>
    case Sub(q) =>
      if q.rank < p.rank {
        RunPipeFrame(q, status, s, x);
      }
    case Group(ms) =>
      ExecMembersFrame(p, ms, status, s, x);
  }

  lemma {:induction false} ExecMembersFrame(p: Pipeline, ms: seq<Member>, status: Backend, s: State, x: Pipeline)
    requires x.rank >= p.rank
    ensures QueueOf(ExecMembers(p, ms, status, s), x) == QueueOf(s, x)
    decreases p.rank, 1, |ms|
  {
    if ms != [] && !s.terminated {
      ExecMemberFrame(p, ms[0], status, s, x);
      ExecMembersFrame(p, ms[1..], status, ExecMember(p, ms[0], status, s), x);
    }
  }

  lemma {:induction false} ExecMemberFrame(p: Pipeline, m: Member, status: Backend, s: State, x: Pipeline)
    requires x.rank >= p.rank
    ensures QueueOf(ExecMember(p, m, status, s), x) == QueueOf(s, x)
    decreases p.rank, 0, 0
  {
    match m
    case Child(q) =>
      if q.rank < p.rank {
        RunPipeFrame(q, status, s, x);
      }
    case _ =>
  }

  // ------------------------------------------------------------------------------------------
  // Effects only accumulate: dispatch appends to the backend calls, the global error list and the
  // mails, and never takes a kill back
  // ------------------------------------------------------------------------------------------

  /** `s` is a prefix of `r` in every accumulated effect. */
  predicate Grows(s: State, r: State)
  {
    s.calls <= r.calls && s.globalErrors <= r.globalErrors && s.mails <= r.mails
    && (s.terminated ==> r.terminated)
  }

  lemma {:induction false} RunPipeGrows(q: Pipeline, status: Backend, s: State)
    ensures Grows(s, RunPipe(q, status, s))
    decreases q.rank, 4, 0
  {
    RunStagesGrows(q, QueueOf(s, q), status, s);
  }

  lemma {:induction false} RunStagesGrows(p: Pipeline, stages: seq<Stage>, status: Backend, s: State)
    ensures Grows(s, RunStages(p, stages, status, s))
    decreases p.rank, 3, |stages|
  {
    if stages != [] && !s.terminated {
      var popped := s.(queues := s.queues[p := stages[1..]]);
      var s1 := ExecStage(p, stages[0], status, popped);
      ExecStageGrows(p, stages[0], status, popped);
      RunStagesGrows(p, stages[1..], status, s1);
      GrowsTrans(s, s1, RunStages(p, stages[1..], status, s1));
    }
  }

  lemma {:induction false} ExecStageGrows(p: Pipeline, st: Stage, status: Backend, s: State)
    ensures Grows(s, ExecStage(p, st, status, s))
    decreases p.rank, 2, 0
  {
    match st
    case Cmd(c) =>
    case Sub(q) =>
      if q.rank < p.rank {
        RunPipeGrows(q, status, s);
      }
    case Group(ms) =>
      ExecMembersGrows(p, ms, status, s);
  }

  lemma {:induction false} ExecMembersGrows(p: Pipeline, ms: seq<Member>, status: Backend, s: State)
    ensures Grows(s, ExecMembers(p, ms, status, s))
    decreases p.rank, 1, |ms|
  {
    if ms != [] && !s.terminated {
      var s1 := ExecMember(p, ms[0], status, s);
      ExecMemberGrows(p, ms[0], status, s);
      ExecMembersGrows(p, ms[1..], status, s1);
      GrowsTrans(s, s1, ExecMembers(p, ms[1..], status, s1));
    }
  }

  lemma {:induction false} ExecMemberGrows(p: Pipeline, m: Member, status: Backend, s: State)
    ensures Grows(s, ExecMember(p, m, status, s))
    decreases p.rank, 0, 0
  {
    match m
    case Child(q) =>
      if q.rank < p.rank {
        RunPipeGrows(q, status, s);
      }
    case _ =>
  }

  lemma GrowsTrans(a: State, b: State, c: State)
    requires Grows(a, b) && Grows(b, c)
    ensures Grows(a, c)
  {
  }

  // ------------------------------------------------------------------------------------------
  // Draining and idempotence
  // ------------------------------------------------------------------------------------------

  lemma {:induction false} RunStagesDrains(p: Pipeline, stages: seq<Stage>, status: Backend, s: State)
    requires QueueOf(s, p) == stages
    ensures !RunStages(p, stages, status, s).terminated ==> QueueOf(RunStages(p, stages, status, s), p) == []
    decreases |stages|
  {
    if stages != [] && !s.terminated {
      var popped := s.(queues := s.queues[p := stages[1..]]);
      ExecStageFrame(p, stages[0], status, popped, p);
      RunStagesDrains(p, stages[1..], status, ExecStage(p, stages[0], status, popped));
    }
  }

  /** Unless the process is killed, dispatch leaves the pipeline's queue empty. */
  lemma DispatchDrains(p: Pipeline, status: Backend, s: State)
    ensures !RunPipe(p, status, s).terminated ==> QueueOf(RunPipe(p, status, s), p) == []
  {
    RunStagesDrains(p, QueueOf(s, p), status, s);
  }

  /** Dispatching a second time executes nothing and changes nothing. */
  lemma DispatchTwiceIsOnce(p: Pipeline, status: Backend, s: State)
    ensures RunPipe(p, status, RunPipe(p, status, s)) == RunPipe(p, status, s)
  {
    DispatchDrains(p, status, s);
  }

  // ------------------------------------------------------------------------------------------
  // The force-continue policy on a queue of commands
  // ------------------------------------------------------------------------------------------

  function Cmds(cmds: seq<string>): (r: seq<Stage>)
    ensures |r| == |cmds|
  {
    seq(|cmds|, i requires 0 <= i < |cmds| => Cmd(cmds[i]))
  }

  function Commands(cmds: seq<string>): (r: seq<Member>)
    ensures |r| == |cmds|
  {
    seq(|cmds|, i requires 0 <= i < |cmds| => Command(cmds[i]))
  }

  function LocalCalls(cmds: seq<string>): (r: seq<Call>)
    ensures |r| == |cmds|
  {
    seq(|cmds|, i requires 0 <= i < |cmds| => Local(cmds[i]))
  }

  /** The failure records of the commands whose backend call returns a nonzero status, in order. */
  function FailuresIn(cmds: seq<string>, status: Backend): seq<Failure>
  {
    if cmds == [] then []
    else
      var head := if Failed(status(cmds[0])) then [Failure(status(cmds[0]).value, FailureMessage(cmds[0]))] else [];
      head + FailuresIn(cmds[1..], status)
  }

  predicate Failed(ret: Option<int>)
  {
    ret.Some? && ret.value != 0
  }

  /** One local command under a truthy force: it runs, its failure (if any) is recorded in both
      lists, and the process lives on. */
  lemma ForceStep(p: Pipeline, c: string, status: Backend, s: State)
    requires !p.connected && p.logging && Truthy(p.force)
    ensures var r := ExecCommand(p, c, status, s);
      r.terminated == s.terminated && r.calls == s.calls + [Local(c)] && r.queues == s.queues
      && r.globalErrors == s.globalErrors + FailuresIn([c], status)
      && ErrorsOf(r, p) == ErrorsOf(s, p) + FailuresIn([c], status)
  {
    assert [c][1..] == [];
  }

  /** With a truthy force, a local pipeline of commands runs every command once, in queue order,
      records each failure in the global and the instance list alike, and is never killed. */
  lemma {:induction false} ForceRunsEveryCommand(p: Pipeline, cmds: seq<string>, status: Backend, s: State)
    requires !p.connected && p.logging && Truthy(p.force) && !s.terminated
    ensures var r := RunStages(p, Cmds(cmds), status, s);
      !r.terminated && r.calls == s.calls + LocalCalls(cmds)
      && r.globalErrors == s.globalErrors + FailuresIn(cmds, status)
      && ErrorsOf(r, p) == ErrorsOf(s, p) + FailuresIn(cmds, status)
    decreases |cmds|
  {
    if cmds != [] {
      var stages := Cmds(cmds);
      assert stages[0] == Cmd(cmds[0]) && stages[1..] == Cmds(cmds[1..]);
      var popped := s.(queues := s.queues[p := stages[1..]]);
      assert ErrorsOf(popped, p) == ErrorsOf(s, p);
      var s1 := ExecCommand(p, cmds[0], status, popped);
      ForceStep(p, cmds[0], status, popped);
      var r := RunStages(p, stages[1..], status, s1);
      assert RunStages(p, stages, status, s) == r;
      ForceRunsEveryCommand(p, cmds[1..], status, s1);
      SplitHead(cmds, status);
      Extend(s, s1, r, p, cmds, status);
    }
  }

  /** Chains the effects of the first command with those of the rest. */
  lemma Extend(s: State, s1: State, r: State, p: Pipeline, cmds: seq<string>, status: Backend)
    requires cmds != []
    requires s1.calls == s.calls + [Local(cmds[0])]
    requires s1.globalErrors == s.globalErrors + FailuresIn([cmds[0]], status)
    requires ErrorsOf(s1, p) == ErrorsOf(s, p) + FailuresIn([cmds[0]], status)
    requires r.calls == s1.calls + LocalCalls(cmds[1..])
    requires r.globalErrors == s1.globalErrors + FailuresIn(cmds[1..], status)
    requires ErrorsOf(r, p) == ErrorsOf(s1, p) + FailuresIn(cmds[1..], status)
    requires LocalCalls(cmds) == [Local(cmds[0])] + LocalCalls(cmds[1..])
    requires FailuresIn(cmds, status) == FailuresIn([cmds[0]], status) + FailuresIn(cmds[1..], status)
    ensures r.calls == s.calls + LocalCalls(cmds)
    ensures r.globalErrors == s.globalErrors + FailuresIn(cmds, status)
    ensures ErrorsOf(r, p) == ErrorsOf(s, p) + FailuresIn(cmds, status)
  {
    var head, tail := FailuresIn([cmds[0]], status), FailuresIn(cmds[1..], status);
    Assoc(s.calls, [Local(cmds[0])], LocalCalls(cmds[1..]));
    Assoc(s.globalErrors, head, tail);
    Assoc(ErrorsOf(s, p), head, tail);
  }

  lemma SplitHead(cmds: seq<string>, status: Backend)
    requires cmds != []
    ensures LocalCalls(cmds) == [Local(cmds[0])] + LocalCalls(cmds[1..])
    ensures FailuresIn(cmds, status) == FailuresIn([cmds[0]], status) + FailuresIn(cmds[1..], status)
  {
    LocalCallsHead(cmds);
    FailuresHead(cmds, status);
  }

  lemma LocalCallsHead(cmds: seq<string>)
    requires cmds != []
    ensures LocalCalls(cmds) == [Local(cmds[0])] + LocalCalls(cmds[1..])
  {
    var r, tail := LocalCalls(cmds), LocalCalls(cmds[1..]);
    forall i | 0 <= i < |cmds|
      ensures r[i] == ([Local(cmds[0])] + tail)[i]
    {
      if i > 0 {
        assert tail[i - 1] == Local(cmds[1..][i - 1]);
      }
    }
  }

  lemma FailuresHead(cmds: seq<string>, status: Backend)
    requires cmds != []
    ensures FailuresIn(cmds, status) == FailuresIn([cmds[0]], status) + FailuresIn(cmds[1..], status)
  {
    var c := cmds[0];
    var head := if Failed(status(c)) then [Failure(status(c).value, FailureMessage(c))] else [];
    assert FailuresIn(cmds, status) == head + FailuresIn(cmds[1..], status);
    assert [c][1..] == [];
    assert FailuresIn([c], status) == head + FailuresIn([], status);
    assert head + [] == head;
  }

  /** The same for a parallel group of commands: each member runs once, in list order. */
  lemma {:induction false} GroupRunsEveryMember(p: Pipeline, cmds: seq<string>, status: Backend, s: State)
    requires !p.connected && p.logging && Truthy(p.force) && !s.terminated
    ensures var r := ExecMembers(p, Commands(cmds), status, s);
      !r.terminated && r.calls == s.calls + LocalCalls(cmds) && r.queues == s.queues
      && r.globalErrors == s.globalErrors + FailuresIn(cmds, status)
      && ErrorsOf(r, p) == ErrorsOf(s, p) + FailuresIn(cmds, status)
    decreases |cmds|
  {
    if cmds != [] {
      var ms := Commands(cmds);
      assert ms[0] == Command(cmds[0]) && ms[1..] == Commands(cmds[1..]);
      var s1 := ExecCommand(p, cmds[0], status, s);
      ForceStep(p, cmds[0], status, s);
      var r := ExecMembers(p, ms[1..], status, s1);
      assert ExecMembers(p, ms, status, s) == r;
      GroupRunsEveryMember(p, cmds[1..], status, s1);
      SplitHead(cmds, status);
      Extend(s, s1, r, p, cmds, status);
    }
  }

  // ------------------------------------------------------------------------------------------
  // The kill, and the quirks of `__exec_cmd`
  // ------------------------------------------------------------------------------------------

  /** A failing command of a pipeline whose force is false kills the process: nothing after it
      runs, and the rest of the queue stays unexecuted. */
  lemma KillStopsQueue(p: Pipeline, c: string, rest: seq<Stage>, status: Backend, s: State)
    requires !s.terminated && Kills(p, c, status)
    ensures var r := RunStages(p, [Cmd(c)] + rest, status, s);
      r.terminated && QueueOf(r, p) == rest
      && r == ExecCommand(p, c, status, s.(queues := s.queues[p := rest]))
  {
    assert ([Cmd(c)] + rest)[0] == Cmd(c) && ([Cmd(c)] + rest)[1..] == rest;
  }

  /** Force false is what kills: the failure is mailed when the gate lets it through, and the
      kill happens whether or not it was delivered, unless the gate raised. */
  lemma NoForceKills(p: Pipeline, c: string, status: Backend, s: State)
    requires Records(p, c, status) && !Truthy(p.force)
    ensures var r := ExecCommand(p, c, status, s);
      var gate := Mail.Send(p.mailEnable, p.mailFlag, Text(FailureMessage(c)));
      (r.terminated <==> s.terminated || !gate.Raised?)
      && (gate.Delivered? ==> r.mails == s.mails + [Text(FailureMessage(c))])
      && (!gate.Delivered? ==> r.mails == s.mails)
  {
  }

  /** A truthy force never kills, whatever the status. */
  lemma ForceNeverKills(p: Pipeline, c: string, status: Backend, s: State)
    requires Truthy(p.force)
    ensures ExecCommand(p, c, status, s).terminated == s.terminated
    ensures ExecCommand(p, c, status, s).mails == s.mails
  {
  }

  /** On a connected pipeline the remote status is ignored: with a logger, every remote call that
      returns is recorded as failed with status -1, whatever it returned; without a logger the
      command is not even run. */
  lemma RemoteStatusIgnored(p: Pipeline, c: string, status1: Backend, status2: Backend, s: State)
    requires p.connected
    ensures status1(c).Some? && status2(c).Some? ==> ExecCommand(p, c, status1, s) == ExecCommand(p, c, status2, s)
    ensures p.logging && status1(c).Some? ==>
      ExecCommand(p, c, status1, s).globalErrors == s.globalErrors + [Failure(-1, FailureMessage(c))]
    ensures !p.logging ==> ExecCommand(p, c, status1, s) == s
  {
  }

  /** A backend call that raises is issued and then has no further effect: nothing is recorded,
      mailed or killed, whatever the force and logging settings. */
  lemma RaisingCallSwallowed(p: Pipeline, c: string, status: Backend, s: State)
    requires status(c).None? && (p.connected ==> p.logging)
    ensures ExecCommand(p, c, status, s) == s.(calls := s.calls + [if p.connected then Remote(c) else Local(c)])
  {
  }

  /** Without a logger, failures are neither recorded nor acted on. */
  lemma NoLoggerNoRecord(p: Pipeline, c: string, status: Backend, s: State)
    requires !p.logging
    ensures var r := ExecCommand(p, c, status, s);
      r.globalErrors == s.globalErrors && r.errors == s.errors
      && r.terminated == s.terminated && r.mails == s.mails
  {
  }

  /** Force is on unless the execution section sets it to a false spelling, to '', or to a digit
      string of value 0 that is not itself a true spelling. */
  lemma ForceSetting(config: Manager.Config)
    ensures !("execution" in config && "force" in config["execution"]) ==> Truthy(ConfiguredForce(config))
    ensures "execution" in config && "force" in config["execution"] ==>
      var v := config["execution"]["force"];
      (Truthy(ConfiguredForce(config)) <==>
        v !in Manager.FalseSpellings && v != ""
        && !(Manager.IsDigits(v) && v !in Manager.TrueSpellings && Manager.DigitsValue(v) == 0))
  {
  }

  /** The digit spellings are inverted: force = 0 keeps going after a failure, force = 1 stops. */
  lemma ForceDigitSpellings(config: Manager.Config)
    requires "execution" in config && "force" in config["execution"]
    ensures config["execution"]["force"] == "0" ==> Truthy(ConfiguredForce(config))
    ensures config["execution"]["force"] == "1" ==> !Truthy(ConfiguredForce(config))
  {
    assert Manager.TrueSpellings[4] == "0" && Manager.FalseSpellings[4] == "1";
  }

  /** The report text is the concatenation of the messages, list by list. */
  lemma {:induction false} JoinMessagesAppend(a: seq<Failure>, b: seq<Failure>)
    ensures JoinMessages(a + b) == JoinMessages(a) + JoinMessages(b)
    decreases |b|
  {
    if b == [] {
      assert a + b == a;
    } else {
      var b' := b[..|b| - 1];
      var last := b[|b| - 1];
      assert (a + b)[..|a + b| - 1] == a + b';
      assert (a + b)[|a + b| - 1] == last;
      assert JoinMessages(a + b) == JoinMessages(a + b') + last.msg;
      assert JoinMessages(b) == JoinMessages(b') + last.msg;
      JoinMessagesAppend(a, b');
    }
  }
}
