# louvijan pipeline core in Dafny

This project models the core of louvijan's `PipeLine`. A pipeline is built from positional
arguments: script names, lists meaning parallel groups, and other pipelines. It runs them as
shell commands through an execution backend. Under the force-continue policy a failure is
either recorded and skipped, or mailed and followed by killing the process. The model covers
four parts:

- **Normalizer.** The constructor turns its arguments into a FIFO queue of stages:
  - a command: the executable, a space, then the stripped name;
  - a parallel group: the list flattened by `__flatten`;
  - a nested pipeline.

  A blank name fails with `EmptyCommand` (ValueError). A value of any other type fails with
  `InvalidType` (TypeError).
- **Dispatcher.** `dispatch` drains the queue. `__exec_cmd` calls the backend, records failures
  in the instance error list and the process-wide list, and applies the force flag.
- **Lifecycle counter.** The class counter `_count` starts at 1 and grows by one for every nested
  pipeline met while normalizing. Teardown lowers it by one and picks the global or the instance
  report.
- **Helpers from the managers.**
  - `PluginManager` (enabled iff its configuration section exists) and its `getattr`
    conversion to bool, int or string.
  - The e-mail manager's receiver splitter and its delivery gate.

How the program is represented:

- The process-wide class state (`_count`, `_errors`) is a `Context` object shared by every
  pipeline. It also records the program's effects on the outside world:
  - `calls`: the commands handed to the backend;
  - `mails`: the messages handed to the mail transport;
  - `terminated`: whether the process was killed.
- A pipeline is a `Pipeline` object. Its queue and error list are fields that dispatch updates in
  place. Pipelines refer to one another, so each has a ghost creation rank, and a nested pipeline
  is always older than the pipeline that holds it. This is what makes recursive dispatch
  terminate.
- The imperative methods are proved against ghost specification functions over a value `State`:
  `RunPipe`, `RunStages`, `ExecStage`, `ExecMembers`, `ExecMember` and `ExecCommand`. The
  properties are proved about those functions.
- The execution backend is a parameter of type `Backend = string -> Option<int>`. It gives the
  status a command returns, or None when issuing the command raises. Whether the SSH connection
  succeeds is the parameter `connectOk`. The parsed configuration is a `map` from section to
  option to text.
- A parallel group runs its members one after another in list order. This is one of the
  schedules the thread pool allows.

The model follows the code where the code's behaviour is surprising:

- A command of a connected pipeline keeps the status -1 (louvijan/pipe.py:152-157). The remote
  result is never assigned, so every remote call that returns counts as failed.
- A backend call that raises is swallowed at louvijan/pipe.py:179-180: nothing is recorded,
  mailed or killed. A remote call raises whenever the command prints anything, because
  louvijan/manager/remote.py:62-66 reports to the log manager through `info` and `error`, which
  it does not have. A local call with logging raises when the log section has no `path`
  (louvijan/manager/execution.py:34).
- With logging off, a nonzero status is neither recorded nor acted on. The call to the missing
  logger raises, and the exception is swallowed.
- An exception in the mail gate is swallowed before the kill.
- `'0'` converts to True and `'1'` to False.
- An entry that is whitespace but not exactly `''` stays in a group, unstripped.
- An empty list still queues an empty group.

Three more points where the code's behaviour is followed:

- louvijan/manager/remote.py:68 derives a status from the remote error stream, but
  louvijan/pipe.py:157 discards it.
- An exception while issuing a command is not turned into a failure record:
  louvijan/pipe.py:179-180 only prints its traceback.
- The thread pool gives no order among the members of a group; here they run in list order.

## Model

| member | source | states |
|---|---|---|
| Pipe.CommandLine | louvijan/pipe.py:73 | a command is the executable, one space, then the name, each recoverable from its position |
| Pipe.FailureMessage | louvijan/pipe.py:171 | the failure text is the command followed by the fixed line `\nRun Failed.\n` |
| Pipe.Truthy | louvijan/pipe.py:176 | `not self.force` holds exactly for False, 0 and `''` |
| Pipe.StageOf | louvijan/pipe.py:64-78 | an argument is refused (the result is an error) exactly when it is a blank name or a value of an unsupported type; a blank name gives `EmptyCommand` (the ValueError at pipe.py:75), an unsupported value gives `InvalidType` (the TypeError at pipe.py:77), and a pipeline is queued as itself |
| Pipe.Leaves | louvijan/pipe.py:106-121 | every element of a flattened group is a non-list leaf other than `''` |
| Pipe.Pipeline.Flatten | louvijan/pipe.py:89-130 | `__flatten` yields the depth-first leaves, with the executable prefix on strings and pipelines kept as they are; the shared count rises by the number of pipelines kept |
| Pipe.Pipeline.Unnest | louvijan/pipe.py:106-121 | the splice-or-pop loop terminates, and what it keeps is exactly the depth-first sequence of leaves other than `''`; the count rises once per kept pipeline |
| Pipe.SpliceStep | louvijan/pipe.py:112-114 | splicing a leading list into the front keeps the leaves and shrinks the argument tree |
| Pipe.PopStep | louvijan/pipe.py:115-121 | popping a leading leaf moves it to the kept leaves unless it is `''`, adds one to the pipeline count for a pipeline, and shrinks the tree |
| Pipe.Pipeline.Prefix | louvijan/pipe.py:123-128 | strings get the executable and a space in front; other leaves are kept unchanged, in order |
| Pipe.Pipeline.Resolve | louvijan/pipe.py:64-78 | one argument becomes its stage or its error; a pipeline argument, or a pipeline inside a list, raises the count |
| Pipe.Pipeline.Normalize | louvijan/pipe.py:63-78 | the argument loop builds the queue, or stops with the error of the first refused argument; in both cases what it queued is the stages of the arguments before the stop; the count rises by the pipelines met before stopping |
| Pipe.Normalized | louvijan/pipe.py:63-78 | the constructor's outcome: it succeeds iff the stages queued before any refusal cover every argument, its queue is then exactly those stages, and otherwise the error is that of the argument where queueing stopped |
| Pipe.Built | louvijan/pipe.py:63-78 | the stages queued before the loop stops: at most one per argument, and when they fall short of the arguments the next argument is a refused one |
| Pipe.PipesMet | louvijan/pipe.py:65-66 | the count increments one argument causes, at pipe.py:65-66 for a pipeline argument and at pipe.py:118-119 for each pipeline inside a list, equal the pipelines anywhere in the argument |
| Pipe.MetCount | louvijan/pipe.py:63-78 | the count increments before the loop stops never exceed the pipelines anywhere in the arguments |
| Pipe.LeavesCountPipes | louvijan/pipe.py:118-119 | the pipelines kept by flattening are exactly the pipelines anywhere in the nested list |
| Pipe.BuiltIndex | louvijan/pipe.py:63-78 | the i-th queued stage is the stage of the i-th argument, which was accepted |
| Pipe.Pipeline.Create | louvijan/pipe.py:29-81 | a new pipeline, returned also when an argument is refused (the half-built object whose `__del__` still runs); its error list is empty, its queue holds the stages put before any refusal, and its settings come from the configuration; it is connected only when construction got past the argument loop; the error is the one of the first refused argument; no error and no effect is recorded |
| Pipe.Pipeline.Settings | louvijan/pipe.py:40-61 | force, executable, logging, remote, mail enable and mail flag are read from their sections, each manager being enabled iff its section exists |
| Pipe.Pipeline.ExecutionSettings | louvijan/manager/execution.py:17-20 | `force` defaults to True and is read through `getattr`; `executable` defaults to the interpreter and is taken raw |
| Pipe.Context.constructor | louvijan/pipe.py:22-25 | at process start the count is 1, the global error list is empty and nothing has run |
| Pipe.ExecCommand | louvijan/pipe.py:151-180 | the backend call (local, remote, or none for a connected pipeline without logging); the same failure pair appended to both error lists iff the call returned a nonzero status and a logger exists; the process killed iff additionally force is falsy and the gate does not raise; the failure mailed iff the gate delivers |
| Pipe.StatusOf | louvijan/pipe.py:152-162 | the status the test at pipe.py:166 sees: locally the backend's; for a connected pipeline -1 whenever the call returns; none exactly when the call raised, which for a connected pipeline needs a logger since otherwise no call is made |
| Pipe.Records | louvijan/pipe.py:166-174 | a failure is recorded iff a logger exists and the call returned, with a nonzero status for a local call and with any status for a connected one |
| Pipe.Kills | louvijan/pipe.py:176-178 | the process is killed iff a failure is recorded, force is falsy and the mail gate does not raise, which it does when mail is enabled without a flag |
| Pipe.Called | louvijan/pipe.py:155-162 | issuing a command adds exactly the backend call, local, remote, or none for a connected pipeline without logging, and changes nothing else |
| Pipe.Recorded | louvijan/pipe.py:173-174 | recording appends the failure to the global list and to this pipeline's list, and leaves the other pipelines' lists and every other effect unchanged |
| Pipe.Killed | louvijan/pipe.py:177-178 | the failure text is mailed iff the gate delivers, the process is killed unless the gate raised, and nothing else changes |
| Pipe.Pipeline.ExecCmd | louvijan/pipe.py:151-180 | the pipeline's new state is `ExecCommand` of the old one |
| Pipe.Pipeline.CallBackend | louvijan/pipe.py:152-162 | the status is the backend's locally and -1 when connected; none when the call raised; a connected pipeline calls the remote session only while logging |
| Pipe.Pipeline.RecordFailure | louvijan/pipe.py:173-174 | the failure pair is appended to the global list and to this pipeline's list, and nothing else changes |
| Pipe.Pipeline.Kill | louvijan/pipe.py:176-178 | the failure text goes through the mail gate; the process is killed unless the gate raised |
| Pipe.Pipeline.Dispatch | louvijan/pipe.py:184-230 | the new state is `RunPipe` of the old one: the queue is drained in FIFO order until it is empty or the process is killed |
| Pipe.Pipeline.SetQueue | louvijan/pipe.py:209-210 | a `get` leaves the queue holding the entries after the popped one |
| Pipe.Pipeline.RunStage | louvijan/pipe.py:211-230 | a command runs through `__exec_cmd`, a nested pipeline is dispatched, and a group runs each member once, stopping at a kill |
| Pipe.Pipeline.RunMember | louvijan/pipe.py:132-150 | a command member runs with the owner's settings, a pipeline member is dispatched, and anything else does nothing |
| Pipe.RunPipe | louvijan/pipe.py:208-230 | a killed process runs nothing more |
| Pipe.RunStages | louvijan/pipe.py:209-216 | once killed, the rest of the queue is left as it is |
| Pipe.ExecStage | louvijan/pipe.py:210-230 | one queue entry (a command, a nested pipeline or a group) never revives a killed process |
| Pipe.ExecMember | louvijan/pipe.py:132-182 | one member of a group (`__do_task`: a command, a pipeline, or a value raising a swallowed TypeError) never revives a killed process |
| Pipe.ExecMembers | louvijan/pipe.py:218-230 | once killed, the remaining members of a group do not run |
| Pipe.FormatMsg | louvijan/pipe.py:232-262 | a success report iff no error was recorded; otherwise the messages concatenated in order |
| Pipe.JoinMessages | louvijan/pipe.py:258-261 | the joined report of one failure is its message, and every message fits within the report |
| Pipe.Pipeline.Teardown | louvijan/pipe.py:264-281 | runs only while the process is alive, since `SIGKILL` (louvijan/manager/execution.py:52) ends it without running `__del__`; the count drops by exactly one; the global report is chosen iff the count reaches 0 and the instance report otherwise; the report goes through this pipeline's mail gate |
| NormalizeProperties.OneStagePerArg | louvijan/pipe.py:63-78 | a successful construction queues exactly one stage per argument, in argument order, each being that argument's stage (a list is always one group, possibly empty) |
| NormalizeProperties.FailsAtFirstRejected | louvijan/pipe.py:63-77 | construction fails iff some argument is refused, and then with the error of the first refused one |
| NormalizeProperties.BlankNameRejected | louvijan/pipe.py:70-75 | a name raises `EmptyCommand` iff it is whitespace only; otherwise the command is the executable, a space and the stripped name |
| NormalizeProperties.FlatIsFixed | louvijan/pipe.py:106-121 | a list of leaves none of which is `''` flattens to itself |
| NormalizeProperties.FlattenIdempotent | louvijan/pipe.py:106-121 | extracting the leaves of extracted leaves changes nothing (the whole of `__flatten` is not idempotent: its loop at louvijan/pipe.py:123-128 prefixes every string again) |
| NormalizeProperties.WhitespaceLeafKept | louvijan/pipe.py:116-126 | only entries equal to `''` are dropped: a whitespace entry stays, prefixed but not stripped |
| NormalizeProperties.FlattenExample | louvijan/pipe.py:101 | `['B', ['C', 'D'], 'E']` flattens to `['B', 'C', 'D', 'E']` |
| NormalizeProperties.CountsEveryPipeline | louvijan/pipe.py:65-66 | a successful construction raises the count by the number of pipelines anywhere in its arguments, at any depth; strings never change it |
| DispatchProperties.RunPipeFrame | louvijan/pipe.py:208-216 | dispatching a pipeline leaves the queue of every younger pipeline unchanged |
| DispatchProperties.RunStagesFrame | louvijan/pipe.py:209-216 | the same for the loop over the remaining entries |
| DispatchProperties.ExecStageFrame | louvijan/pipe.py:211-230 | executing one entry leaves the queues of this pipeline and of younger ones unchanged |
| DispatchProperties.ExecMembersFrame | louvijan/pipe.py:218-230 | the same for the members of a group |
| DispatchProperties.ExecMemberFrame | louvijan/pipe.py:132-150 | the same for one member |
| DispatchProperties.RunPipeGrows | louvijan/pipe.py:208-230 | dispatch only appends to the backend calls, the global errors and the mails, and never undoes a kill |
| DispatchProperties.RunStagesGrows | louvijan/pipe.py:209-216 | the same for the loop over the remaining entries |
| DispatchProperties.ExecStageGrows | louvijan/pipe.py:211-230 | the same for one entry |
| DispatchProperties.ExecMembersGrows | louvijan/pipe.py:218-230 | the same for a group |
| DispatchProperties.ExecMemberGrows | louvijan/pipe.py:132-150 | the same for one member |
| DispatchProperties.RunStagesDrains | louvijan/pipe.py:209-210 | unless the process is killed, the loop ends with the pipeline's queue empty |
| DispatchProperties.DispatchDrains | louvijan/pipe.py:208-216 | unless the process is killed, dispatch leaves the queue empty |
| DispatchProperties.DispatchTwiceIsOnce | louvijan/pipe.py:208-216 | a second dispatch executes nothing and changes nothing |
| DispatchProperties.ForceStep | louvijan/pipe.py:166-176 | with a truthy force, a local command with logging runs, any failure is recorded in both lists, and the process lives on |
| DispatchProperties.ForceRunsEveryCommand | louvijan/pipe.py:166-176 | with a truthy force, a queue of commands runs every command once in queue order; the N failures appear in order in both the global and the instance list; the process is never killed |
| DispatchProperties.GroupRunsEveryMember | louvijan/pipe.py:218-230 | the same for a group: each member runs once and every failure is recorded in both lists |
| DispatchProperties.KillStopsQueue | louvijan/pipe.py:175-178 | a command that kills ends the run; the entries queued after it stay unexecuted |
| DispatchProperties.NoForceKills | louvijan/pipe.py:175-178 | with force falsy, a recorded failure kills unless the gate raised; the failure text is mailed iff the gate delivers |
| DispatchProperties.ForceNeverKills | louvijan/pipe.py:176 | with force truthy, no command kills or mails, whatever its status |
| DispatchProperties.RemoteStatusIgnored | louvijan/pipe.py:152-157 | on a connected pipeline the status a remote call returns is irrelevant; with logging, every remote call that returns is recorded as failed with status -1; without logging, nothing happens |
| DispatchProperties.RaisingCallSwallowed | louvijan/pipe.py:152-180 | a backend call that raises is issued and has no other effect: nothing is recorded, mailed or killed, whatever the force setting |
| DispatchProperties.NoLoggerNoRecord | louvijan/pipe.py:166-179 | without a logger a failure is neither recorded nor acted on |
| DispatchProperties.ForceSetting | louvijan/pipe.py:48 | force is on unless the execution section sets it to a false spelling, to `''`, or to a zero digit string other than `'0'` |
| DispatchProperties.ForceDigitSpellings | louvijan/manager/base.py:38-41 | `force = 0` keeps going after a failure; `force = 1` stops |
| DispatchProperties.JoinMessagesAppend | louvijan/pipe.py:258-261 | the report text of two error lists in sequence is the concatenation of their texts |
| Manager.Convert | louvijan/manager/base.py:35-44 | true iff the text is one of `'True' 'true' 'TRUE' 'T' '0'`; false iff it is one of `'False' 'false' 'FALSE' 'F' '1'`; otherwise its integer value when it is all digits, else the text unchanged |
| Manager.ToStr | louvijan/manager/base.py:35-36 | `str(res)`: a boolean gives a spelling that converts back to it, an integer gives digits whose value is the integer, a string is kept |
| Manager.DigitsValue | louvijan/manager/base.py:41-42 | `int(s)` of a digit string is 0 exactly when every digit is `0` |
| Manager.NatToString | louvijan/manager/base.py:37 | `str(n)` is a digit string without leading zeros |
| Manager.DigitsRoundTrip | louvijan/manager/base.py:37-43 | `int(str(n)) == n` |
| Manager.PluginManager.constructor | louvijan/manager/base.py:14-23 | enabled iff the section exists; a missing section sets no option; otherwise every key of the section becomes an option holding its text |
| Manager.PluginManager.SetDefault | louvijan/manager/execution.py:19-20 | a configured option is kept; a missing one is set to the default |
| Manager.PluginManager.GetAttr | louvijan/manager/base.py:25-44 | a missing option has no value; otherwise the result is the conversion of the option |
| Manager.ConvertBoolStable | louvijan/manager/base.py:36-41 | converting a boolean result again gives the same boolean |
| Manager.ConvertStrStable | louvijan/manager/base.py:36-44 | converting a string result again leaves it unchanged |
| Manager.ConvertIntStable | louvijan/manager/base.py:36-43 | an integer result survives a second conversion iff it is at least 2 (`str(0)` and `str(1)` are caught by the boolean tests) |
| Mail.Split | louvijan/manager/mail.py:66 | `split(',')` gives one comma-free field more than there are commas, and the fields joined with `','` give back the input |
| Mail.GetReceivers | louvijan/manager/mail.py:52-66 | one entry per comma-separated field (commas plus one), none with leading or trailing whitespace |
| Mail.SplitFirstField | louvijan/manager/mail.py:66 | a leading comma-free field splits off on its own |
| Mail.SplitNoComma | louvijan/manager/mail.py:66 | a comma-free string is a single field |
| Mail.ReceiversOneField | louvijan/manager/mail.py:66 | a comma-free setting is one receiver, stripped |
| Mail.ReceiversFirstField | louvijan/manager/mail.py:66 | the first field becomes the first receiver, stripped, followed by the receivers of the rest |
| Mail.ReceiversJoinRoundTrip | louvijan/manager/mail.py:61-66 | comma-free addresses without surrounding whitespace, joined with `', '`, split back into the original list |
| Mail.DocExample | louvijan/manager/mail.py:61-63 | the docstring example yields its three addresses in order |
| Mail.EmptyReceivers | louvijan/manager/mail.py:66 | an empty setting yields a single empty receiver |
| Mail.Send | louvijan/manager/mail.py:85-93 | delivers iff enabled and the flag is one of the nine spellings of always, failure or success, and then delivers the given message; raises iff enabled without a flag |
| Mail.GateIgnoresMessage | louvijan/manager/mail.py:89-91 | the gate depends on neither the message nor the outcome: `'failure'` and `'success'` behave alike for every message, and `'never'` delivers nothing |
| Text.TrimLeft | louvijan/pipe.py:71 | `lstrip` leaves a suffix of the input that does not start with whitespace |
| Text.TrimRight | louvijan/pipe.py:71 | `rstrip` leaves a prefix of the input that does not end with whitespace |
| Text.Strip | louvijan/pipe.py:71 | `strip` gives a string with no whitespace at either end, no longer than the input |
| Text.TrimLeftDropsSpace | louvijan/pipe.py:71 | what `lstrip` removes is whitespace |
| Text.TrimRightDropsSpace | louvijan/pipe.py:71 | what `rstrip` removes is whitespace |
| Text.StripEmptyIffAllSpace | louvijan/pipe.py:71-75 | `strip` is empty iff the string is whitespace only |
| Text.AllSpaceStripEmpty | louvijan/pipe.py:71-75 | a whitespace-only name strips to the empty string, so it is refused |
| Text.StripEmptyAllSpace | louvijan/pipe.py:71-75 | a name that strips to the empty string is whitespace only |
| Text.StripSkipsLeadingSpace | louvijan/manager/mail.py:66 | leading whitespace does not change the result of `strip`, and a stripped string is its own strip |

## Left out

- The thread pool (`ThreadPoolExecutor`, `as_completed`, cancellation) is concurrency. A group runs its members in list order, one admissible schedule. A kill observed by one member is modelled as stopping the members after it.
- Locks around the shared lists, the counter and mail sending are left out, because the model is sequential.
- Running processes (`subprocess.call`) and killing the process (`os.kill`) are operating-system I/O. The backend is the parameter `status` of type `Backend`, and the kill is the `terminated` flag.
- The SSH session (connect, remote command, closing it in `__del__`) is network I/O. Only whether the pipeline is connected is kept, from the remote section and the `connectOk` parameter.
- SMTP delivery, `format_mail` (MIME headers, subject) and the mail lock are foreign libraries. A message that passes the gate is appended to `mails`.
- Logger output and log-file setup are logging-library calls. Only whether the log section enables a logger is kept.
- Reading configuration files and the `Config` singleton with its default file are left out: a configuration is given directly as a map.
- Elapsed times and their formatted seconds are clock readings and floating point. A report without errors is the opaque `SuccessReport`.
- The `name` setting only appears in the success text, which is not modelled.
- `__del__` runs at garbage collection. It is the explicit method `Teardown`, which also applies to the half-built pipeline that `Create` returns with an error. Its precondition that the process was not killed stands for `SIGKILL` ending the process with no collection; when the collector runs is not modelled.
- `__flatten` pops from the caller's own list. The model flattens a copy, so that side effect on the argument is not captured.
- Pipe.Pipeline.Kill: SMTP delivery is assumed not to raise. In the source, an error that is not an `SMTPException` propagates out of `send` (louvijan/manager/mail.py:42-46). Examples are a missing `host`, `port`, `username`, `authcode`, `sender` or `receivers` attribute, and an unreachable host. That error is swallowed at louvijan/pipe.py:179, and the kill at louvijan/pipe.py:178 is skipped. The model kills after every delivery.
- Pipe.ExecCommand: the same assumption; a delivered failure mail is always followed by the kill.
- DispatchProperties.NoForceKills: the same assumption; the kill is skipped only when the gate itself raises.
- Pipe.Kills: the same assumption; a kill is decided by the record, the force flag and the gate raising, never by a delivery that raises.
- Pipe.Killed: the same assumption; the process is terminated unless the gate raised, even when the delivery would raise in the source.
- Pipe.Backend: the backend is one fixed function of the command text, shared by local and remote calls and by every pipeline. The same command gets the same outcome every time it is issued, locally or over SSH. The model therefore cannot express a command that fails on one run and succeeds on a later one, nor an SSH failure that says nothing about the local outcome. The dispatch lemmas, `DispatchProperties.ForceRunsEveryCommand` and `DispatchProperties.GroupRunsEveryMember` among them, hold for every such function, not for outcomes that vary from call to call.
- `__flatten` loops forever on a list that contains itself (`a = []; a.append(a)`), because louvijan/pipe.py:113 rebuilds the same list on every pass. The inductive `Arg` type cannot express such a list, so the model's flatten always terminates.
- The `__rshift__` stub, `__call__` (a plain call of `dispatch`), `traceback` printing and the example scripts have no behaviour to model.
- A tuple or callable inside a group reaches `__exec_cmd` through `__do_task` (louvijan/pipe.py:132-133). A tuple is unwrapped (louvijan/pipe.py:147-148): a command inside it is run, and a pipeline inside it is dispatched (louvijan/pipe.py:149-150) before the TypeError that is swallowed. It is the member `Inert`, which does nothing, so neither a tuple holding a command nor a tuple holding a pipeline is unwrapped and run.
- The TypeError that follows dispatching a pipeline member of a group is swallowed by its future. The member is just dispatched.
- Manager.IsDigits: `str.isdigit` also accepts non-ASCII digits; only `'0'`-`'9'` are modelled.
- `setattr` of options whose names collide with manager attributes (such as `enable`) is not modelled. Options live in their own map.
