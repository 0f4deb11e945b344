# Erjang port driver task and register type map, in Dafny

This project models two parts of Erjang, the Erlang virtual machine on the JVM.

**The port driver task** (`EDriverTask`) is the process behind an Erlang port. It owns the port's options, a mailbox and a driver instance. Its parts:

- `parseOptions` reads the port settings list into the options: argv, working directory, environment, STREAM/PACKET/LINE mode, stdio descriptors and boolean flags.
- `execute` runs the message loop `main_loop`, then reports an exit reason to the linked processes and stops the driver.
- `control`, `call`, `command`, `ready`, `released` and `process_incoming_exit` are the requests other tasks make.
- `flatten` concatenates byte buffers before they go to the driver.

**The register type map** (`TypeMap`) is a persistent map used by the bytecode analysis. It maps x, f and y registers to JVM types. Setters return new maps. y registers are numbered from the top of a stack of `stacksize` slots. Two maps are merged pointwise through the lattice null / exact type / ETuple / EObject.

Files:

- `wrappers.dfy`: `Option` and `Result`.
- `terms.dfy`: stand-ins for the runtime's term layer. Erlang terms, `ByteBuffer` as a value, and the closures a task posts to itself.
- `port_options.dfy`: `PortOptions`. `Scan` specifies the settings scan; the lemmas state what a settings list produces.
- `port_loop.dfy`: `PortLoop`. `Dispatch` specifies one turn of the message loop and `Run` a whole run. The lemmas state what each message shape does.
- `driver_task.dfy`: `DriverTasks`. The class `DriverTask` has the task's fields and its imperative methods, each proved against the specification functions above. `Flatten` works in place on an array of buffers.
- `type_map.dfy`: `TypeMaps` has the map as a datatype value, with its register loops as methods over fresh arrays. `TypeMapProperties` holds the lattice and merge lemmas and the finding below.

How the task's surroundings are modelled:

- **Driver instance.** It is abstract. Every call the task makes on it is appended to the task's event log. The call recorded at log position `k` raises `faults[k]` when that key is present. A `control` reply and a `call` answer are method parameters.
- **Mailbox.** A FIFO sequence. When it is empty, the loop stops with outcome `Suspended`: the point where the task would wait for the next message.
- **Host.** The host environment (`System.getenv()`) and the `user.dir` property are parameters of `ParseOptions`.

## Model

| member | source | states |
|---|---|---|
| PortOptions.Defaults | src/main/java/erjang/driver/EDriverTask.java:113-130 | the reference for the reset: argv `[command]`, the host cwd and environment, packet and line_length -1, descriptors 1 and 2, every flag false, and the mode as it was |
| PortOptions.PutEnv | src/main/java/erjang/driver/EDriverTask.java:176-184 | the reference for one `env` entry: `{N,false}` removes N, any other `{N,V}` maps N to V |
| PortOptions.ApplyEnv | src/main/java/erjang/driver/EDriverTask.java:176-185 | the reference for an `env` list: its entries applied one after another, in list order |
| PortOptions.ApplyFlag | src/main/java/erjang/driver/EDriverTask.java:197-226 | an atom that is none of the nine option atoms leaves the options unchanged; no atom touches argv |
| PortOptions.ApplyPair | src/main/java/erjang/driver/EDriverTask.java:143-195 | a `{Key, Value}` setting raises badarg exactly when the key is unknown or the `env` value is not a proper list, and then leaves the options as they were |
| PortOptions.ApplySetting | src/main/java/erjang/driver/EDriverTask.java:139-226 | one setting raises badarg exactly when it is such a tuple; tuples of other arities, unknown atoms and other terms are skipped with no effect |
| PortOptions.Scan | src/main/java/erjang/driver/EDriverTask.java:136-227 | the reference for the settings loop: each setting applied in turn, stopping at the first badarg with the options as they stood then; argv is never empty |
| PortOptions.Parse | src/main/java/erjang/driver/EDriverTask.java:110-229 | the reference for `parseOptions`: the reset, then badarg when the settings are not a list, else the scan |
| PortOptions.ScanBadargIff | src/main/java/erjang/driver/EDriverTask.java:136-227 | the scan raises badarg exactly when some setting in the list does |
| PortOptions.ParseBadargIff | src/main/java/erjang/driver/EDriverTask.java:132-194 | parsing raises badarg exactly when the settings are not a list, or some setting has an unknown key or a non-list `env` value |
| PortOptions.ScanSkipsIgnored | src/main/java/erjang/driver/EDriverTask.java:139-226 | a list made only of ignored settings leaves the options unchanged and raises nothing |
| PortOptions.ParseDefaults | src/main/java/erjang/driver/EDriverTask.java:113-130 | with nothing recognised: argv is `[command]`, cwd and env are the host's, packet and line_length are -1, descriptors are 1 and 2, every flag is false |
| PortOptions.ArgsSettingEffects | src/main/java/erjang/driver/EDriverTask.java:145-160 | `{args,L}` makes argv `[argv[0]]` followed by the strings of L; `{arg0,_}` leaves the options as they were |
| PortOptions.ValueSettingEffects | src/main/java/erjang/driver/EDriverTask.java:162-189 | `{cd,D}` sets only cwd; `{packet,N}` and `{line,N}`, N a 32-bit integer, set only their number and the mode PACKET or LINE |
| PortOptions.StdioSettingEffects | src/main/java/erjang/driver/EDriverTask.java:200-206 | `use_stdio` sets descriptors 1 and 2, `nouse_stdio` 3 and 4, and nothing else changes |
| PortOptions.EnvSettingEffect | src/main/java/erjang/driver/EDriverTask.java:170-185 | `{env,L}` with a proper list applies its entries, in order, to the environment (`ApplyEnv`) and changes nothing else |
| PortOptions.FlagEffectsOnModeAndStdio | src/main/java/erjang/driver/EDriverTask.java:197-206 | only `stream` changes the mode, and only `use_stdio` (1,2) and `nouse_stdio` (3,4) change the descriptors |
| PortOptions.FlagEffectOnMode | src/main/java/erjang/driver/EDriverTask.java:197-198 | only `stream` changes the mode, to STREAM |
| PortOptions.FlagEffectOnStdio | src/main/java/erjang/driver/EDriverTask.java:200-206 | only `use_stdio` (1,2) and `nouse_stdio` (3,4) change the descriptors |
| PortOptions.FlagEffectsOnFlags | src/main/java/erjang/driver/EDriverTask.java:208-226 | each boolean flag becomes true exactly when its own atom is read, and is otherwise unchanged |
| PortOptions.FlagEffectsOnReports | src/main/java/erjang/driver/EDriverTask.java:208-215 | `hide`, `exit_status` and `eof` each become true exactly when their own atom is read |
| PortOptions.FlagEffectsOnDirection | src/main/java/erjang/driver/EDriverTask.java:217-225 | `in`, `out` and `binary` each become true exactly when their own atom is read |
| PortOptions.PairEffects | src/main/java/erjang/driver/EDriverTask.java:143-195 | a tuple setting leaves the descriptors and flags alone; it sets the mode to PACKET for `packet`, LINE for `line`, and leaves it otherwise |
| PortOptions.ApplySettingFlags | src/main/java/erjang/driver/EDriverTask.java:139-226 | how any one setting changes the descriptors and each flag |
| PortOptions.ApplySettingReports | src/main/java/erjang/driver/EDriverTask.java:139-215 | how any one setting changes the descriptors and the `hide`, `exit_status` and `eof` flags |
| PortOptions.ApplySettingDirection | src/main/java/erjang/driver/EDriverTask.java:139-226 | how any one setting changes the `in`, `out` and `binary` flags |
| PortOptions.ApplySettingMode | src/main/java/erjang/driver/EDriverTask.java:162-198 | one setting sets the mode exactly when it is `{packet,_}`, `{line,_}` or `stream` |
| PortOptions.ModeUnset | src/main/java/erjang/driver/EDriverTask.java:136-227 | a list with no mode setting leaves the mode as it was |
| PortOptions.ModeLastAt | src/main/java/erjang/driver/EDriverTask.java:136-227 | the last mode setting in the list decides the mode |
| PortOptions.ModeLastWins | src/main/java/erjang/driver/EDriverTask.java:162-198 | among `{packet,N}`, `{line,N}` and `stream` the last one decides the mode; with none the mode is unchanged |
| PortOptions.StdioUnset | src/main/java/erjang/driver/EDriverTask.java:136-227 | a list without `use_stdio`/`nouse_stdio` leaves the descriptors as they were |
| PortOptions.StdioLastAt | src/main/java/erjang/driver/EDriverTask.java:136-227 | the last of `use_stdio`/`nouse_stdio` decides the descriptors |
| PortOptions.StdioLastWins | src/main/java/erjang/driver/EDriverTask.java:200-206 | the last of `use_stdio`/`nouse_stdio` decides the descriptors; with neither they are unchanged |
| PortOptions.FlagsRecordPresence | src/main/java/erjang/driver/EDriverTask.java:208-226 | after a scan without badarg, each boolean flag is true exactly when it was before or its atom is in the list |
| PortOptions.EnvLastWriteWins | src/main/java/erjang/driver/EDriverTask.java:176-185 | the last `env` entry naming a variable decides it: `{N,false}` removes N, `{N,V}` maps N to V; unnamed variables keep their values |
| PortLoop.Invoke | src/main/java/erjang/driver/EDriverTask.java:305-320 | a driver call is recorded in the log, and raises exactly when a fault is registered at its log position |
| PortLoop.InvokeAll | src/main/java/erjang/driver/EDriverTask.java:483-496 | calls made in sequence keep the owner, and can only end early by raising |
| PortLoop.OutputCall | src/main/java/erjang/driver/EDriverTask.java:309-319 | the reference for the output of a command: `output` of the empty buffer, `output` of the one piece, or `outputv` of all pieces |
| PortLoop.ReadyCalls | src/main/java/erjang/driver/EDriverTask.java:484-495 | the reference for the readiness closure: one callback per flag fully set in the mask, in the order read, write, connect, accept |
| PortLoop.ActionCalls | src/main/java/erjang/driver/EDriverTask.java:344-348 | the reference for running a posted closure: the output call of a command, the readiness callbacks, or one `stopSelect` |
| PortLoop.DispatchEnvelope | src/main/java/erjang/driver/EDriverTask.java:295-342 | a `{Sender, Body}` message never leaves the loop waiting: `{command,D}` outputs, `{connect,Pid}` changes the owner, `close` returns, anything else is badsig |
| PortLoop.Dispatch | src/main/java/erjang/driver/EDriverTask.java:289-362 | one message never leaves the loop waiting: it goes on, returns, or raises |
| PortLoop.Run | src/main/java/erjang/driver/EDriverTask.java:285-363 | the loop reads the mailbox from the front: what is left unread is a suffix of it, and a loop that waits has read all of it |
| PortLoop.ExitReason | src/main/java/erjang/driver/EDriverTask.java:242-260 | the reference for the exit reason: `normal`, the reason of an Erlang error or exit signal, or `{{java_exception,Desc},Trace}` |
| PortLoop.BadsigIff | src/main/java/erjang/driver/EDriverTask.java:289-362 | a message the loop does not understand (including a non-pid connect or an unknown tag) raises `badsig` carrying it, with nothing done; every other message is handled otherwise |
| PortLoop.InvokeAllAppend | src/main/java/erjang/driver/EDriverTask.java:483-496 | the later callbacks are made only when the earlier ones all returned |
| PortLoop.InvokeAllGrows | src/main/java/erjang/driver/EDriverTask.java:483-496 | a nonempty callback sequence records at least one call and only extends the log |
| PortLoop.InvokeAllRecords | src/main/java/erjang/driver/EDriverTask.java:483-496 | callbacks of which none raises are all recorded, in order |
| PortLoop.InvokeAllFirstFault | src/main/java/erjang/driver/EDriverTask.java:483-496 | the first callback that raises ends the sequence with its fault, after the calls up to it are recorded |
| PortLoop.InvokeAllFaultExits | src/main/java/erjang/driver/EDriverTask.java:483-496 | when any callback raises, the sequence ends with a fault |
| PortLoop.DispatchCommand | src/main/java/erjang/driver/EDriverTask.java:305-322 | `{_,{command,D}}` makes exactly one output call when D is an iolist, none when it is not, and the loop goes on unless the driver raises |
| PortLoop.OutputCallDelivers | src/main/java/erjang/driver/EDriverTask.java:309-319 | the output call hands over the empty buffer, the single piece, or all pieces in one vector call exactly when there are two or more |
| PortLoop.DispatchPortControl | src/main/java/erjang/driver/EDriverTask.java:344-348 | a posted closure runs its calls: with no fault they are all recorded and the loop goes on, otherwise the loop leaves with the fault and the owner unchanged; a command closure makes one output call, a readiness closure the readiness callbacks, a released closure exactly one `stopSelect` on its channel |
| PortLoop.DispatchConnect | src/main/java/erjang/driver/EDriverTask.java:324-335 | `{_,{connect,P}}` with a pid makes P the owner and sends `{Port,connected}` to the old owner; without a pid it is badsig |
| PortLoop.DispatchClose | src/main/java/erjang/driver/EDriverTask.java:339-356 | `{_,close}` and `{'EXIT',From,Reason}` end the loop normally with nothing done |
| PortLoop.ReadyCallsExact | src/main/java/erjang/driver/EDriverTask.java:484-495 | the readiness callbacks are those whose flag is fully set in the ready mask, on the given channel, in the order read, write, connect, accept |
| PortLoop.ReadyCallsFlags | src/main/java/erjang/driver/EDriverTask.java:484-495 | each readiness callback is made exactly when its flag is fully set in the mask |
| PortLoop.ReadyCallsOrdered | src/main/java/erjang/driver/EDriverTask.java:484-495 | the readiness callbacks are on the given channel, in the order read, write, connect, accept |
| PortLoop.RunAppend | src/main/java/erjang/driver/EDriverTask.java:289-362 | messages after the one that ends the loop are left unread; a loop waiting at the end of the mailbox resumes with the next messages |
| PortLoop.CommandsInOrder | src/main/java/erjang/driver/EDriverTask.java:289-322 | a mailbox of command messages, with no driver fault, becomes one output call per message in mailbox order, and then the loop waits |
| DriverTasks.Flip | src/main/java/erjang/driver/EDriverTask.java:413 | `flip` moves the limit to the position and the position to 0 |
| DriverTasks.Put | src/main/java/erjang/driver/EDriverTask.java:417 | `put` appends the source's remaining bytes to what the destination has written, and drains the source |
| DriverTasks.Flattened | src/main/java/erjang/driver/EDriverTask.java:404-421 | the reference for `flatten`: the shared empty buffer, the one buffer itself, or a fresh full buffer of all the written bytes |
| DriverTasks.WrittenLength | src/main/java/erjang/driver/EDriverTask.java:410-418 | the written bytes of the buffers are as many as the sum of their positions |
| DriverTasks.FlattenedContents | src/main/java/erjang/driver/EDriverTask.java:409-420 | two or more buffers flatten into a full buffer whose length is the sum of their positions and whose bytes are each one's written bytes, in order |
| DriverTasks.Flatten | src/main/java/erjang/driver/EDriverTask.java:404-421 | no buffers give the empty buffer and one buffer gives itself, with the inputs unchanged; two or more give the flattened buffer and leave every input with its limit at its old position and its position at its limit |
| DriverTasks.FlipAll | src/main/java/erjang/driver/EDriverTask.java:410-414 | the first loop: the result is the sum of the positions, and every buffer is flipped |
| DriverTasks.PutAll | src/main/java/erjang/driver/EDriverTask.java:415-418 | the second loop: the fresh buffer ends full with the written bytes of every buffer, in order, and every buffer is drained |
| DriverTasks.MapReply | src/main/java/erjang/driver/EDriverTask.java:381-397 | the reply is a binary when the port sends binaries, and `[]` or a nonempty string otherwise |
| DriverTasks.MapReplyBytes | src/main/java/erjang/driver/EDriverTask.java:381-397 | the caller gets back exactly the bytes before the reply's position (none for a missing reply), as a binary exactly when the port sends binaries |
| DriverTasks.DriverTask.constructor | src/main/java/erjang/driver/EDriverTask.java:76-101 | a new task has its owner, an empty mailbox and log, and mode STREAM |
| DriverTasks.DriverTask.ApplyAtom | src/main/java/erjang/driver/EDriverTask.java:197-226 | a bare atom setting updates the fields as `ApplyFlag` says |
| DriverTasks.DriverTask.ApplyEnvEntries | src/main/java/erjang/driver/EDriverTask.java:176-185 | the env entries update the environment as `ApplyEnv` says |
| DriverTasks.DriverTask.ApplyArgs | src/main/java/erjang/driver/EDriverTask.java:145-155 | argv becomes its first element followed by the strings of the list |
| DriverTasks.DriverTask.ApplyTuple | src/main/java/erjang/driver/EDriverTask.java:143-195 | a tuple setting updates the fields, or reports badarg, as `ApplyPair` says |
| DriverTasks.DriverTask.ApplyOne | src/main/java/erjang/driver/EDriverTask.java:139-226 | one setting updates the fields, or reports badarg, as `ApplySetting` says |
| DriverTasks.DriverTask.Reset | src/main/java/erjang/driver/EDriverTask.java:113-130 | the fields get the defaults, except the mode, which is kept |
| DriverTasks.DriverTask.ResetFlags | src/main/java/erjang/driver/EDriverTask.java:121-130 | stdio on descriptors 1 and 2 and every flag false |
| DriverTasks.DriverTask.ParseOptions | src/main/java/erjang/driver/EDriverTask.java:110-229 | the options and the badarg outcome are those of `Parse` on the task's previous mode: reset, then one pass over the settings that stops at the first badarg |
| DriverTasks.DriverTask.Invoke | src/main/java/erjang/driver/EDriverTask.java:311-318 | a driver call updates the log and reports a fault as `PortLoop.Invoke` says |
| DriverTasks.DriverTask.OutputPieces | src/main/java/erjang/driver/EDriverTask.java:309-319 | the pieces of a command go to the driver in the one output call `OutputCall` chooses |
| DriverTasks.DriverTask.ReadyCallback | src/main/java/erjang/driver/EDriverTask.java:484-486 | a readiness callback is made exactly when its flag is fully set in the mask |
| DriverTasks.DriverTask.RunReady | src/main/java/erjang/driver/EDriverTask.java:483-496 | the readiness closure makes the calls of `ReadyCalls`, stopping at the first that raises |
| DriverTasks.DriverTask.RunAction | src/main/java/erjang/driver/EDriverTask.java:344-348 | running a posted closure makes its driver calls, stopping at the first that raises |
| DriverTasks.DriverTask.Handle | src/main/java/erjang/driver/EDriverTask.java:290-362 | one message changes the owner and the log, and ends the loop or not, as `Dispatch` says |
| DriverTasks.DriverTask.MainLoop | src/main/java/erjang/driver/EDriverTask.java:285-363 | the loop leaves the owner, the log, the outcome and the unread mailbox as `Run` says |
| DriverTasks.DriverTask.Execute | src/main/java/erjang/driver/EDriverTask.java:232-279 | the task is RUNNING while waiting for messages and DONE once the loop has ended; then the exit reason (`normal`, the exception's reason, or `{{java_exception,Desc},Trace}`) goes to the linked handles, and only then is the driver stopped |
| DriverTasks.DriverTask.Control | src/main/java/erjang/driver/EDriverTask.java:371-398 | badarg with nothing done unless RUNNING; otherwise the flattened buffers go to the driver in one control call, and its reply comes back mapped, or its fault is raised; the buffers are left as `Flatten` leaves them (two or more are each drained, with the limit at the old position) |
| DriverTasks.DriverTask.Call | src/main/java/erjang/driver/EDriverTask.java:428-434 | badarg with nothing done unless RUNNING; otherwise one driver call whose answer or fault is passed on |
| DriverTasks.DriverTask.Command | src/main/java/erjang/driver/EDriverTask.java:443-464 | NotImplemented with nothing posted unless the mode is STREAM; otherwise exactly one output closure for the buffers is posted |
| DriverTasks.DriverTask.Ready | src/main/java/erjang/driver/EDriverTask.java:479-498 | one readiness closure for the channel and mask is posted |
| DriverTasks.DriverTask.Released | src/main/java/erjang/driver/EDriverTask.java:506-514 | one closure that stops selecting on the channel is posted |
| DriverTasks.DriverTask.ProcessIncomingExit | src/main/java/erjang/driver/EDriverTask.java:466-471 | `{'EXIT',From,Reason}` is posted |
| TypeMaps.Merge | src/main/java/erjang/beam/analysis/TypeMap.java:209-223 | the reference for `merge`: null when either is null, the type when both are equal, ETuple for two tuple types, EObject otherwise |
| TypeMaps.SameRegs | src/main/java/erjang/beam/analysis/TypeMap.java:148-163 | the reference for `eq` on arrays: every register reads the same once the shorter one is padded with nulls |
| TypeMaps.SameY | src/main/java/erjang/beam/analysis/TypeMap.java:136-146 | the reference for `eqy`: equal stack sizes and the same type in every y register |
| TypeMaps.Same | src/main/java/erjang/beam/analysis/TypeMap.java:125-134 | the reference for `equals`: x, y and f all agree |
| TypeMaps.MergedUnlessSame | src/main/java/erjang/beam/analysis/TypeMap.java:166-169 | the reference for one register array of `mergeFrom`: kept when `eq` holds, merged otherwise |
| TypeMaps.MergedFrom | src/main/java/erjang/beam/analysis/TypeMap.java:165-196 | the reference for `mergeFrom`: x and f kept or merged; y kept when `eqy` holds, emptied with stack 0 when the sizes differ, merged otherwise |
| TypeMaps.Get | src/main/java/erjang/beam/analysis/TypeMap.java:225-230 | a register at or past the end of the array reads null, any other reads its slot |
| TypeMaps.MergedRegs | src/main/java/erjang/beam/analysis/TypeMap.java:198-207 | the merged array is as long as the longer one, and each slot is the merge of both sides read with null padding |
| TypeMaps.MergedY | src/main/java/erjang/beam/analysis/TypeMap.java:181-187 | the merged y array has one slot per stack position, each the merge of both sides |
| TypeMaps.MaxRegBound | src/main/java/erjang/beam/analysis/TypeMap.java:357-373 | the result is at least 1, every register from it on is null, and when it exceeds 1 the register just below it holds a type |
| TypeMaps.TypeMap.GetYPos | src/main/java/erjang/beam/analysis/TypeMap.java:331-333 | the position is inside the stack exactly for registers 0 to stacksize-1, and numbering is reversed |
| TypeMaps.TypeMap.GetX | src/main/java/erjang/beam/analysis/TypeMap.java:279-287 | the reference for `getx`: null past the end of the array, otherwise the stored type |
| TypeMaps.TypeMap.GetF | src/main/java/erjang/beam/analysis/TypeMap.java:289-297 | the reference for `getf`: null past the end of the array, otherwise the stored type |
| TypeMaps.TypeMap.GetY | src/main/java/erjang/beam/analysis/TypeMap.java:320-329 | IllegalArgument exactly outside the stack; null past the stored array; otherwise the stored type |
| TypeMaps.TypeMap.TrimY | src/main/java/erjang/beam/analysis/TypeMap.java:335-337 | only the stack size changes, by -n; the arrays are shared |
| TypeMaps.TypeMap.AllocY | src/main/java/erjang/beam/analysis/TypeMap.java:339-341 | only the stack size changes, by +n; the arrays are shared |
| TypeMaps.TypeMap.SetX | src/main/java/erjang/beam/analysis/TypeMap.java:232-246 | the same map when the register already holds the type; otherwise the register reads back the type, every other register reads as before, y and f and the stack are kept, and a short array grows to reg+6 |
| TypeMaps.TypeMap.SetF | src/main/java/erjang/beam/analysis/TypeMap.java:248-261 | as `SetX`, on the f registers |
| TypeMaps.TypeMap.SetY | src/main/java/erjang/beam/analysis/TypeMap.java:299-318 | IllegalArgument exactly outside the stack; the same map when the register already holds the type; otherwise it reads back the type and every other register, and x, f and the stack, are kept |
| TypeMaps.TypeMap.MaxXReg | src/main/java/erjang/beam/analysis/TypeMap.java:357-364 | the result is `MaxRegBound` of the x registers |
| TypeMaps.TypeMap.MaxFReg | src/main/java/erjang/beam/analysis/TypeMap.java:366-373 | the result is `MaxRegBound` of the f registers |
| TypeMaps.TypeMap.Equals | src/main/java/erjang/beam/analysis/TypeMap.java:125-134 | equal exactly when x and f agree up to trailing nulls and the stacks agree in size and in every y register |
| TypeMaps.TypeMap.MergeFrom | src/main/java/erjang/beam/analysis/TypeMap.java:165-196 | the result is `MergedFrom`; its properties are the `MergedFrom*` lemmas |
| TypeMaps.Copy | src/main/java/erjang/beam/analysis/TypeMap.java:263-269 | a fresh array with the same registers |
| TypeMaps.Grow | src/main/java/erjang/beam/analysis/TypeMap.java:271-277 | a fresh array of length reg+6 that reads like the old one, nulls past its end |
| TypeMaps.SetReg | src/main/java/erjang/beam/analysis/TypeMap.java:238-244 | the register reads back the type, every other reads as before, and the array grows to reg+6 only when it was too short |
| TypeMaps.EqRegs | src/main/java/erjang/beam/analysis/TypeMap.java:148-163 | true exactly when the arrays agree once the shorter one is padded with nulls |
| TypeMaps.EqY | src/main/java/erjang/beam/analysis/TypeMap.java:136-146 | true exactly when the stack sizes are equal and every y register reads the same |
| TypeMaps.MergeRegs | src/main/java/erjang/beam/analysis/TypeMap.java:198-207 | the result is `MergedRegs` of the two arrays |
| TypeMaps.MergeY | src/main/java/erjang/beam/analysis/TypeMap.java:179-188 | the result is `MergedY`: y register i of the result is the merge of y register i on both sides |
| TypeMaps.MaxReg | src/main/java/erjang/beam/analysis/TypeMap.java:357-364 | the result is `MaxRegBound` of the array |
| TypeMapProperties.MergeCommutativeIdempotent | src/main/java/erjang/beam/analysis/TypeMap.java:209-223 | `merge` is commutative and idempotent, and null exactly when either side is null |
| TypeMapProperties.LatticeTop | src/main/java/erjang/beam/analysis/TypeMap.java:26-28 | ETuple is a tuple type and EObject is not |
| TypeMapProperties.MergeTupleIff | src/main/java/erjang/beam/analysis/TypeMap.java:209-223 | two different types merge to ETuple when both are tuple types and to EObject otherwise; so the merge is a tuple type exactly when both are |
| TypeMapProperties.MergeAssociative | src/main/java/erjang/beam/analysis/TypeMap.java:209-223 | `merge` is associative |
| TypeMapProperties.MergeAbsorbs | src/main/java/erjang/beam/analysis/TypeMap.java:209-223 | merging the result again with either side changes nothing |
| TypeMapProperties.SameRegsIff | src/main/java/erjang/beam/analysis/TypeMap.java:148-163 | register arrays are equal exactly when every register reads the same |
| TypeMapProperties.TrailingNulls | src/main/java/erjang/beam/analysis/TypeMap.java:148-155 | trailing nulls do not affect register equality |
| TypeMapProperties.SameEquivalence | src/main/java/erjang/beam/analysis/TypeMap.java:125-163 | `equals` is reflexive, symmetric and transitive |
| TypeMapProperties.SameReadsSame | src/main/java/erjang/beam/analysis/TypeMap.java:125-146 | maps that are equal read the same in every x, f and y register |
| TypeMapProperties.MergedRegsCommutativeIdempotent | src/main/java/erjang/beam/analysis/TypeMap.java:198-207 | `merge_regs` is commutative, and merging an array with itself gives it back |
| TypeMapProperties.MergedFromRegs | src/main/java/erjang/beam/analysis/TypeMap.java:165-169 | whether kept or merged, every x and f register of the result reads as the merge of both sides |
| TypeMapProperties.MergedFromStack | src/main/java/erjang/beam/analysis/TypeMap.java:171-189 | different stack sizes give stack 0 and no y types; equal ones keep the size, and each y register is the merge of both sides |
| TypeMapProperties.MergedFromUnchanged | src/main/java/erjang/beam/analysis/TypeMap.java:165-196 | merging with an equal map returns the map itself |
| TypeMapProperties.MergedUnlessSameCommutes | src/main/java/erjang/beam/analysis/TypeMap.java:166-169 | one register array of a merge is the same, up to trailing nulls, in either order |
| TypeMapProperties.MergedFromRegsCommute | src/main/java/erjang/beam/analysis/TypeMap.java:165-169 | the x and f registers of a merge do not depend on the order of the two maps |
| TypeMapProperties.MergedFromYCommute | src/main/java/erjang/beam/analysis/TypeMap.java:171-189 | the stack size and y registers of the intended merge do not depend on the order |
| TypeMapProperties.MergedFromCommutes | src/main/java/erjang/beam/analysis/TypeMap.java:165-196 | the intended merge (`MergedFrom`) is symmetric up to `equals`; the code as written is not (see `AsWrittenNotSymmetric` and Findings) |
| TypeMapProperties.AllocYShifts | src/main/java/erjang/beam/analysis/TypeMap.java:339-341 | after `alloc_y(n)`, old y register r is y register r+n, and the new registers 0 to n-1 are in the stack |
| TypeMapProperties.TrimYShifts | src/main/java/erjang/beam/analysis/TypeMap.java:335-337 | after `trim_y(n)`, old y register r is y register r-n, and registers from stacksize-n on are outside the stack |
| TypeMapProperties.AllocTrimRoundTrip | src/main/java/erjang/beam/analysis/TypeMap.java:335-341 | `alloc_y(n)` and `trim_y(n)` undo each other |
| TypeMapProperties.MergedFromAsWritten | src/main/java/erjang/beam/analysis/TypeMap.java:165-196 | `mergeFrom` with its identity test as written; it agrees with `MergedFrom` except when the y array is the shared empty one and the stacks differ |
| TypeMapProperties.AsWrittenKeepsStaleStack | src/main/java/erjang/beam/analysis/TypeMap.java:171-192 | the code as written differs from the intended merge exactly when the y array is the shared empty one, the stack is nonzero and differs from the other's, and x and f are equal |
| TypeMapProperties.StaleStackExample | src/main/java/erjang/beam/analysis/TypeMap.java:175-192 | `alloc_y(2)` on a new map, merged with a new map, keeps stack size 2 as written; the intended merge gives 0 |
| TypeMapProperties.AsWrittenNotSymmetric | src/main/java/erjang/beam/analysis/TypeMap.java:171-195 | as written, `alloc_y(2)` of a new map merged with a new map keeps stack 2 but the other order gives 0, so the two results are not `equals`; the intended merge gives 0 both ways |

## Left out

- The mailbox is a FIFO sequence. `ready` and `released` post with `putb` and the others with `put`. Any difference between the two is not modelled, since the mailbox class is not part of this model. Blocking in `mbox.get` becomes the `Suspended` outcome.
- Kilim's `Pausable` suspension, and the threads that call `ready`, `control` and `call`, are concurrency machinery and are not modelled.
- `EDriverInstance` is not part of this model. Its calls are recorded in an event log and fail through the `faults` map. A `control` reply and a `call` answer are parameters. `instance.stop()` is recorded but cannot fail.
- The `ERL_DRV_*` mask values are taken to be the `java.nio` `SelectionKey` values (1, 4, 8, 16), because `EDriverInstance` is not part of this model.
- The term layer is abstract. `collectIOList` is the context function `collect`. `testPID`, `testWellformedList` and the tuple casts are pattern tests on the `Term` datatype. `EString.make` and `asInt` on the setting values are assumed to succeed: the `SettingsCoercible` precondition says so, and for `packet` and `line` it asks for an integer in the 32-bit range of a Java `int` (`IntValue`), so the stored number is exactly the one given. What `asInt` does with a larger integer is not part of this model.
- A non-list `args` value and a non-tuple `env` element dereference null in the code. These are excluded by `SettingsCoercible` rather than given a result.
- An Erlang string given as the whole settings term is a cons cell in the runtime, and is excluded by `SettingsCoercible`.
- `System.getenv()` and the `user.dir` property are parameters.
- `ErlangException.reason()` is taken to be the reason the error was raised with, so `badsig` ends the task with reason `badsig`.
- The description and stack trace of a Java exception are the abstract fields of `Throwable`. `printStackTrace` is not modelled.
- The `ThreadDeath` rethrow and the outer catch-all of `execute` are not modelled. In the model, `send_exit_to_all_linked` and `instance.stop()` do not throw.
- The empty `exception` callback has no behaviour to model.
- `EHandle` is only delegation and is not part of this model.
- `ParseOptions` does not reset the mode. The field starts as STREAM and keeps whatever a previous parse set. The model follows the code.
- `{arg0, Name}` builds a new argv and never stores it, so argv is unchanged. The option is meant to replace argv[0]; the model follows the code.
- `Command` snapshots the buffers as they are when it is called. The closure in the code holds the array itself, and later writes to it by the caller would be seen. This aliasing is not modelled.
- DriverTasks.Flatten: the buffers in the array are taken to be distinct objects. With the same buffer twice, `[b, b]` at position p, the code adds p, flips b, adds 0 and flips it again, so it allocates p bytes and copies nothing; the model, on values, gives 2p bytes. The `int size` sum overflowing past 2^31 - 1 is not modelled either.
- In `Control`, the flattened buffer is computed in place (`Flatten`). The driver's own reply buffer is a parameter, not an alias of the input buffers.
- `TypeMap.Equals` takes a `TypeMap`, so the `instanceof` check for other objects is not modelled.
- The `BasicBlock` liveness calls (`kill_x`, `use_x`, `kill_fr`, `use_fr`, `kill_y`, `use_y`, `succ`) are not modelled: `BasicBlock` is not part of this model. This also leaves out `clearLive`, `add_succ` and `touchx`.
- `toString`, `printRegs`, `printYRegs` and `shortName` are debug formatting and are not modelled.
- TypeMaps.TypeMap.SetX: the register number is a `nat`. A negative register makes the code index the array out of bounds, and that exception is not modelled. When the register is past the array, `grow` sizes the new array `reg + 6` on unbounded integers; in Java that sum wraps past 2^31 - 1 and `new Type[...]` then fails, which is not modelled.
- TypeMaps.Grow: the length `reg + 6` is computed on unbounded integers. Java's `int` wraps it negative for a register above 2^31 - 7, and the resulting `NegativeArraySizeException` is not modelled.
- TypeMaps.TypeMap.GetYPos: `stacksize - reg - 1` is computed on unbounded integers. Java's `int` wraps it when the difference leaves the 32-bit range, so the equivalence with `0 <= reg < stacksize` holds for the model, not for such wrapped values.
- TypeMaps.TypeMap.TrimY: `stacksize - n` is computed on unbounded integers; a Java `int` stack size would wrap past the 32-bit range, and the model assumes it never does.
- TypeMaps.TypeMap.AllocY: `stacksize + n` is computed on unbounded integers; the model assumes no 32-bit wrap-around past 2^31 - 1.
- TypeMapProperties.AllocYShifts: `reg < m.stacksize + n` is the unbounded sum. With Java's wrap-around past 2^31 - 1 the grown stack can come out negative, so the renumbering it states holds only while the stack size fits an `int`.
- TypeMapProperties.TrimYShifts: as `AllocYShifts`, it is stated on unbounded stack sizes and does not cover a `stacksize - n` that wraps below -2^31.
- TypeMaps.TypeMap.SetF: as `SetX`, the register number is a `nat` and the out-of-bounds exception for a negative one is not modelled, nor the wrap of `reg + 6` when the array grows.
- TypeMaps.TypeMap.MergeFrom: "nothing changed" compares values, not array identity. The model returns a value equal to `this` wherever the code does, except in the finding below.
- TypeMaps.TypeMap.SetY: the range check at TypeMap.java:307-308 can never fire, because `gety` has already raised for those registers. The model has the one check.
- In `mergeFrom`, the loop on equal stack sizes with a negative stacksize would allocate a negative-length array. It is never reached: `eqy` holds for equal stack sizes when the stack is empty or negative.

## Findings

| source | as written | input that shows it | evidently intended | confidence | as-written member | corrected member |
|---|---|---|---|---|---|---|
| src/main/java/erjang/beam/analysis/TypeMap.java:171-195 | `mergeFrom` decides "nothing changed" by array identity. When the stack sizes differ, the y array becomes the shared `NO_TYPES`. If `this` already has `NO_TYPES` as its y array (a stack allocated by `alloc_y` with no y register set), the identity test passes, so `this` is returned with its old nonzero stack size. `TypeMapProperties.MergedFromAsWritten` models this code. | `new TypeMap(bb).alloc_y(2).mergeFrom(new TypeMap(bb))`: stack size 2 is kept | when stack sizes differ, the merged map has stack size 0 (the comment says "yank stack!") | high; not executed | TypeMapProperties.StaleStackExample | TypeMaps.TypeMap.MergeFrom |
