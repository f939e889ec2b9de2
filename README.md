# OpenRASP PHP agent manager — a Dafny model

This project models `OpenraspAgentManager`, the part of the OpenRASP PHP extension that
runs background agents next to the web server. In the master process it creates a shared
control block and forks a supervisor. The supervisor registers the installation with the
management backend. Once registered, it keeps its agents alive: a log agent always, and a plugin
(heartbeat) agent only when plugin updates are enabled. It reaps dead agents on SIGCHLD, and it tears everything down when the web server's
master process disappears. At shutdown the master process corrects its own pid under
php-fpm, SIGKILLs the agents and the supervisor, and releases the shared memory.

Modules, one file each:

- `Common` (`common.dfy`): the `Option` type.
- `Ini` (`ini.dfy`): `verify_ini_correct`.
- `Identity` (`identity.dfy`): `calculate_rasp_id`. The id is md5 of the hardware
  addresses concatenated, followed by the install root. md5 is a parameter.
- `Registration` (`registration.dfy`): the request `agent_remote_register` sends, and how
  it judges the answer.
- `FpmMaster` (`fpm_master.dfy`): `search_fpm_master_pid`. It uses `std::getline` over a
  stat line, `atoi`, and the scan of a modelled `/proc` table.
- `AgentTable` (`agent_table.dfy`): the agent list and the control block as values.
  - The SIGCHLD reaper, the survival check and the kill cascade are value functions here.
  - It defines the invariant that every agent believed alive is recorded in the block.
- `Schedule` (`schedule.dfy`): one outer cycle of `supervisor_run`.
  - It says what each tick does to the supervisor's state and which actions it takes.
  - Lemmas cover the schedule, teardown and consistency.
- `Manager` (`manager.dfy`): the imperative side.
  - `ControlBlock` is a class whose pid fields are updated in place.
  - `AgentManager` holds the flags, the agent list and the identity fields, and its
    methods do the work.
  - Every method is proved against the value functions above.

Fork results, the allocation result, `waitpid` and `stat` results, the process table and
the network exchange are passed in as parameters.

## Model

| member | source | states |
|---|---|---|
| Ini.VerifyIniCorrect | agent/php5/agent/openrasp_agent_manager.cc:124-149 | Correct whenever remote management is off or shared memory is not needed. Otherwise Correct iff the backend URL and the app id are both set and the app id is 40 hex digits. Each of the three errors holds iff its condition holds, in the source's order. |
| Ini.NonHexAppIdRefused | agent/php5/agent/openrasp_agent_manager.cc:141-145 | A 40-character app id with one non-hex character is refused as malformed. |
| Ini.IsAppId | agent/php5/agent/openrasp_agent_manager.cc:141 | Definition without a contract of its own: the pattern `^[0-9a-fA-F]{40}$`, exactly forty hex digits. `VerifyIniCorrect` and `NonHexAppIdRefused` state how it decides the check. |
| Identity.ConcatSnoc | agent/php5/agent/openrasp_agent_manager.cc:278-282 | Appending an address appends its text to the buffer the loop builds. |
| Identity.Concat | agent/php5/agent/openrasp_agent_manager.cc:279-282 | Definition without a contract of its own: the buffer the loop builds by appending each address in order. `ConcatSnoc` states the loop step and `CalculateRaspId` the loop. |
| Identity.RaspId | agent/php5/agent/openrasp_agent_manager.cc:270-286 | No identity exists iff there is no hardware address. |
| Identity.SameInputSameId | agent/php5/agent/openrasp_agent_manager.cc:278-284 | The id depends only on the digest input, whatever the split into addresses and root. |
| Identity.ExtraAddressExtendsInput | agent/php5/agent/openrasp_agent_manager.cc:279-283 | A new address is spliced into the digest input just before the root directory. |
| Identity.CalculateRaspId | agent/php5/agent/openrasp_agent_manager.cc:270-286 | Succeeds iff there is an address. On success the id is md5(concat(addresses) ++ root). On failure the id is empty. |
| Registration.LocalIpOrEmpty | agent/php5/agent/openrasp_agent_manager.cc:301-304 | A failed IP lookup yields the empty string; otherwise the IP found. |
| Registration.HostNameOrPlaceholder | agent/php5/agent/openrasp_agent_manager.cc:320-324 | A failed `gethostname` yields `UNKNOWN_HOST`; otherwise the name found. |
| Registration.RegisterRequest | agent/php5/agent/openrasp_agent_manager.cc:301-340 | A request leaves the host iff an identity exists and CURL is usable. It is posted to backend URL + `/v1/agent/rasp`. The payload holds the rasp id, the host name and the local IP with their fallbacks, `PHP` as language, the SAPI name as server type, the root dir, the PHP version as both language and server version, and the OpenRASP version. |
| Registration.Judge | agent/php5/agent/openrasp_agent_manager.cc:343-380 | A rejection carries the backend's own status and description, and only for a 2xx answer with status ≠ 0. An HTTP error carries the code and only occurs outside 2xx. |
| Registration.Succeeds | agent/php5/agent/openrasp_agent_manager.cc:305-380 | True iff all of these hold: an id was computed, CURL was ready, the transport returned OK, the body decoded to an array, the code is in [200,300), status and description are both present, and status = 0. |
| Registration.NoAddressNoNetwork | agent/php5/agent/openrasp_agent_manager.cc:305-308 | Without a hardware address no request is sent and the attempt fails. |
| Registration.SuccessMeansSent | agent/php5/agent/openrasp_agent_manager.cc:305-380 | A successful attempt always sent its request. |
| Registration.BodyJudgedBeforeCode | agent/php5/agent/openrasp_agent_manager.cc:350-356 | A body that is not an array fails the attempt even with a 2xx code. |
| Registration.HttpErrorIgnoresFields | agent/php5/agent/openrasp_agent_manager.cc:356-378 | Outside 2xx the outcome is the HTTP error, whatever the decoded status and description. |
| Registration.RejectionReportsBackend | agent/php5/agent/openrasp_agent_manager.cc:358-373 | A 2xx answer with a non-zero status reports exactly that status and description. |
| FpmMaster.SpaceIndex | agent/php5/agent/openrasp_agent_manager.cc:411-414 | The index of the first space, or the length when there is none. |
| FpmMaster.Getline | agent/php5/agent/openrasp_agent_manager.cc:411-414 | On a stream that is not good, the item is left untouched. Otherwise the item read plus the delimiter and the rest rebuild the input, and the item holds no space. |
| FpmMaster.SpaceIndexOfField | agent/php5/agent/openrasp_agent_manager.cc:411-414 | On a space-free field followed by a space, the delimiter is found right after the field. |
| FpmMaster.GetlineField | agent/php5/agent/openrasp_agent_manager.cc:411-414 | Reading a space-free field followed by a space yields that field and leaves the rest. |
| FpmMaster.SkipSpaces | agent/php5/agent/openrasp_agent_manager.cc:415 | `atoi`'s leading white space is skipped: the result is a suffix that does not start with white space, and every dropped character is white space. |
| FpmMaster.DigitRun | agent/php5/agent/openrasp_agent_manager.cc:415 | The longest all-digit prefix, which is what `atoi` reads. |
| FpmMaster.Decimal | agent/php5/agent/openrasp_agent_manager.cc:397-399 | A pid's decimal rendering is non-empty and all digits. |
| FpmMaster.DecimalValueOfDecimal | agent/php5/agent/openrasp_agent_manager.cc:424 | The value of a rendered pid is that pid. |
| FpmMaster.DecimalValue | agent/php5/agent/openrasp_agent_manager.cc:415 | Definition without a contract of its own: the value of a run of decimal digits, as `atoi` accumulates it. `DecimalValueOfDecimal` and `AtoiOfDecimal` state its round trip with the rendered pid. |
| FpmMaster.StartsWith | agent/php5/agent/openrasp_agent_manager.cc:422 | Definition without a contract of its own: `find(...) == 0`, the signature at the start of the command line. `MasterChildFound` uses it on a master's title. |
| FpmMaster.DigitRunOfDigits | agent/php5/agent/openrasp_agent_manager.cc:415 | On an all-digit string, `atoi` reads every character. |
| FpmMaster.Atoi | agent/php5/agent/openrasp_agent_manager.cc:415 | Only a leading minus sign gives a negative value. Input that starts with neither a digit nor a sign, after the white space, reads as 0. |
| FpmMaster.AtoiOfDecimal | agent/php5/agent/openrasp_agent_manager.cc:424 | Round trip: `atoi` of a rendered pid gives the pid back. |
| FpmMaster.FourthItemOfFields | agent/php5/agent/openrasp_agent_manager.cc:409-414 | Four getline calls on four space-separated, space-free fields leave the fourth field. |
| FpmMaster.ItemAfter | agent/php5/agent/openrasp_agent_manager.cc:409-414 | The item after any number of `getline` calls holds no space. |
| FpmMaster.FourthItem | agent/php5/agent/openrasp_agent_manager.cc:409-414 | The item the four reads leave, which the source takes as the ppid, holds no space. |
| FpmMaster.ReadFourthItem | agent/php5/agent/openrasp_agent_manager.cc:410-414 | The four `getline` calls of the loop leave exactly `FourthItem` of the stat line. |
| FpmMaster.DecimalHasNoSpace | agent/php5/agent/openrasp_agent_manager.cc:409-415 | A rendered pid holds no space. |
| FpmMaster.FourthItemIsPpid | agent/php5/agent/openrasp_agent_manager.cc:409-416 | On a stat line `pid comm state ppid …` with space-free first fields, the value read is the ppid. |
| FpmMaster.IsMasterEntry | agent/php5/agent/openrasp_agent_manager.cc:400-426 | Definition without a contract of its own: the acceptance test of one `/proc` entry. Its use is stated by `FirstMasterPidAt` and `MasterChildFound`. |
| FpmMaster.FirstMasterPid | agent/php5/agent/openrasp_agent_manager.cc:397-429 | Definition without a contract of its own: the scan's result. What it means is stated by `FirstMasterPidAt`, `FirstMasterPidNone`, `MasterIndexSpec` and `FirstMasterPidWitness`. |
| FpmMaster.FirstMasterPidAt | agent/php5/agent/openrasp_agent_manager.cc:397-428 | The first accepted entry in scan order decides the result: its name read by `atoi`. The entries are accepted as `IsMasterEntry` says: a directory with a non-empty stat line whose fourth item parses to the initial pid, and a cmdline starting with `php-fpm: master process`. |
| FpmMaster.FirstMasterPidFrom | agent/php5/agent/openrasp_agent_manager.cc:397-428 | The same from entry i on: the scan of the remaining entries returns the first accepted one's pid. |
| FpmMaster.FirstMasterPidNone | agent/php5/agent/openrasp_agent_manager.cc:429 | With no accepted entry the result is 0. |
| FpmMaster.FirstMasterPidNoneFrom | agent/php5/agent/openrasp_agent_manager.cc:397-429 | The same from entry i on: with no accepted entry left, the scan returns 0. |
| FpmMaster.MasterIndex | agent/php5/agent/openrasp_agent_manager.cc:397-428 | The index of the first accepted entry is within the table, or equals its length when there is none. |
| FpmMaster.AtMasterIndex | agent/php5/agent/openrasp_agent_manager.cc:397-429 | When the first accepted index lies inside the table, the entry there passes every test of the scan. |
| FpmMaster.BeforeMasterIndex | agent/php5/agent/openrasp_agent_manager.cc:397-429 | Every entry before the first accepted index fails some test of the scan. |
| FpmMaster.FirstMasterPidByIndex | agent/php5/agent/openrasp_agent_manager.cc:397-429 | The scan returns the pid named by the entry at the first accepted index, or 0 when no entry is accepted. |
| FpmMaster.MasterIndexSpec | agent/php5/agent/openrasp_agent_manager.cc:397-429 | That index is accepted, no earlier entry is, and the result is that entry's pid (0 when none). |
| FpmMaster.FirstMasterPidWitness | agent/php5/agent/openrasp_agent_manager.cc:397-429 | A non-zero result names an accepted entry with no accepted entry before it. |
| FpmMaster.MasterChildFound | agent/php5/agent/openrasp_agent_manager.cc:397-428 | The first directory entry found is returned when its stat line gives the initial pid as ppid and its cmdline starts with `php-fpm: master process`. |
| FpmMaster.SearchFpmMasterPid | agent/php5/agent/openrasp_agent_manager.cc:383-430 | The loop returns the first accepted entry's pid, or 0. |
| AgentTable.RecordPid | agent/php5/agent/openrasp_agent_manager.cc:264 | An agent's pid lands in its kind's field; the other fields, master and supervisor are unchanged. |
| AgentTable.InitialAgents | agent/php5/agent/openrasp_agent_manager.cc:170-174 | One agent, or two with plugin updates on, whose first is the heartbeat agent. The log agent is always last, and no agent starts alive. |
| AgentTable.MarkDead | agent/php5/agent/openrasp_agent_manager.cc:68-75 | Length, kinds and pids are kept. An agent is alive afterwards iff it was alive and its pid is not the reaped one. |
| AgentTable.PositivePrefix | agent/php5/agent/openrasp_agent_manager.cc:66 | The reaped pids are exactly the `waitpid` results before the first one that is not positive: a prefix of the results, all positive, followed by a non-positive result or by nothing. |
| AgentTable.ReapAll | agent/php5/agent/openrasp_agent_manager.cc:66-76 | Reaping keeps the number of agents; what it does to each entry is `ReapAllSpec`. |
| AgentTable.ReapAllSnoc | agent/php5/agent/openrasp_agent_manager.cc:66-76 | Reaping one more pid marks its agents dead on top of the earlier reaps. |
| AgentTable.ReapAllSpec | agent/php5/agent/openrasp_agent_manager.cc:62-77 | The handler keeps length, kinds and pids. It marks dead exactly the agents whose pid was reaped and leaves every other flag alone. |
| AgentTable.RespawnedSpec | agent/php5/agent/openrasp_agent_manager.cc:248-268 | Kinds and positions are kept and live agents are untouched. An entry is alive afterwards iff it was alive or its fork returned > 0, and a revived entry takes the fork's pid. An entry still dead keeps its old pid. |
| AgentTable.Respawn | agent/php5/agent/openrasp_agent_manager.cc:253-265 | For one entry: the kind is kept. The entry is alive afterwards iff it was alive or the fork returned > 0. A revived entry takes the fork's pid, and any other entry is unchanged. |
| AgentTable.Respawned | agent/php5/agent/openrasp_agent_manager.cc:250-267 | The survival check keeps the number of agents; what it does to each entry is `RespawnedSpec`. |
| AgentTable.RecordedAfter | agent/php5/agent/openrasp_agent_manager.cc:250-267 | The survival check's writes never touch the master pid or the supervisor id fields; which fields they set is `RecordedAfterFields`. |
| AgentTable.InitialAgentsConfigured | agent/php5/agent/openrasp_agent_manager.cc:168-174 | The startup list has each kind at most once and a heartbeat agent only with plugin updates on. It ends with the log agent and satisfies the recorded-pid invariant. |
| AgentTable.RecordedAfterFields | agent/php5/agent/openrasp_agent_manager.cc:250-267 | After the survival check, master and supervisor fields are unchanged. A revived agent's field holds its new pid; the others keep their values. |
| AgentTable.RespawnKeepsPidsRecorded | agent/php5/agent/openrasp_agent_manager.cc:248-268 | The survival check keeps the list configured and every live agent's pid recorded in its field. |
| AgentTable.ReapKeepsPidsRecorded | agent/php5/agent/openrasp_agent_manager.cc:62-77 | Reaping keeps the list configured and recorded. |
| AgentTable.KillList | agent/php5/agent/openrasp_agent_manager.cc:192-213 | Only positive pids are killed. A pid is killed iff it is the log agent's, the plugin agent's (with plugin updates on) or the supervisor's. The log agent is killed first, then the plugin agent, and a recorded supervisor last. The number of kills is exactly the number of positive pids among those eligible. |
| AgentTable.FieldOf | agent/php5/agent/openrasp_agent_manager.cc:264 | Definition without a contract of its own: the control-block field `write_pid_to_shm` writes for each agent kind. Its properties are in `PidsRecorded`, `RecordPid` and `TeardownReachesLiveAgents`. |
| AgentTable.NewAgent | agent/php5/agent/openrasp_agent_manager.cc:172-174 | Definition without a contract of its own: a freshly constructed agent of a kind, not alive and with no pid. `InitialAgents` states what the startup list holds. |
| AgentTable.TeardownReachesLiveAgents | agent/php5/agent/openrasp_agent_manager.cc:192-213 | Under the recorded-pid invariant the kill cascade reaches every agent believed alive. |
| Schedule.ModBelow | agent/php5/agent/openrasp_agent_manager.cc:227-229 | Inside a cycle, `i % task_interval == 0` holds only at tick 0. |
| Schedule.RegisterPhase | agent/php5/agent/openrasp_agent_manager.cc:229-232 | The registered flag becomes set iff it was set or tick 0 registered successfully; nothing else in the supervisor's state changes. |
| Schedule.SurvivalPhase | agent/php5/agent/openrasp_agent_manager.cc:233-236 | Only the agent list and the block can change, and the list keeps its length. Nothing changes unless the tick is ≡ 0 mod 10 and the supervisor is registered. What happens to each agent on such a tick is `SurvivalPhaseRespawns`. |
| Schedule.SurvivalPhaseRespawns | agent/php5/agent/openrasp_agent_manager.cc:250-267 | On a survival tick of a registered supervisor each agent keeps its kind; it is alive afterwards iff it was alive or its fork succeeded; a revived agent takes the forked pid; an agent left as it was is unchanged. |
| Schedule.ReapPhase | agent/php5/agent/openrasp_agent_manager.cc:62-77 | The sleep's reaping changes only the agent list, and keeps its length. |
| Schedule.ReapPhaseMarksDead | agent/php5/agent/openrasp_agent_manager.cc:62-77 | After the sleep an agent is alive iff it was alive and its pid was not reaped; nothing else about it changes. |
| Schedule.ReapedAgentRespawned | agent/php5/agent/openrasp_agent_manager.cc:233-236 | A survival tick of a registered supervisor, with the master present, revives a dead agent with the forked pid when the fork succeeds and that pid is not reaped in the same sleep. |
| Schedule.MasterPhase | agent/php5/agent/openrasp_agent_manager.cc:237-243 | The flag and the block are kept. Nothing changes while the master exists. A missing master empties the agent list and adds SIGKILLs. That every live agent is among them, and that the supervisor ends when its own pid is recorded, is `MissingMasterKillsLiveAgents`. |
| Schedule.MissingMasterKillsLiveAgents | agent/php5/agent/openrasp_agent_manager.cc:238-243 | For a cycle that starts with its agent list consistent with the block: when the master is found gone, every agent still believed alive after the sleep has its pid among the SIGKILLs of that tick. A supervisor whose own pid is recorded in the block ends itself at that tick. |
| Schedule.Tick | agent/php5/agent/openrasp_agent_manager.cc:228-243 | Definition without a contract of its own: registration, survival check, the sleep with its reaping, and the master check, in the source's order. Its effect is stated by `TickFacts`. |
| Schedule.Run | agent/php5/agent/openrasp_agent_manager.cc:227-244 | Definition without a contract of its own: the ticks of one cycle, stopping once the supervisor killed itself. Its properties are `RunRegistered`, `RunStopsWhenTerminated`, `NoAgentAfterTeardown`, `RunKeepsPidsRecorded`, `AgentStaysDead` and `AgentDiesThenRespawned`. |
| Schedule.TickActions | agent/php5/agent/openrasp_agent_manager.cc:229-243 | Definition without a contract of its own: the actions one tick takes. That they follow the schedule is `PlanRespectsSchedule`. |
| Schedule.Plan | agent/php5/agent/openrasp_agent_manager.cc:227-244 | Definition without a contract of its own: the actions of a cycle's first ticks. Its properties are `PlanRespectsSchedule`, `PlanGrows`, `ActionStaysPlanned`, `MissingMasterTearsDown`, `UnregisteredCycleAttempts` and `SurvivalEveryTenthTick`. |
| Schedule.TickFacts | agent/php5/agent/openrasp_agent_manager.cc:227-243 | A tick sets the registered flag iff it was set or tick 0 registered. A missing master empties the agent list, and an empty list stays empty. |
| Schedule.RunRegistered | agent/php5/agent/openrasp_agent_manager.cc:227-232 | After the first tick the flag is set iff it was set before or the tick-0 attempt succeeded. |
| Schedule.RunStep | agent/php5/agent/openrasp_agent_manager.cc:227-244 | One more tick of a living supervisor extends the run and the plan by that tick. |
| Schedule.RunStopsWhenTerminated | agent/php5/agent/openrasp_agent_manager.cc:239-243 | Once the teardown killed the supervisor, later ticks change nothing. |
| Schedule.NoAgentAfterTeardown | agent/php5/agent/openrasp_agent_manager.cc:233-243 | After a teardown the agent list stays empty: no agent is spawned afterwards. |
| Schedule.RunEmptiesAgents | agent/php5/agent/openrasp_agent_manager.cc:238-243 | The tick that finds the master gone leaves no agent. |
| Schedule.RunKeepsNoAgent | agent/php5/agent/openrasp_agent_manager.cc:228-243 | A tick never spawns an agent into an empty list. |
| Schedule.RunKeepsPidsRecorded | agent/php5/agent/openrasp_agent_manager.cc:225-245 | A whole cycle keeps the list configured and every live agent recorded in the block. |
| Schedule.Quiet | agent/php5/agent/openrasp_agent_manager.cc:233-243 | Definition without a contract of its own: a tick that runs no survival check and finds the master present. Used by `TickKeepsDead` and `AgentStaysDead`. |
| Schedule.TickKeepsDead | agent/php5/agent/openrasp_agent_manager.cc:228-243 | A quiet tick keeps a dead agent dead and the supervisor alive. |
| Schedule.AgentStaysDead | agent/php5/agent/openrasp_agent_manager.cc:227-244 | Over a run of quiet ticks a dead agent stays dead and the supervisor stays alive. |
| Schedule.AgentDiesThenRespawned | agent/php5/agent/openrasp_agent_manager.cc:227-244 | An agent reaped during the sleep of tick t is dead after that tick and, with the master present, is alive with the forked pid after the next tick that is a multiple of ten, when that fork succeeds. |
| Schedule.PlanRespectsSchedule | agent/php5/agent/openrasp_agent_manager.cc:227-243 | Registration is tried only at tick 0 while unregistered. Survival checks happen only on ticks ≡ 0 mod 10 after registration succeeded. Teardown happens only on ticks whose master stat failed with ENOENT. |
| Schedule.PlanGrows | agent/php5/agent/openrasp_agent_manager.cc:227-244 | Later ticks only append to the actions taken. |
| Schedule.TickActionsPlanned | agent/php5/agent/openrasp_agent_manager.cc:227-244 | The actions of tick t are in the plan up to t + 1. |
| Schedule.ActionStaysPlanned | agent/php5/agent/openrasp_agent_manager.cc:227-244 | An action of tick t stays in the plan of every later prefix. |
| Schedule.MissingMasterTearsDown | agent/php5/agent/openrasp_agent_manager.cc:238-243 | A master found gone at any tick causes a teardown at that very tick. |
| Schedule.UnregisteredCycleAttempts | agent/php5/agent/openrasp_agent_manager.cc:229-232 | A cycle that starts unregistered attempts registration at tick 0. |
| Schedule.SurvivalEveryTenthTick | agent/php5/agent/openrasp_agent_manager.cc:233-236 | Once registered, every tick ≡ 0 mod 10 runs a survival check. |
| Manager.ControlBlock.constructor | agent/php5/agent/openrasp_agent_manager.cc:151-159 | A fresh control block has all pid fields zero. |
| Manager.ControlBlock.WritePid | agent/php5/agent/openrasp_agent_manager.cc:264 | Writing an agent's pid updates its field as `RecordPid` says. |
| Manager.AgentManager.constructor | agent/php5/agent/openrasp_agent_manager.cc:79-83 | A new manager is uninitialized and unregistered, with no control block and no agents. |
| Manager.AgentManager.CycleLength | agent/php5/agent/openrasp_agent_manager.cc:227 | The number of ticks is `task_interval`, or none when it is not positive. |
| Manager.AgentManager.CycleEnv | agent/php5/agent/openrasp_agent_manager.cc:229-243 | The cycle's registration succeeds iff the exchange is judged Registered. The pids reaped in a tick's sleep are the positive `waitpid` results before the first non-positive one. |
| Manager.AgentManager.AfterAttempt | agent/php5/agent/openrasp_agent_manager.cc:301-308 | An attempt always stores the local IP. It stores the identity only when one can be computed. |
| Manager.AgentManager.CreateShareMemory | agent/php5/agent/openrasp_agent_manager.cc:151-159 | Succeeds iff allocation did, with a fresh zeroed block; on failure the pointer is unchanged. |
| Manager.AgentManager.DestroyShareMemory | agent/php5/agent/openrasp_agent_manager.cc:161-166 | Always succeeds and drops the block. |
| Manager.AgentManager.ProcessAgentStartup | agent/php5/agent/openrasp_agent_manager.cc:168-190 | The configured agents are appended whatever the fork did. Success iff the fork result ≥ 0. Only a positive result is recorded as the supervisor id; otherwise the block is unchanged. |
| Manager.AgentManager.Startup | agent/php5/agent/openrasp_agent_manager.cc:85-99 | Fails only on a failed allocation. Without shared memory nothing but the init pid changes. Otherwise the block records the init pid as master, the supervisor id only for a positive fork, and the agent list; the manager is initialized whatever the fork did. Starting from no agents, the result is consistent. |
| Manager.AgentManager.ShutdownMaster | agent/php5/agent/openrasp_agent_manager.cc:104-111 | Under `fpm-fcgi` a non-zero search result replaces the recorded master pid; otherwise it stays. |
| Manager.AgentManager.ProcessAgentShutdown | agent/php5/agent/openrasp_agent_manager.cc:192-213 | The agent list is cleared. The SIGKILLs are exactly `KillList` of the block, in order. |
| Manager.AgentManager.Shutdown | agent/php5/agent/openrasp_agent_manager.cc:101-122 | Always succeeds; a no-op when not initialized. The master pid is corrected under php-fpm. A caller that is not the known master leaves everything else as it was. Otherwise the kill list is sent, the agents are cleared, the block is released and the manager becomes uninitialized, so a second call is a no-op. |
| Manager.AgentManager.ReapPid | agent/php5/agent/openrasp_agent_manager.cc:68-75 | The agents recorded with the reaped pid are marked dead in place. |
| Manager.AgentManager.SigchldHandler | agent/php5/agent/openrasp_agent_manager.cc:62-77 | The list becomes the reap of every pid `waitpid` returned before its first non-positive result. Consistency with the block is kept. |
| Manager.AgentManager.CheckWorkProcessesSurvival | agent/php5/agent/openrasp_agent_manager.cc:248-268 | The list becomes `Respawned` and the block `RecordedAfter` over all entries. Consistency is kept. |
| Manager.AgentManager.AgentRemoteRegister | agent/php5/agent/openrasp_agent_manager.cc:298-381 | Returns `Succeeds`. The request sent is `RegisterRequest`. The local IP is always stored; the rasp id only when it can be computed. |
| Manager.AgentManager.RegisterStep | agent/php5/agent/openrasp_agent_manager.cc:229-232 | The state moves as `RegisterPhase`. The attempt is recorded only at tick 0 while unregistered, and the identity fields move as `AfterAttempt`. |
| Manager.AgentManager.SurvivalStep | agent/php5/agent/openrasp_agent_manager.cc:233-236 | The state moves as `SurvivalPhase`; a check is recorded iff i ≡ 0 mod 10 and registered. |
| Manager.AgentManager.SleepStep | agent/php5/agent/openrasp_agent_manager.cc:237 | The state moves as `ReapPhase`: the SIGCHLD handler runs on the `waitpid` results of the tick's sleep. |
| Manager.AgentManager.MasterStep | agent/php5/agent/openrasp_agent_manager.cc:238-243 | The state moves as `MasterPhase`; a teardown is recorded iff the master's `/proc` entry is gone. |
| Manager.AgentManager.SupervisorTick | agent/php5/agent/openrasp_agent_manager.cc:228-244 | The new state is `Schedule.Tick` of the old one, reaping included, and the actions are `Schedule.TickActions`. |
| Manager.AgentManager.CycleTicks | agent/php5/agent/openrasp_agent_manager.cc:227-244 | After the loop the state is `Schedule.Run` and the actions are `Schedule.Plan` over the ticks run. The loop stops early only when the supervisor killed itself. |
| Manager.AgentManager.SupervisorCycle | agent/php5/agent/openrasp_agent_manager.cc:225-245 | The state after one cycle is `Schedule.Run` over the whole cycle, and the actions are the plan. Consistency of the agent list with the block is kept. |

## Left out

- Processes and signals are not modelled as real effects:
  - `fork`, `setsid`, `sigaction`, `waitpid`, `kill`, `sleep` and real concurrency are left out; the operating system is not part of this model.
  - Schedule.Run: SIGCHLD is delivered once per tick, during the one-second sleep. A signal that interrupts the registration attempt or the survival loop is not modelled.
  - Fork, `waitpid` and `stat` results are parameters, and kills are recorded as a list of pids.
  - In the model the supervisor runs on the same object rather than in a forked copy of the process.
- Other effects are replaced by inputs:
  - `/proc` access (scandir, stat, access, the ifstream reads) is a given process table with an `isDir` filter, a stat line and a cmdline per entry.
  - CURL, JSON encoding and decoding, `smart_str`, `gethostname` and `fetch_source_in_ip_packets` are summarised by the `Exchange` value: success or failure and the decoded fields.
  - `md5sum` is an uninterpreted function passed as a parameter.
  - `regex_match` is replaced by an explicit predicate: length 40, all hex digits.
- These are not modelled at all:
  - `shm_manager` create and destroy beyond success or failure; a freshly created control block is taken to be zero-filled.
  - `openrasp_error` logging and `AGENT_SET_PROC_NAME`.
  - The SIGTERM handler.
  - The agents' `run()` bodies. The child branch of a fork (fork result 0) changes nothing in the model.
- Assumptions where the headers are not part of this model:
  - The agent classes and `write_pid_to_shm` are not part of this model. The log agent is taken to write `log_agent_id` and the heartbeat agent `plugin_agent_id`.
  - A new agent is taken to start with pid 0 and not alive.
- Manager.AgentManager.SupervisorCycle: models one cycle of `supervisor_run`'s `while (true)`, ending early when the teardown SIGKILLs the supervisor's own pid. Later cycles repeat it with the registered flag carried over.
- Schedule.Tick: uses `i == 0` where the source tests `i % task_interval == 0`. The two agree inside the cycle (`Schedule.ModBelow`), and `Manager.AgentManager.RegisterStep` keeps the source's test.
- Manager.AgentManager.AgentRemoteRegister: `backendUrl` is a plain string, so the model assumes a backend URL is configured. The source reads `backend_url` without a null check when it builds the request, so the guard is taken to be in a caller that is not part of this model (for example a check with `verify_ini_correct` before the supervisor starts).
- FpmMaster.Atoi: unbounded; the 32-bit overflow of `atoi` and of `int ppid` is not modelled.
- The Java server detectors (`ServerDetector.java`, `ResinDetector.java`) are outside the agent manager and are not modelled.
- Where the code differs from what a reader might expect, the model follows the code:
  - `startup` ignores the result of `process_agent_startup`, so a failed supervisor fork still reports success.
  - Agents are spawned and respawned only after registration succeeded.
  - The master check runs on every tick.
  - Registration is retried once per cycle, not once per tick.
  - The body must decode to an array before the HTTP code is examined.
