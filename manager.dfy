/** The agent manager itself (`OpenraspAgentManager`): the shared control block, the
    list of agents, and the operations that start, supervise and stop them. Every
    method is proved against the value functions of `AgentTable`, `Identity`,
    `Registration`, `FpmMaster` and `Schedule`. Process ids, fork results, the
    shared-memory allocation, `waitpid` and `stat` results and the network exchange
    are given to the methods as parameters. */
module Manager {
  import opened Common
  import opened AgentTable
  import Identity
  import Registration
  import FpmMaster
  import Schedule

  /** The SAPI name under which the master pid is looked up again at shutdown. */
  const FpmSapi := "fpm-fcgi"

  /** `OpenraspCtrlBlock`: the pids shared between the web server processes, the
      supervisor and the agents. */
  class ControlBlock {
    var masterPid: int
    var supervisorId: int
    var logAgentId: int
    var pluginAgentId: int

    function View(): Block
      reads this
    {
      Block(masterPid, supervisorId, logAgentId, pluginAgentId)
    }

    /** A freshly created shared-memory segment is zero-filled. */
    constructor ()
      ensures View() == Block(0, 0, 0, 0)
    {
      masterPid, supervisorId, logAgentId, pluginAgentId := 0, 0, 0, 0;
    }

    /** An agent publishes its pid in the field of its kind. */
    method WritePid(kind: AgentKind, pid: int)
      modifies this
      ensures View() == RecordPid(old(View()), kind, pid)
    {
      match kind
      case Log => logAgentId := pid;
      case HeartBeat => pluginAgentId := pid;
    }
  }

  class AgentManager {
    // Settings fixed for the life of the process.
    const needShm: bool             // check_sapi_need_alloc_shm() for the running SAPI
    const sapiName: string
    const pluginUpdateEnable: bool
    const backendUrl: string
    const rootDir: string
    const versions: Registration.Versions
    const taskInterval: int
    const md5: string -> string

    var initialized: bool
    var hasRegistered: bool
    var initProcessPid: int
    var ctrl: ControlBlock?
    var agents: seq<Agent>
    var raspId: string
    var localIp: string

    /** An initialized manager owns a control block. */
    ghost predicate Valid()
      reads this
    {
      initialized ==> ctrl != null
    }

    /** The supervisor's bookkeeping agrees with the control block: the agent list has
        the configured shape and every agent believed alive is recorded there. */
    ghost predicate Consistent()
      reads this, ctrl
    {
      && ctrl != null
      && Configured(agents, pluginUpdateEnable)
      && PidsRecorded(agents, ctrl.View())
    }

    constructor (needShm: bool, sapiName: string, pluginUpdateEnable: bool, backendUrl: string,
                 rootDir: string, versions: Registration.Versions, taskInterval: int,
                 md5: string -> string)
      ensures Valid() && !initialized && !hasRegistered && ctrl == null && agents == []
      ensures raspId == "" && localIp == ""
      ensures this.needShm == needShm && this.sapiName == sapiName
      ensures this.pluginUpdateEnable == pluginUpdateEnable && this.backendUrl == backendUrl
      ensures this.rootDir == rootDir && this.versions == versions
      ensures this.taskInterval == taskInterval && this.md5 == md5
    {
      this.needShm, this.sapiName, this.pluginUpdateEnable := needShm, sapiName, pluginUpdateEnable;
      this.backendUrl, this.rootDir, this.versions := backendUrl, rootDir, versions;
      this.taskInterval, this.md5 := taskInterval, md5;
      initialized, hasRegistered, initProcessPid := false, false, 0;
      ctrl, agents, raspId, localIp := null, [], "", "";
    }

    /** The number of ticks in one cycle of the supervisor loop. */
    function CycleLength(): (n: nat)
      ensures taskInterval > 0 ==> n == taskInterval
      ensures taskInterval <= 0 ==> n == 0
    {
      if taskInterval > 0 then taskInterval else 0
    }

    /** What the outside world decides during one supervisor cycle, as `Schedule` sees it. */
    function CycleEnv(x: Registration.Exchange, forks: nat -> nat -> int, waits: nat -> seq<int>,
                      masterStat: nat -> Schedule.MasterStat, selfPid: int): (env: Schedule.Env)
      ensures env.registerOk <==> Registration.Judge(x) == Registration.Registered
      ensures env.forks == forks && env.masterStat == masterStat && env.selfPid == selfPid
      ensures forall t: nat :: env.reaped(t) == PositivePrefix(waits(t))
      ensures env.pluginUpdateEnable == pluginUpdateEnable
    {
      Schedule.Env(Registration.Succeeds(x), forks, (t: nat) => PositivePrefix(waits(t)), masterStat,
                   pluginUpdateEnable, selfPid)
    }

    /** The supervisor's state as `Schedule` sees it, with the SIGKILLs sent so far and
        whether the supervisor has killed itself. */
    ghost function Snapshot(killed: seq<int>, terminated: bool): Schedule.SupState
      requires ctrl != null
      reads this, ctrl
    {
      Schedule.SupState(hasRegistered, agents, ctrl.View(), killed, terminated)
    }

    /** The local IP and the identity after a registration attempt with `x` (when
        `attempted`), starting from `ip0` and `id0`: the IP always moves, the identity
        only when one can be computed. */
    function AfterAttempt(x: Registration.Exchange, attempted: bool, ip0: string, id0: string)
      : (r: (string, string))
      ensures !attempted ==> r == (ip0, id0)
      ensures attempted && x.hwAddrs == [] ==> r == (Registration.LocalIpOrEmpty(x), id0)
      ensures attempted && x.hwAddrs != [] ==>
        r.0 == Registration.LocalIpOrEmpty(x)
        && Some(r.1) == Identity.RaspId(x.hwAddrs, rootDir, md5)
    {
      if attempted then (Registration.LocalIpOrEmpty(x), Identity.RaspId(x.hwAddrs, rootDir, md5).GetOr(id0))
      else (ip0, id0)
    }

    // -------------------------------------------------------------------------
    // Shared memory

    /** `create_share_memory`: `allocOk` is whether the shared-memory manager handed
        out a segment. On failure the old block pointer is left as it was. */
    method CreateShareMemory(allocOk: bool) returns (ok: bool)
      modifies this`ctrl
      ensures ok == allocOk
      ensures ok ==> ctrl != null && fresh(ctrl) && ctrl.View() == Block(0, 0, 0, 0)
      ensures !ok ==> ctrl == old(ctrl)
    {
      if allocOk {
        ctrl := new ControlBlock();
        ok := true;
      } else {
        ok := false;
      }
    }

    /** `destroy_share_memory`: the block is dropped and the call always succeeds. */
    method DestroyShareMemory() returns (ok: bool)
      modifies this`ctrl
      ensures ok && ctrl == null
    {
      ctrl := null;
      ok := true;
    }

    // -------------------------------------------------------------------------
    // Startup and shutdown in the web server's master process

    /** `process_agent_startup`, seen from the parent: the agents are appended to the
        list (whether or not the fork works), and a positive fork result is recorded
        as the supervisor's pid. A result of 0 is the child's side: it becomes the
        supervisor and nothing is recorded. Only a negative result is a failure. */
    method ProcessAgentStartup(forkResult: int) returns (ok: bool)
      requires ctrl != null
      modifies this`agents, ctrl
      ensures agents == old(agents) + InitialAgents(pluginUpdateEnable)
      ensures ok <==> forkResult >= 0
      ensures forkResult > 0 ==> ctrl.View() == old(ctrl.View()).(supervisorId := forkResult)
      ensures forkResult <= 0 ==> ctrl.View() == old(ctrl.View())
    {
      if pluginUpdateEnable {
        agents := agents + [NewAgent(HeartBeat)];
      }
      agents := agents + [NewAgent(Log)];
      var pid := forkResult;
      if pid < 0 {
        return false;
      } else if pid == 0 {
        // The child detaches and runs the supervisor loop (see SupervisorCycle).
      } else {
        ctrl.supervisorId := pid;
      }
      return true;
    }

    /** `startup`: records the pid of the initial process; when this SAPI needs shared
        memory it creates the block, records that pid as the master, and starts the
        supervisor. Only a failed allocation is reported: a failed fork is not. */
    method Startup(pid: int, allocOk: bool, forkResult: int) returns (ok: bool)
      requires Valid()
      modifies this`initProcessPid, this`ctrl, this`initialized, this`agents
      ensures Valid()
      ensures initProcessPid == pid
      ensures ok <==> !needShm || allocOk
      ensures !(needShm && allocOk) ==>
        initialized == old(initialized) && ctrl == old(ctrl) && agents == old(agents)
      ensures needShm && allocOk ==>
        && initialized && ctrl != null && fresh(ctrl)
        && ctrl.View() == Block(pid, if forkResult > 0 then forkResult else 0, 0, 0)
        && agents == old(agents) + InitialAgents(pluginUpdateEnable)
      ensures needShm && allocOk && old(agents) == [] ==> Consistent()
    {
      initProcessPid := pid;
      if needShm {
        var created := CreateShareMemory(allocOk);
        if !created {
          return false;
        }
        ctrl.masterPid := initProcessPid;
        var _ := ProcessAgentStartup(forkResult);
        initialized := true;
        InitialAgentsConfigured(pluginUpdateEnable, ctrl.View());
      }
      return true;
    }

    /** The master pid `shutdown` goes by: under php-fpm the pid found in the process
        table replaces the recorded one, unless the search found nothing. */
    function ShutdownMaster(procs: seq<FpmMaster.ProcEntry>): (m: int)
      requires ctrl != null
      reads this, ctrl
      ensures sapiName != FpmSapi ==> m == ctrl.masterPid
      ensures FpmMaster.FirstMasterPid(procs, initProcessPid) == 0 ==> m == ctrl.masterPid
      ensures sapiName == FpmSapi && FpmMaster.FirstMasterPid(procs, initProcessPid) != 0 ==>
        m == FpmMaster.FirstMasterPid(procs, initProcessPid)
    {
      var found := FpmMaster.FirstMasterPid(procs, initProcessPid);
      if sapiName == FpmSapi && found != 0 then found else ctrl.masterPid
    }

    /** `process_agent_shutdown`: forgets the agents and sends SIGKILL to the pids the
        control block records; `killed` lists them in the order they are signalled. */
    method ProcessAgentShutdown() returns (killed: seq<int>)
      requires ctrl != null
      modifies this`agents
      ensures agents == []
      ensures killed == KillList(ctrl.View(), pluginUpdateEnable)
    {
      agents := [];
      killed := [];
      var logAgentId := ctrl.logAgentId;
      if logAgentId > 0 {
        killed := killed + [logAgentId];
      }
      if pluginUpdateEnable {
        var pluginAgentId := ctrl.pluginAgentId;
        if pluginAgentId > 0 {
          killed := killed + [pluginAgentId];
        }
      }
      var supervisorId := ctrl.supervisorId;
      if supervisorId > 0 {
        killed := killed + [supervisorId];
      }
    }

    /** `shutdown`, called by `callerPid` with the process table `procs`. Nothing
        happens unless the manager is initialized. Otherwise the master pid is first
        corrected under php-fpm; a process other than a known master returns at once;
        the master (or any process when no master is known) kills the agents and the
        supervisor and releases the block. The call always reports success. */
    method Shutdown(callerPid: int, procs: seq<FpmMaster.ProcEntry>) returns (ok: bool, killed: seq<int>)
      requires Valid()
      modifies this`ctrl, this`initialized, this`agents, ctrl
      ensures Valid() && ok
      ensures !old(initialized) ==>
        && killed == [] && !initialized && ctrl == old(ctrl) && agents == old(agents)
        && (ctrl != null ==> ctrl.View() == old(ctrl.View()))
      ensures old(initialized) ==>
        var m := old(ShutdownMaster(procs));
        && old(ctrl).View() == old(ctrl.View()).(masterPid := m)
        && (m != 0 && callerPid != m ==>
              killed == [] && initialized && ctrl == old(ctrl) && agents == old(agents))
        && (m == 0 || callerPid == m ==>
              && killed == KillList(old(ctrl.View()), pluginUpdateEnable)
              && agents == [] && ctrl == null && !initialized)
    {
      killed := [];
      if initialized {
        if sapiName == FpmSapi {
          var fpmMasterPid := FpmMaster.SearchFpmMasterPid(procs, initProcessPid);
          if fpmMasterPid != 0 {
            ctrl.masterPid := fpmMasterPid;
          }
        }
        if ctrl.masterPid != 0 && callerPid != ctrl.masterPid {
          return true, [];
        }
        killed := ProcessAgentShutdown();
        var _ := DestroyShareMemory();
        initialized := false;
      }
      return true, killed;
    }

    // -------------------------------------------------------------------------
    // The supervisor process

    /** The body of the handler's loop for one reaped pid `p`: every agent recorded
        with that pid is marked dead, in place. */
    method ReapPid(p: int)
      modifies this`agents
      ensures agents == MarkDead(old(agents), p)
    {
      var i := 0;
      while i < |agents|
        invariant 0 <= i <= |agents| == |old(agents)|
        invariant forall k :: 0 <= k < i ==> agents[k] == MarkDead(old(agents), p)[k]
        invariant forall k :: i <= k < |agents| ==> agents[k] == old(agents)[k]
      {
        if p == agents[i].pid {
          agents := agents[i := agents[i].(alive := false)];
        }
        i := i + 1;
      }
    }

    /** `supervisor_sigchld_handler`: every pid `waitpid` reaps (until it first returns
        0 or -1, as listed in `waits`) marks the agents recorded with it as dead. */
    method SigchldHandler(waits: seq<int>)
      modifies this`agents
      ensures agents == ReapAll(old(agents), PositivePrefix(waits))
      ensures old(Consistent()) ==> Consistent()
    {
      ghost var reaped := PositivePrefix(waits);
      var j := 0;
      while j < |waits| && waits[j] > 0
        invariant 0 <= j <= |reaped|
        invariant agents == ReapAll(old(agents), waits[..j])
      {
        var p := waits[j];
        ReapPid(p);
        ReapAllSnoc(old(agents), waits[..j], p);
        assert waits[..j + 1] == waits[..j] + [p];
        j := j + 1;
      }
      assert waits[..j] == reaped;
      if old(Consistent()) {
        ReapKeepsPidsRecorded(old(agents), PositivePrefix(waits), ctrl.View(), pluginUpdateEnable);
      }
    }

    /** `check_work_processes_survival`: each dead agent is forked again; `forks(i)` is
        what the fork for entry `i` returned in the supervisor. A positive pid revives
        the entry and is published in the control block; 0 is the child's side (it runs
        the agent) and a failed fork leaves the entry dead. */
    method CheckWorkProcessesSurvival(forks: nat -> int)
      requires ctrl != null
      modifies this`agents, ctrl
      ensures agents == Respawned(old(agents), forks)
      ensures ctrl.View() == RecordedAfter(old(agents), forks, old(ctrl.View()), |old(agents)|)
      ensures old(Consistent()) ==> Consistent()
    {
      var i := 0;
      while i < |agents|
        invariant 0 <= i <= |agents| == |old(agents)|
        invariant forall k :: 0 <= k < i ==> agents[k] == Respawn(old(agents)[k], forks(k))
        invariant forall k :: i <= k < |agents| ==> agents[k] == old(agents)[k]
        invariant ctrl.View() == RecordedAfter(old(agents), forks, old(ctrl.View()), i)
      {
        var agent := agents[i];
        if !agent.alive {
          var pid := forks(i);
          if pid == 0 {
            // The child runs the agent's body, which is not part of this model.
          } else if pid > 0 {
            agents := agents[i := agent.(alive := true, pid := pid)];
            ctrl.WritePid(agent.kind, pid);
          }
        }
        i := i + 1;
      }
      assert agents == Respawned(old(agents), forks);
      if old(Consistent()) {
        RespawnKeepsPidsRecorded(old(agents), forks, old(ctrl.View()), pluginUpdateEnable);
      }
    }

    /** `agent_remote_register` with the outside world's answers in `x`. The local IP
        is stored first (empty when the lookup fails), then the identity when one can
        be computed; `sent` is the request that leaves the host, if any, and `ok` is
        whether the backend accepted it. */
    method AgentRemoteRegister(x: Registration.Exchange) returns (ok: bool, sent: Option<Registration.Request>)
      modifies this`localIp, this`raspId
      ensures ok == Registration.Succeeds(x)
      ensures sent == Registration.RegisterRequest(x, backendUrl, rootDir, sapiName, versions, md5)
      ensures localIp == Registration.LocalIpOrEmpty(x)
      ensures raspId == Identity.RaspId(x.hwAddrs, rootDir, md5).GetOr(old(raspId))
    {
      localIp := if x.localIp.Some? then x.localIp.value else "";
      var computed, id := Identity.CalculateRaspId(x.hwAddrs, rootDir, md5);
      if !computed {
        return false, None;
      }
      raspId := id;
      if !x.curlReady {
        return false, None;
      }
      var hostName := if x.hostName.Some? then x.hostName.value else Registration.UnknownHost;
      var body := Registration.Payload(raspId, hostName, "PHP", versions.php, sapiName,
                                       versions.php, rootDir, localIp, versions.rasp);
      sent := Some(Registration.Request(backendUrl + Registration.RegisterPath, body));
      if x.transport != Registration.CurleOk {
        return false, sent;
      }
      match x.body
      case NotArray =>
        ok := false;
      case Array(status, description) =>
        if 200 <= x.responseCode < 300 {
          ok := status.Some? && description.Some? && status.value == 0;
        } else {
          ok := false;
        }
    }

    /** The first step of a tick: registration is attempted at a tick index that is a
        multiple of the cycle length `n` while the supervisor is unregistered. */
    method RegisterStep(i: nat, n: nat, x: Registration.Exchange, env: Schedule.Env, killed: seq<int>)
      returns (acts: seq<Schedule.Action>)
      requires i < n && ctrl != null && env.registerOk == Registration.Succeeds(x)
      modifies this`hasRegistered, this`localIp, this`raspId
      ensures Snapshot(killed, false) == Schedule.RegisterPhase(old(Snapshot(killed, false)), i, env)
      ensures acts == if i == 0 && !old(hasRegistered) then [Schedule.Attempt(i, env.registerOk)] else []
      ensures (localIp, raspId) == AfterAttempt(x, i == 0 && !old(hasRegistered), old(localIp), old(raspId))
    {
      Schedule.ModBelow(i, n);
      acts := [];
      if i % n == 0 && !hasRegistered {
        var ok, _ := AgentRemoteRegister(x);
        hasRegistered := ok;
        acts := [Schedule.Attempt(i, ok)];
      }
    }

    /** The second step: every tenth tick, once registered, the survival check. */
    method SurvivalStep(i: nat, env: Schedule.Env, killed: seq<int>) returns (acts: seq<Schedule.Action>)
      requires ctrl != null
      modifies this`agents, ctrl
      ensures Snapshot(killed, false) == Schedule.SurvivalPhase(old(Snapshot(killed, false)), i, env)
      ensures acts == if i % 10 == 0 && hasRegistered then [Schedule.SurvivalCheck(i)] else []
    {
      acts := [];
      if i % 10 == 0 && hasRegistered {
        CheckWorkProcessesSurvival(env.forks(i));
        acts := [Schedule.SurvivalCheck(i)];
      }
    }

    /** The third step, the one-second sleep: the SIGCHLD handler runs for the agents
        that exit meanwhile, with `waits` as what its `waitpid` calls return. */
    method SleepStep(i: nat, env: Schedule.Env, waits: seq<int>, killed: seq<int>)
      requires ctrl != null && env.reaped(i) == PositivePrefix(waits)
      modifies this`agents
      ensures Snapshot(killed, false) == Schedule.ReapPhase(old(Snapshot(killed, false)), i, env)
    {
      SigchldHandler(waits);
    }

    /** The last step, after the one-second sleep: a master whose `/proc` entry is gone
        triggers the teardown, which kills the supervisor if `selfPid` is among the kills. */
    method MasterStep(i: nat, env: Schedule.Env, killedBefore: seq<int>)
      returns (acts: seq<Schedule.Action>, killed: seq<int>, terminated: bool)
      requires ctrl != null && env.pluginUpdateEnable == pluginUpdateEnable
      modifies this`agents
      ensures Snapshot(killed, terminated) == Schedule.MasterPhase(old(Snapshot(killedBefore, false)), i, env)
      ensures acts == if env.masterStat(i) == Schedule.NoEntry then [Schedule.Teardown(i)] else []
    {
      acts, killed, terminated := [], killedBefore, false;
      if env.masterStat(i) == Schedule.NoEntry {
        var k := ProcessAgentShutdown();
        killed := killed + k;
        terminated := env.selfPid in k;
        acts := [Schedule.Teardown(i)];
      }
    }

    /** One tick `i` of a cycle of `n` ticks of `supervisor_run`: the registration
        attempt, the survival check, the sleep during which exited agents are reaped,
        then the check that the master still exists.
        `killedBefore` are the SIGKILLs sent earlier in the cycle. The new state is the
        one `Schedule.Tick` computes, and `acts` are the actions `Schedule.TickActions`
        schedules for it. */
    method SupervisorTick(i: nat, n: nat, x: Registration.Exchange, forks: nat -> nat -> int,
                          waits: nat -> seq<int>, masterStat: nat -> Schedule.MasterStat, selfPid: int, killedBefore: seq<int>)
      returns (acts: seq<Schedule.Action>, killed: seq<int>, terminated: bool)
      requires i < n && ctrl != null
      modifies this`hasRegistered, this`agents, this`localIp, this`raspId, ctrl
      ensures ctrl == old(ctrl)
      ensures Snapshot(killed, terminated)
        == Schedule.Tick(old(Snapshot(killedBefore, false)), i, n, CycleEnv(x, forks, waits, masterStat, selfPid))
      ensures acts == Schedule.TickActions(old(hasRegistered), i, n, CycleEnv(x, forks, waits, masterStat, selfPid))
      ensures (localIp, raspId) == AfterAttempt(x, i == 0 && !old(hasRegistered), old(localIp), old(raspId))
    {
      var env := CycleEnv(x, forks, waits, masterStat, selfPid);
      var registering := RegisterStep(i, n, x, env, killedBefore);
      var surviving := SurvivalStep(i, env, killedBefore);
      SleepStep(i, env, waits(i), killedBefore);
      var stopping;
      stopping, killed, terminated := MasterStep(i, env, killedBefore);
      acts := registering + surviving + stopping;
    }

    /** The ticks of one cycle of `supervisor_run`'s outer loop, run until the cycle is
        over or a teardown killed the supervisor itself (`selfPid`). */
    method CycleTicks(x: Registration.Exchange, forks: nat -> nat -> int, waits: nat -> seq<int>,
                      masterStat: nat -> Schedule.MasterStat, selfPid: int)
      returns (actions: seq<Schedule.Action>, killed: seq<int>, ticks: nat, terminated: bool)
      requires ctrl != null
      modifies this`hasRegistered, this`agents, this`localIp, this`raspId, ctrl
      ensures ctrl == old(ctrl) && ticks <= CycleLength()
      ensures Snapshot(killed, terminated)
        == Schedule.Run(old(Snapshot([], false)), ticks, CycleLength(), CycleEnv(x, forks, waits, masterStat, selfPid))
      ensures ticks < CycleLength() ==> terminated
      ensures actions == Schedule.Plan(old(hasRegistered), ticks, CycleLength(), CycleEnv(x, forks, waits, masterStat, selfPid))
      ensures (localIp, raspId) == AfterAttempt(x, ticks > 0 && !old(hasRegistered), old(localIp), old(raspId))
    {
      var n := CycleLength();
      ghost var env := CycleEnv(x, forks, waits, masterStat, selfPid);
      ghost var s := Snapshot([], false);
      actions, killed, ticks, terminated := [], [], 0, false;
      while ticks < n && !terminated
        invariant ticks <= n && ctrl == old(ctrl)
        invariant Schedule.Run(s, ticks, n, env) == Snapshot(killed, terminated)
        invariant actions == Schedule.Plan(old(hasRegistered), ticks, n, env)
        invariant (localIp, raspId) == AfterAttempt(x, ticks > 0 && !old(hasRegistered), old(localIp), old(raspId))
      {
        var acts, k, dead := SupervisorTick(ticks, n, x, forks, waits, masterStat, selfPid, killed);
        ghost var post := Snapshot(k, dead);
        var next := ticks + 1;
        Schedule.RunStep(s, ticks, next, n, env, post, acts);
        actions, killed, terminated, ticks := actions + acts, k, dead, next;
      }
    }

    /** One cycle of `supervisor_run`'s outer loop: `task_interval` ticks, stopping early
        when a teardown killed the supervisor itself (`selfPid`). The state at the end is
        `Schedule.Run` over the whole cycle, the actions taken are `Schedule.Plan`, and the
        consistency of the agent list with the control block is kept. */
    method SupervisorCycle(x: Registration.Exchange, forks: nat -> nat -> int, waits: nat -> seq<int>,
                           masterStat: nat -> Schedule.MasterStat, selfPid: int)
      returns (actions: seq<Schedule.Action>, killed: seq<int>, ticks: nat)
      requires ctrl != null
      modifies this`hasRegistered, this`agents, this`localIp, this`raspId, ctrl
      ensures ctrl == old(ctrl) && ticks <= CycleLength()
      ensures
        var r := Schedule.Run(old(Snapshot([], false)), CycleLength(), CycleLength(),
                              CycleEnv(x, forks, waits, masterStat, selfPid));
        && Snapshot(killed, r.terminated) == r
        && (ticks < CycleLength() ==> r.terminated)
      ensures actions == Schedule.Plan(old(hasRegistered), ticks, CycleLength(), CycleEnv(x, forks, waits, masterStat, selfPid))
      ensures (localIp, raspId) == AfterAttempt(x, ticks > 0 && !old(hasRegistered), old(localIp), old(raspId))
      ensures old(Consistent()) ==> Consistent()
    {
      ghost var s := Snapshot([], false);
      ghost var env := CycleEnv(x, forks, waits, masterStat, selfPid);
      var terminated;
      actions, killed, ticks, terminated := CycleTicks(x, forks, waits, masterStat, selfPid);
      if ticks < CycleLength() {
        Schedule.RunStopsWhenTerminated(s, ticks, CycleLength(), CycleLength(), env);
      }
      if old(Consistent()) {
        Schedule.RunKeepsPidsRecorded(s, ticks, CycleLength(), env);
      }
    }
  }
}
