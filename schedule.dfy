/** One outer cycle of the supervisor loop (`OpenraspAgentManager::supervisor_run`) as
    a value: `task_interval` one-second ticks, each doing, in order, the registration
    attempt, the survival check, the sleep (during which the SIGCHLD handler reaps the
    agents that exited) and the master-existence check. The scheduled effects of each
    tick are logged as actions so that the schedule can be stated. */
module Schedule {
  import opened AgentTable

  /** Outcome of `stat("/proc/<master_pid>")` at the end of a tick: the entry exists,
      it is missing (`ENOENT`), or the call failed for another reason. */
  datatype MasterStat = Present | NoEntry | StatFailed

  datatype Action = Attempt(tick: nat, ok: bool) | SurvivalCheck(tick: nat) | Teardown(tick: nat)

  /** What the outside world decides during a cycle: the result of a registration
      attempt, the fork results of each survival check (`forks(tick)(entry)`), the pids
      the SIGCHLD handler reaps while the tick sleeps (`reaped(tick)`), the stat of the master at each tick, the plugin-update flag and the supervisor's
      own pid. */
  datatype Env = Env(
    registerOk: bool,
    forks: nat -> nat -> int,
    reaped: nat -> seq<int>,
    masterStat: nat -> MasterStat,
    pluginUpdateEnable: bool,
    selfPid: int)

  /** The supervisor's state: the registered flag, its agent list, the control block,
      the SIGKILLs sent so far, and whether it has killed itself. */
  datatype SupState = SupState(
    registered: bool,
    agents: seq<Agent>,
    block: Block,
    killed: seq<int>,
    terminated: bool)

  /** Registration is attempted when the tick index is a multiple of the cycle length and
      the supervisor is not registered yet; the attempt's result becomes the flag. Ticks
      run from 0 to the cycle length, so the multiple is always tick 0 (`ModBelow`). */
  function RegisterPhase(s: SupState, i: nat, env: Env): (r: SupState)
    ensures r.registered == (s.registered || (i == 0 && env.registerOk))
    ensures r.agents == s.agents && r.block == s.block && r.killed == s.killed && r.terminated == s.terminated
  {
    if i == 0 && !s.registered then s.(registered := env.registerOk) else s
  }

  /** Every tenth tick, once registered, the survival check respawns the dead agents and
      records their new pids in the control block. */
  function SurvivalPhase(s: SupState, i: nat, env: Env): (r: SupState)
    ensures r.registered == s.registered && r.killed == s.killed && r.terminated == s.terminated
    ensures !(i % 10 == 0 && s.registered) ==> r == s
    ensures |r.agents| == |s.agents|
  {
    if i % 10 == 0 && s.registered then
      s.(agents := Respawned(s.agents, env.forks(i)),
         block := RecordedAfter(s.agents, env.forks(i), s.block, |s.agents|))
    else s
  }

  /** During the one-second sleep, agents that exit are reaped by the SIGCHLD handler:
      each pid `waitpid` returns marks the agents recorded with it as dead. */
  function ReapPhase(s: SupState, i: nat, env: Env): (r: SupState)
    ensures r.registered == s.registered && r.block == s.block && r.killed == s.killed && r.terminated == s.terminated
    ensures |r.agents| == |s.agents|
  {
    s.(agents := ReapAll(s.agents, env.reaped(i)))
  }

  /** After the one-second sleep: a master whose `/proc` entry is gone triggers
      `process_agent_shutdown`; the supervisor dies if its own pid is among the kills. */
  function MasterPhase(s: SupState, i: nat, env: Env): (r: SupState)
    ensures r.registered == s.registered && r.block == s.block
    ensures env.masterStat(i) != NoEntry ==> r == s
    ensures env.masterStat(i) == NoEntry ==> r.agents == [] && |s.killed| <= |r.killed|
  {
    if env.masterStat(i) == NoEntry then
      var k := KillList(s.block, env.pluginUpdateEnable);
      s.(agents := [], killed := s.killed + k, terminated := env.selfPid in k)
    else s
  }

  function Tick(s: SupState, i: nat, n: nat, env: Env): SupState
    requires i < n
  {
    MasterPhase(ReapPhase(SurvivalPhase(RegisterPhase(s, i, env), i, env), i, env), i, env)
  }

  /** The first `k` ticks of a cycle of `n`; nothing happens after the supervisor
      killed itself. */
  function Run(s: SupState, k: nat, n: nat, env: Env): SupState
    requires k <= n
  {
    if k == 0 then s
    else
      var p := Run(s, k - 1, n, env);
      if p.terminated then p else Tick(p, k - 1, n, env)
  }

  /** Inside a cycle of `n` ticks `i < n`, so `i % n == 0` holds exactly at the first tick. */
  lemma ModBelow(i: nat, n: nat)
    requires i < n
    ensures i % n == i
  {
  }

  /** What a tick does to the registered flag and the agent list. */
  lemma {:induction false} TickFacts(p: SupState, i: nat, n: nat, env: Env)
    requires i < n
    ensures Tick(p, i, n, env).registered == (p.registered || (i == 0 && env.registerOk))
    ensures env.masterStat(i) == NoEntry ==> Tick(p, i, n, env).agents == []
    ensures p.agents == [] ==> Tick(p, i, n, env).agents == []
  {
  }

  /** Once the first tick has run, the flag is set exactly when it was already set or
      the one attempt of the cycle succeeded; later ticks never touch it. */
  lemma {:induction false} RunRegistered(s: SupState, k: nat, n: nat, env: Env)
    requires k <= n && !s.terminated
    ensures Run(s, k, n, env).registered == (s.registered || (k > 0 && env.registerOk))
  {
    if k > 0 {
      RunRegistered(s, k - 1, n, env);
      var p := Run(s, k - 1, n, env);
      if !p.terminated {
        TickFacts(p, k - 1, n, env);
      }
    }
  }

  /** One more tick of a supervisor still alive: a state `after` that `Tick` computes
      from the run so far is the run one tick longer, and the tick's actions extend the
      plan by exactly that tick. */
  lemma {:induction false} RunStep(s: SupState, k: nat, next: nat, n: nat, env: Env, after: SupState, acts: seq<Action>)
    requires k < n && next == k + 1 && !s.terminated && !Run(s, k, n, env).terminated
    requires after == Tick(Run(s, k, n, env), k, n, env)
    requires acts == TickActions(Run(s, k, n, env).registered, k, n, env)
    ensures after == Run(s, next, n, env)
    ensures Plan(s.registered, next, n, env) == Plan(s.registered, k, n, env) + acts
  {
    RunRegistered(s, k, n, env);
  }

  /** A supervisor that killed itself stays dead: later ticks change nothing. */
  lemma {:induction false} RunStopsWhenTerminated(s: SupState, j: nat, k: nat, n: nat, env: Env)
    requires j <= k <= n && Run(s, j, n, env).terminated
    ensures Run(s, k, n, env) == Run(s, j, n, env)
  {
    if j < k {
      RunStopsWhenTerminated(s, j, k - 1, n, env);
      assert Run(s, k - 1, n, env).terminated;
    }
  }

  /** The survival check of a registered supervisor on a tenth tick: each agent keeps its
      kind, is alive afterwards exactly when it was or its fork succeeded, a revived agent
      takes the forked pid, and an agent left dead is untouched. */
  lemma {:induction false} SurvivalPhaseRespawns(s: SupState, i: nat, env: Env, k: nat)
    requires i % 10 == 0 && s.registered && k < |s.agents|
    ensures SurvivalPhase(s, i, env).agents[k].kind == s.agents[k].kind
    ensures SurvivalPhase(s, i, env).agents[k].alive <==> s.agents[k].alive || env.forks(i)(k) > 0
    ensures !s.agents[k].alive && env.forks(i)(k) > 0 ==> SurvivalPhase(s, i, env).agents[k].pid == env.forks(i)(k)
    ensures s.agents[k].alive || env.forks(i)(k) <= 0 ==> SurvivalPhase(s, i, env).agents[k] == s.agents[k]
  {
    RespawnedSpec(s.agents, env.forks(i));
  }

  /** What the sleep of a tick does to one agent: it is alive afterwards exactly when it
      was alive and its pid was not reaped; nothing else about it changes. */
  lemma {:induction false} ReapPhaseMarksDead(s: SupState, i: nat, env: Env, k: nat)
    requires k < |s.agents|
    ensures ReapPhase(s, i, env).agents[k]
      == s.agents[k].(alive := s.agents[k].alive && s.agents[k].pid !in env.reaped(i))
  {
    ReapAllSpec(s.agents, env.reaped(i));
  }

  /** A survival tick `u` of a registered supervisor revives an agent it believes dead,
      such as one reaped during an earlier sleep: when the fork succeeds, the new pid is
      not reaped in the same sleep and the master is still there, the agent ends the
      tick alive with the forked pid. */
  lemma {:induction false} ReapedAgentRespawned(p: SupState, u: nat, n: nat, env: Env, k: nat)
    requires u < n && u % 10 == 0 && p.registered && k < |p.agents| && !p.agents[k].alive
    requires env.forks(u)(k) > 0 && env.forks(u)(k) !in env.reaped(u)
    requires env.masterStat(u) != NoEntry
    ensures Tick(p, u, n, env).agents[k].alive
    ensures Tick(p, u, n, env).agents[k].pid == env.forks(u)(k)
  {
    var q := SurvivalPhase(RegisterPhase(p, u, env), u, env);
    SurvivalPhaseRespawns(RegisterPhase(p, u, env), u, env, k);
    ReapPhaseMarksDead(q, u, env, k);
  }

  /** Tick `t` neither runs a survival check nor finds the master gone. */
  predicate Quiet(env: Env, t: nat) {
    env.masterStat(t) != NoEntry && t % 10 != 0
  }

  /** A tick that is no survival tick and finds the master present keeps a dead agent
      dead and the supervisor alive. */
  lemma {:induction false} TickKeepsDead(p: SupState, i: nat, n: nat, env: Env, k: nat)
    requires i < n && i % 10 != 0 && env.masterStat(i) != NoEntry && !p.terminated
    requires k < |p.agents| && !p.agents[k].alive
    ensures !Tick(p, i, n, env).terminated
    ensures k < |Tick(p, i, n, env).agents| && !Tick(p, i, n, env).agents[k].alive
  {
    var r := RegisterPhase(p, i, env);
    ReapPhaseMarksDead(SurvivalPhase(r, i, env), i, env, k);
  }

  /** Between survival checks, with the master present, an agent believed dead stays
      dead and the supervisor stays alive. */
  lemma {:induction false} AgentStaysDead(s: SupState, j: nat, u: nat, n: nat, env: Env, k: nat)
    requires j <= u <= n && !Run(s, j, n, env).terminated
    requires k < |Run(s, j, n, env).agents| && !Run(s, j, n, env).agents[k].alive
    requires forall t :: j <= t < u ==> Quiet(env, t)
    ensures !Run(s, u, n, env).terminated
    ensures k < |Run(s, u, n, env).agents| && !Run(s, u, n, env).agents[k].alive
  {
    if j < u {
      AgentStaysDead(s, j, u - 1, n, env, k);
      assert Quiet(env, u - 1);
      TickKeepsDead(Run(s, u - 1, n, env), u - 1, n, env, k);
    }
  }

  /** An agent that exits during the sleep of tick `t` is found dead after that tick and
      is forked again by the next survival check `u`, the first multiple of ten after
      `t`, provided the master stays present, the supervisor is registered and the fork
      succeeds with a pid the same sleep does not reap. */
  lemma {:induction false} AgentDiesThenRespawned(s: SupState, t: nat, u: nat, n: nat, env: Env, k: nat)
    requires t < u < n && u % 10 == 0 && !s.terminated && !Run(s, t, n, env).terminated
    requires s.registered || env.registerOk
    requires k < |Run(s, t, n, env).agents| && Run(s, t, n, env).agents[k].alive
    requires Run(s, t, n, env).agents[k].pid in env.reaped(t)
    requires env.masterStat(t) != NoEntry && env.masterStat(u) != NoEntry
    requires forall i :: t < i < u ==> Quiet(env, i)
    requires env.forks(u)(k) > 0 && env.forks(u)(k) !in env.reaped(u)
    ensures k < |Run(s, t + 1, n, env).agents| && !Run(s, t + 1, n, env).agents[k].alive
    ensures k < |Run(s, u + 1, n, env).agents| && Run(s, u + 1, n, env).agents[k].alive
    ensures Run(s, u + 1, n, env).agents[k].pid == env.forks(u)(k)
  {
    var p := Run(s, t, n, env);
    var r := RegisterPhase(p, t, env);
    if t % 10 == 0 && r.registered {
      SurvivalPhaseRespawns(r, t, env, k);
    }
    var v := SurvivalPhase(r, t, env);
    ReapPhaseMarksDead(v, t, env, k);
    assert Run(s, t + 1, n, env) == MasterPhase(ReapPhase(v, t, env), t, env) == ReapPhase(v, t, env);
    AgentStaysDead(s, t + 1, u, n, env, k);
    var q := Run(s, u, n, env);
    RunRegistered(s, u, n, env);
    ReapedAgentRespawned(q, u, n, env, k);
    assert Run(s, u + 1, n, env) == Tick(q, u, n, env);
  }

  /** A tick that finds the master gone tears down every agent the supervisor still
      believes alive after the sleep, and the supervisor ends itself when its own pid is
      the one recorded in the control block. Both follow from the cycle's start state
      being consistent. */
  lemma {:induction false} MissingMasterKillsLiveAgents(s: SupState, t: nat, n: nat, env: Env, i: nat)
    requires t < n && !Run(s, t, n, env).terminated && env.masterStat(t) == NoEntry
    requires Configured(s.agents, env.pluginUpdateEnable) && PidsRecorded(s.agents, s.block)
    ensures var q := ReapPhase(SurvivalPhase(RegisterPhase(Run(s, t, n, env), t, env), t, env), t, env);
      i < |q.agents| && q.agents[i].alive ==> q.agents[i].pid in Run(s, t + 1, n, env).killed
    ensures env.selfPid == Run(s, t, n, env).block.supervisorId > 0 ==> Run(s, t + 1, n, env).terminated
  {
    var p := Run(s, t, n, env);
    RunKeepsPidsRecorded(s, t, n, env);
    var r := RegisterPhase(p, t, env);
    RespawnKeepsPidsRecorded(r.agents, env.forks(t), r.block, env.pluginUpdateEnable);
    var v := SurvivalPhase(r, t, env);
    ReapKeepsPidsRecorded(v.agents, env.reaped(t), v.block, env.pluginUpdateEnable);
    var q := ReapPhase(v, t, env);
    assert Run(s, t + 1, n, env) == MasterPhase(q, t, env);
    if i < |q.agents| && q.agents[i].alive {
      TeardownReachesLiveAgents(q.agents, q.block, env.pluginUpdateEnable, i);
    }
  }

  /** After a teardown the agent list stays empty: no agent is spawned afterwards. */
  lemma {:induction false} NoAgentAfterTeardown(s: SupState, t: nat, k: nat, n: nat, env: Env)
    requires t < k <= n && !Run(s, t, n, env).terminated
    requires env.masterStat(t) == NoEntry
    ensures Run(s, k, n, env).agents == []
  {
    if k == t + 1 {
      RunEmptiesAgents(s, t, n, env);
    } else {
      NoAgentAfterTeardown(s, t, k - 1, n, env);
      RunKeepsNoAgent(s, k - 1, n, env);
    }
  }

  /** The tick that finds the master gone empties the agent list. */
  lemma {:induction false} RunEmptiesAgents(s: SupState, t: nat, n: nat, env: Env)
    requires t < n && !Run(s, t, n, env).terminated && env.masterStat(t) == NoEntry
    ensures Run(s, t + 1, n, env).agents == []
  {
    TickFacts(Run(s, t, n, env), t, n, env);
  }

  /** A tick never spawns an agent into an empty list. */
  lemma {:induction false} RunKeepsNoAgent(s: SupState, k: nat, n: nat, env: Env)
    requires k < n && Run(s, k, n, env).agents == []
    ensures Run(s, k + 1, n, env).agents == []
  {
    var p := Run(s, k, n, env);
    if !p.terminated {
      TickFacts(p, k, n, env);
    }
  }

  /** The supervisor's bookkeeping stays consistent with the control block across a
      cycle: every agent believed alive is recorded where the teardown will find it. */
  lemma {:induction false} RunKeepsPidsRecorded(s: SupState, k: nat, n: nat, env: Env)
    requires k <= n
    requires Configured(s.agents, env.pluginUpdateEnable) && PidsRecorded(s.agents, s.block)
    ensures Configured(Run(s, k, n, env).agents, env.pluginUpdateEnable)
    ensures PidsRecorded(Run(s, k, n, env).agents, Run(s, k, n, env).block)
  {
    if k > 0 {
      RunKeepsPidsRecorded(s, k - 1, n, env);
      var p := Run(s, k - 1, n, env);
      if !p.terminated {
        var r := RegisterPhase(p, k - 1, env);
        RespawnKeepsPidsRecorded(r.agents, env.forks(k - 1), r.block, env.pluginUpdateEnable);
        var q := SurvivalPhase(r, k - 1, env);
        ReapKeepsPidsRecorded(q.agents, env.reaped(k - 1), q.block, env.pluginUpdateEnable);
      }
    }
  }

  // ---------------------------------------------------------------------------
  // The schedule of actions

  /** The actions tick `i` takes when the registered flag is `registered` as the tick
      begins, in order. */
  function TickActions(registered: bool, i: nat, n: nat, env: Env): seq<Action>
    requires i < n
  {
    var attempt := i == 0 && !registered;
    var registeredNow := if attempt then env.registerOk else registered;
    (if attempt then [Attempt(i, env.registerOk)] else [])
    + (if i % 10 == 0 && registeredNow then [SurvivalCheck(i)] else [])
    + (if env.masterStat(i) == NoEntry then [Teardown(i)] else [])
  }

  /** The actions of the first `k` ticks of a cycle that began with the flag
      `registered0`, for a supervisor that lives through them. */
  function Plan(registered0: bool, k: nat, n: nat, env: Env): seq<Action>
    requires k <= n
  {
    if k == 0 then []
    else Plan(registered0, k - 1, n, env) + TickActions(registered0 || (k - 1 > 0 && env.registerOk), k - 1, n, env)
  }

  /** An action is allowed in a cycle of `k` ticks that started with the registered
      flag `registered0`. */
  predicate Allowed(a: Action, registered0: bool, k: nat, env: Env) {
    && a.tick < k
    && (a.Attempt? ==> a.tick == 0 && !registered0 && a.ok == env.registerOk)
    && (a.SurvivalCheck? ==> a.tick % 10 == 0 && (registered0 || env.registerOk))
    && (a.Teardown? ==> env.masterStat(a.tick) == NoEntry)
  }

  /** Every action of a cycle respects the schedule: registration is tried only at the
      first tick and only while unregistered; survival checks run only on every tenth
      tick and only once registered; a teardown happens only when the master is gone. */
  lemma {:induction false} PlanRespectsSchedule(registered0: bool, k: nat, n: nat, env: Env)
    requires k <= n
    ensures forall j :: 0 <= j < |Plan(registered0, k, n, env)| ==>
      Allowed(Plan(registered0, k, n, env)[j], registered0, k, env)
  {
    if k > 0 {
      PlanRespectsSchedule(registered0, k - 1, n, env);
      var prev := Plan(registered0, k - 1, n, env);
      var acts := TickActions(registered0 || (k - 1 > 0 && env.registerOk), k - 1, n, env);
      var log := Plan(registered0, k, n, env);
      forall j | 0 <= j < |log| ensures Allowed(log[j], registered0, k, env) {
        if j < |prev| {
          assert log[j] == prev[j];
        } else {
          assert log[j] == acts[j - |prev|];
        }
      }
    }
  }

  /** Later ticks only append to the plan. */
  lemma {:induction false} PlanGrows(registered0: bool, j: nat, k: nat, n: nat, env: Env)
    requires j <= k <= n
    ensures |Plan(registered0, j, n, env)| <= |Plan(registered0, k, n, env)|
    ensures Plan(registered0, k, n, env)[..|Plan(registered0, j, n, env)|] == Plan(registered0, j, n, env)
  {
    if j < k {
      PlanGrows(registered0, j, k - 1, n, env);
    }
  }

  /** The actions of tick `t` are the last ones of the plan up to `t + 1`. */
  lemma {:induction false} TickActionsPlanned(registered0: bool, t: nat, n: nat, env: Env, x: Action)
    requires t < n
    requires x in TickActions(registered0 || (t > 0 && env.registerOk), t, n, env)
    ensures x in Plan(registered0, t + 1, n, env)
  {
    var acts := TickActions(registered0 || (t > 0 && env.registerOk), t, n, env);
    assert Plan(registered0, t + 1, n, env) == Plan(registered0, t, n, env) + acts;
  }

  /** An element of a prefix is an element of the whole sequence. */
  lemma InPrefix<T>(s: seq<T>, m: nat, x: T)
    requires m <= |s| && x in s[..m]
    ensures x in s
  {
    var i :| 0 <= i < m && s[..m][i] == x;
    assert s[i] == x;
  }

  /** An action taken at tick `t` stays in the plan of every later prefix of the cycle. */
  lemma {:induction false} ActionStaysPlanned(registered0: bool, t: nat, k: nat, n: nat, env: Env, x: Action)
    requires t < k <= n
    requires x in TickActions(registered0 || (t > 0 && env.registerOk), t, n, env)
    ensures x in Plan(registered0, k, n, env)
  {
    TickActionsPlanned(registered0, t, n, env, x);
    PlanGrows(registered0, t + 1, k, n, env);
    InPrefix(Plan(registered0, k, n, env), |Plan(registered0, t + 1, n, env)|, x);
  }

  /** A master found gone at tick `t` is acted on at that very tick: the check runs on
      every tick, not once per cycle. */
  lemma {:induction false} MissingMasterTearsDown(registered0: bool, t: nat, k: nat, n: nat, env: Env)
    requires t < k <= n && env.masterStat(t) == NoEntry
    ensures Teardown(t) in Plan(registered0, k, n, env)
  {
    ActionStaysPlanned(registered0, t, k, n, env, Teardown(t));
  }

  /** Registration is attempted at the first tick of a cycle that starts unregistered. */
  lemma {:induction false} UnregisteredCycleAttempts(registered0: bool, k: nat, n: nat, env: Env)
    requires 0 < k <= n && !registered0
    ensures Attempt(0, env.registerOk) in Plan(registered0, k, n, env)
  {
    ActionStaysPlanned(registered0, 0, k, n, env, Attempt(0, env.registerOk));
  }

  /** Once registered, every tenth tick runs a survival check. */
  lemma {:induction false} SurvivalEveryTenthTick(registered0: bool, t: nat, k: nat, n: nat, env: Env)
    requires t < k <= n && t % 10 == 0 && (registered0 || env.registerOk)
    ensures SurvivalCheck(t) in Plan(registered0, k, n, env)
  {
    ActionStaysPlanned(registered0, t, k, n, env, SurvivalCheck(t));
  }
}
