/** The supervisor's agent list and the control block's pid fields, as values.
    These are the functions the imperative methods of `Manager` are proved against:
    the SIGCHLD reaper, the survival check and the kill cascade of
    `process_agent_shutdown`. */
module AgentTable {

  datatype AgentKind = HeartBeat | Log

  /** One entry of the agent list: the pid of the process last forked for it and
      whether the supervisor believes that process is still running. */
  datatype Agent = Agent(kind: AgentKind, pid: int, alive: bool)

  /** The pid fields of the shared control block. */
  datatype Block = Block(masterPid: int, supervisorId: int, logAgentId: int, pluginAgentId: int)

  /** A freshly constructed agent has not been forked yet. */
  function NewAgent(kind: AgentKind): Agent {
    Agent(kind, 0, false)
  }

  /** The list `process_agent_startup` appends: the heartbeat agent only when plugin
      update is enabled, the log agent always, and last. */
  function InitialAgents(pluginUpdateEnable: bool): (r: seq<Agent>)
    ensures |r| == if pluginUpdateEnable then 2 else 1
    ensures r[|r| - 1] == NewAgent(Log)
    ensures pluginUpdateEnable ==> r[0] == NewAgent(HeartBeat)
    ensures forall i :: 0 <= i < |r| ==> !r[i].alive
  {
    (if pluginUpdateEnable then [NewAgent(HeartBeat)] else []) + [NewAgent(Log)]
  }

  /** The control-block field an agent of this kind writes its pid to. */
  function FieldOf(b: Block, kind: AgentKind): int {
    match kind
    case Log => b.logAgentId
    case HeartBeat => b.pluginAgentId
  }

  /** `write_pid_to_shm`: the agent's own field is set, nothing else moves. */
  function RecordPid(b: Block, kind: AgentKind, pid: int): (r: Block)
    ensures FieldOf(r, kind) == pid
    ensures forall k :: k != kind ==> FieldOf(r, k) == FieldOf(b, k)
    ensures r.masterPid == b.masterPid && r.supervisorId == b.supervisorId
  {
    match kind
    case Log => b.(logAgentId := pid)
    case HeartBeat => b.(pluginAgentId := pid)
  }

  // ---------------------------------------------------------------------------
  // SIGCHLD

  /** One reaped pid: every agent recorded with that pid is marked dead. */
  function MarkDead(agents: seq<Agent>, p: int): (r: seq<Agent>)
    ensures |r| == |agents|
    ensures forall i :: 0 <= i < |agents| ==>
      && r[i].kind == agents[i].kind && r[i].pid == agents[i].pid
      && (r[i].alive <==> agents[i].alive && agents[i].pid != p)
  {
    seq(|agents|, i requires 0 <= i < |agents| =>
      if agents[i].pid == p then agents[i].(alive := false) else agents[i])
  }

  /** The pids `waitpid(-1, .., WNOHANG)` hands out before it first returns 0 or -1. */
  function PositivePrefix(waits: seq<int>): (r: seq<int>)
    ensures forall i :: 0 <= i < |r| ==> r[i] > 0
    // It is the run of results before the first one that is not positive.
    ensures |r| <= |waits| && r == waits[..|r|]
    ensures |r| < |waits| ==> waits[|r|] <= 0
  {
    if waits == [] || waits[0] <= 0 then []
    else
      var rest := PositivePrefix(waits[1..]);
      assert [waits[0]] + waits[1..][..|rest|] == waits[..|rest| + 1];
      [waits[0]] + rest
  }

  /** The reaped pids processed in order. */
  function ReapAll(agents: seq<Agent>, reaped: seq<int>): (r: seq<Agent>)
    ensures |r| == |agents|
  {
    if reaped == [] then agents
    else MarkDead(ReapAll(agents, reaped[..|reaped| - 1]), reaped[|reaped| - 1])
  }

  /** Reaping one more pid marks its agents dead on top of what was reaped before. */
  lemma {:induction false} ReapAllSnoc(agents: seq<Agent>, reaped: seq<int>, p: int)
    ensures ReapAll(agents, reaped + [p]) == MarkDead(ReapAll(agents, reaped), p)
  {
    assert (reaped + [p])[..|reaped|] == reaped;
  }

  /** The handler marks dead exactly the agents whose pid was reaped; no pid changes,
      no agent comes back to life, and the list keeps its length and order. */
  lemma {:induction false} ReapAllSpec(agents: seq<Agent>, reaped: seq<int>)
    ensures |ReapAll(agents, reaped)| == |agents|
    ensures forall i :: 0 <= i < |agents| ==>
      ReapAll(agents, reaped)[i] == agents[i].(alive := agents[i].alive && agents[i].pid !in reaped)
  {
    if reaped != [] {
      var front := reaped[..|reaped| - 1];
      ReapAllSpec(agents, front);
      assert reaped == front + [reaped[|reaped| - 1]];
    }
  }

  // ---------------------------------------------------------------------------
  // Survival check

  /** A dead agent whose fork returned a positive pid is alive under that pid; a
      failed fork (or a live agent) leaves the entry as it was. */
  function Respawn(a: Agent, forkResult: int): (r: Agent)
    ensures r.kind == a.kind
    ensures r.alive <==> a.alive || forkResult > 0
    ensures !a.alive && forkResult > 0 ==> r.pid == forkResult
    ensures a.alive || forkResult <= 0 ==> r == a
  {
    if !a.alive && forkResult > 0 then Agent(a.kind, forkResult, true) else a
  }

  /** The agent list after one survival check; `forks(i)` is what `fork()` returned
      in the parent for entry `i` (consulted only when that entry is dead). */
  function Respawned(agents: seq<Agent>, forks: nat -> int): (r: seq<Agent>)
    ensures |r| == |agents|
  {
    seq(|agents|, i requires 0 <= i < |agents| => Respawn(agents[i], forks(i)))
  }

  /** What one survival check does to each entry: kinds and positions are kept, a live
      agent is left alone, an entry is alive afterwards exactly when it was alive or its
      fork succeeded, and an entry still dead keeps its old pid. */
  lemma RespawnedSpec(agents: seq<Agent>, forks: nat -> int)
    ensures |Respawned(agents, forks)| == |agents|
    ensures forall i :: 0 <= i < |agents| ==>
      && Respawned(agents, forks)[i].kind == agents[i].kind
      && (agents[i].alive ==> Respawned(agents, forks)[i] == agents[i])
      && (Respawned(agents, forks)[i].alive <==> agents[i].alive || forks(i) > 0)
      && (!Respawned(agents, forks)[i].alive ==> Respawned(agents, forks)[i] == agents[i])
      && (!agents[i].alive && forks(i) > 0 ==> Respawned(agents, forks)[i].pid == forks(i))
  {
    forall i | 0 <= i < |agents|
      ensures Respawned(agents, forks)[i] == Respawn(agents[i], forks(i))
    {
    }
  }

  /** The control block after the first `n` entries were checked: every respawn writes
      the new pid into the field of the agent's kind, in list order. */
  function RecordedAfter(agents: seq<Agent>, forks: nat -> int, b: Block, n: nat): (r: Block)
    requires n <= |agents|
    // The survival check never touches the master's or the supervisor's field.
    ensures r.masterPid == b.masterPid && r.supervisorId == b.supervisorId
  {
    if n == 0 then b
    else
      var prev := RecordedAfter(agents, forks, b, n - 1);
      if !agents[n - 1].alive && forks(n - 1) > 0 then RecordPid(prev, agents[n - 1].kind, forks(n - 1))
      else prev
  }

  /** The list as `startup` builds it: no kind twice, and a heartbeat agent only when
      plugin update is enabled. */
  predicate Configured(agents: seq<Agent>, pluginUpdateEnable: bool) {
    && (forall i, j :: 0 <= i < j < |agents| ==> agents[i].kind != agents[j].kind)
    && (forall i :: 0 <= i < |agents| && agents[i].kind == HeartBeat ==> pluginUpdateEnable)
  }

  /** Every agent the supervisor believes alive has a positive pid that is also in its
      control-block field, where the teardown looks for it. */
  predicate PidsRecorded(agents: seq<Agent>, b: Block) {
    forall i :: 0 <= i < |agents| && agents[i].alive ==>
      agents[i].pid > 0 && FieldOf(b, agents[i].kind) == agents[i].pid
  }

  lemma InitialAgentsConfigured(pluginUpdateEnable: bool, b: Block)
    ensures Configured(InitialAgents(pluginUpdateEnable), pluginUpdateEnable)
    ensures PidsRecorded(InitialAgents(pluginUpdateEnable), b)
    ensures InitialAgents(pluginUpdateEnable)[|InitialAgents(pluginUpdateEnable)| - 1].kind == Log
  {
  }

  /** With each kind present at most once, the field of each agent's kind ends up
      holding its new pid if it was respawned, and is untouched otherwise; the master
      and supervisor fields never change. */
  lemma {:induction false} RecordedAfterFields(agents: seq<Agent>, forks: nat -> int, b: Block, n: nat)
    requires n <= |agents|
    requires forall i, j :: 0 <= i < j < |agents| ==> agents[i].kind != agents[j].kind
    ensures RecordedAfter(agents, forks, b, n).masterPid == b.masterPid
    ensures RecordedAfter(agents, forks, b, n).supervisorId == b.supervisorId
    ensures forall i :: 0 <= i < |agents| ==>
      FieldOf(RecordedAfter(agents, forks, b, n), agents[i].kind) ==
        if i < n && !agents[i].alive && forks(i) > 0 then forks(i) else FieldOf(b, agents[i].kind)
  {
    if n > 0 {
      RecordedAfterFields(agents, forks, b, n - 1);
    }
  }

  /** The survival check keeps every live agent findable in the control block. */
  lemma {:induction false} RespawnKeepsPidsRecorded(agents: seq<Agent>, forks: nat -> int, b: Block, pluginUpdateEnable: bool)
    requires Configured(agents, pluginUpdateEnable) && PidsRecorded(agents, b)
    ensures Configured(Respawned(agents, forks), pluginUpdateEnable)
    ensures PidsRecorded(Respawned(agents, forks), RecordedAfter(agents, forks, b, |agents|))
  {
    RecordedAfterFields(agents, forks, b, |agents|);
    var r := Respawned(agents, forks);
    var after := RecordedAfter(agents, forks, b, |agents|);
    forall i | 0 <= i < |r|
      ensures r[i].kind == agents[i].kind
      ensures r[i].alive ==> r[i].pid > 0 && FieldOf(after, r[i].kind) == r[i].pid
    {
      assert r[i] == Respawn(agents[i], forks(i));
    }
  }

  /** Reaping only marks agents dead, so it keeps the list configured and recorded. */
  lemma {:induction false} ReapKeepsPidsRecorded(agents: seq<Agent>, reaped: seq<int>, b: Block, pluginUpdateEnable: bool)
    requires Configured(agents, pluginUpdateEnable) && PidsRecorded(agents, b)
    ensures Configured(ReapAll(agents, reaped), pluginUpdateEnable)
    ensures PidsRecorded(ReapAll(agents, reaped), b)
  {
    ReapAllSpec(agents, reaped);
  }

  // ---------------------------------------------------------------------------
  // Teardown

  /** The SIGKILLs of `process_agent_shutdown`, in order: the log agent, the plugin agent
      when plugin update is enabled, then the supervisor; pids of 0 or less are skipped. */
  function KillList(b: Block, pluginUpdateEnable: bool): (r: seq<int>)
    ensures forall i :: 0 <= i < |r| ==> r[i] > 0
    ensures forall p :: p in r <==>
      p > 0 && (p == b.logAgentId || (pluginUpdateEnable && p == b.pluginAgentId) || p == b.supervisorId)
    ensures |r| == (if b.logAgentId > 0 then 1 else 0)
                 + (if pluginUpdateEnable && b.pluginAgentId > 0 then 1 else 0)
                 + (if b.supervisorId > 0 then 1 else 0)
    // The log agent is killed first, then the plugin agent, and the supervisor last.
    ensures b.logAgentId > 0 ==> r[0] == b.logAgentId
    ensures pluginUpdateEnable && b.pluginAgentId > 0 ==> r[if b.logAgentId > 0 then 1 else 0] == b.pluginAgentId
    ensures b.supervisorId > 0 ==> r[|r| - 1] == b.supervisorId
  {
    (if b.logAgentId > 0 then [b.logAgentId] else [])
    + (if pluginUpdateEnable && b.pluginAgentId > 0 then [b.pluginAgentId] else [])
    + (if b.supervisorId > 0 then [b.supervisorId] else [])
  }

  /** What the recorded-pid invariant buys: the kill cascade reaches every agent the
      supervisor believes alive. */
  lemma TeardownReachesLiveAgents(agents: seq<Agent>, b: Block, pluginUpdateEnable: bool, i: nat)
    requires Configured(agents, pluginUpdateEnable) && PidsRecorded(agents, b)
    requires i < |agents| && agents[i].alive
    ensures agents[i].pid in KillList(b, pluginUpdateEnable)
  {
  }
}
