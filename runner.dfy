/**
 * `AgentRunner`: the bookkeeping for the agents living in tmux panes. The map
 * from agent name to `AgentInfo`, the pane counter and the session name are
 * fields; what tmux and the process probe answer is passed in, and every
 * command the runner sends to tmux is appended to the field `sent`, so the
 * contracts can say what was sent and where.
 */
module Runner {
  import opened Kernel
  import opened Text
  import opened Adapters

  /** `CliType`; a stage definition carries no provider, so the type may be missing. */
  datatype CliType = ClaudeCodeCli | CodexCli

  /** `ProcessHealth`: `"alive" | "dead" | "unknown"`. */
  datatype ProcessHealth = Alive | Dead | Unknown

  /**
   * `AgentInfo`. A missing model is the empty string (the adapters treat both
   * alike); `autoApprove` stands for the start options.
   */
  datatype AgentInfo = AgentInfo(
    name: string,
    role: string,
    pane: string,
    cliType: Option<CliType>,
    adapter: CliAdapter,
    model: string,
    autoApprove: bool,
    shellPid: Option<int>,
    agentPid: Option<int>,
    spawnedAt: Option<string>,
    respawnCount: nat)

  /** What the runner asks tmux to do. */
  datatype TmuxCall =
    | NewSession(session: string)
    | KillSession(session: string)
    | SendText(pane: string, text: string)
    | SendKeys(pane: string, keys: string)
    | SendPromptFile(pane: string, agent: string)

  /** One entry of the persisted registry. */
  datatype AgentRecord = AgentRecord(
    name: string,
    role: string,
    pane: string,
    cliType: Option<CliType>,
    model: string,
    shellPid: int,
    agentPid: Option<int>,
    spawnedAt: string,
    respawnCount: nat)

  /** The registry file's contents. */
  datatype RegistryData = RegistryData(sessionName: string, agents: seq<AgentRecord>, updatedAt: string)

  /** `spawn` picks the Claude Code adapter for `"claude-code"` and Codex for anything else. */
  function AdapterFor(t: Option<CliType>): (a: CliAdapter)
    ensures a == ClaudeCode <==> t == Some(ClaudeCodeCli)
    ensures a == Codex <==> t != Some(ClaudeCodeCli)
  {
    if t == Some(ClaudeCodeCli) then ClaudeCode else Codex
  }

  /** `validateAgentName`: a bad name is reported with the code `AGENT_NOT_FOUND`. */
  function ValidateAgentName(name: string): (r: Result<Unit, CrewError>)
    ensures r.Ok? <==> IsValidName(name)
    ensures r.Err? ==> r.error == AgentNotFound
  {
    if IsValidName(name) then Ok(Unit) else Err(AgentNotFound)
  }

  // ---- sanitizeMessage ----

  /** The class `[\x00-\x08\x0b\x0c\x0e-\x1f\x7f]`: control characters other than tab, newline and carriage return. */
  predicate IsStrippedControl(c: char) {
    c <= '\U{0008}' || c == '\U{000B}' || c == '\U{000C}' || ('\U{000E}' <= c <= '\U{001F}') || c == '\U{007F}'
  }

  predicate NoStrippedControl(s: string) {
    forall k :: 0 <= k < |s| ==> !IsStrippedControl(s[k])
  }

  /** `sanitizeMessage`: delete every character of the class, keep the rest in order. */
  function SanitizeMessage(m: string): (r: string)
    ensures |r| <= |m|
    ensures NoStrippedControl(r)
  {
    if m == [] then []
    else if IsStrippedControl(m[0]) then SanitizeMessage(m[1..])
    else [m[0]] + SanitizeMessage(m[1..])
  }

  /** `a` is obtained from `b` by deleting characters. */
  predicate IsSubsequence(a: string, b: string)
    decreases |b|
  {
    if a == [] then true
    else if b == [] then false
    else (a[0] == b[0] && IsSubsequence(a[1..], b[1..])) || IsSubsequence(a, b[1..])
  }

  lemma {:induction false} SanitizeIsSubsequence(m: string)
    ensures IsSubsequence(SanitizeMessage(m), m)
  {
    if m != [] {
      SanitizeIsSubsequence(m[1..]);
      if !IsStrippedControl(m[0]) {
        assert ([m[0]] + SanitizeMessage(m[1..]))[1..] == SanitizeMessage(m[1..]);
      }
    }
  }

  /** A message without stripped characters goes through unchanged. */
  lemma {:induction false} SanitizeClean(m: string)
    requires NoStrippedControl(m)
    ensures SanitizeMessage(m) == m
  {
    if m != [] {
      assert NoStrippedControl(m[1..]) by {
        forall k | 0 <= k < |m| - 1 ensures !IsStrippedControl(m[1..][k]) {
          assert m[1..][k] == m[k + 1];
        }
      }
      SanitizeClean(m[1..]);
      assert !IsStrippedControl(m[0]);
      assert m == [m[0]] + m[1..];
    }
  }

  lemma SanitizeIdempotent(m: string)
    ensures SanitizeMessage(SanitizeMessage(m)) == SanitizeMessage(m)
  {
    SanitizeClean(SanitizeMessage(m));
  }

  /** Every character outside the class survives as often as it occurs. */
  lemma {:induction false} SanitizeKeepsOthers(m: string, c: char)
    requires !IsStrippedControl(c)
    ensures multiset(SanitizeMessage(m))[c] == multiset(m)[c]
  {
    if m != [] {
      SanitizeKeepsOthers(m[1..], c);
      assert m == [m[0]] + m[1..];
      assert multiset(m) == multiset([m[0]]) + multiset(m[1..]);
      if !IsStrippedControl(m[0]) {
        assert multiset([m[0]] + SanitizeMessage(m[1..])) == multiset([m[0]]) + multiset(SanitizeMessage(m[1..]));
      }
    }
  }

  /** Sanitizing works character by character, so it distributes over concatenation. */
  lemma {:induction false} SanitizeConcat(a: string, b: string)
    ensures SanitizeMessage(a + b) == SanitizeMessage(a) + SanitizeMessage(b)
  {
    if a != [] {
      assert (a + b)[0] == a[0];
      assert (a + b)[1..] == a[1..] + b;
      SanitizeConcat(a[1..], b);
      if !IsStrippedControl(a[0]) {
        assert [a[0]] + (SanitizeMessage(a[1..]) + SanitizeMessage(b))
            == ([a[0]] + SanitizeMessage(a[1..])) + SanitizeMessage(b);
      }
    } else {
      assert a + b == b;
    }
  }

  // ---- panes ----

  /** The pane target `"<session>:0.<index>"`. */
  function PaneName(session: string, index: nat): string {
    session + ":0." + NatToString(index)
  }

  /** `p` ends in a dot followed by the characters of `d`. */
  predicate EndsInSlot(p: string, d: string)
    decreases |d|
  {
    |p| > |d|
    && if d == [] then p[|p| - 1] == '.'
       else p[|p| - 1] == d[|d| - 1] && EndsInSlot(p[..|p| - 1], d[..|d| - 1])
  }

  /** The pane name ends in `"." + String(k)`. */
  predicate PaneHasSlot(p: string, k: nat) {
    EndsInSlot(p, NatToString(k))
  }

  lemma {:induction false} EndsInSlotOf(x: string, d: string)
    ensures EndsInSlot(x + ['.'] + d, d)
  {
    var p := x + ['.'] + d;
    if d != [] {
      assert p[..|p| - 1] == x + ['.'] + d[..|d| - 1];
      EndsInSlotOf(x, d[..|d| - 1]);
    }
  }

  lemma PaneNameHasSlot(session: string, index: nat)
    ensures PaneHasSlot(PaneName(session, index), index)
  {
    assert PaneName(session, index) == (session + ":0") + ['.'] + NatToString(index);
    EndsInSlotOf(session + ":0", NatToString(index));
  }

  /** A dot is not a digit, so the digits after the last dot are determined. */
  lemma {:induction false} SlotDigitsUnique(p: string, d1: string, d2: string)
    requires forall k :: 0 <= k < |d1| ==> IsDigit(d1[k])
    requires forall k :: 0 <= k < |d2| ==> IsDigit(d2[k])
    requires EndsInSlot(p, d1) && EndsInSlot(p, d2)
    ensures d1 == d2
  {
    if d1 != [] && d2 != [] {
      SlotDigitsUnique(p[..|p| - 1], d1[..|d1| - 1], d2[..|d2| - 1]);
      assert d1 == d1[..|d1| - 1] + [d1[|d1| - 1]];
      assert d2 == d2[..|d2| - 1] + [d2[|d2| - 1]];
    }
  }

  /** The digits after the last dot determine the slot. */
  lemma SlotUnique(p: string, i: nat, j: nat)
    requires PaneHasSlot(p, i) && PaneHasSlot(p, j)
    ensures i == j
  {
    SlotDigitsUnique(p, NatToString(i), NatToString(j));
    DecimalValueOfNatToString(i);
    DecimalValueOfNatToString(j);
  }

  /**
   * The pane book: every agent sits in its own slot below the pane counter,
   * its pane name ends in that slot, and it is filed under its own name.
   */
  predicate PaneBook(agents: map<string, AgentInfo>, slots: map<string, nat>, next: nat) {
    && agents.Keys == slots.Keys
    && (forall n :: n in agents ==> agents[n].name == n)
    && (forall n :: n in slots ==> slots[n] < next)
    && (forall n :: n in agents ==> PaneHasSlot(agents[n].pane, slots[n]))
    && (forall n, m :: n in slots && m in slots && n != m ==> slots[n] != slots[m])
  }

  /** Two agents never share a pane. */
  lemma PanesDistinct(agents: map<string, AgentInfo>, slots: map<string, nat>, next: nat)
    requires PaneBook(agents, slots, next)
    ensures forall n, m :: n in agents && m in agents && n != m ==> agents[n].pane != agents[m].pane
  {
    forall n, m | n in agents && m in agents && n != m
      ensures agents[n].pane != agents[m].pane
    {
      if agents[n].pane == agents[m].pane {
        SlotUnique(agents[n].pane, slots[n], slots[m]);
      }
    }
  }

  /** Filing a new agent in the next slot keeps the book. */
  lemma PaneBookAdd(agents: map<string, AgentInfo>, slots: map<string, nat>, next: nat, info: AgentInfo)
    requires PaneBook(agents, slots, next)
    requires info.name !in agents && PaneHasSlot(info.pane, next)
    ensures PaneBook(agents[info.name := info], slots[info.name := next], next + 1)
  {
  }

  /** Forgetting an agent keeps the book. */
  lemma PaneBookRemove(agents: map<string, AgentInfo>, slots: map<string, nat>, next: nat, name: string)
    requires PaneBook(agents, slots, next)
    ensures PaneBook(agents - {name}, slots - {name}, next)
  {
  }

  /** Editing an agent's record without moving it keeps the book. */
  lemma PaneBookEdit(agents: map<string, AgentInfo>, slots: map<string, nat>, next: nat, info: AgentInfo)
    requires PaneBook(agents, slots, next)
    requires info.name in agents && info.pane == agents[info.name].pane
    ensures PaneBook(agents[info.name := info], slots, next)
  {
  }

  // ---- health and pid bookkeeping ----

  /** A pid field as JavaScript tests it: missing and 0 are both false. */
  predicate Truthy(pid: Option<int>) {
    pid.Some? && pid.value != 0
  }

  /**
   * `checkHealth`'s decision for a known agent. `children` is what the probe
   * reports for the shell's child processes; it is consulted only when the
   * recorded agent process is dead.
   */
  function Health(info: AgentInfo, isAlive: int -> bool, children: Result<seq<int>, CrewError>): (h: ProcessHealth)
    ensures h == Unknown <==> !Truthy(info.shellPid)
    ensures h == Dead <==>
      Truthy(info.shellPid)
      && (!isAlive(info.shellPid.value)
          || (Truthy(info.agentPid) && !isAlive(info.agentPid.value) && children == Ok([])))
  {
    if !Truthy(info.shellPid) then Unknown
    else if !isAlive(info.shellPid.value) then Dead
    else if Truthy(info.agentPid) && !isAlive(info.agentPid.value) && children.Ok? && |children.value| == 0 then Dead
    else Alive
  }

  /** `recordPid`'s edit: the pane pid becomes the shell pid, the first child (if any) the agent pid. */
  function RecordedInfo(info: AgentInfo, panePid: int, children: Result<seq<int>, CrewError>): (r: AgentInfo)
    ensures r.shellPid == Some(panePid)
    ensures children.Ok? && |children.value| > 0 ==> r.agentPid == Some(children.value[0])
    ensures !(children.Ok? && |children.value| > 0) ==> r.agentPid == info.agentPid
    ensures r == info.(shellPid := r.shellPid, agentPid := r.agentPid)
  {
    info.(shellPid := Some(panePid),
          agentPid := if children.Ok? && |children.value| > 0 then Some(children.value[0]) else info.agentPid)
  }

  /** `respawn`'s edit after a successful relaunch. */
  function RespawnedInfo(info: AgentInfo, now: string): (r: AgentInfo)
    ensures r.respawnCount == info.respawnCount + 1
    ensures r.agentPid.None? && r.spawnedAt == Some(now)
    ensures r == info.(respawnCount := r.respawnCount, agentPid := None, spawnedAt := Some(now))
  {
    info.(respawnCount := info.respawnCount + 1, agentPid := None, spawnedAt := Some(now))
  }

  /** Once a non-zero pane pid is recorded, the health of the agent is known. */
  lemma RecordedHealthKnown(info: AgentInfo, panePid: int, children: Result<seq<int>, CrewError>,
                            isAlive: int -> bool, later: Result<seq<int>, CrewError>)
    requires panePid != 0
    ensures Health(RecordedInfo(info, panePid, children), isAlive, later) != Unknown
  {
  }

  /** Right after a respawn the agent pid is forgotten, so only the shell decides. */
  lemma RespawnedHealth(info: AgentInfo, now: string, isAlive: int -> bool, children: Result<seq<int>, CrewError>)
    requires Truthy(info.shellPid)
    ensures Health(RespawnedInfo(info, now), isAlive, children) == if isAlive(info.shellPid.value) then Alive else Dead
  {
  }

  /** A recorded agent pid whose process is gone, in a live shell with no children left, is dead. */
  lemma VanishedAgentIsDead(info: AgentInfo, panePid: int, child: int, isAlive: int -> bool)
    requires panePid != 0 && child != 0 && isAlive(panePid) && !isAlive(child)
    ensures Health(RecordedInfo(info, panePid, Ok([child])), isAlive, Ok([])) == Dead
    ensures Health(RecordedInfo(info, panePid, Ok([child])), isAlive, Ok([child])) == Alive
  {
  }

  /** `persistRegistry`'s record for one agent: a missing shell pid is 0, a missing spawn time is now. */
  function RecordOf(info: AgentInfo, now: string): (r: AgentRecord)
    ensures r.name == info.name && r.pane == info.pane && r.respawnCount == info.respawnCount
    ensures r.shellPid == (if info.shellPid.Some? then info.shellPid.value else 0)
    ensures r.spawnedAt == (if info.spawnedAt.Some? then info.spawnedAt.value else now)
    ensures r.agentPid == info.agentPid && r.role == info.role && r.cliType == info.cliType && r.model == info.model
  {
    AgentRecord(info.name, info.role, info.pane, info.cliType, info.model,
                if info.shellPid.Some? then info.shellPid.value else 0,
                info.agentPid,
                if info.spawnedAt.Some? then info.spawnedAt.value else now,
                info.respawnCount)
  }

  /** The status `getAllStatuses` reports for one pane capture. */
  function CapturedStatus(capture: Result<string, CrewError>): (s: AgentStatus)
    ensures s != Stopped
    ensures capture.Err? ==> s == Error
    ensures capture.Ok? ==> s == DetectAgentStatus(capture.value)
  {
    if capture.Ok? then DetectAgentStatus(capture.value) else Error
  }

  /** Poll `m` of `waitForReady` sees `idle` after an earlier poll saw `active`. */
  predicate IsReadyAt(obs: seq<Result<AgentStatus, CrewError>>, m: int) {
    0 <= m < |obs| && obs[m] == Ok(Idle) && exists k :: 0 <= k < m && obs[k] == Ok(Active)
  }

  /** The `C-c` that `stop` sends to each agent of `order`, in that order. */
  function Interrupts(order: seq<string>, agents: map<string, AgentInfo>): (r: seq<TmuxCall>)
    requires forall k :: 0 <= k < |order| ==> order[k] in agents
    ensures |r| == |order|
  {
    if order == [] then []
    else Interrupts(order[..|order| - 1], agents) + [SendKeys(agents[order[|order| - 1]].pane, "C-c")]
  }

  lemma InterruptsSnoc(order: seq<string>, name: string, agents: map<string, AgentInfo>)
    requires forall k :: 0 <= k < |order| ==> order[k] in agents
    requires name in agents
    ensures Interrupts(order + [name], agents) == Interrupts(order, agents) + [SendKeys(agents[name].pane, "C-c")]
  {
    assert (order + [name])[..|order|] == order;
  }

  /**
   * Part way through `stopAll`: the agents still filed are untouched, the ones
   * in `order` were stopped, each once, and their interrupts were sent.
   */
  predicate StopProgress(start: map<string, AgentInfo>, agents: map<string, AgentInfo>, order: seq<string>,
                         base: seq<TmuxCall>, sent: seq<TmuxCall>) {
    && agents.Keys <= start.Keys
    && (forall n :: n in agents ==> agents[n] == start[n])
    && (forall k :: 0 <= k < |order| ==> order[k] in start && order[k] !in agents)
    && (forall n :: n in start && n !in agents ==> n in order)
    && (forall j, k :: 0 <= j < k < |order| ==> order[j] != order[k])
    && sent == base + Interrupts(order, start)
  }

  lemma StopStep(start: map<string, AgentInfo>, agents: map<string, AgentInfo>, order: seq<string>,
                 base: seq<TmuxCall>, sent: seq<TmuxCall>, name: string)
    requires StopProgress(start, agents, order, base, sent) && name in agents
    ensures StopProgress(start, agents - {name}, order + [name], base, sent + [SendKeys(agents[name].pane, "C-c")])
  {
    InterruptsSnoc(order, name, start);
    CallsAssoc(base, Interrupts(order, start), [SendKeys(start[name].pane, "C-c")]);
  }

  /** Part way through `persistRegistry`: a record for each agent already visited, and only for those. */
  predicate RegistryProgress(agents: map<string, AgentInfo>, todo: set<string>, records: seq<AgentRecord>, now: string) {
    && todo <= agents.Keys
    && (forall k :: 0 <= k < |records| ==>
          records[k].name in agents && records[k].name !in todo && records[k] == RecordOf(agents[records[k].name], now))
    && (forall n :: n in agents && n !in todo ==> n in Names(records))
    && (forall j, k :: 0 <= j < k < |records| ==> records[j].name != records[k].name)
  }

  lemma RegistryStep(agents: map<string, AgentInfo>, todo: set<string>, records: seq<AgentRecord>, now: string, name: string)
    requires RegistryProgress(agents, todo, records, now) && name in todo
    requires forall n :: n in agents ==> agents[n].name == n
    ensures RegistryProgress(agents, todo - {name}, records + [RecordOf(agents[name], now)], now)
  {
    var rec := RecordOf(agents[name], now);
    assert Names(records + [rec]) == Names(records) + [name] by {
      assert (records + [rec])[..|records|] == records;
    }
  }

  lemma CallsAssoc(a: seq<TmuxCall>, b: seq<TmuxCall>, c: seq<TmuxCall>)
    ensures (a + b) + c == a + (b + c)
  {
  }

  /** The names of the registry records, in order. */
  function Names(recs: seq<AgentRecord>): (r: seq<string>)
    ensures |r| == |recs|
    ensures forall k :: 0 <= k < |recs| ==> r[k] == recs[k].name
  {
    if recs == [] then [] else Names(recs[..|recs| - 1]) + [recs[|recs| - 1].name]
  }

  class AgentRunner {
    /** The working directory every agent is started in. */
    const cwd: string
    var sessionName: string
    var agents: map<string, AgentInfo>
    var paneIndex: nat
    /** The tmux commands issued so far, oldest first. */
    var sent: seq<TmuxCall>
    /** The pane slot each agent was given. */
    ghost var slots: map<string, nat>

    ghost predicate Valid()
      reads this
    {
      PaneBook(agents, slots, paneIndex)
    }

    constructor(cwd: string)
      ensures Valid()
      ensures this.cwd == cwd && sessionName == "" && agents == map[] && paneIndex == 0 && sent == []
    {
      this.cwd := cwd;
      sessionName := "";
      agents := map[];
      paneIndex := 0;
      sent := [];
      slots := map[];
    }

    /** `createSession`: name the session `crew-<project>`, refuse an existing one. */
    method CreateSession(projectName: string, hasSession: bool, created: Result<Unit, CrewError>)
      returns (r: Result<Unit, CrewError>)
      requires Valid()
      modifies this
      ensures Valid()
      ensures sessionName == "crew-" + projectName
      ensures hasSession ==> r == Err(SessionExists) && sent == old(sent)
      ensures !hasSession ==> r == created && sent == old(sent) + [NewSession(sessionName)]
      ensures agents == old(agents) && paneIndex == old(paneIndex)
    {
      sessionName := "crew-" + projectName;
      if hasSession {
        return Err(SessionExists);
      }
      sent := sent + [NewSession(sessionName)];
      r := created;
    }

    /** `destroySession`: with no session, nothing; otherwise stop every agent, kill the session and reset. */
    method DestroySession(killed: Result<Unit, CrewError>) returns (r: Result<Unit, CrewError>, ghost order: seq<string>)
      requires Valid()
      modifies this
      ensures Valid()
      ensures old(sessionName) == "" ==>
        r == Ok(Unit) && sessionName == "" && agents == old(agents) && paneIndex == old(paneIndex) && sent == old(sent)
      ensures old(sessionName) != "" ==>
        && r == killed && sessionName == "" && agents == map[] && paneIndex == 0
        && (forall k :: 0 <= k < |order| ==> order[k] in old(agents))
        && (forall n :: n in old(agents) ==> n in order)
        && sent == old(sent) + Interrupts(order, old(agents)) + [KillSession(old(sessionName))]
    {
      order := [];
      if sessionName == "" {
        return Ok(Unit), order;
      }
      var _, stopped := StopAll();
      order := stopped;
      sent := sent + [KillSession(sessionName)];
      r := killed;
      sessionName := "";
      agents := map[];
      slots := map[];
      paneIndex := 0;
    }

    /**
     * `spawn`: check the name, refuse a duplicate, start the agent's CLI in the
     * next pane; only a successful send files the agent and moves the counter.
     */
    method Spawn(agentName: string, role: string, cliType: Option<CliType>, model: string,
                 autoApprove: bool, now: string, sendResult: Result<Unit, CrewError>)
      returns (r: Result<Unit, CrewError>)
      requires Valid()
      modifies this
      ensures Valid()
      ensures sessionName == old(sessionName)
      ensures !IsValidName(agentName) ==>
        r == Err(AgentNotFound) && agents == old(agents) && paneIndex == old(paneIndex) && sent == old(sent)
      ensures IsValidName(agentName) && agentName in old(agents) ==>
        r == Err(SpawnFailed) && agents == old(agents) && paneIndex == old(paneIndex) && sent == old(sent)
      ensures IsValidName(agentName) && agentName !in old(agents) ==>
        sent == old(sent) + [SendText(PaneName(sessionName, old(paneIndex)),
                                      StartCommand(AdapterFor(cliType), model, cwd, autoApprove))]
      ensures IsValidName(agentName) && agentName !in old(agents) && sendResult.Err? ==>
        r == sendResult && agents == old(agents) && paneIndex == old(paneIndex)
      ensures IsValidName(agentName) && agentName !in old(agents) && sendResult.Ok? ==>
        && r == Ok(Unit)
        && agents == old(agents)[agentName := AgentInfo(agentName, role, PaneName(sessionName, old(paneIndex)), cliType,
                                                       AdapterFor(cliType), model, autoApprove, None, None, Some(now), 0)]
        && paneIndex == old(paneIndex) + 1
    {
      var nameCheck := ValidateAgentName(agentName);
      if nameCheck.Err? {
        return nameCheck;
      }
      if agentName in agents {
        return Err(SpawnFailed);
      }
      var adapter := AdapterFor(cliType);
      var pane := PaneName(sessionName, paneIndex);
      var command := StartCommand(adapter, model, cwd, autoApprove);
      sent := sent + [SendText(pane, command)];
      if sendResult.Err? {
        return sendResult;
      }
      PaneNameHasSlot(sessionName, paneIndex);
      FileAgent(AgentInfo(agentName, role, pane, cliType, adapter, model, autoApprove, None, None, Some(now), 0));
      r := Ok(Unit);
    }

    /** The bookkeeping half of `spawn`: file the agent under the current pane slot and move the counter on. */
    method FileAgent(info: AgentInfo)
      requires Valid()
      requires info.name !in agents && PaneHasSlot(info.pane, paneIndex)
      modifies this
      ensures Valid()
      ensures agents == old(agents)[info.name := info] && paneIndex == old(paneIndex) + 1
      ensures sessionName == old(sessionName) && sent == old(sent)
    {
      PaneBookAdd(agents, slots, paneIndex, info);
      agents := agents[info.name := info];
      slots := slots[info.name := paneIndex];
      paneIndex := paneIndex + 1;
    }

    /** Replace a filed agent's record by one in the same pane. */
    method EditAgent(info: AgentInfo)
      requires Valid()
      requires info.name in agents && info.pane == agents[info.name].pane
      modifies this
      ensures Valid()
      ensures agents == old(agents)[info.name := info]
      ensures paneIndex == old(paneIndex) && sessionName == old(sessionName) && sent == old(sent)
    {
      PaneBookEdit(agents, slots, paneIndex, info);
      agents := agents[info.name := info];
    }

    /** `stop`: interrupt the agent's pane and forget it. */
    method Stop(agentName: string) returns (r: Result<Unit, CrewError>)
      requires Valid()
      modifies this
      ensures Valid()
      ensures sessionName == old(sessionName) && paneIndex == old(paneIndex)
      ensures agentName !in old(agents) ==> r == Err(AgentNotFound) && agents == old(agents) && sent == old(sent)
      ensures agentName in old(agents) ==>
        && r == Ok(Unit)
        && agents == old(agents) - {agentName}
        && sent == old(sent) + [SendKeys(old(agents)[agentName].pane, "C-c")]
    {
      if agentName !in agents {
        return Err(AgentNotFound);
      }
      sent := sent + [SendKeys(agents[agentName].pane, "C-c")];
      PaneBookRemove(agents, slots, paneIndex, agentName);
      agents := agents - {agentName};
      slots := slots - {agentName};
      r := Ok(Unit);
    }

    /** `stopAll`: stop every agent; `order` is the order the map yields them in. */
    method StopAll() returns (r: Result<Unit, CrewError>, ghost order: seq<string>)
      requires Valid()
      modifies this
      ensures Valid()
      ensures r == Ok(Unit) && agents == map[]
      ensures sessionName == old(sessionName) && paneIndex == old(paneIndex)
      ensures forall k :: 0 <= k < |order| ==> order[k] in old(agents)
      ensures forall n :: n in old(agents) ==> n in order
      ensures forall j, k :: 0 <= j < k < |order| ==> order[j] != order[k]
      ensures sent == old(sent) + Interrupts(order, old(agents))
    {
      ghost var start := agents;
      order := [];
      while agents != map[]
        invariant Valid()
        invariant sessionName == old(sessionName) && paneIndex == old(paneIndex)
        invariant StopProgress(start, agents, order, old(sent), sent)
        decreases agents.Keys
      {
        var name :| name in agents;
        StopStep(start, agents, order, old(sent), sent, name);
        var _ := Stop(name);
        order := order + [name];
      }
      r := Ok(Unit);
    }

    /**
     * `waitForReady` over the statuses its polls observe before the timeout:
     * it returns after the first poll that sees `idle` once `active` has been
     * seen, and succeeds on timeout too.
     */
    method WaitForReady(agentName: string, obs: seq<Result<AgentStatus, CrewError>>)
      returns (r: Result<Unit, CrewError>, polls: nat)
      ensures agentName !in agents ==> r == Err(AgentNotFound) && polls == 0
      ensures agentName in agents ==> r == Ok(Unit)
      ensures agentName in agents ==>
        && polls <= |obs|
        && (forall m :: 0 <= m < polls - 1 ==> !IsReadyAt(obs, m))
        && (polls == |obs| || IsReadyAt(obs, polls - 1))
    {
      if agentName !in agents {
        return Err(AgentNotFound), 0;
      }
      var sawActive := false;
      polls := 0;
      while polls < |obs|
        invariant polls <= |obs|
        invariant sawActive <==> exists k :: 0 <= k < polls && obs[k] == Ok(Active)
        invariant forall m :: 0 <= m < polls ==> !IsReadyAt(obs, m)
      {
        var status := obs[polls];
        if status.Ok? && status.value == Active {
          sawActive := true;
        }
        if sawActive && status == Ok(Idle) {
          assert IsReadyAt(obs, polls);
          return Ok(Unit), polls + 1;
        }
        polls := polls + 1;
      }
      r := Ok(Unit);
    }

    /** `sendInitialPrompt`: the prompt goes through a file named after the agent. */
    method SendInitialPrompt(agentName: string, sendResult: Result<Unit, CrewError>) returns (r: Result<Unit, CrewError>)
      modifies this
      ensures agents == old(agents) && sessionName == old(sessionName) && paneIndex == old(paneIndex)
      ensures agentName !in agents ==> r == Err(AgentNotFound) && sent == old(sent)
      ensures agentName in agents ==>
        r == sendResult && sent == old(sent) + [SendPromptFile(agents[agentName].pane, agentName)]
    {
      if agentName !in agents {
        return Err(AgentNotFound);
      }
      sent := sent + [SendPromptFile(agents[agentName].pane, agentName)];
      r := sendResult;
    }

    /** `sendNudge`: the message is sanitized before it is typed into the pane. */
    method SendNudge(agentName: string, message: string, sendResult: Result<Unit, CrewError>)
      returns (r: Result<Unit, CrewError>)
      modifies this
      ensures agents == old(agents) && sessionName == old(sessionName) && paneIndex == old(paneIndex)
      ensures agentName !in agents ==> r == Err(AgentNotFound) && sent == old(sent)
      ensures agentName in agents ==>
        && r == sendResult
        && sent == old(sent) + [SendText(agents[agentName].pane, SanitizeMessage(message))]
    {
      if agentName !in agents {
        return Err(AgentNotFound);
      }
      sent := sent + [SendText(agents[agentName].pane, SanitizeMessage(message))];
      r := sendResult;
    }

    /** `resetContext`: type the adapter's clear command. */
    method ResetContext(agentName: string, sendResult: Result<Unit, CrewError>) returns (r: Result<Unit, CrewError>)
      modifies this
      ensures agents == old(agents) && sessionName == old(sessionName) && paneIndex == old(paneIndex)
      ensures agentName !in agents ==> r == Err(AgentNotFound) && sent == old(sent)
      ensures agentName in agents ==>
        && r == sendResult
        && sent == old(sent) + [SendText(agents[agentName].pane, agents[agentName].adapter.clearCommand)]
    {
      if agentName !in agents {
        return Err(AgentNotFound);
      }
      sent := sent + [SendText(agents[agentName].pane, agents[agentName].adapter.clearCommand)];
      r := sendResult;
    }

    /** `getStatus` for the given capture of the agent's pane. */
    function GetStatus(agentName: string, capture: Result<string, CrewError>): (r: Result<AgentStatus, CrewError>)
      reads this
      ensures agentName !in agents ==> r == Err(AgentNotFound)
      ensures agentName in agents && capture.Err? ==> r == Err(capture.error)
      ensures agentName in agents && capture.Ok? ==> r == Ok(DetectAgentStatus(capture.value))
      ensures r != Ok(Stopped)
    {
      if agentName !in agents then Err(AgentNotFound)
      else if capture.Err? then Err(capture.error)
      else Ok(DetectStatus(agents[agentName].adapter, capture.value))
    }

    /** `isActive`. */
    function IsActive(agentName: string, capture: Result<string, CrewError>): (r: Result<bool, CrewError>)
      reads this
      ensures r.Ok? <==> agentName in agents && capture.Ok?
      ensures r.Ok? ==> (r.value <==> DetectAgentStatus(capture.value) == Active)
      ensures r.Err? ==> r.error == (if agentName !in agents then AgentNotFound else capture.error)
    {
      var status := GetStatus(agentName, capture);
      if status.Err? then Err(status.error) else Ok(status.value == Active)
    }

    /** `getAllStatuses`: one entry per agent; a failed capture reads as `error`. `capture` answers per pane. */
    method GetAllStatuses(capture: string -> Result<string, CrewError>)
      returns (r: Result<map<string, AgentStatus>, CrewError>)
      ensures r.Ok? && r.value.Keys == agents.Keys
      ensures forall n :: n in r.value ==> r.value[n] == CapturedStatus(capture(agents[n].pane))
      ensures forall n :: n in r.value ==> r.value[n] != Stopped
    {
      var statuses: map<string, AgentStatus> := map[];
      var todo := agents.Keys;
      while todo != {}
        invariant todo <= agents.Keys
        invariant statuses.Keys == agents.Keys - todo
        invariant forall n :: n in statuses ==> statuses[n] == CapturedStatus(capture(agents[n].pane))
        decreases todo
      {
        var name :| name in todo;
        var output := capture(agents[name].pane);
        var status := if output.Ok? then DetectStatus(agents[name].adapter, output.value) else Error;
        statuses := statuses[name := status];
        todo := todo - {name};
      }
      r := Ok(statuses);
    }

    /** `recordPid`: store the pane pid, and the first child process when there is one. */
    method RecordPid(agentName: string, panePid: Result<int, CrewError>, children: Result<seq<int>, CrewError>)
      returns (r: Result<Unit, CrewError>)
      requires Valid()
      modifies this
      ensures Valid()
      ensures sessionName == old(sessionName) && paneIndex == old(paneIndex) && sent == old(sent)
      ensures agentName !in old(agents) ==> r == Err(AgentNotFound) && agents == old(agents)
      ensures agentName in old(agents) && panePid.Err? ==> r == Err(panePid.error) && agents == old(agents)
      ensures agentName in old(agents) && panePid.Ok? ==>
        r == Ok(Unit) && agents == old(agents)[agentName := RecordedInfo(old(agents)[agentName], panePid.value, children)]
    {
      if agentName !in agents {
        return Err(AgentNotFound);
      }
      if panePid.Err? {
        return Err(panePid.error);
      }
      EditAgent(RecordedInfo(agents[agentName], panePid.value, children));
      r := Ok(Unit);
    }

    /** `checkHealth`. */
    function CheckHealth(agentName: string, isAlive: int -> bool, children: Result<seq<int>, CrewError>)
      : (r: Result<ProcessHealth, CrewError>)
      reads this
      ensures r.Err? <==> agentName !in agents
      ensures r.Err? ==> r.error == AgentNotFound
      ensures r.Ok? ==> r.value == Health(agents[agentName], isAlive, children)
    {
      if agentName !in agents then Err(AgentNotFound) else Ok(Health(agents[agentName], isAlive, children))
    }

    /**
     * `respawn`: interrupt the pane and relaunch the CLI with the stored model
     * and options; only a successful send counts the respawn.
     */
    method Respawn(agentName: string, now: string, sendResult: Result<Unit, CrewError>)
      returns (r: Result<Unit, CrewError>)
      requires Valid()
      modifies this
      ensures Valid()
      ensures sessionName == old(sessionName) && paneIndex == old(paneIndex)
      ensures agentName !in old(agents) ==> r == Err(AgentNotFound) && agents == old(agents) && sent == old(sent)
      ensures agentName in old(agents) ==>
        var info := old(agents)[agentName];
        sent == old(sent) + [SendKeys(info.pane, "C-c"),
                             SendText(info.pane, StartCommand(info.adapter, info.model, cwd, info.autoApprove))]
      ensures agentName in old(agents) && sendResult.Err? ==> r == Err(RespawnFailed) && agents == old(agents)
      ensures agentName in old(agents) && sendResult.Ok? ==>
        r == Ok(Unit) && agents == old(agents)[agentName := RespawnedInfo(old(agents)[agentName], now)]
    {
      if agentName !in agents {
        return Err(AgentNotFound);
      }
      var info := agents[agentName];
      var command := StartCommand(info.adapter, info.model, cwd, info.autoApprove);
      sent := sent + [SendKeys(info.pane, "C-c"), SendText(info.pane, command)];
      if sendResult.Err? {
        return Err(RespawnFailed);
      }
      EditAgent(RespawnedInfo(info, now));
      r := Ok(Unit);
    }

    /** `persistRegistry`: one record per agent (in the order the map yields them), then the save's result. */
    method PersistRegistry(now: string, saved: Result<Unit, CrewError>)
      returns (r: Result<Unit, CrewError>, data: RegistryData)
      requires Valid()
      ensures r == saved
      ensures data.sessionName == sessionName && data.updatedAt == now
      ensures forall k :: 0 <= k < |data.agents| ==>
        data.agents[k].name in agents && data.agents[k] == RecordOf(agents[data.agents[k].name], now)
      ensures forall n :: n in agents ==> n in Names(data.agents)
      ensures forall j, k :: 0 <= j < k < |data.agents| ==> data.agents[j].name != data.agents[k].name
    {
      var records: seq<AgentRecord> := [];
      var todo := agents.Keys;
      while todo != {}
        invariant RegistryProgress(agents, todo, records, now)
        decreases todo
      {
        var name :| name in todo;
        RegistryStep(agents, todo, records, now, name);
        records := records + [RecordOf(agents[name], now)];
        todo := todo - {name};
      }
      data := RegistryData(sessionName, records, now);
      r := saved;
    }

    /** `getAgentInfo`. */
    function GetAgentInfo(agentName: string): (r: Option<AgentInfo>)
      reads this
      ensures r.Some? <==> agentName in agents
      ensures r.Some? ==> r.value == agents[agentName]
    {
      if agentName in agents then Some(agents[agentName]) else None
    }

    /** `setSessionName`: adopt an existing session (used when restarting). */
    method SetSessionName(name: string)
      requires Valid()
      modifies this
      ensures Valid()
      ensures sessionName == name && agents == old(agents) && paneIndex == old(paneIndex) && sent == old(sent)
    {
      sessionName := name;
    }
  }
}
