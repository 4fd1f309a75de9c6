/**
 The restricted controller (app/core/controller.py): tasks, single-use approval tokens and
 authorised executions. A token's signature is idealised: it verifies exactly when the token
 was issued. A plan's hash stands for the plan. Tools, workspaces and arguments that fail the
 static checks are flags of the call.
 */
module Controller {
  import opened Base
  import opened AuditChain

  type TaskId = string
  type Tool = string

  datatype State = Created | AwaitingApproval | Approved | Executing | Cancelled

  datatype Step = Step(tool: Tool, arguments: string)

  /** The claims of a token; it is bound to one task, tenant, server, workspace and tool set. */
  datatype Claims = Claims(
    task: TaskId, tenant: string, server: string, workspace: string, tools: set<Tool>, plan: seq<Step>, issuedAt: int,
        expiresAt: int,
    id: string)

  datatype Envelope = Envelope(id: string, tenant: string, server: string, workspace: string, tool: Tool,
                               plan: seq<Step>)

  /** A task with its own rows of the executions and audits tables. */
  datatype Task = Task(
    tenant: string, workspace: string, request: string, state: State, plan: seq<Step>, token: Option<Claims>,
    executions: seq<Envelope>, audit: seq<Record>)

  datatype Store = Store(
    now: int, ttl: int, tasks: map<TaskId, Task>, idempotency: map<(string, string), (string, TaskId)>,
        issued: set<Claims>,
    consumed: set<string>)

  datatype Op =
    | Tick(seconds: nat)
    | CreateTask(id: TaskId, tenant: string, key: string, request: string, workspace: string, allowed: bool)
    | Plan(id: TaskId, tenant: string, steps: seq<Step>, allowed: bool)
    | Approve(id: TaskId, tenant: string, plan: seq<Step>, server: string, tokenId: string)
    | Cancel(id: TaskId, tenant: string)
    | Execute(id: TaskId, tenant: string, server: string, tool: Tool, workspace: string, allowed: bool, token: Claims,
        execution: string)

  function ToolsOf(plan: seq<Step>): set<Tool> {
    set step | step in plan :: step.tool
  }

  predicate Owned(s: Store, id: TaskId, tenant: string) {
    id in s.tasks && s.tasks[id].tenant == tenant
  }

  function Logged(id: TaskId, t: Task, action: Action, details: string, now: int): Task {
    t.(audit := Append(t.audit, id, t.tenant, action, details, now))
  }

  /** Tokens.verify with consume: issued, in time, bound to this very use, and not used before. */
  predicate Accepts(s: Store, token: Claims, id: TaskId, tenant: string, server: string, workspace: string,
                    tool: Tool) {
    && token in s.issued && token.issuedAt - 5 <= s.now < token.expiresAt
    && token.task == id && token.tenant == tenant && token.server == server && token.workspace == workspace
    && tool in token.tools && token.id !in s.consumed
  }

  predicate MayPlan(s: Store, id: TaskId, tenant: string, allowed: bool) {
    Owned(s, id, tenant) && s.tasks[id].state.Created? && allowed
  }

  predicate MayApprove(s: Store, id: TaskId, tenant: string, plan: seq<Step>) {
    Owned(s, id, tenant) && s.tasks[id].state.AwaitingApproval? && s.tasks[id].plan == plan
  }

  predicate MayCancel(s: Store, id: TaskId, tenant: string) {
    Owned(s, id, tenant) && !s.tasks[id].state.Cancelled?
  }

  predicate MayExecute(s: Store, op: Op)
    requires op.Execute?
  {
    && op.allowed && Owned(s, op.id, op.tenant) && (s.tasks[op.id].state.Approved? || s.tasks[op.id].state.Executing?)
    && Accepts(s, op.token, op.id, op.tenant, op.server, op.workspace, op.tool)
  }

  function NewTask(s: Store, id: TaskId, tenant: string, request: string, workspace: string): Task {
    Logged(id, Task(tenant, workspace, request, Created, [], None, [], []), TaskCreated, request, s.now)
  }

  function Planned(s: Store, id: TaskId, steps: seq<Step>): Task
    requires id in s.tasks
  {
    Logged(id, s.tasks[id].(plan := steps, state := AwaitingApproval), PlanReady, "", s.now)
  }

  function TokenFor(s: Store, id: TaskId, server: string, tokenId: string): Claims
    requires id in s.tasks
  {
    var t := s.tasks[id];
    Claims(id, t.tenant, server, t.workspace, ToolsOf(t.plan), t.plan, s.now, s.now + s.ttl, tokenId)
  }

  function ApprovedTask(s: Store, id: TaskId, server: string, tokenId: string): Task
    requires id in s.tasks
  {
    Logged(id, s.tasks[id].(state := Approved, token := Some(TokenFor(s, id, server, tokenId))), TaskApproved, server,
        s.now)
  }

  function CancelledTask(s: Store, id: TaskId): Task
    requires id in s.tasks
  {
    Logged(id, s.tasks[id].(state := Cancelled), TaskCancelled, "", s.now)
  }

  function Executed(s: Store, op: Op): Task
    requires op.Execute? && op.id in s.tasks
  {
    var t := s.tasks[op.id];
    var envelope := Envelope(op.execution, op.tenant, op.server, op.workspace, op.tool, t.plan);
    Logged(op.id, t.(state := Executing, executions := t.executions + [envelope]), ExecutionAuthorized, op.execution,
        s.now)
  }

  function Put(s: Store, id: TaskId, t: Task): Store {
    s.(tasks := s.tasks[id := t])
  }

  /** One call. Task ids, token ids and execution ids are fresh; a call that raises changes nothing. */
  function Apply(s: Store, op: Op): Store {
    match op
    case Tick(seconds) => s.(now := s.now + seconds)
    case CreateTask(id, tenant, key, request, workspace, allowed) =>
      if !allowed || (tenant, key) in s.idempotency || id in s.tasks then s
      else Put(s, id, NewTask(s, id, tenant, request, workspace)).(idempotency :=
          s.idempotency[(tenant, key) := (request, id)])
    case Plan(id, tenant, steps, allowed) => if MayPlan(s, id, tenant, allowed) then Put(s, id, Planned(s, id, steps))
        else s
    case Approve(id, tenant, plan, server, tokenId) =>
      if MayApprove(s, id, tenant, plan) && FreshToken(s, tokenId)
      then Put(s, id, ApprovedTask(s, id, server, tokenId)).(issued := s.issued + {TokenFor(s, id, server, tokenId)})
      else s
    case Cancel(id, tenant) => if MayCancel(s, id, tenant) then Put(s, id, CancelledTask(s, id)) else s
    case Execute(id, _, _, _, _, _, token, _) =>
      if MayExecute(s, op) then Put(s, id, Executed(s, op)).(consumed := s.consumed + {token.id}) else s
  }

  predicate FreshToken(s: Store, tokenId: string) {
    tokenId != "" && tokenId !in s.consumed && forall c | c in s.issued :: c.id != tokenId
  }

  function Run(s: Store, ops: seq<Op>): Store
    decreases |ops|
  {
    if ops == [] then s else Run(Apply(s, ops[0]), ops[1..])
  }

  // ---------------------------------------------------------------- the invariant

  /** The state the last audited action left the task in. */
  function StateAfter(action: Action): State {
    match action
    case TaskCreated => Created
    case PlanReady => AwaitingApproval
    case TaskApproved => Approved
    case TaskCancelled => Cancelled
    case ExecutionAuthorized => Executing
  }

  /** The log is a well-formed chain that accounts for the state and for every execution. */
  predicate AuditInv(id: TaskId, t: Task) {
    && WellFormed(t.audit, id, t.tenant) && t.audit != []
    && t.state == StateAfter(t.audit[|t.audit| - 1].body.action)
    && CountOf(t.audit, ExecutionAuthorized) == |t.executions|
  }

  predicate TokenInv(id: TaskId, t: Task, issued: set<Claims>) {
    && (t.state.Created? || t.state.AwaitingApproval? ==> t.token.None?)
    && (t.token.Some? ==>
          var c := t.token.value;
          c in issued && c.task == id && c.tenant == t.tenant && c.workspace == t.workspace
              && c.tools == ToolsOf(t.plan) && c.plan == t.plan)
  }

  /** At most one execution, by the task's own token, of a planned tool, in its workspace, under its plan. */
  predicate ExecutionInv(t: Task, consumed: set<string>) {
    && |t.executions| <= 1
    && (t.executions != [] ==>
          var e := t.executions[0];
          && t.token.Some? && t.token.value.id in consumed
          && e.tool in ToolsOf(t.plan) && e.workspace == t.workspace && e.plan == t.plan && e.tenant == t.tenant
          && e.server == t.token.value.server)
  }

  predicate TaskInv(s: Store, id: TaskId, t: Task) {
    AuditInv(id, t) && TokenInv(id, t, s.issued) && ExecutionInv(t, s.consumed)
  }

  /** Every issued token belongs to a task, which holds it. */
  predicate IssuedInv(s: Store) {
    forall c | c in s.issued :: c.task in s.tasks && s.tasks[c.task].token == Some(c)
  }

  predicate Inv(s: Store) {
    (forall id | id in s.tasks :: TaskInv(s, id, s.tasks[id])) && IssuedInv(s)
  }

  lemma LoggedKeeps(id: TaskId, t: Task, action: Action, details: string, now: int)
    requires WellFormed(t.audit, id, t.tenant)
    ensures var t' := Logged(id, t, action, details, now);
            && WellFormed(t'.audit, id, t.tenant) && t'.audit != [] && t'.audit[|t'.audit| - 1].body.action == action
            && CountOf(t'.audit, ExecutionAuthorized) == CountOf(t.audit, ExecutionAuthorized)
                 + if action.ExecutionAuthorized? then 1 else 0
  {
    AppendKeeps(t.audit, id, t.tenant, action, details, now);
    CountAppend(t.audit, id, t.tenant, action, details, now, ExecutionAuthorized);
  }

  /** Tokens are only ever added, and marked as used: that never disturbs another task. */
  lemma OthersUndisturbed(s: Store, s': Store, id: TaskId, t: Task)
    requires TaskInv(s, id, t) && s.issued <= s'.issued && s.consumed <= s'.consumed
    ensures TaskInv(s', id, t)
  {
  }

  lemma PutKeeps(s: Store, s': Store, id: TaskId, t: Task)
    requires Inv(s) && s'.tasks == s.tasks[id := t] && s.issued <= s'.issued && s.consumed <= s'.consumed
    requires TaskInv(s', id, t)
    requires forall c | c in s'.issued :: (c in s.issued || c.task == id) && (c.task == id ==> t.token == Some(c))
    ensures Inv(s')
  {
    hide TaskInv;
    forall o | o in s'.tasks ensures TaskInv(s', o, s'.tasks[o]) {
      if o != id {
        OthersUndisturbed(s, s', o, s.tasks[o]);
      }
    }
  }

  lemma CreateKeeps(s: Store, op: Op)
    requires Inv(s) && op.CreateTask?
    ensures Inv(Apply(s, op))
  {
    var s' := Apply(s, op);
    if s' != s {
      LoggedKeeps(op.id, Task(op.tenant, op.workspace, op.request, Created, [], None, [], []), TaskCreated, op.request,
          s.now);
      hide Logged, WellFormed;
      PutKeeps(s, s', op.id, NewTask(s, op.id, op.tenant, op.request, op.workspace));
    }
  }

  lemma PlanKeeps(s: Store, op: Op)
    requires Inv(s) && op.Plan? && MayPlan(s, op.id, op.tenant, op.allowed)
    ensures Inv(Apply(s, op))
  {
    var t := s.tasks[op.id];
    assert TaskInv(s, op.id, t);
    LoggedKeeps(op.id, t.(plan := op.steps, state := AwaitingApproval), PlanReady, "", s.now);
    hide WellFormed, CountOf, Append;
    PutKeeps(s, Apply(s, op), op.id, Planned(s, op.id, op.steps));
  }

  lemma ApprovedIsValid(s: Store, op: Op)
    requires op.Approve? && MayApprove(s, op.id, op.tenant, op.plan) && TaskInv(s, op.id, s.tasks[op.id])
    ensures var t' := ApprovedTask(s, op.id, op.server, op.tokenId);
            && AuditInv(op.id, t') && ExecutionInv(t', s.consumed)
            && TokenInv(op.id, t', s.issued + {TokenFor(s, op.id, op.server, op.tokenId)})
  {
    var t := s.tasks[op.id];
    var claims := TokenFor(s, op.id, op.server, op.tokenId);
    var approved := t.(state := Approved, token := Some(claims));
    LoggedKeeps(op.id, approved, TaskApproved, op.server, s.now);
    OnlyTheLogGrows(op.id, approved, TaskApproved, op.server, s.now);
    assert t.token.None? && t.executions == [];
    hide WellFormed, CountOf, Logged, ToolsOf;
  }

  lemma OnlyTheLogGrows(id: TaskId, t: Task, action: Action, details: string, now: int)
    ensures Logged(id, t, action, details, now) == t.(audit := Logged(id, t, action, details, now).audit)
  {
  }

  lemma ApproveKeeps(s: Store, op: Op)
    requires Inv(s) && op.Approve? && MayApprove(s, op.id, op.tenant, op.plan) && FreshToken(s, op.tokenId)
    ensures Inv(Apply(s, op))
  {
    ApprovedIsValid(s, op);
    var t' := ApprovedTask(s, op.id, op.server, op.tokenId);
    assert t'.token == Some(TokenFor(s, op.id, op.server, op.tokenId));
    assert TaskInv(s, op.id, s.tasks[op.id]);
    hide AuditInv, ExecutionInv, Append, ToolsOf, Logged;
    PutKeeps(s, Apply(s, op), op.id, t');
  }

  lemma CancelledIsValid(s: Store, id: TaskId)
    requires id in s.tasks && TaskInv(s, id, s.tasks[id])
    ensures var t' := CancelledTask(s, id);
            AuditInv(id, t') && TokenInv(id, t', s.issued) && ExecutionInv(t', s.consumed)
  {
    LoggedKeeps(id, s.tasks[id].(state := Cancelled), TaskCancelled, "", s.now);
    hide WellFormed, CountOf, Append, ToolsOf;
  }

  lemma CancelKeeps(s: Store, op: Op)
    requires Inv(s) && op.Cancel? && MayCancel(s, op.id, op.tenant)
    ensures Inv(Apply(s, op))
  {
    assert TaskInv(s, op.id, s.tasks[op.id]);
    CancelledIsValid(s, op.id);
    assert CancelledTask(s, op.id).token == s.tasks[op.id].token;
    hide AuditInv, ExecutionInv, TokenInv, CancelledTask;
    PutKeeps(s, Apply(s, op), op.id, CancelledTask(s, op.id));
  }

  /** An accepted token is the task's own, and it has not been used: nothing was executed yet. */
  lemma OwnUnusedToken(s: Store, op: Op)
    requires Inv(s) && op.Execute? && MayExecute(s, op)
    ensures s.tasks[op.id].token == Some(op.token) && s.tasks[op.id].executions == []
  {
    hide AuditInv, ToolsOf;
    assert TaskInv(s, op.id, s.tasks[op.id]);
  }

  lemma ExecutedIsValid(s: Store, op: Op)
    requires op.Execute? && MayExecute(s, op) && TaskInv(s, op.id, s.tasks[op.id])
    requires s.tasks[op.id].token == Some(op.token) && s.tasks[op.id].executions == []
    ensures var t' := Executed(s, op);
            AuditInv(op.id, t') && TokenInv(op.id, t', s.issued) && ExecutionInv(t', s.consumed + {op.token.id})
  {
    var t := s.tasks[op.id];
    var envelope := Envelope(op.execution, op.tenant, op.server, op.workspace, op.tool, t.plan);
    LoggedKeeps(op.id, t.(state := Executing, executions := t.executions + [envelope]), ExecutionAuthorized,
        op.execution, s.now);
    hide WellFormed, CountOf, Append, ToolsOf;
    assert [] + [envelope] == [envelope];
  }

  lemma ExecuteKeeps(s: Store, op: Op)
    requires Inv(s) && op.Execute? && MayExecute(s, op)
    ensures Inv(Apply(s, op))
  {
    OwnUnusedToken(s, op);
    assert TaskInv(s, op.id, s.tasks[op.id]);
    ExecutedIsValid(s, op);
    assert Executed(s, op).token == s.tasks[op.id].token;
    hide AuditInv, ExecutionInv, TokenInv, Executed, MayExecute;
    PutKeeps(s, Apply(s, op), op.id, Executed(s, op));
  }

  lemma StepKeepsInv(s: Store, op: Op)
    requires Inv(s)
    ensures Inv(Apply(s, op))
  {
    hide AuditInv, TokenInv, ExecutionInv;
    if op.CreateTask? {
      CreateKeeps(s, op);
    } else if op.Plan? && MayPlan(s, op.id, op.tenant, op.allowed) {
      PlanKeeps(s, op);
    } else if op.Approve? && MayApprove(s, op.id, op.tenant, op.plan) && FreshToken(s, op.tokenId) {
      ApproveKeeps(s, op);
    } else if op.Cancel? && MayCancel(s, op.id, op.tenant) {
      CancelKeeps(s, op);
    } else if op.Execute? && MayExecute(s, op) {
      ExecuteKeeps(s, op);
    } else {
      assert Apply(s, op).tasks == s.tasks;
    }
  }

  lemma {:induction false} RunKeepsInv(s: Store, ops: seq<Op>)
    requires Inv(s)
    ensures Inv(Run(s, ops))
    decreases |ops|
  {
    if ops != [] {
      hide Inv, Apply;
      StepKeepsInv(s, ops[0]);
      RunKeepsInv(Apply(s, ops[0]), ops[1..]);
    }
  }

  lemma InitialInv(now: int, ttl: int)
    ensures Inv(Store(now, ttl, map[], map[], {}, {}))
  {
  }

  // ---------------------------------------------------------------- executions over runs

  /** How many executions of the task a run authorises. */
  function Authorised(s: Store, ops: seq<Op>, id: TaskId): nat
    decreases |ops|
  {
    if ops == [] then 0 else
      var here := if ops[0].Execute? && ops[0].id == id && MayExecute(s, ops[0]) then 1 else 0;
      here + Authorised(Apply(s, ops[0]), ops[1..], id)
  }

  function ExecutionsOf(s: Store, id: TaskId): nat {
    if id in s.tasks then |s.tasks[id].executions| else 0
  }

  lemma StepAuthorises(s: Store, op: Op, id: TaskId)
    requires Inv(s)
    ensures ExecutionsOf(Apply(s, op), id) ==
            ExecutionsOf(s, id) + if op.Execute? && op.id == id && MayExecute(s, op) then 1 else 0
  {
    hide Accepts, AuditInv, TokenInv, ExecutionInv, Append;
  }

  lemma {:induction false} RunAuthorises(s: Store, ops: seq<Op>, id: TaskId)
    requires Inv(s)
    ensures ExecutionsOf(Run(s, ops), id) == ExecutionsOf(s, id) + Authorised(s, ops, id)
    decreases |ops|
  {
    if ops != [] {
      StepKeepsInv(s, ops[0]);
      StepAuthorises(s, ops[0], id);
      hide Inv, Apply, ExecutionsOf, MayExecute;
      RunAuthorises(Apply(s, ops[0]), ops[1..], id);
    }
  }

  /** A task gets at most one authorised execution over any run, whatever tokens are presented and however often. */
  lemma AtMostOneExecution(s: Store, ops: seq<Op>, id: TaskId)
    requires Inv(s)
    ensures Authorised(s, ops, id) <= 1
  {
    RunAuthorises(s, ops, id);
    RunKeepsInv(s, ops);
    hide Run, Authorised;
    if id in Run(s, ops).tasks {
      assert TaskInv(Run(s, ops), id, Run(s, ops).tasks[id]);
    }
  }

  /** Whatever was authorised is a tool of the plan the task was approved with, in the task's workspace and tenant. */
  lemma ExecutionsMatchThePlan(s: Store, ops: seq<Op>, id: TaskId, e: Envelope)
    requires Inv(s) && id in Run(s, ops).tasks && e in Run(s, ops).tasks[id].executions
    ensures var t := Run(s, ops).tasks[id];
            && e.tool in ToolsOf(t.plan) && e.workspace == t.workspace && e.plan == t.plan && e.tenant == t.tenant
            && t.token.Some? && t.token.value.plan == t.plan && e.server == t.token.value.server
  {
    RunKeepsInv(s, ops);
    var s' := Run(s, ops);
    assert TaskInv(s', id, s'.tasks[id]) by { hide Run, TaskInv; }
    hide Run, Inv;
    OnlyExecution(s', id, s'.tasks[id], e);
  }

  lemma OnlyExecution(s: Store, id: TaskId, t: Task, e: Envelope)
    requires TaskInv(s, id, t) && e in t.executions
    ensures e.tool in ToolsOf(t.plan) && e.workspace == t.workspace && e.plan == t.plan && e.tenant == t.tenant
    ensures t.token.Some? && t.token.value.plan == t.plan && e.server == t.token.value.server
  {
    hide AuditInv, ToolsOf;
    assert e == t.executions[0];
  }

  lemma CancelledStep(s: Store, op: Op, id: TaskId)
    requires id in s.tasks && s.tasks[id].state.Cancelled?
    ensures id in Apply(s, op).tasks && Apply(s, op).tasks[id] == s.tasks[id]
    ensures !(op.Execute? && op.id == id && MayExecute(s, op))
  {
    hide Accepts;
  }

  /** A cancelled task is final: nothing is ever authorised for it again, and its record and its log no longer
      change. */
  lemma {:induction false} NothingAfterCancellation(s: Store, ops: seq<Op>, id: TaskId)
    requires id in s.tasks && s.tasks[id].state.Cancelled?
    ensures Authorised(s, ops, id) == 0
    ensures id in Run(s, ops).tasks && Run(s, ops).tasks[id] == s.tasks[id]
    decreases |ops|
  {
    if ops != [] {
      CancelledStep(s, ops[0], id);
      hide Apply, MayExecute;
      NothingAfterCancellation(Apply(s, ops[0]), ops[1..], id);
    }
  }

  /** After any run every task's log is a well-formed chain whose last entry gives the task's state and whose
      authorisations count its executions. */
  lemma LogsTellTheState(s: Store, ops: seq<Op>, id: TaskId)
    requires Inv(s) && id in Run(s, ops).tasks
    ensures AuditInv(id, Run(s, ops).tasks[id])
  {
    RunKeepsInv(s, ops);
    hide Run, AuditInv, TokenInv, ExecutionInv;
    assert TaskInv(Run(s, ops), id, Run(s, ops).tasks[id]);
  }
}
