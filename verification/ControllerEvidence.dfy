/**
 The restricted controller, said of the fields of its tasks: tenants are kept apart, each state
 has its causes, and behind every execution there is a timely approval of its very plan.
 */
module ControllerEvidence {
  import opened Base
  import opened AuditChain
  import opened Controller

  // ---------------------------------------------------------------- tenants

  /** The call names the task on behalf of somebody who is not its tenant. */
  predicate Strange(s: Store, op: Op, id: TaskId)
    requires id in s.tasks
  {
    && (op.Plan? || op.Approve? || op.Cancel? || op.Execute?)
    && op.id == id && op.tenant != s.tasks[id].tenant
  }

  /** Every call on another tenant's task is refused and changes nothing at all. */
  lemma StrangersAreRefused(s: Store, op: Op, id: TaskId)
    requires id in s.tasks && Strange(s, op, id)
    ensures Apply(s, op) == s
    ensures op.Plan? ==> !MayPlan(s, id, op.tenant, op.allowed)
    ensures op.Approve? ==> !MayApprove(s, id, op.tenant, op.plan)
    ensures op.Cancel? ==> !MayCancel(s, id, op.tenant)
    ensures op.Execute? ==> !MayExecute(s, op)
  {
    hide Accepts;
  }

  /** The call does not come from the task's own tenant, or is about something else. */
  predicate Outside(op: Op, id: TaskId, tenant: string) {
    (op.Plan? || op.Approve? || op.Cancel? || op.Execute?) && op.id == id ==> op.tenant != tenant
  }

  lemma OutsideStep(s: Store, op: Op, id: TaskId)
    requires id in s.tasks && Outside(op, id, s.tasks[id].tenant)
    ensures id in Apply(s, op).tasks && Apply(s, op).tasks[id] == s.tasks[id]
  {
    if Strange(s, op, id) {
      StrangersAreRefused(s, op, id);
    } else {
      hide Accepts, Append;
    }
  }

  /** Over every run: a task whose own tenant does not act keeps its record, its token and its log. */
  lemma {:induction false} TenantsAreIsolated(s: Store, ops: seq<Op>, id: TaskId)
    requires id in s.tasks && forall i | 0 <= i < |ops| :: Outside(ops[i], id, s.tasks[id].tenant)
    ensures id in Run(s, ops).tasks && Run(s, ops).tasks[id] == s.tasks[id]
    decreases |ops|
  {
    if ops != [] {
      OutsideStep(s, ops[0], id);
      hide Apply, Outside;
      TenantsAreIsolated(Apply(s, ops[0]), ops[1..], id);
    }
  }

  // ---------------------------------------------------------------- the state graph

  /** The tenant's own call on the task. */
  predicate Own(s: Store, op: Op, id: TaskId)
    requires id in s.tasks
  {
    (op.Plan? || op.Approve? || op.Cancel? || op.Execute?) && op.id == id && op.tenant == s.tasks[id].tenant
  }

  /** A token that was issued for this task, tenant, server, workspace and tool, is in time and was not used before. */
  predicate Good(s: Store, op: Op)
    requires op.Execute?
  {
    && op.token in s.issued && op.token.id !in s.consumed
    && op.token.issuedAt - 5 <= s.now && s.now < op.token.expiresAt
    && op.token.task == op.id && op.token.tenant == op.tenant && op.token.server == op.server
    && op.token.workspace == op.workspace && op.tool in op.token.tools
  }

  predicate Unused(s: Store, tokenId: string) {
    tokenId != "" && tokenId !in s.consumed && forall c | c in s.issued :: c.id != tokenId
  }

  /** The edges of the graph into each state. */
  predicate Cause(s: Store, op: Op, id: TaskId, state: State)
    requires id in s.tasks
  {
    var t := s.tasks[id];
    match state
    case Created => false
    case AwaitingApproval => t.state.Created? && Own(s, op, id) && op.Plan? && op.allowed
    case Approved =>
      t.state.AwaitingApproval? && Own(s, op, id) && op.Approve? && op.plan == t.plan && Unused(s, op.tokenId)
    case Executing => t.state.Approved? && Own(s, op, id) && op.Execute? && op.allowed && Good(s, op)
    case Cancelled => Own(s, op, id) && op.Cancel?
  }

  /** A task enters a state if and only if the call is the cause of that state. */
  lemma EntersExactly(s: Store, op: Op, id: TaskId, state: State)
    requires id in s.tasks && s.tasks[id].state != state
    ensures id in Apply(s, op).tasks
    ensures Apply(s, op).tasks[id].state == state <==> Cause(s, op, id, state)
  {
    hide Append, ToolsOf;
  }

  /** A plan is written as planned; an approval issues a token for exactly that plan, its tools, the task's tenant and
      workspace and the server named, good for ttl seconds from now. */
  lemma ApprovalIsWritten(s: Store, op: Op, id: TaskId)
    requires id in s.tasks
    ensures id in Apply(s, op).tasks
    ensures var t, t' := s.tasks[id], Apply(s, op).tasks[id];
            && (t'.plan != t.plan ==> Cause(s, op, id, AwaitingApproval) && t'.plan == op.steps)
            && (Cause(s, op, id, AwaitingApproval) ==> t'.plan == op.steps)
            && (if Cause(s, op, id, Approved)
                then t'.token == Some(Claims(id, t.tenant, op.server, t.workspace, set x | x in op.plan :: x.tool,
                                             op.plan, s.now, s.now + s.ttl, op.tokenId))
                else t'.token == t.token)
            && t'.tenant == t.tenant && t'.workspace == t.workspace
  {
    hide Append, Accepts;
  }

  /** The call authorises an execution of the task. */
  predicate Executes(s: Store, op: Op, id: TaskId)
    requires id in s.tasks
  {
    && Own(s, op, id) && op.Execute? && op.allowed && (s.tasks[id].state.Approved? || s.tasks[id].state.Executing?)
    && Good(s, op)
  }

  /** An execution is authorised exactly by the tenant's own call with a good token on an approved or executing task,
      for exactly the server, workspace and tool of the call, under the task's plan; the token is then used up. */
  lemma ExecutionIsWritten(s: Store, op: Op, id: TaskId)
    requires id in s.tasks
    ensures id in Apply(s, op).tasks
    ensures var t, t' := s.tasks[id], Apply(s, op).tasks[id];
            if Executes(s, op, id)
            then && t'.executions ==
                      t.executions + [Envelope(op.execution, t.tenant, op.server, op.workspace, op.tool, t.plan)]
                 && Apply(s, op).consumed == s.consumed + {op.token.id}
            else t'.executions == t.executions
  {
    hide Append, ToolsOf;
  }

  /** A task is created exactly by an allowed call under a key its tenant has not used, and under that key alone; it is
      the tenant's, for the workspace and the request named, with nothing planned. */
  lemma CreationIsWritten(s: Store, op: Op, id: TaskId)
    requires id !in s.tasks
    ensures var s' := Apply(s, op);
            && (id in s'.tasks <==>
                  op.CreateTask? && op.id == id && op.allowed && (op.tenant, op.key) !in s.idempotency)
            && (id in s'.tasks ==>
                  && var t := s'.tasks[id];
                  && t == Task(op.tenant, op.workspace, op.request, Created, [], None, [], t.audit)
                  && s'.idempotency == s.idempotency[(op.tenant, op.key) := (op.request, id)])
            && (id !in s'.tasks && !(op.CreateTask? && op.id !in s.tasks) ==> s'.idempotency == s.idempotency)
  {
    hide Append, Accepts;
  }

  /** The action a call is logged as, and what is written beside it. */
  function EntryOf(op: Op): (Action, string) {
    match op
    case Plan(_, _, _, _) => (PlanReady, "")
    case Approve(_, _, _, server, _) => (TaskApproved, server)
    case Cancel(_, _) => (TaskCancelled, "")
    case Execute(_, _, _, _, _, _, _, execution) => (ExecutionAuthorized, execution)
    case CreateTask(_, _, _, request, _, _) => (TaskCreated, request)
    case Tick(_) => (TaskCreated, "")
  }

  /** The log grows exactly when the task changes, by one record: the next number, the call's action, the task's tenant,
      the time of the call, and the hash of the record before it. */
  lemma LogIsWritten(s: Store, op: Op, id: TaskId)
    requires id in s.tasks
    ensures id in Apply(s, op).tasks
    ensures var t, t' := s.tasks[id], Apply(s, op).tasks[id];
            if t'.audit == t.audit then t' == t
            else && Own(s, op, id) && |t'.audit| == |t.audit| + 1 && t'.audit[..|t.audit|] == t.audit
                 && var body := t'.audit[|t.audit|].body;
                 && body == Body(|t.audit| + 1, id, t.tenant, EntryOf(op).0, EntryOf(op).1, body.previous, s.now)
                 && body.previous == if t.audit == [] then Zeros else t.audit[|t.audit| - 1].hash
  {
    hide Accepts, ToolsOf;
  }

  // ---------------------------------------------------------------- evidence over runs

  predicate Empty(s: Store) {
    s.tasks == map[] && s.issued == {}
  }

  lemma EmptyInv(s: Store)
    requires Empty(s)
    ensures Inv(s)
  {
  }

  lemma {:induction false} LastCall(start: Store, ops: seq<Op>)
    requires ops != []
    ensures Run(start, ops) == Apply(Run(start, ops[..|ops| - 1]), ops[|ops| - 1])
    decreases |ops|
  {
    hide Apply;
    if |ops| > 1 {
      LastCall(Apply(start, ops[0]), ops[1..]);
      assert ops[..|ops| - 1][1..] == ops[1..][..|ops| - 2];
    } else {
      assert ops[..0] == [] && ops[1..] == [];
    }
  }

  lemma TtlStays(s: Store, op: Op)
    ensures Apply(s, op).ttl == s.ttl
  {
  }

  /** Whatever holds of a task at the end of a run, and of no new task, was made true by one call on it. */
  lemma {:induction false} TurningPoint(start: Store, ops: seq<Op>, id: TaskId, p: Task -> bool) returns (n: nat)
    requires Empty(start) && id in Run(start, ops).tasks && p(Run(start, ops).tasks[id])
    requires forall t: Task | p(t) :: !t.state.Created?
    ensures n < |ops|
    ensures var before := Run(start, ops[..n]);
            && Inv(before) && before.ttl == start.ttl && id in before.tasks && !p(before.tasks[id])
            && id in Apply(before, ops[n]).tasks && p(Apply(before, ops[n]).tasks[id])
    decreases |ops|
  {
    assert ops != [];
    EmptyInv(start);
    hide Inv, Apply, Run, Empty;
    var m := |ops| - 1;
    var prefix := ops[..m];
    var before := Run(start, prefix);
    RunKeepsInv(start, prefix);
    LastCall(start, ops);
    RunKeepsTtl(start, prefix);
    if id in before.tasks && p(before.tasks[id]) {
      n := TurningPoint(start, prefix, id, p);
      assert prefix[..n] == ops[..n] && prefix[n] == ops[n];
    } else {
      n := m;
      if id !in before.tasks {
        NewTasksAreCreated(before, ops[m], id);
      }
    }
  }

  lemma {:induction false} RunKeepsTtl(s: Store, ops: seq<Op>)
    ensures Run(s, ops).ttl == s.ttl
    decreases |ops|
  {
    if ops != [] {
      TtlStays(s, ops[0]);
      hide Apply;
      RunKeepsTtl(Apply(s, ops[0]), ops[1..]);
    }
  }

  lemma NewTasksAreCreated(s: Store, op: Op, id: TaskId)
    requires id !in s.tasks && id in Apply(s, op).tasks
    ensures Apply(s, op).tasks[id].state.Created?
  {
    hide Append, Accepts;
  }

  lemma ExecutedTasksHaveStarted(s: Store, id: TaskId)
    requires Inv(s) && id in s.tasks && s.tasks[id].state.Created?
    ensures s.tasks[id].executions == [] && s.tasks[id].token.None?
  {
    assert TaskInv(s, id, s.tasks[id]);
    hide AuditInv, ToolsOf;
  }

  /** The approval of one plan for one server, and a use of it in time. */
  predicate Backs(start: Store, ops: seq<Op>, id: TaskId, n: nat, m: nat)
    requires n < m < |ops|
  {
    && ops[n].Approve? && ops[n].id == id && ops[m].Execute? && ops[m].id == id && ops[m].allowed
    && var approving, using := Run(start, ops[..n]), Run(start, ops[..m]);
    && id in approving.tasks && id in using.tasks
    && ops[n].tenant == approving.tasks[id].tenant && ops[m].tenant == using.tasks[id].tenant == ops[n].tenant
    && ops[n].plan == approving.tasks[id].plan && approving.tasks[id].state.AwaitingApproval?
    && ops[m].server == ops[n].server && ops[m].workspace == approving.tasks[id].workspace
    && (exists x | x in ops[n].plan :: x.tool == ops[m].tool)
    && approving.now - 5 <= using.now && using.now < approving.now + start.ttl
  }

  lemma TokenAppears(s: Store, op: Op, id: TaskId, c: Claims)
    requires id in s.tasks && s.tasks[id].token != Some(c)
    requires id in Apply(s, op).tasks && Apply(s, op).tasks[id].token == Some(c)
    ensures Cause(s, op, id, Approved) && c.issuedAt == s.now && c.expiresAt == s.now + s.ttl
    ensures c.tenant == op.tenant && c.server == op.server && c.workspace == s.tasks[id].workspace
    ensures forall tool | tool in c.tools :: exists x | x in op.plan :: x.tool == tool
  {
    ApprovalIsWritten(s, op, id);
    hide Apply;
  }

  /** A good token is the task's own. */
  lemma GoodTokenIsOwn(s: Store, op: Op, id: TaskId)
    requires Inv(s) && id in s.tasks && Executes(s, op, id)
    ensures s.tasks[id].token == Some(op.token)
  {
    hide AuditInv, ToolsOf, ExecutionInv;
    assert op.token in s.issued;
  }

  lemma ApprovalOf(start: Store, ops: seq<Op>, id: TaskId, m: nat) returns (n: nat)
    requires Empty(start) && m < |ops| && Inv(Run(start, ops[..m]))
    requires id in Run(start, ops[..m]).tasks && Executes(Run(start, ops[..m]), ops[m], id)
    ensures n < m && Backs(start, ops, id, n, m)
  {
    hide Run, Inv, Apply, Empty;
    var using := Run(start, ops[..m]);
    var c := ops[m].token;
    GoodTokenIsOwn(using, ops[m], id);
    n := TurningPoint(start, ops[..m], id, (t: Task) => t.token == Some(c) && !t.state.Created?);
    assert ops[..m][..n] == ops[..n] && ops[..m][n] == ops[n];
    var approving := Run(start, ops[..n]);
    if approving.tasks[id].state.Created? {
      ExecutedTasksHaveStarted(approving, id);
    }
    TokenAppears(approving, ops[n], id, c);
  }

  /** Behind every authorised execution of every run stands an earlier approval by the same tenant of exactly the plan
      it runs under, for the same server, and the token of that approval was used within its lifetime. */
  lemma EveryExecutionHasItsApproval(start: Store, ops: seq<Op>, id: TaskId) returns (n: nat, m: nat)
    requires Empty(start) && id in Run(start, ops).tasks && Run(start, ops).tasks[id].executions != []
    ensures n < m < |ops| && Backs(start, ops, id, n, m)
  {
    EmptyInv(start);
    hide Run, Inv, Apply, Empty;
    RunKeepsInv(start, ops);
    assert !Run(start, ops).tasks[id].state.Created? by {
      if Run(start, ops).tasks[id].state.Created? {
        ExecutedTasksHaveStarted(Run(start, ops), id);
      }
    }
    m := TurningPoint(start, ops, id, (t: Task) => t.executions != [] && !t.state.Created?);
    var using := Run(start, ops[..m]);
    if using.tasks[id].state.Created? {
      ExecutedTasksHaveStarted(using, id);
    }
    ExecutionIsWritten(using, ops[m], id);
    n := ApprovalOf(start, ops, id, m);
  }
}
