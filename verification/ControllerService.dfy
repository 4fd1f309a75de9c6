/** The controller's methods as they run; each performs the step Controller describes and says when it raises. */
module ControllerService {
  import opened Base
  import opened AuditChain
  import opened Controller

  class RestrictedController {
    var now: int
    const ttl: int
    var tasks: map<TaskId, Task>
    var idempotency: map<(string, string), (string, TaskId)>
    var issued: set<Claims>
    var consumed: set<string>

    function Snapshot(): Store
      reads this
    {
      Store(now, ttl, tasks, idempotency, issued, consumed)
    }

    /** The lifetime of a token is kept between 30 and 600 seconds. */
    constructor (start: int, seconds: int)
      ensures Snapshot() == Store(start, ttl, map[], map[], {}, {}) && Inv(Snapshot())
      ensures 30 <= ttl <= 600 && (30 <= seconds <= 600 ==> ttl == seconds)
    {
      now := start;
      var atLeast := if seconds < 30 then 30 else seconds;
      ttl := if atLeast > 600 then 600 else atLeast;
      tasks, idempotency, issued, consumed := map[], map[], {}, {};
    }

    /** _audit: the next record of the task's chain. */
    method Audit(id: TaskId, action: Action, details: string)
      requires id in tasks
      modifies this`tasks
      ensures tasks == old(tasks)[id := Logged(id, old(tasks)[id], action, details, now)]
    {
      var t := tasks[id];
      var previous := if t.audit == [] then Zeros else t.audit[|t.audit| - 1].hash;
      var body := Body(|t.audit| + 1, id, t.tenant, action, details, previous, now);
      tasks := tasks[id := t.(audit := t.audit + [Record(body, Hash(body))])];
    }

    /** The task under the tenant's key: a new one, the earlier one, or None for a conflict or a refused workspace. */
    method CreateTask(id: TaskId, tenant: string, key: string, request: string, workspace: string, allowed: bool)
      returns (task: Option<TaskId>, replayed: bool)
      requires id !in tasks
      modifies this`tasks, this`idempotency
      ensures Snapshot() == Apply(old(Snapshot()), Op.CreateTask(id, tenant, key, request, workspace, allowed))
      ensures task.Some? <==>
              allowed && ((tenant, key) in old(idempotency) ==> old(idempotency)[(tenant, key)].0 == request)
      ensures task.Some? ==> idempotency[(tenant, key)] == (request, task.value)
      ensures replayed <==> task.Some? && (tenant, key) in old(idempotency)
    {
      if !allowed {
        return None, false;
      }
      if (tenant, key) in idempotency {
        var prior := idempotency[(tenant, key)];
        if prior.0 != request {
          return None, false;
        }
        return Some(prior.1), true;
      }
      hide Logged;
      tasks := tasks[id := Task(tenant, workspace, request, Created, [], None, [], [])];
      idempotency := idempotency[(tenant, key) := (request, id)];
      Audit(id, TaskCreated, request);
      return Some(id), false;
    }

    method Plan(id: TaskId, tenant: string, steps: seq<Step>, allowed: bool) returns (ok: bool)
      modifies this`tasks
      ensures Snapshot() == Apply(old(Snapshot()), Op.Plan(id, tenant, steps, allowed))
      ensures ok <==> id in old(tasks) && old(tasks)[id].tenant == tenant && old(tasks)[id].state.Created? && allowed
    {
      if !Owned(Snapshot(), id, tenant) || !tasks[id].state.Created? || !allowed {
        return false;
      }
      hide Logged;
      tasks := tasks[id := tasks[id].(plan := steps, state := AwaitingApproval)];
      Audit(id, PlanReady, "");
      ok := true;
    }

    /** Approval of exactly the plan the approver was shown issues the task's one token. */
    method Approve(id: TaskId, tenant: string, plan: seq<Step>, server: string, tokenId: string)
      returns (token: Option<Claims>)
      requires FreshToken(Snapshot(), tokenId)
      modifies this`tasks, this`issued
      ensures Snapshot() == Apply(old(Snapshot()), Op.Approve(id, tenant, plan, server, tokenId))
      ensures token.Some? <==>
                && id in old(tasks) && old(tasks)[id].tenant == tenant && old(tasks)[id].state.AwaitingApproval?
                && old(tasks)[id].plan == plan
      ensures token.Some? ==> token.value in issued && token.value.plan == plan && token.value.expiresAt == now + ttl
    {
      if !Owned(Snapshot(), id, tenant) || !tasks[id].state.AwaitingApproval? || tasks[id].plan != plan {
        return None;
      }
      hide Logged, ToolsOf, FreshToken;
      var claims := TokenFor(Snapshot(), id, server, tokenId);
      issued := issued + {claims};
      tasks := tasks[id := tasks[id].(state := Approved, token := Some(claims))];
      Audit(id, TaskApproved, server);
      token := Some(claims);
    }

    method Cancel(id: TaskId, tenant: string) returns (ok: bool)
      modifies this`tasks
      ensures Snapshot() == Apply(old(Snapshot()), Op.Cancel(id, tenant))
      ensures ok <==> id in old(tasks) && old(tasks)[id].tenant == tenant && !old(tasks)[id].state.Cancelled?
    {
      if !Owned(Snapshot(), id, tenant) || tasks[id].state.Cancelled? {
        return false;
      }
      hide Logged;
      tasks := tasks[id := tasks[id].(state := Cancelled)];
      Audit(id, TaskCancelled, "");
      ok := true;
    }

    /** verify with consume: a token passes once. */
    method Verify(token: Claims, id: TaskId, tenant: string, server: string, workspace: string, tool: Tool)
      returns (ok: bool)
      modifies this`consumed
      ensures ok <==>
                && token in issued && token.issuedAt - 5 <= now && now < token.expiresAt && token.id !in old(consumed)
                && token.task == id && token.tenant == tenant && token.server == server && token.workspace == workspace
                && tool in token.tools
      ensures consumed == old(consumed) + if ok then {token.id} else {}
      ensures !Accepts(Snapshot(), token, id, tenant, server, workspace, tool)
    {
      if token !in issued {
        return false;
      }
      if now < token.issuedAt - 5 || now >= token.expiresAt {
        return false;
      }
      if token.task != id || token.tenant != tenant || token.server != server || token.workspace != workspace {
        return false;
      }
      if tool !in token.tools || token.id in consumed {
        return false;
      }
      consumed := consumed + {token.id};
      ok := true;
    }

    method Execute(id: TaskId, tenant: string, server: string, tool: Tool, workspace: string, allowed: bool,
                   token: Claims, execution: string)
      returns (envelope: Option<Envelope>)
      modifies this`tasks, this`consumed
      ensures var op := Op.Execute(id, tenant, server, tool, workspace, allowed, token, execution);
              && Snapshot() == Apply(old(Snapshot()), op) && (envelope.Some? <==> MayExecute(old(Snapshot()), op))
      ensures envelope.Some? ==>
                && id in old(tasks) && id in tasks
                && tasks[id].executions == old(tasks)[id].executions + [envelope.value]
    {
      if !allowed || !Owned(Snapshot(), id, tenant) || !(tasks[id].state.Approved? || tasks[id].state.Executing?) {
        return None;
      }
      hide Accepts, Logged;
      var ok := Verify(token, id, tenant, server, workspace, tool);
      if !ok {
        return None;
      }
      var t := tasks[id];
      var e := Envelope(execution, tenant, server, workspace, tool, t.plan);
      tasks := tasks[id := t.(executions := t.executions + [e], state := Executing)];
      Audit(id, ExecutionAuthorized, execution);
      envelope := Some(e);
    }
  }
}
