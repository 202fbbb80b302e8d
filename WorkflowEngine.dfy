/**
 * The workflow engine (`executeWorkflow`) and the trigger dispatcher
 * (`handleTrigger`). The service's persistent state is the workflow table with
 * its execution counters, the execution table, and the log of calls made on
 * collaborators; one run appends exactly one execution row, which only that
 * run updates.
 */
module WorkflowEngine {
  import opened Wrappers
  import opened Json
  import opened Conditions
  import opened Actions

  datatype TriggerType = LeadCreated | DealStageChanged | ContactUpdated | Scheduled | Manual

  datatype Workflow = Workflow(
    organizationId: string,
    triggerType: TriggerType,
    conditions: seq<Condition>,
    actions: seq<Action>,
    isActive: bool,
    executionCount: nat)

  /** `paused` is a declared status that nothing produces. */
  datatype Status = Running | Completed | Failed | Paused

  datatype Execution = Execution(
    id: string,
    workflowId: string,
    triggerData: Json,
    status: Status,
    currentStep: nat,
    errorMessage: Option<string>)

  datatype RunError = WorkflowNotFound | ActionFailed(step: nat, message: string)

  /** The collaborator's reply to step `i` of a run; steps past the end of the script succeed. */
  function ReplyAt(replies: seq<Reply>, i: nat): Reply {
    if i < |replies| then replies[i] else Done
  }

  /** The number of actions from `from` on that succeed before the first one that fails. */
  function SucceedingSteps(actions: seq<Action>, data: Json, org: string, replies: seq<Reply>, from: nat): (k: nat)
    requires from <= |actions|
    ensures from <= k <= |actions|
    ensures forall j :: from <= j < k ==> ActionError(actions[j], data, org, ReplyAt(replies, j)).None?
    ensures k < |actions| ==> ActionError(actions[k], data, org, ReplyAt(replies, k)).Some?
    decreases |actions| - from
  {
    if from == |actions| then from
    else if ActionError(actions[from], data, org, ReplyAt(replies, from)).Some? then from
    else SucceedingSteps(actions, data, org, replies, from + 1)
  }

  /** Every one of the first `n` actions succeeds. */
  ghost predicate LeadingStepsSucceed(actions: seq<Action>, data: Json, org: string, replies: seq<Reply>, n: nat)
    requires n <= |actions|
  {
    forall j :: 0 <= j < n ==> ActionError(actions[j], data, org, ReplyAt(replies, j)).None?
  }

  /** A successful step extends the run of successful steps before it. */
  lemma ExtendSuccess(actions: seq<Action>, data: Json, org: string, replies: seq<Reply>, k: nat)
    requires k < |actions| && LeadingStepsSucceed(actions, data, org, replies, k)
    requires ActionError(actions[k], data, org, ReplyAt(replies, k)).None?
    ensures LeadingStepsSucceed(actions, data, org, replies, k + 1)
  {
  }

  /** The count of succeeding steps is the position of the first failure, or the number of actions if none fails. */
  lemma {:induction false} FirstFailure(actions: seq<Action>, data: Json, org: string, replies: seq<Reply>, from: nat, k: nat)
    requires from <= k <= |actions|
    requires forall j :: from <= j < k ==> ActionError(actions[j], data, org, ReplyAt(replies, j)).None?
    requires k < |actions| ==> ActionError(actions[k], data, org, ReplyAt(replies, k)).Some?
    ensures SucceedingSteps(actions, data, org, replies, from) == k
    decreases k - from
  {
    if from < k {
      FirstFailure(actions, data, org, replies, from + 1, k);
    }
  }

  /** Everything the first `n` actions do, in order. */
  function EffectsOf(actions: seq<Action>, data: Json, org: string, n: nat): seq<Effect>
    requires n <= |actions|
  {
    if n == 0 then [] else EffectsOf(actions, data, org, n - 1) + Effects(actions[n - 1], data, org)
  }

  /** The run's execution row after `k` successful steps and, when `error` is set, the failure that ended it. */
  function RowAfter(initial: Execution, k: nat, error: Option<string>): (e: Execution)
    ensures e.id == initial.id && e.workflowId == initial.workflowId && e.triggerData == initial.triggerData
    ensures e.currentStep == k && e.errorMessage == error && (e.status == Failed <==> error.Some?)
  {
    initial.(status := if error.Some? then Failed else Running, currentStep := k, errorMessage := error)
  }

  /** One more step's effects extend the log of the steps before it. */
  lemma EffectsStep(base: seq<Effect>, actions: seq<Action>, data: Json, org: string, k: nat)
    requires k < |actions|
    ensures base + EffectsOf(actions, data, org, k) + Effects(actions[k], data, org) == base + EffectsOf(actions, data, org, k + 1)
  {
  }

  /** What one step does to the run's row: a failure marks it failed with the message, a success counts the step. */
  function StepRow(e: Execution, error: Option<string>): (r: Execution)
    ensures r.id == e.id && r.workflowId == e.workflowId && r.triggerData == e.triggerData
    ensures error.Some? ==> r.status == Failed && r.errorMessage == error && r.currentStep == e.currentStep
    ensures error.None? ==> r.status == e.status && r.errorMessage == e.errorMessage && r.currentStep == e.currentStep + 1
  {
    if error.Some? then e.(status := Failed, errorMessage := error) else e.(currentStep := e.currentStep + 1)
  }

  /** A step taken on the row after `k` successful steps leaves the row after one more step or after the failure. */
  lemma RowStep(initial: Execution, k: nat, error: Option<string>)
    ensures StepRow(RowAfter(initial, k, None), error) == RowAfter(initial, if error.Some? then k else k + 1, error)
  {
  }

  /** Writing a position twice keeps the second value. */
  lemma UpdateTwice(rows: seq<Execution>, i: nat, a: Execution, b: Execution)
    requires i < |rows|
    ensures rows[i := a][i := b] == rows[i := b]
  {
  }

  /** The event topics the dispatcher subscribes to and the trigger type each one selects. */
  function TriggerForEvent(topic: string): (r: Option<TriggerType>)
    ensures r == Some(LeadCreated) <==> topic == "lead.created"
    ensures r == Some(DealStageChanged) <==> topic == "deal.stage_changed"
    ensures r == Some(ContactUpdated) <==> topic == "contact.updated"
  {
    if topic == "lead.created" then Some(LeadCreated)
    else if topic == "deal.stage_changed" then Some(DealStageChanged)
    else if topic == "contact.updated" then Some(ContactUpdated)
    else None
  }

  /** Only the three entity events dispatch; `scheduled` and `manual` workflows are never reached from an event. */
  lemma EventTriggers(topic: string)
    ensures TriggerForEvent(topic).Some? <==> topic in {"lead.created", "deal.stage_changed", "contact.updated"}
    ensures TriggerForEvent(topic) != Some(Scheduled) && TriggerForEvent(topic) != Some(Manual)
  {
  }

  /** The event-to-trigger map is one-to-one. */
  lemma EventTriggersInjective(t1: string, t2: string)
    requires TriggerForEvent(t1).Some? && TriggerForEvent(t1) == TriggerForEvent(t2)
    ensures t1 == t2
  {
  }

  /** The inputs one run needs that the source generates or receives itself: the new execution id and the collaborators' replies. */
  datatype RunInput = RunInput(executionId: string, replies: seq<Reply>)

  /** The service's workflow table, execution table and call log, as one value. */
  datatype State = State(workflows: map<string, Workflow>, executions: seq<Execution>, effects: seq<Effect>)

  ghost predicate IsActiveIn(s: State, id: string) {
    id in s.workflows && s.workflows[id].isActive
  }

  /** The number of completed execution rows of workflow `id`. */
  function CompletedRuns(rows: seq<Execution>, id: string): (n: nat)
    ensures n <= |rows|
    decreases |rows|
  {
    if rows == [] then 0
    else (if rows[0].workflowId == id && rows[0].status == Completed then 1 else 0) + CompletedRuns(rows[1..], id)
  }

  lemma {:induction false} CompletedRunsAppend(a: seq<Execution>, b: seq<Execution>, id: string)
    ensures CompletedRuns(a + b, id) == CompletedRuns(a, id) + CompletedRuns(b, id)
    decreases |a|
  {
    if a != [] {
      assert (a + b)[0] == a[0] && (a + b)[1..] == a[1..] + b;
      CompletedRunsAppend(a[1..], b, id);
    } else {
      assert a + b == b;
    }
  }

  /**
   * What one `executeWorkflow` call returns and leaves behind. Only the run's
   * own workflow can change, and its counter goes up by one exactly when the
   * run stores a completed row.
   */
  ghost function RunWorkflow(s: State, workflowId: string, triggerData: Json, input: RunInput): (r: (Result<Execution, RunError>, State))
    ensures r.0.Success? ==> r.0.value.workflowId == workflowId
  {
    if !IsActiveIn(s, workflowId) then (Failure(WorkflowNotFound), s)
    else
      var w := s.workflows[workflowId];
      if !ConditionsMet(w.conditions, triggerData) then
        (Success(Execution(input.executionId, workflowId, triggerData, Completed, 0, None)), s)
      else
        var k := SucceedingSteps(w.actions, triggerData, w.organizationId, input.replies, 0);
        if k == |w.actions| then
          var e := Execution(input.executionId, workflowId, triggerData, Completed, k, None);
          (Success(e), State(s.workflows[workflowId := w.(executionCount := w.executionCount + 1)], s.executions + [e],
                             s.effects + EffectsOf(w.actions, triggerData, w.organizationId, k)))
        else
          var message := ActionError(w.actions[k], triggerData, w.organizationId, ReplyAt(input.replies, k)).value;
          var e := Execution(input.executionId, workflowId, triggerData, Failed, k, Some(message));
          (Failure(ActionFailed(k, message)), State(s.workflows, s.executions + [e],
                                                    s.effects + EffectsOf(w.actions, triggerData, w.organizationId, k + 1)))
  }

  /** What one run changes: only its own workflow, whose counter goes up by one exactly when the run stores a completed row. */
  lemma RunWorkflowFacts(s: State, workflowId: string, triggerData: Json, input: RunInput)
    ensures var (r, t) := RunWorkflow(s, workflowId, triggerData, input);
      && (r.Failure? ==> (r.error.ActionFailed? <==> IsActiveIn(s, workflowId)))
      && t.workflows.Keys == s.workflows.Keys
      && (forall id :: id in s.workflows && id != workflowId ==> t.workflows[id] == s.workflows[id])
      && (forall id :: id in s.workflows ==> t.workflows[id].isActive == s.workflows[id].isActive)
      && s.executions <= t.executions && |t.executions| <= |s.executions| + 1
      && s.effects <= t.effects
      && (forall id :: id in s.workflows ==>
            t.workflows[id].executionCount == s.workflows[id].executionCount + CompletedRuns(t.executions[|s.executions|..], id))
  {
    var t := RunWorkflow(s, workflowId, triggerData, input).1;
    if |t.executions| == |s.executions| + 1 {
      assert t.executions[|s.executions|..] == [t.executions[|s.executions|]];
    } else {
      assert t.executions[|s.executions|..] == [];
    }
  }

  /**
   * `handleTrigger`'s loop as a fold of `executeWorkflow` over the matching
   * rows: each run starts from the state the previous one left, and the first
   * failure ends the dispatch.
   */
  ghost function Dispatch(s: State, triggerData: Json, rows: seq<string>, runs: seq<RunInput>): (r: (seq<Result<Execution, RunError>>, State))
    requires |runs| == |rows|
    ensures |r.0| <= |rows|
    decreases |rows|
  {
    if rows == [] then ([], s)
    else
      var first := RunWorkflow(s, rows[0], triggerData, runs[0]);
      if first.0.Failure? then ([first.0], first.1)
      else
        var rest := Dispatch(first.1, triggerData, rows[1..], runs[1..]);
        ([first.0] + rest.0, rest.1)
  }

  /** The results of a dispatch: runs succeed until the last one, which alone may fail, and only by a failing action. */
  lemma {:induction false} DispatchResults(s: State, triggerData: Json, rows: seq<string>, runs: seq<RunInput>)
    requires |runs| == |rows| && forall i :: 0 <= i < |rows| ==> IsActiveIn(s, rows[i])
    ensures var results := Dispatch(s, triggerData, rows, runs).0;
      && (forall i :: 0 <= i < |results| && results[i].Failure? ==> i == |results| - 1 && results[i].error.ActionFailed?)
      && (|results| < |rows| ==> results != [] && results[|results| - 1].Failure?)
      && (forall i :: 0 <= i < |results| && results[i].Success? ==> results[i].value.workflowId == rows[i])
    decreases |rows|
  {
    if rows != [] {
      var first := RunWorkflow(s, rows[0], triggerData, runs[0]);
      RunWorkflowFacts(s, rows[0], triggerData, runs[0]);
      if first.0.Success? {
        var rest := Dispatch(first.1, triggerData, rows[1..], runs[1..]);
        assert forall i :: 0 <= i < |rows| - 1 ==> rows[1..][i] == rows[i + 1];
        DispatchResults(first.1, triggerData, rows[1..], runs[1..]);
        var results := [first.0] + rest.0;
        assert forall i :: 0 < i < |results| ==> results[i] == rest.0[i - 1];
      }
    }
  }

  /** A dispatch keeps the workflows and their active flags, and the execution table and the call log only grow. */
  lemma {:induction false} DispatchGrows(s: State, triggerData: Json, rows: seq<string>, runs: seq<RunInput>)
    requires |runs| == |rows|
    ensures var (results, t) := Dispatch(s, triggerData, rows, runs);
      && t.workflows.Keys == s.workflows.Keys
      && (forall id :: id in s.workflows ==> t.workflows[id].isActive == s.workflows[id].isActive)
      && s.executions <= t.executions && |t.executions| <= |s.executions| + |results|
      && s.effects <= t.effects
    decreases |rows|
  {
    if rows != [] {
      var first := RunWorkflow(s, rows[0], triggerData, runs[0]);
      RunWorkflowFacts(s, rows[0], triggerData, runs[0]);
      if first.0.Success? {
        DispatchGrows(first.1, triggerData, rows[1..], runs[1..]);
      }
    }
  }

  /** A workflow that none of the runs that took place named is left as it was. */
  lemma {:induction false} DispatchUntouched(s: State, triggerData: Json, rows: seq<string>, runs: seq<RunInput>, id: string)
    requires |runs| == |rows|
    requires id in s.workflows && id !in rows[..|Dispatch(s, triggerData, rows, runs).0|]
    ensures id in Dispatch(s, triggerData, rows, runs).1.workflows
    ensures Dispatch(s, triggerData, rows, runs).1.workflows[id] == s.workflows[id]
    decreases |rows|
  {
    var r := Dispatch(s, triggerData, rows, runs);
    if rows != [] {
      var first := RunWorkflow(s, rows[0], triggerData, runs[0]);
      RunWorkflowFacts(s, rows[0], triggerData, runs[0]);
      assert rows[0] == rows[..|r.0|][0];
      if first.0.Success? {
        var rest := Dispatch(first.1, triggerData, rows[1..], runs[1..]);
        assert rows[1..][..|rest.0|] == rows[..|r.0|][1..];
        DispatchUntouched(first.1, triggerData, rows[1..], runs[1..], id);
      }
    }
  }

  /** Everything the dispatcher's contract states about a dispatch from a state where every row is active. */
  lemma DispatchFacts(s: State, triggerData: Json, rows: seq<string>, runs: seq<RunInput>,
                      results: seq<Result<Execution, RunError>>, t: State)
    requires |runs| == |rows| && forall i :: 0 <= i < |rows| ==> IsActiveIn(s, rows[i])
    requires results == Dispatch(s, triggerData, rows, runs).0 && t == Dispatch(s, triggerData, rows, runs).1
    ensures forall i :: 0 <= i < |results| && results[i].Failure? ==> i == |results| - 1 && results[i].error.ActionFailed?
    ensures |results| < |rows| ==> results != [] && results[|results| - 1].Failure?
    ensures forall i :: 0 <= i < |results| && results[i].Success? ==> results[i].value.workflowId == rows[i]
    ensures t.workflows.Keys == s.workflows.Keys
    ensures s.executions <= t.executions && |t.executions| <= |s.executions| + |results|
    ensures s.effects <= t.effects
    ensures forall id :: id in s.workflows && id !in rows[..|results|] ==> t.workflows[id] == s.workflows[id]
    ensures forall id :: id in s.workflows ==>
      t.workflows[id].executionCount == s.workflows[id].executionCount + CompletedRuns(t.executions[|s.executions|..], id)
  {
    DispatchResults(s, triggerData, rows, runs);
    DispatchGrows(s, triggerData, rows, runs);
    forall id | id in s.workflows && id !in rows[..|results|]
      ensures t.workflows[id] == s.workflows[id]
    {
      DispatchUntouched(s, triggerData, rows, runs, id);
    }
    forall id | id in s.workflows
      ensures t.workflows[id].executionCount == s.workflows[id].executionCount + CompletedRuns(t.executions[|s.executions|..], id)
    {
      DispatchCounts(s, triggerData, rows, runs, id);
    }
  }

  /**
   * What `executeWorkflow` does from state `s`, case by case: a missing or
   * inactive workflow is an error and changes nothing; unmet conditions give
   * a completed result with no step taken and change nothing; otherwise one
   * execution row is stored, the effects of the steps that ran are added,
   * and only a run whose every step succeeds counts as an execution.
   */
  ghost predicate Outcome(s: State, workflowId: string, triggerData: Json, input: RunInput,
                          r: Result<Execution, RunError>, t: State)
  {
    && (!IsActiveIn(s, workflowId) ==> r == Failure(WorkflowNotFound) && t == s)
    && (IsActiveIn(s, workflowId) && !ConditionsMet(s.workflows[workflowId].conditions, triggerData) ==>
          r == Success(Execution(input.executionId, workflowId, triggerData, Completed, 0, None)) && t == s)
    && (IsActiveIn(s, workflowId) && ConditionsMet(s.workflows[workflowId].conditions, triggerData) ==>
          var w := s.workflows[workflowId];
          var k := SucceedingSteps(w.actions, triggerData, w.organizationId, input.replies, 0);
          k == |w.actions| ==>
            && r == Success(Execution(input.executionId, workflowId, triggerData, Completed, k, None))
            && t == State(s.workflows[workflowId := w.(executionCount := w.executionCount + 1)], s.executions + [r.value],
                          s.effects + EffectsOf(w.actions, triggerData, w.organizationId, k)))
    && (IsActiveIn(s, workflowId) && ConditionsMet(s.workflows[workflowId].conditions, triggerData) ==>
          var w := s.workflows[workflowId];
          var k := SucceedingSteps(w.actions, triggerData, w.organizationId, input.replies, 0);
          k < |w.actions| ==>
            var message := ActionError(w.actions[k], triggerData, w.organizationId, ReplyAt(input.replies, k)).value;
            && r == Failure(ActionFailed(k, message))
            && t == State(s.workflows, s.executions + [Execution(input.executionId, workflowId, triggerData, Failed, k, Some(message))],
                          s.effects + EffectsOf(w.actions, triggerData, w.organizationId, k + 1)))
  }

  /** The outcome is exactly the run: the result and new state it allows are the ones `RunWorkflow` gives. */
  lemma OutcomeIsRun(s: State, workflowId: string, triggerData: Json, input: RunInput,
                     r: Result<Execution, RunError>, t: State)
    ensures Outcome(s, workflowId, triggerData, input, r, t) <==> (r, t) == RunWorkflow(s, workflowId, triggerData, input)
  {
  }

  /** One run of the dispatch: the dispatch from row `i` is that run followed, unless it failed, by the dispatch from row `i + 1`. */
  lemma DispatchStep(s: State, triggerData: Json, rows: seq<string>, runs: seq<RunInput>, i: nat,
                     r: Result<Execution, RunError>, s1: State)
    requires |runs| == |rows| && i < |rows|
    requires (r, s1) == RunWorkflow(s, rows[i], triggerData, RunInput(runs[i].executionId, runs[i].replies))
    ensures r.Failure? ==> Dispatch(s, triggerData, rows[i..], runs[i..]) == ([r], s1)
    ensures r.Success? ==>
      Dispatch(s, triggerData, rows[i..], runs[i..])
      == ([r] + Dispatch(s1, triggerData, rows[i + 1..], runs[i + 1..]).0, Dispatch(s1, triggerData, rows[i + 1..], runs[i + 1..]).1)
  {
    assert rows[i..][0] == rows[i] && rows[i..][1..] == rows[i + 1..];
    assert runs[i..][0] == runs[i] && runs[i..][1..] == runs[i + 1..];
    assert RunInput(runs[i].executionId, runs[i].replies) == runs[i];
  }

  /** Counter increases that each match their completed rows add up over two successive changes of the state. */
  lemma CountsCompose(s: State, s1: State, t: State, id: string)
    requires s.executions <= s1.executions <= t.executions
    requires id in s.workflows && id in s1.workflows && id in t.workflows
    requires s1.workflows[id].executionCount == s.workflows[id].executionCount + CompletedRuns(s1.executions[|s.executions|..], id)
    requires t.workflows[id].executionCount == s1.workflows[id].executionCount + CompletedRuns(t.executions[|s1.executions|..], id)
    ensures t.workflows[id].executionCount == s.workflows[id].executionCount + CompletedRuns(t.executions[|s.executions|..], id)
  {
    assert t.executions[|s.executions|..] == s1.executions[|s.executions|..] + t.executions[|s1.executions|..];
    CompletedRunsAppend(s1.executions[|s.executions|..], t.executions[|s1.executions|..], id);
  }

  /** Each workflow's counter rises by the number of completed rows of that workflow the dispatch stored. */
  lemma {:induction false} DispatchCounts(s: State, triggerData: Json, rows: seq<string>, runs: seq<RunInput>, id: string)
    requires |runs| == |rows| && id in s.workflows
    ensures var t := Dispatch(s, triggerData, rows, runs).1;
      && id in t.workflows && |s.executions| <= |t.executions|
      && t.workflows[id].executionCount == s.workflows[id].executionCount + CompletedRuns(t.executions[|s.executions|..], id)
    decreases |rows|
  {
    DispatchGrows(s, triggerData, rows, runs);
    if rows != [] {
      var first := RunWorkflow(s, rows[0], triggerData, runs[0]);
      RunWorkflowFacts(s, rows[0], triggerData, runs[0]);
      if first.0.Success? {
        var s1 := first.1;
        DispatchGrows(s1, triggerData, rows[1..], runs[1..]);
        DispatchCounts(s1, triggerData, rows[1..], runs[1..], id);
        CountsCompose(s, s1, Dispatch(s1, triggerData, rows[1..], runs[1..]).1, id);
      }
    } else {
      assert s.executions[|s.executions|..] == [];
    }
  }

  class WorkflowService {
    /** The workflows table, by id. */
    var workflows: map<string, Workflow>
    /** The workflow_executions table, in insertion order. */
    var executions: seq<Execution>
    /** Every pause and collaborator call made so far, in order. */
    var effects: seq<Effect>

    constructor (workflows: map<string, Workflow>)
      ensures this.workflows == workflows && executions == [] && effects == []
    {
      this.workflows := workflows;
      executions := [];
      effects := [];
    }

    /** `SELECT * FROM workflows WHERE id = $1 AND is_active = true` finds a row. */
    predicate Active(id: string)
      reads this
    {
      id in workflows && workflows[id].isActive
    }

    /** The rows the dispatcher's query returns: active, of the trigger type, of the event's organization. */
    predicate Matches(id: string, triggerType: TriggerType, triggerData: Json)
      reads this
    {
      Active(id) && workflows[id].triggerType == triggerType
      && GetField(triggerData, "organization_id") == Str(workflows[id].organizationId)
    }

    /** `executeAction`: the handler's collaborator call, and the message it fails with. */
    method ExecuteAction(action: Action, triggerData: Json, organizationId: string, reply: Reply) returns (error: Option<string>)
      modifies this`effects
      ensures error == ActionError(action, triggerData, organizationId, reply)
      ensures effects == old(effects) + CallEffects(action, triggerData, organizationId)
    {
      var call := HandlerEffect(action, triggerData, organizationId);
      if call.Some? {
        effects := effects + [call.value];
      }
      error := ActionError(action, triggerData, organizationId, reply);
    }

    /**
     * One pass of the try block in `executeWorkflow`'s loop: the optional
     * delay, the action, then either `current_step` advances by one or the
     * row is marked failed with the error message.
     */
    method RunStep(action: Action, triggerData: Json, org: string, reply: Reply, row: nat) returns (error: Option<string>)
      requires row < |executions|
      modifies this`executions, this`effects
      ensures error == ActionError(action, triggerData, org, reply)
      ensures effects == old(effects) + Effects(action, triggerData, org)
      ensures executions == old(executions)[row := StepRow(old(executions)[row], error)]
    {
      if DelayApplies(action) {
        effects := effects + [Sleep(action.delayMinutes)];
      }
      error := ExecuteAction(action, triggerData, org, reply);
      executions := executions[row := StepRow(executions[row], error)];
    }

    /**
     * One iteration of `executeWorkflow`'s loop, stated against the run so
     * far: with `k` steps done, step `k` either advances the row to `k + 1`
     * steps or marks it failed, and its effects extend the log.
     */
    method AdvanceRun(actions: seq<Action>, triggerData: Json, org: string, replies: seq<Reply>, k: nat, row: nat,
                      ghost initial: Execution, ghost rows: seq<Execution>, ghost log: seq<Effect>)
      returns (error: Option<string>)
      requires k < |actions| && LeadingStepsSucceed(actions, triggerData, org, replies, k)
      requires row < |rows| && executions == rows[row := RowAfter(initial, k, None)]
      requires effects == log + EffectsOf(actions, triggerData, org, k)
      modifies this`executions, this`effects
      ensures error == ActionError(actions[k], triggerData, org, ReplyAt(replies, k))
      ensures error.None? ==> LeadingStepsSucceed(actions, triggerData, org, replies, k + 1)
      ensures executions == rows[row := RowAfter(initial, if error.Some? then k else k + 1, error)]
      ensures effects == log + EffectsOf(actions, triggerData, org, k + 1)
    {
      EffectsStep(log, actions, triggerData, org, k);
      error := RunStep(actions[k], triggerData, org, ReplyAt(replies, k), row);
      RowStep(initial, k, error);
      UpdateTwice(rows, row, RowAfter(initial, k, None), RowAfter(initial, if error.Some? then k else k + 1, error));
      if error.None? {
        ExtendSuccess(actions, triggerData, org, replies, k);
      }
    }

    /**
     * The loop of `executeWorkflow` over the actions, updating the run's own
     * execution row (the last one stored): `current_step` becomes `i + 1`
     * after action `i` succeeds; the first failure marks the row failed with
     * the error message and ends the loop. Returns how many actions succeeded
     * and the failure message, if any.
     */
    method RunActions(actions: seq<Action>, triggerData: Json, org: string, replies: seq<Reply>)
      returns (k: nat, error: Option<string>)
      requires executions != [] && executions[|executions| - 1].status == Running
      requires executions[|executions| - 1].currentStep == 0 && executions[|executions| - 1].errorMessage == None
      modifies this`executions, this`effects
      ensures k == SucceedingSteps(actions, triggerData, org, replies, 0)
      ensures k < |actions| ==> error == ActionError(actions[k], triggerData, org, ReplyAt(replies, k))
      ensures k == |actions| ==> error == None
      ensures executions == old(executions)[|old(executions)| - 1 := RowAfter(old(executions)[|old(executions)| - 1], k, error)]
      ensures k < |actions| ==> effects == old(effects) + EffectsOf(actions, triggerData, org, k + 1)
      ensures k == |actions| ==> effects == old(effects) + EffectsOf(actions, triggerData, org, k)
    {
      var row := |executions| - 1;
      ghost var initial := executions[row];
      k, error := 0, None;
      assert initial == RowAfter(initial, 0, None);
      assert executions == old(executions)[row := initial];
      while k < |actions|
        invariant 0 <= k <= |actions| && LeadingStepsSucceed(actions, triggerData, org, replies, k)
        invariant error == None
        invariant executions == old(executions)[row := RowAfter(initial, k, None)]
        invariant effects == old(effects) + EffectsOf(actions, triggerData, org, k)
      {
        error := AdvanceRun(actions, triggerData, org, replies, k, row, initial, old(executions), old(effects));
        if error.Some? {
          FirstFailure(actions, triggerData, org, replies, 0, k);
          return;
        }
        k := k + 1;
      }
      FirstFailure(actions, triggerData, org, replies, 0, k);
    }

    /**
     * `executeWorkflow`. A missing or inactive workflow is an error; unmet
     * conditions give a completed result with no step taken and nothing
     * stored; otherwise one execution row is stored and the actions run in
     * order until one fails.
     */
    method ExecuteWorkflow(workflowId: string, triggerData: Json, executionId: string, replies: seq<Reply>)
      returns (r: Result<Execution, RunError>)
      modifies this
      ensures r.Success? ==> r.value.workflowId == workflowId
      ensures r.Failure? ==> (r.error.ActionFailed? <==> old(Active(workflowId)))
      ensures workflows.Keys == old(workflows).Keys
      ensures forall id :: id in workflows ==>
        workflows[id].isActive == old(workflows)[id].isActive && workflows[id].executionCount >= old(workflows)[id].executionCount
      ensures Outcome(old(State(workflows, executions, effects)), workflowId, triggerData, RunInput(executionId, replies),
                      r, State(workflows, executions, effects))
    {
      if workflowId !in workflows || !workflows[workflowId].isActive {
        return Failure(WorkflowNotFound);
      }
      var workflow := workflows[workflowId];
      var conditionsMet := EvaluateConditions(workflow.conditions, triggerData);
      if !conditionsMet {
        return Success(Execution(executionId, workflowId, triggerData, Completed, 0, None));
      }

      executions := executions + [Execution(executionId, workflowId, triggerData, Running, 0, None)];
      var k, error := RunActions(workflow.actions, triggerData, workflow.organizationId, replies);
      var row := |executions| - 1;
      assert executions[..row] == old(executions);
      if error.Some? {
        assert executions == old(executions) + [executions[row]];
        return Failure(ActionFailed(k, error.value));
      }
      executions := executions[row := executions[row].(status := Completed)];
      assert executions == old(executions) + [executions[row]];
      workflows := workflows[workflowId := workflow.(executionCount := workflow.executionCount + 1)];
      return Success(Execution(executionId, workflowId, triggerData, Completed, |workflow.actions|, None));
    }

    /**
     * One iteration of `handleTrigger`'s loop, stated against the dispatch:
     * `done` are the results so far, and the run of row `i` either ends the
     * dispatch or leaves the dispatch from row `i + 1` to go.
     */
    method DispatchNext(triggerData: Json, rows: seq<string>, runs: seq<RunInput>, i: nat,
                        ghost s0: State, ghost done: seq<Result<Execution, RunError>>)
      returns (r: Result<Execution, RunError>)
      requires |runs| == |rows| && i < |rows|
      requires Dispatch(s0, triggerData, rows, runs).0 == done + Dispatch(State(workflows, executions, effects), triggerData, rows[i..], runs[i..]).0
      requires Dispatch(s0, triggerData, rows, runs).1 == Dispatch(State(workflows, executions, effects), triggerData, rows[i..], runs[i..]).1
      modifies this
      ensures r.Failure? ==>
        Dispatch(s0, triggerData, rows, runs).0 == done + [r] && Dispatch(s0, triggerData, rows, runs).1 == State(workflows, executions, effects)
      ensures r.Success? ==>
        && Dispatch(s0, triggerData, rows, runs).0
           == done + [r] + Dispatch(State(workflows, executions, effects), triggerData, rows[i + 1..], runs[i + 1..]).0
        && Dispatch(s0, triggerData, rows, runs).1
           == Dispatch(State(workflows, executions, effects), triggerData, rows[i + 1..], runs[i + 1..]).1
    {
      ghost var s := State(workflows, executions, effects);
      r := ExecuteWorkflow(rows[i], triggerData, runs[i].executionId, runs[i].replies);
      ghost var s1 := State(workflows, executions, effects);
      OutcomeIsRun(s, rows[i], triggerData, RunInput(runs[i].executionId, runs[i].replies), r, s1);
      DispatchStep(s, triggerData, rows, runs, i, r, s1);
      if r.Success? {
        ghost var rest := Dispatch(s1, triggerData, rows[i + 1..], runs[i + 1..]);
        assert done + ([r] + rest.0) == done + [r] + rest.0;
      }
    }

    /**
     * `handleTrigger`: the matching workflows run one after another. The
     * try block surrounds the whole loop, so the first run that fails ends the
     * dispatch and its error goes no further. `results` lists what each run
     * that took place returned.
     */
    method HandleTrigger(triggerType: TriggerType, triggerData: Json, rows: seq<string>, runs: seq<RunInput>)
      returns (results: seq<Result<Execution, RunError>>)
      requires |runs| == |rows|
      requires forall i :: 0 <= i < |rows| ==> Matches(rows[i], triggerType, triggerData)
      modifies this
      ensures results == Dispatch(old(State(workflows, executions, effects)), triggerData, rows, runs).0
      ensures State(workflows, executions, effects) == Dispatch(old(State(workflows, executions, effects)), triggerData, rows, runs).1
      ensures |results| <= |rows|
      ensures forall i :: 0 <= i < |results| && results[i].Failure? ==> i == |results| - 1 && results[i].error.ActionFailed?
      ensures |results| < |rows| ==> results != [] && results[|results| - 1].Failure?
      ensures forall i :: 0 <= i < |results| && results[i].Success? ==> results[i].value.workflowId == rows[i]
      ensures workflows.Keys == old(workflows).Keys
      ensures old(executions) <= executions && |executions| <= |old(executions)| + |results|
      ensures old(effects) <= effects
      ensures forall id :: id in workflows && id !in rows[..|results|] ==> workflows[id] == old(workflows)[id]
      ensures forall id :: id in workflows ==>
        workflows[id].executionCount == old(workflows)[id].executionCount + CompletedRuns(executions[|old(executions)|..], id)
    {
      ghost var s0 := State(workflows, executions, effects);
      assert forall i :: 0 <= i < |rows| ==> IsActiveIn(s0, rows[i]);
      ghost var all := Dispatch(s0, triggerData, rows, runs);
      results := [];
      var i := 0;
      assert rows[i..] == rows && runs[i..] == runs;
      ghost var rest := all;
      assert State(workflows, executions, effects) == s0;
      assert rest == Dispatch(State(workflows, executions, effects), triggerData, rows[i..], runs[i..]);
      assert results + rest.0 == all.0;
      while i < |rows|
        invariant 0 <= i <= |rows|
        invariant rest == Dispatch(State(workflows, executions, effects), triggerData, rows[i..], runs[i..])
        invariant all.0 == results + rest.0 && all.1 == rest.1
      {
        var r := DispatchNext(triggerData, rows, runs, i, s0, results);
        results := results + [r];
        if r.Failure? {
          break;
        }
        rest := Dispatch(State(workflows, executions, effects), triggerData, rows[i + 1..], runs[i + 1..]);
        i := i + 1;
        assert rest == Dispatch(State(workflows, executions, effects), triggerData, rows[i..], runs[i..]);
      }
      assert i == |rows| ==> rows[i..] == [] && runs[i..] == [];
      DispatchFacts(s0, triggerData, rows, runs, results, State(workflows, executions, effects));
    }
  }
}
