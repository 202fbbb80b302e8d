/**
 * Workflow actions (`executeAction` and its per-kind handlers). Each handler
 * makes at most one call on a collaborator (the mailer, the activities table, the
 * entity store, the HTTP client); what the collaborator answers is an input
 * (`Reply`), and whether the action then fails, and with which message, is a
 * function of that answer.
 */
module Actions {
  import opened Wrappers
  import opened Json
  import opened Interpolation

  /** `send_notification` is a declared kind that no handler exists for. */
  datatype ActionType =
    | SendEmail | CreateTask | UpdateField | SendNotification | Webhook | Wait
    | OtherAction(name: string)

  /** The configuration fields the handlers read; an absent field is `Undefined`. */
  datatype ActionConfig = ActionConfig(
    to: Json, subject: Json, body: Json,
    taskTitle: Json, taskDescription: Json, assignTo: Json, dueDateOffsetDays: Json,
    fieldName: Json, fieldValue: Json,
    url: Json, httpMethod: Json, headers: Json, bodyTemplate: Json,
    waitMinutes: Json)

  datatype Action = Action(kind: ActionType, config: ActionConfig, delayMinutes: Json)

  /** A call on a collaborator, or a pause (which has no effect in this model). */
  datatype Effect =
    | Sleep(minutes: Json)
    | SendMail(to: seq<Json>, subject: Json, bodyHtml: Json, organizationId: string)
    | InsertTask(organizationId: string, title: Json, description: Json, assignedTo: Json, dueOffsetDays: int)
    | UpdateEntity(entityType: Json, entityId: Json, fieldName: Json, value: Json, organizationId: string)
    | HttpCall(url: Json, httpMethod: Json, headers: Json, body: Json)

  /**
   * What the collaborator did: finished, threw with a message, or (for the
   * HTTP client) answered with a status code. Only the webhook handler reads
   * a status; for the other handlers any answer but `Threw` is success.
   */
  datatype Reply = Done | Threw(message: string) | Http(status: int)

  const MissingFieldsMessage := "Missing required fields for update action"
  const DefaultSubject := "CRM Notification"

  /** `if (action.delay_minutes && action.delay_minutes > 0)`. */
  predicate DelayApplies(a: Action) {
    Truthy(a.delayMinutes) && match ToNumber(a.delayMinutes) case Some(d) => d > 0 case None => false
  }

  /** `Array.isArray(recipients) ? recipients : [recipients]`. */
  function Recipients(v: Json): (r: seq<Json>)
    ensures v.Arr? ==> r == v.items
    ensures !v.Arr? ==> r == [v]
  {
    if v.Arr? then v.items else [v]
  }

  /**
   * The day offset `setDate` adds when `due_date_offset_days` is a truthy
   * number; the declared type is `number`, so other values count as 0.
   */
  function DueOffset(v: Json): int {
    if Truthy(v) && v.Num? then v.n else 0
  }

  /** `!entityType || !entityId || !fieldName` for the update_field handler. */
  predicate MissingUpdateParts(config: ActionConfig, data: Json) {
    !Truthy(GetField(data, "entity_type")) || !Truthy(GetField(data, "entity_id")) || !Truthy(config.fieldName)
  }

  /** The collaborator call the action's handler makes, if it makes one. */
  function HandlerEffect(a: Action, data: Json, org: string): (r: Option<Effect>)
    ensures (a.kind.SendNotification? || a.kind.OtherAction?) ==> r.None?
    ensures a.kind.UpdateField? ==> (r.None? <==> MissingUpdateParts(a.config, data))
  {
    var c := a.config;
    match a.kind
    case SendEmail =>
      var subject := InterpolateValue(c.subject, data);
      Some(SendMail(Recipients(InterpolateValue(c.to, data)),
                    if Truthy(subject) then subject else Str(DefaultSubject),
                    InterpolateValue(c.body, data), org))
    case CreateTask =>
      Some(InsertTask(org, InterpolateValue(c.taskTitle, data), InterpolateValue(c.taskDescription, data),
                      c.assignTo, DueOffset(c.dueDateOffsetDays)))
    case UpdateField =>
      if MissingUpdateParts(c, data) then None
      else Some(UpdateEntity(GetField(data, "entity_type"), GetField(data, "entity_id"), c.fieldName,
                             InterpolateValue(c.fieldValue, data), org))
    case Webhook =>
      Some(HttpCall(c.url,
                    if Truthy(c.httpMethod) then c.httpMethod else Str("POST"),
                    if Truthy(c.headers) then c.headers else Obj(map["Content-Type" := Str("application/json")]),
                    InterpolateValue(c.bodyTemplate, data)))
    case Wait => Some(Sleep(if Truthy(c.waitMinutes) then c.waitMinutes else Num(0)))
    case _ => None
  }

  /** Whether the HTTP response is `ok` (a 2xx status). */
  predicate HttpOk(status: int) {
    200 <= status <= 299
  }

  /** The message of a failed webhook call. */
  function WebhookFailure(status: int): (m: string)
    ensures "Webhook failed with status " <= m
  {
    "Webhook failed with status " + IntToString(status)
  }

  /**
   * The message the action fails with, given the collaborator's reply; `None`
   * when it succeeds. update_field reads `triggerData.entity_type` first, so
   * `null` or `undefined` trigger data fails with the `TypeError` of that read.
   */
  function ActionError(a: Action, data: Json, org: string, reply: Reply): (r: Option<string>)
    ensures (a.kind.Wait? || a.kind.SendNotification? || a.kind.OtherAction?) ==> r.None?
    ensures (a.kind.SendEmail? || a.kind.CreateTask?) ==> (r.Some? <==> reply.Threw?) && (reply.Threw? ==> r == Some(reply.message))
    ensures a.kind.UpdateField? && IsNullish(data) ==> r == Some(ReadError(data, "entity_type"))
    ensures a.kind.UpdateField? && !IsNullish(data) && MissingUpdateParts(a.config, data) ==> r == Some(MissingFieldsMessage)
    ensures a.kind.UpdateField? && !MissingUpdateParts(a.config, data) ==> (r.Some? <==> reply.Threw?) && (reply.Threw? ==> r == Some(reply.message))
    ensures a.kind.Webhook? && reply.Threw? ==> r == Some(reply.message)
    ensures a.kind.Webhook? && reply.Http? && !HttpOk(reply.status) ==> r == Some(WebhookFailure(reply.status))
    ensures a.kind.Webhook? && !reply.Threw? && !(reply.Http? && !HttpOk(reply.status)) ==> r.None?
  {
    match a.kind
    case Wait => None
    case SendNotification => None
    case OtherAction(_) => None
    case UpdateField =>
      if IsNullish(data) then Some(ReadError(data, "entity_type"))
      else if MissingUpdateParts(a.config, data) then Some(MissingFieldsMessage)
      else if reply.Threw? then Some(reply.message) else None
    case Webhook =>
      if reply.Threw? then Some(reply.message)
      else if reply.Http? && !HttpOk(reply.status) then Some(WebhookFailure(reply.status))
      else None
    case _ => if reply.Threw? then Some(reply.message) else None
  }

  /** The pause `executeWorkflow` takes before the action, if its delay applies. */
  function DelayEffects(a: Action): (r: seq<Effect>)
    ensures r == [] || r == [Sleep(a.delayMinutes)]
  {
    if DelayApplies(a) then [Sleep(a.delayMinutes)] else []
  }

  /** The handler's collaborator call as a list of at most one element. */
  function CallEffects(a: Action, data: Json, org: string): (r: seq<Effect>)
    ensures |r| <= 1
  {
    match HandlerEffect(a, data, org) case Some(e) => [e] case None => []
  }

  /** Everything the engine does for one action: the optional delay, then the handler's call. */
  function Effects(a: Action, data: Json, org: string): (r: seq<Effect>)
    ensures |r| <= 2
    ensures DelayApplies(a) <==> (r != [] && r[0] == Sleep(a.delayMinutes) && (|r| == 2 || HandlerEffect(a, data, org).None?))
  {
    DelayEffects(a) + CallEffects(a, data, org)
  }

  /** An unknown kind, and the unhandled `send_notification`, succeed whatever happens and call nothing. */
  lemma UnknownActionIsNoOp(a: Action, data: Json, org: string, reply: Reply)
    requires a.kind.SendNotification? || a.kind.OtherAction?
    ensures ActionError(a, data, org, reply).None?
    ensures Effects(a, data, org) == if DelayApplies(a) then [Sleep(a.delayMinutes)] else []
  {
  }

  /** update_field fails, without calling the entity store, exactly when entity type, entity id or field name is missing. */
  lemma UpdateFieldPreconditions(a: Action, data: Json, org: string, reply: Reply)
    requires a.kind.UpdateField? && !reply.Threw?
    ensures ActionError(a, data, org, reply).Some? <==> MissingUpdateParts(a.config, data)
    ensures HandlerEffect(a, data, org).None? <==> MissingUpdateParts(a.config, data)
  {
  }

  /** update_field on `null` trigger data fails with the `TypeError` of `triggerData.entity_type`, and calls nothing. */
  lemma UpdateFieldOnNullData(a: Action, org: string, reply: Reply)
    requires a.kind.UpdateField?
    ensures ActionError(a, Null, org, reply) == Some("Cannot read properties of null (reading 'entity_type')")
    ensures HandlerEffect(a, Null, org).None?
  {
    assert ReadError(Null, "entity_type") == "Cannot read properties of null (reading 'entity_type')";
  }

  /** A webhook fails on a status outside 2xx or a thrown fetch, and only then. */
  lemma WebhookFailsUnlessOk(a: Action, data: Json, org: string, reply: Reply)
    requires a.kind.Webhook?
    ensures ActionError(a, data, org, reply).Some? <==> (reply.Threw? || (reply.Http? && !HttpOk(reply.status)))
  {
  }

  /** A recipient list given as an array is passed on as it is: it is never interpolated. */
  lemma EmailRecipientArrayNotInterpolated(a: Action, data: Json, org: string)
    requires a.kind.SendEmail? && a.config.to.Arr?
    ensures HandlerEffect(a, data, org).Some? && HandlerEffect(a, data, org).value.to == a.config.to.items
  {
  }

  /** A single recipient string is interpolated and wrapped in a one-element list. */
  lemma EmailRecipientStringInterpolated(a: Action, data: Json, org: string)
    requires a.kind.SendEmail? && a.config.to.Str?
    ensures HandlerEffect(a, data, org) == Some(SendMail(
      [Str(Interpolate(a.config.to.s, data))],
      HandlerEffect(a, data, org).value.subject,
      InterpolateValue(a.config.body, data), org))
  {
  }
}
