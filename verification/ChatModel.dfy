/**
 * Conversations, their assignment log, messages and read cursors, and what each service call does to them.
 * Tables are sequences in insertion order; a conversation's id is its row's position. A call takes the clock
 * and the outcome of its permission check as parameters.
 */
module ChatModel {
  import opened Common

  type ConvId = nat

  datatype ConversationType = Website | Inquiry | Property | Support | Internal

  datatype ConversationStatus = Open | Assigned | Waiting | Closed | Archived

  datatype Conversation = Conversation(
    tenant: string, convType: ConversationType, status: ConversationStatus, assignedEmployee: Option<string>,
    lastMessageAt: Option<int>, closedAt: Option<int>, deleted: bool)

  datatype Participant = Participant(
    tenant: string, conversation: ConvId, userId: Option<string>, employeeId: Option<string>, lastReadAt: Option<int>)

  /** `assignedBy` is null for automatic assignments. */
  datatype Assignment = Assignment(tenant: string, conversation: ConvId, employee: string, assignedBy: Option<string>)

  datatype Message = Message(conversation: ConvId, sender: Option<string>, createdAt: int)

  datatype Employee = Employee(id: string, userId: string, tenant: string)

  /** `pools` lists each tenant's assignable agents in order of creation. */
  datatype Chat = Chat(
    employees: seq<Employee>, pools: map<string, seq<Employee>>,
    conversations: seq<Conversation>, participants: seq<Participant>,
    assignments: seq<Assignment>, messages: seq<Message>)

  datatype ChatError = NotFound | Forbidden | InvalidEmployee | ConversationClosed | EmptyMessage

  type Outcome = Option<ChatError>

  predicate IsClosed(status: ConversationStatus) {
    status == Closed || status == Archived
  }

  /** `isUnread`: there is a message and the cursor is missing or older. */
  predicate IsUnread(lastMessageAt: Option<int>, lastReadAt: Option<int>) {
    lastMessageAt.Some? && (lastReadAt.None? || lastReadAt.value < lastMessageAt.value)
  }

  // ----- Queries -----

  function FindEmployeeById(employees: seq<Employee>, tenant: string, id: string): (r: Option<Employee>)
    ensures r.Some? ==> r.value in employees && r.value.id == id && r.value.tenant == tenant
    ensures r.None? ==> forall e :: e in employees ==> e.id != id || e.tenant != tenant
  {
    if |employees| == 0 then None
    else if employees[0].id == id && employees[0].tenant == tenant then Some(employees[0])
    else FindEmployeeById(employees[1..], tenant, id)
  }

  function FindEmployeeByUserId(employees: seq<Employee>, tenant: string, user: string): (r: Option<Employee>)
    ensures r.Some? ==> r.value in employees && r.value.userId == user && r.value.tenant == tenant
    ensures r.None? ==> forall e :: e in employees ==> e.userId != user || e.tenant != tenant
  {
    if |employees| == 0 then None
    else if employees[0].userId == user && employees[0].tenant == tenant then Some(employees[0])
    else FindEmployeeByUserId(employees[1..], tenant, user)
  }

  predicate Exists(s: Chat, tenant: string, id: ConvId) {
    id < |s.conversations| && s.conversations[id].tenant == tenant && !s.conversations[id].deleted
  }

  predicate IsRowOf(p: Participant, c: ConvId, user: string) {
    p.conversation == c && p.userId == Some(user)
  }

  function FindParticipant(ps: seq<Participant>, c: ConvId, user: string): (r: Option<nat>)
    ensures r.Some? ==> r.value < |ps| && IsRowOf(ps[r.value], c, user)
    ensures r.None? ==> forall i :: 0 <= i < |ps| ==> !IsRowOf(ps[i], c, user)
  {
    if |ps| == 0 then None
    else
      var earlier := FindParticipant(ps[..|ps| - 1], c, user);
      if earlier.Some? then earlier
      else if IsRowOf(ps[|ps| - 1], c, user) then Some(|ps| - 1)
      else None
  }

  /** The employee of the newest automatic assignment of the tenant. */
  function LastAutoAssigned(log: seq<Assignment>, tenant: string): Option<string> {
    if |log| == 0 then None
    else
      var last := log[|log| - 1];
      if last.tenant == tenant && last.assignedBy.None? then Some(last.employee)
      else LastAutoAssigned(log[..|log| - 1], tenant)
  }

  function IndexOfAgent(pool: seq<Employee>, id: string): (r: int)
    ensures -1 <= r < |pool|
    ensures r >= 0 ==> pool[r].id == id && forall i :: 0 <= i < r ==> pool[i].id != id
    ensures r == -1 ==> forall i :: 0 <= i < |pool| ==> pool[i].id != id
  {
    if |pool| == 0 then -1
    else
      var earlier := IndexOfAgent(pool[..|pool| - 1], id);
      if earlier >= 0 then earlier
      else if pool[|pool| - 1].id == id then |pool| - 1
      else -1
  }

  function Pool(s: Chat, tenant: string): seq<Employee> {
    if tenant in s.pools then s.pools[tenant] else []
  }

  function PickNext(pool: seq<Employee>, last: Option<string>): Option<Employee> {
    if |pool| == 0 then None
    else if |pool| == 1 then Some(pool[0])
    else
      var index := if last.Some? && last.value != "" then IndexOfAgent(pool, last.value) else -1;
      Some(pool[(index + 1) % |pool|])
  }

  function PickNextAssignableEmployee(s: Chat, tenant: string): Option<Employee> {
    PickNext(Pool(s, tenant), LastAutoAssigned(s.assignments, tenant))
  }

  // ----- Updates of single tables -----

  /** Insert, or on a (conversation, user) conflict only rewrite the employee. */
  function Upsert(ps: seq<Participant>, row: Participant): seq<Participant>
    requires row.userId.Some?
  {
    match FindParticipant(ps, row.conversation, row.userId.value)
    case Some(i) => ps[i := ps[i].(employeeId := row.employeeId)]
    case None => ps + [row]
  }

  /** Insert, skipping a duplicate (conversation, user). */
  function AddIfAbsent(ps: seq<Participant>, row: Participant): seq<Participant>
    requires row.userId.Some?
  {
    if FindParticipant(ps, row.conversation, row.userId.value).Some? then ps else ps + [row]
  }

  function TouchRead(ps: seq<Participant>, tenant: string, c: ConvId, user: string, now: int): seq<Participant> {
    seq(|ps|, i requires 0 <= i < |ps| =>
      if IsRowOf(ps[i], c, user) && ps[i].tenant == tenant then ps[i].(lastReadAt := Some(now)) else ps[i])
  }

  // ----- Repository transactions -----

  function AssignTo(s: Chat, tenant: string, id: ConvId, employee: string, user: string, assignedBy: Option<string>): Chat
    requires id < |s.conversations|
  {
    s.(conversations := s.conversations[id := s.conversations[id].(assignedEmployee := Some(employee), status := Assigned)],
       assignments := s.assignments + [Assignment(tenant, id, employee, assignedBy)],
       participants := Upsert(s.participants, Participant(tenant, id, Some(user), Some(employee), None)))
  }

  function AddMessage(s: Chat, tenant: string, id: ConvId, sender: Option<string>, now: int): Chat
    requires id < |s.conversations|
  {
    s.(conversations := s.conversations[id := s.conversations[id].(lastMessageAt := Some(now))],
       messages := s.messages + [Message(id, sender, now)],
       participants := if sender.Some? then TouchRead(s.participants, tenant, id, sender.value, now) else s.participants)
  }

  // ----- Service calls -----

  datatype NewConversation = NewConversation(
    tenant: string, convType: ConversationType, assignee: Option<string>, creator: string, initialMessage: bool)

  /** The participants `create` lists: the creator of an internal or support thread, then the assignee. */
  function InitialParticipants(s: Chat, dto: NewConversation, id: ConvId): seq<Participant> {
    var creator := FindEmployeeByUserId(s.employees, dto.tenant, dto.creator);
    var joined :=
      if dto.convType == Internal || dto.convType == Support
      then AddIfAbsent(s.participants, Participant(dto.tenant, id, Some(dto.creator),
                                                   if creator.Some? then Some(creator.value.id) else None, None))
      else s.participants;
    var assignee := if dto.assignee.Some? then FindEmployeeById(s.employees, dto.tenant, dto.assignee.value) else None;
    if assignee.None? then joined
    else AddIfAbsent(joined, Participant(dto.tenant, id, Some(assignee.value.userId), Some(assignee.value.id), None))
  }

  function Create(s: Chat, dto: NewConversation, now: int): (Chat, Outcome) {
    if dto.assignee.Some? && FindEmployeeById(s.employees, dto.tenant, dto.assignee.value).None? then
      (s, Some(InvalidEmployee))
    else
      var id := |s.conversations|;
      var started := s.(
        conversations := s.conversations + [Conversation(dto.tenant, dto.convType, Open, None, None, None, false)],
        participants := InitialParticipants(s, dto, id));
      var staffed :=
        if dto.assignee.None? then started
        else AssignTo(started, dto.tenant, id, dto.assignee.value,
                      FindEmployeeById(s.employees, dto.tenant, dto.assignee.value).value.userId, Some(dto.creator));
      var written :=
        if dto.initialMessage
        then staffed.(conversations := staffed.conversations[id := staffed.conversations[id].(lastMessageAt := Some(now))],
                       messages := s.messages + [Message(id, Some(dto.creator), now)])
        else staffed;
      (written, None)
  }

  /** A visitor's first message; `content` is whether anything is left of it after sanitising. */
  function StartPublic(s: Chat, tenant: string, content: bool, now: int): (Chat, Outcome) {
    if !content then (s, Some(EmptyMessage))
    else
      var id := |s.conversations|;
      (s.(conversations := s.conversations + [Conversation(tenant, Website, Open, None, Some(now), None, false)],
          participants := s.participants + [Participant(tenant, id, None, None, None)],
          messages := s.messages + [Message(id, None, now)]),
       None)
  }

  function Update(s: Chat, tenant: string, id: ConvId, allowed: bool, status: Option<ConversationStatus>, now: int)
    : (Chat, Outcome)
  {
    if !Exists(s, tenant, id) || !allowed then (s, Some(NotFound))
    else
      var c := s.conversations[id];
      if status.None? || status.value == c.status then (s, None)
      else
        var row := c.(status := status.value, closedAt := if IsClosed(status.value) then Some(now) else c.closedAt);
        (s.(conversations := s.conversations[id := row]), None)
  }

  function Assign(s: Chat, tenant: string, id: ConvId, allowed: bool, employee: string, actor: string): (Chat, Outcome) {
    if !allowed then (s, Some(Forbidden))
    else if !Exists(s, tenant, id) then (s, Some(NotFound))
    else
      match FindEmployeeById(s.employees, tenant, employee)
      case None => (s, Some(InvalidEmployee))
      case Some(e) => (AssignTo(s, tenant, id, employee, e.userId, Some(actor)), None)
  }

  function Close(s: Chat, tenant: string, id: ConvId, allowed: bool, archive: bool, now: int): (Chat, Outcome) {
    if !Exists(s, tenant, id) || !allowed then (s, Some(NotFound))
    else
      var row := s.conversations[id].(status := if archive then Archived else Closed, closedAt := Some(now));
      (s.(conversations := s.conversations[id := row]), None)
  }

  /** One run of the auto-assign job. */
  function PerformAutoAssign(s: Chat, tenant: string, id: ConvId, enabled: bool): Chat {
    if !enabled || !Exists(s, tenant, id) || s.conversations[id].assignedEmployee.Some?
       || IsClosed(s.conversations[id].status) then s
    else
      match PickNextAssignableEmployee(s, tenant)
      case None => s
      case Some(next) => AssignTo(s, tenant, id, next.id, next.userId, None)
  }

  function SendMessage(s: Chat, tenant: string, id: ConvId, allowed: bool, sender: string, content: bool, now: int)
    : (Chat, Outcome)
  {
    if !Exists(s, tenant, id) || !allowed then (s, Some(NotFound))
    else if IsClosed(s.conversations[id].status) then (s, Some(ConversationClosed))
    else if !content then (s, Some(EmptyMessage))
    else (AddMessage(s, tenant, id, Some(sender), now), None)
  }

  /** A visitor's message reopens a closed conversation before its content is looked at. */
  function SendPublicMessage(s: Chat, tenant: string, id: ConvId, allowed: bool, content: bool, now: int)
    : (Chat, Outcome)
  {
    if !allowed then (s, Some(Forbidden))
    else if !Exists(s, tenant, id) then (s, Some(NotFound))
    else
      var c := s.conversations[id];
      var reopened :=
        if IsClosed(c.status) then s.(conversations := s.conversations[id := c.(status := Open, closedAt := None)]) else s;
      if !content then (reopened, Some(EmptyMessage))
      else (AddMessage(reopened, tenant, id, None, now), None)
  }

  function MarkMessageRead(s: Chat, tenant: string, message: nat, allowed: bool, user: string, now: int)
    : (Chat, Outcome)
  {
    if message >= |s.messages| || !Exists(s, tenant, s.messages[message].conversation) || !allowed then
      (s, Some(NotFound))
    else
      (s.(participants := TouchRead(s.participants, tenant, s.messages[message].conversation, user, now)), None)
  }

  // ----- Runs -----

  /** `PoolChanged` is the step of other modules that changes who may be assigned automatically. */
  datatype Event =
    | CreateCall(dto: NewConversation, now: int)
    | StartPublicCall(tenant: string, content: bool, now: int)
    | UpdateCall(tenant: string, id: ConvId, allowed: bool, status: Option<ConversationStatus>, now: int)
    | AssignCall(tenant: string, id: ConvId, allowed: bool, employee: string, actor: string, now: int)
    | CloseCall(tenant: string, id: ConvId, allowed: bool, archive: bool, now: int)
    | AutoAssignJob(tenant: string, id: ConvId, enabled: bool, now: int)
    | SendCall(tenant: string, id: ConvId, allowed: bool, sender: string, content: bool, now: int)
    | SendPublicCall(tenant: string, id: ConvId, allowed: bool, content: bool, now: int)
    | ReadCall(tenant: string, message: nat, allowed: bool, user: string, now: int)
    | PoolChanged(tenant: string, pool: seq<Employee>, now: int)

  function Apply(s: Chat, e: Event): Chat {
    match e
    case CreateCall(dto, now) => Create(s, dto, now).0
    case StartPublicCall(tenant, content, now) => StartPublic(s, tenant, content, now).0
    case UpdateCall(tenant, id, allowed, status, now) => Update(s, tenant, id, allowed, status, now).0
    case AssignCall(tenant, id, allowed, employee, actor, _) => Assign(s, tenant, id, allowed, employee, actor).0
    case CloseCall(tenant, id, allowed, archive, now) => Close(s, tenant, id, allowed, archive, now).0
    case AutoAssignJob(tenant, id, enabled, _) => PerformAutoAssign(s, tenant, id, enabled)
    case SendCall(tenant, id, allowed, sender, content, now) => SendMessage(s, tenant, id, allowed, sender, content, now).0
    case SendPublicCall(tenant, id, allowed, content, now) => SendPublicMessage(s, tenant, id, allowed, content, now).0
    case ReadCall(tenant, message, allowed, user, now) => MarkMessageRead(s, tenant, message, allowed, user, now).0
    case PoolChanged(tenant, pool, _) => s.(pools := s.pools[tenant := pool])
  }

  function Run(s: Chat, es: seq<Event>): Chat {
    if |es| == 0 then s else Apply(Run(s, es[..|es| - 1]), es[|es| - 1])
  }

  lemma RunStep(s: Chat, es: seq<Event>, i: nat)
    requires i < |es|
    ensures Run(s, es[..i + 1]) == Apply(Run(s, es[..i]), es[i])
  {
    assert es[..i + 1][..i] == es[..i];
  }
}
