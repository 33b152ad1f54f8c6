/** The chat service as the source writes it: rows updated step by step inside the repository's transactions. */
module ChatService {
  import opened Common
  import M = ChatModel
  import opened ChatInvariants
  import opened ChatCalls

  class Store {
    var employees: seq<M.Employee>
    var pools: map<string, seq<M.Employee>>
    var conversations: seq<M.Conversation>
    var participants: seq<M.Participant>
    var assignments: seq<M.Assignment>
    var messages: seq<M.Message>

    function State(): M.Chat
      reads this
    {
      M.Chat(employees, pools, conversations, participants, assignments, messages)
    }

    /** Rows refer to each other, assignees and logs agree, cursors are unique, closed rows have their time. */
    ghost predicate Valid()
      reads this
    {
      ChatSound(State())
    }

    constructor (initial: M.Chat)
      requires ChatSound(initial)
      ensures Valid() && State() == initial
    {
      employees, pools := initial.employees, initial.pools;
      conversations, participants := initial.conversations, initial.participants;
      assignments, messages := initial.assignments, initial.messages;
    }

    // ----- chat.repository -----

    method UpsertParticipant(row: M.Participant)
      requires row.userId.Some?
      modifies this`participants
      ensures participants == M.Upsert(old(participants), row)
    {
      var found := M.FindParticipant(participants, row.conversation, row.userId.value);
      if found.Some? {
        participants := participants[found.value := participants[found.value].(employeeId := row.employeeId)];
      } else {
        participants := participants + [row];
      }
    }

    /** `createMany` with `skipDuplicates`. */
    method InsertParticipant(row: M.Participant)
      requires row.userId.Some?
      modifies this`participants
      ensures participants == M.AddIfAbsent(old(participants), row)
    {
      var found := M.FindParticipant(participants, row.conversation, row.userId.value);
      if found.None? {
        participants := participants + [row];
      }
    }

    /** An update of every row of the conversation and user. */
    method SetLastRead(tenant: string, id: M.ConvId, user: string, at: int)
      modifies this`participants
      ensures participants == M.TouchRead(old(participants), tenant, id, user, at)
    {
      ghost var before := participants;
      for i := 0 to |participants|
        invariant |participants| == |before|
        invariant forall j :: 0 <= j < |before| ==>
          participants[j] == if j < i then M.TouchRead(before, tenant, id, user, at)[j] else before[j]
      {
        if M.IsRowOf(participants[i], id, user) && participants[i].tenant == tenant {
          participants := participants[i := participants[i].(lastReadAt := Some(at))];
        }
      }
    }

    method AssignConversation(tenant: string, id: M.ConvId, employee: string, user: string, assignedBy: Option<string>)
      requires id < |conversations|
      modifies this`conversations, this`assignments, this`participants
      ensures State() == M.AssignTo(old(State()), tenant, id, employee, user, assignedBy)
    {
      conversations := conversations[id :=
        conversations[id].(assignedEmployee := Some(employee), status := M.Assigned)];
      assignments := assignments + [M.Assignment(tenant, id, employee, assignedBy)];
      UpsertParticipant(M.Participant(tenant, id, Some(user), Some(employee), None));
    }

    method AddMessage(tenant: string, id: M.ConvId, sender: Option<string>, now: int)
      requires id < |conversations|
      modifies this`conversations, this`messages, this`participants
      ensures State() == M.AddMessage(old(State()), tenant, id, sender, now)
    {
      messages := messages + [M.Message(id, sender, now)];
      conversations := conversations[id := conversations[id].(lastMessageAt := Some(now))];
      if sender.Some? {
        SetLastRead(tenant, id, sender.value, now);
      }
    }

    // ----- chat.service -----

    /** The checks and inserts of a creation, in order. */
    method CreateSteps(dto: M.NewConversation, now: int) returns (outcome: M.Outcome)
      modifies this`conversations, this`participants, this`assignments, this`messages
      ensures (State(), outcome) == M.Create(old(State()), dto, now)
    {
      var assignee: Option<M.Employee> := None;
      if dto.assignee.Some? {
        assignee := M.FindEmployeeById(employees, dto.tenant, dto.assignee.value);
        if assignee.None? {
          return Some(M.InvalidEmployee);
        }
      }
      var id := |conversations|;
      conversations := conversations + [M.Conversation(dto.tenant, dto.convType, M.Open, None, None, None, false)];
      if dto.convType == M.Internal || dto.convType == M.Support {
        var creator := M.FindEmployeeByUserId(employees, dto.tenant, dto.creator);
        InsertParticipant(M.Participant(dto.tenant, id, Some(dto.creator),
                                        if creator.Some? then Some(creator.value.id) else None, None));
      }
      if assignee.Some? {
        InsertParticipant(M.Participant(dto.tenant, id, Some(assignee.value.userId), Some(assignee.value.id), None));
        AssignConversation(dto.tenant, id, dto.assignee.value, assignee.value.userId, Some(dto.creator));
      }
      if dto.initialMessage {
        messages := messages + [M.Message(id, Some(dto.creator), now)];
        conversations := conversations[id := conversations[id].(lastMessageAt := Some(now))];
      }
      outcome := None;
    }

    method Create(dto: M.NewConversation, now: int) returns (outcome: M.Outcome)
      requires Valid()
      modifies this`conversations, this`participants, this`assignments, this`messages
      ensures (State(), outcome) == M.Create(old(State()), dto, now)
      ensures Valid() && CreateHolds(old(State()), dto, now, State(), outcome)
    {
      CreateMeans(State(), dto, now);
      outcome := CreateSteps(dto, now);
    }

    /** A visitor's first message. */
    method StartPublic(tenant: string, content: bool, now: int) returns (outcome: M.Outcome)
      requires Valid()
      modifies this`conversations, this`participants, this`messages
      ensures (State(), outcome) == M.StartPublic(old(State()), tenant, content, now)
      ensures Valid() && StartHolds(old(State()), tenant, content, now, State(), outcome)
    {
      StartMeans(State(), tenant, content, now);
      if !content {
        return Some(M.EmptyMessage);
      }
      var id := |conversations|;
      conversations := conversations + [M.Conversation(tenant, M.Website, M.Open, None, None, None, false)];
      participants := participants + [M.Participant(tenant, id, None, None, None)];
      messages := messages + [M.Message(id, None, now)];
      conversations := conversations[id := conversations[id].(lastMessageAt := Some(now))];
      assert conversations ==
             old(conversations) + [M.Conversation(tenant, M.Website, M.Open, None, Some(now), None, false)];
      outcome := None;
    }

    method Update(tenant: string, id: M.ConvId, allowed: bool, status: Option<M.ConversationStatus>, now: int)
      returns (outcome: M.Outcome)
      requires Valid()
      modifies this`conversations
      ensures (State(), outcome) == M.Update(old(State()), tenant, id, allowed, status, now)
      ensures Valid() && UpdateHolds(old(State()), tenant, id, allowed, status, now, State(), outcome)
    {
      UpdateMeans(State(), tenant, id, allowed, status, now);
      if !M.Exists(State(), tenant, id) || !allowed {
        return Some(M.NotFound);
      }
      var row := conversations[id];
      if status.Some? && status.value != row.status {
        if M.IsClosed(status.value) {
          row := row.(closedAt := Some(now));
        }
        row := row.(status := status.value);
        conversations := conversations[id := row];
      }
      outcome := None;
    }

    method Assign(tenant: string, id: M.ConvId, allowed: bool, employee: string, actor: string)
      returns (outcome: M.Outcome)
      requires Valid()
      modifies this`conversations, this`assignments, this`participants
      ensures (State(), outcome) == M.Assign(old(State()), tenant, id, allowed, employee, actor)
      ensures Valid() && AssignHolds(old(State()), tenant, id, allowed, employee, actor, State(), outcome)
    {
      AssignMeans(State(), tenant, id, allowed, employee, actor);
      if !allowed {
        return Some(M.Forbidden);
      }
      if !M.Exists(State(), tenant, id) {
        return Some(M.NotFound);
      }
      var found := M.FindEmployeeById(employees, tenant, employee);
      if found.None? {
        return Some(M.InvalidEmployee);
      }
      AssignConversation(tenant, id, employee, found.value.userId, Some(actor));
      outcome := None;
    }

    method Close(tenant: string, id: M.ConvId, allowed: bool, archive: bool, now: int) returns (outcome: M.Outcome)
      requires Valid()
      modifies this`conversations
      ensures (State(), outcome) == M.Close(old(State()), tenant, id, allowed, archive, now)
      ensures Valid() && CloseHolds(old(State()), tenant, id, allowed, archive, now, State(), outcome)
    {
      CloseMeans(State(), tenant, id, allowed, archive, now);
      if !M.Exists(State(), tenant, id) || !allowed {
        return Some(M.NotFound);
      }
      var status := if archive then M.Archived else M.Closed;
      conversations := conversations[id := conversations[id].(status := status, closedAt := Some(now))];
      outcome := None;
    }

    /** Run by the queue worker; a redelivered job finds the conversation assigned and does nothing. */
    method PerformAutoAssign(tenant: string, id: M.ConvId, enabled: bool)
      requires Valid()
      modifies this`conversations, this`assignments, this`participants
      ensures State() == M.PerformAutoAssign(old(State()), tenant, id, enabled)
      ensures Valid() && AutoAssignHolds(old(State()), tenant, id, enabled, State())
    {
      AutoAssignMeans(State(), tenant, id, enabled);
      if !enabled || !M.Exists(State(), tenant, id) || conversations[id].assignedEmployee.Some? {
        return;
      }
      if M.IsClosed(conversations[id].status) {
        return;
      }
      var next := M.PickNextAssignableEmployee(State(), tenant);
      if next.None? {
        return;
      }
      AssignConversation(tenant, id, next.value.id, next.value.userId, None);
    }

    method SendMessage(tenant: string, id: M.ConvId, allowed: bool, sender: string, content: bool, now: int)
      returns (outcome: M.Outcome)
      requires Valid()
      modifies this`conversations, this`messages, this`participants
      ensures (State(), outcome) == M.SendMessage(old(State()), tenant, id, allowed, sender, content, now)
      ensures Valid() && SendHolds(old(State()), tenant, id, allowed, sender, content, now, State(), outcome)
    {
      SendMeans(State(), tenant, id, allowed, sender, content, now);
      if !M.Exists(State(), tenant, id) || !allowed {
        return Some(M.NotFound);
      }
      if M.IsClosed(conversations[id].status) {
        return Some(M.ConversationClosed);
      }
      if !content {
        return Some(M.EmptyMessage);
      }
      AddMessage(tenant, id, Some(sender), now);
      outcome := None;
    }

    method SendPublicMessage(tenant: string, id: M.ConvId, allowed: bool, content: bool, now: int)
      returns (outcome: M.Outcome)
      requires Valid()
      modifies this`conversations, this`messages, this`participants
      ensures (State(), outcome) == M.SendPublicMessage(old(State()), tenant, id, allowed, content, now)
      ensures Valid() && SendPublicHolds(old(State()), tenant, id, allowed, content, now, State(), outcome)
    {
      SendPublicMeans(State(), tenant, id, allowed, content, now);
      if !allowed {
        return Some(M.Forbidden);
      }
      if !M.Exists(State(), tenant, id) {
        return Some(M.NotFound);
      }
      if M.IsClosed(conversations[id].status) {
        conversations := conversations[id := conversations[id].(status := M.Open, closedAt := None)];
      }
      if !content {
        return Some(M.EmptyMessage);
      }
      AddMessage(tenant, id, None, now);
      outcome := None;
    }

    method MarkMessageRead(tenant: string, message: nat, allowed: bool, user: string, now: int)
      returns (outcome: M.Outcome)
      requires Valid()
      modifies this`participants
      ensures (State(), outcome) == M.MarkMessageRead(old(State()), tenant, message, allowed, user, now)
      ensures Valid() && ReadHolds(old(State()), tenant, message, allowed, user, now, State(), outcome)
    {
      ReadMeans(State(), tenant, message, allowed, user, now);
      if message >= |messages| || !M.Exists(State(), tenant, messages[message].conversation) || !allowed {
        return Some(M.NotFound);
      }
      SetLastRead(tenant, messages[message].conversation, user, now);
      outcome := None;
    }

    // ----- The process -----

    /** Who may be assigned automatically is written by other modules. */
    method Handle(e: M.Event)
      requires Valid()
      modifies this
      ensures State() == M.Apply(old(State()), e) && Valid()
    {
      StepKeeps(State(), e);
      match e
      case CreateCall(dto, now) => var _ := Create(dto, now);
      case StartPublicCall(tenant, content, now) => var _ := StartPublic(tenant, content, now);
      case UpdateCall(tenant, id, allowed, status, now) => var _ := Update(tenant, id, allowed, status, now);
      case AssignCall(tenant, id, allowed, employee, actor, _) =>
        var _ := Assign(tenant, id, allowed, employee, actor);
      case CloseCall(tenant, id, allowed, archive, now) => var _ := Close(tenant, id, allowed, archive, now);
      case AutoAssignJob(tenant, id, enabled, _) => PerformAutoAssign(tenant, id, enabled);
      case SendCall(tenant, id, allowed, sender, content, now) =>
        var _ := SendMessage(tenant, id, allowed, sender, content, now);
      case SendPublicCall(tenant, id, allowed, content, now) =>
        var _ := SendPublicMessage(tenant, id, allowed, content, now);
      case ReadCall(tenant, message, allowed, user, now) =>
        var _ := MarkMessageRead(tenant, message, allowed, user, now);
      case PoolChanged(tenant, pool, _) => pools := pools[tenant := pool];
    }

    /** One request or job after another: the store goes through exactly the states of the run and stays valid. */
    method Serve(es: seq<M.Event>)
      requires Valid()
      modifies this
      ensures State() == M.Run(old(State()), es) && Valid()
    {
      ghost var start := State();
      for i := 0 to |es|
        invariant State() == M.Run(start, es[..i]) && Valid()
      {
        M.RunStep(start, es, i);
        Handle(es[i]);
      }
      assert es[..|es|] == es;
    }
  }
}
