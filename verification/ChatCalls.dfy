/** What a caller may rely on after each chat call. */
module ChatCalls {
  import opened Common
  import opened ChatModel
  import opened ChatInvariants
  import opened ChatCursors

  ghost predicate OtherConversationsKept(s: Chat, t: Chat, id: ConvId) {
    |t.conversations| == |s.conversations|
    && forall c :: 0 <= c < |s.conversations| && c != id ==> t.conversations[c] == s.conversations[c]
  }

  /** A call reaches exactly the tenant's own conversations that are not deleted. */
  lemma ReachesOwn(s: Chat, tenant: string, id: ConvId, content: bool, now: int)
    ensures var own := id < |s.conversations| && s.conversations[id].tenant == tenant && !s.conversations[id].deleted;
            && (Update(s, tenant, id, true, None, now).1 == Some(NotFound) <==> !own)
            && (Close(s, tenant, id, true, false, now).1 == Some(NotFound) <==> !own)
            && (SendMessage(s, tenant, id, true, "", content, now).1 == Some(NotFound) <==> !own)
            && (SendPublicMessage(s, tenant, id, true, content, now).1 == Some(NotFound) <==> !own)
  {
  }

  // ----- Assignment -----

  /** The conversation is with this employee, who takes part in it; no queued job will assign it again. */
  ghost predicate IsWith(t: Chat, tenant: string, id: ConvId, employee: string) {
    && id < |t.conversations| && t.conversations[id].assignedEmployee == Some(employee)
    && t.conversations[id].status == Assigned && HasEmployeeRow(t.participants, id, employee)
    && forall enabled :: PerformAutoAssign(t, tenant, id, enabled) == t
  }

  lemma AssignedIsWith(s: Chat, tenant: string, id: ConvId, employee: string, user: string, assignedBy: Option<string>)
    requires ChatSound(s) && BelongsTo(s, id, tenant)
    ensures IsWith(AssignTo(s, tenant, id, employee, user, assignedBy), tenant, id, employee)
    ensures AssignTo(s, tenant, id, employee, user, assignedBy).conversations[id]
            == s.conversations[id].(assignedEmployee := Some(employee), status := Assigned)
    ensures OtherConversationsKept(s, AssignTo(s, tenant, id, employee, user, assignedBy), id)
  {
    UpsertKeeps(s.participants, Participant(tenant, id, Some(user), Some(employee), None));
  }

  /** Whose turn comes next, in any tenant, only depends on the automatic entries. */
  lemma ManualKeepsTurns(log: seq<Assignment>, entry: Assignment, tenant: string)
    requires entry.assignedBy.Some?
    ensures LastAutoAssigned(log + [entry], tenant) == LastAutoAssigned(log, tenant)
  {
    assert (log + [entry])[..|log|] == log;
  }

  /** An assignment by hand goes through for an employee of the tenant, and does not move the rotation. */
  ghost predicate AssignHolds(
    s: Chat, tenant: string, id: ConvId, allowed: bool, employee: string, actor: string, t: Chat, outcome: Outcome)
  {
    && (outcome.None? <==> allowed && Exists(s, tenant, id) && FindEmployeeById(s.employees, tenant, employee).Some?)
    && (outcome.Some? ==> t == s)
    && (outcome == Some(Forbidden) <==> !allowed)
    && (outcome == Some(NotFound) <==> allowed && !Exists(s, tenant, id))
    && (outcome.Some? && allowed && Exists(s, tenant, id) ==> outcome.value == InvalidEmployee)
    && (outcome.None? ==>
          && IsWith(t, tenant, id, employee) && OtherConversationsKept(s, t, id) && t.messages == s.messages
          && t.conversations[id] == s.conversations[id].(assignedEmployee := Some(employee), status := Assigned)
          && t.assignments == s.assignments + [Assignment(tenant, id, employee, Some(actor))]
          && forall other :: LastAutoAssigned(t.assignments, other) == LastAutoAssigned(s.assignments, other))
  }

  lemma AssignMeans(s: Chat, tenant: string, id: ConvId, allowed: bool, employee: string, actor: string)
    requires ChatSound(s)
    ensures var (t, outcome) := Assign(s, tenant, id, allowed, employee, actor);
            ChatSound(t) && AssignHolds(s, tenant, id, allowed, employee, actor, t, outcome)
  {
    var (t, outcome) := Assign(s, tenant, id, allowed, employee, actor);
    StepKeeps(s, AssignCall(tenant, id, allowed, employee, actor, 0));
    if outcome.None? {
      var user := FindEmployeeById(s.employees, tenant, employee).value.userId;
      AssignedIsWith(s, tenant, id, employee, user, Some(actor));
      forall other ensures LastAutoAssigned(t.assignments, other) == LastAutoAssigned(s.assignments, other) {
        ManualKeepsTurns(s.assignments, Assignment(tenant, id, employee, Some(actor)), other);
      }
    }
  }

  predicate AwaitsAgent(s: Chat, tenant: string, id: ConvId) {
    && Exists(s, tenant, id) && s.conversations[id].assignedEmployee.None?
    && s.conversations[id].status !in {Closed, Archived}    && tenant in s.pools && |s.pools[tenant]| > 0
  }

  /**
   * The job acts exactly on an open, unassigned conversation of a tenant with agents: it goes to the agent whose
   * turn it is. A redelivered job does nothing.
   */
  ghost predicate AutoAssignHolds(s: Chat, tenant: string, id: ConvId, enabled: bool, t: Chat) {
    && (!(enabled && AwaitsAgent(s, tenant, id)) ==> t == s)
    && (enabled && AwaitsAgent(s, tenant, id) ==>
          tenant in s.pools &&
          var next := PickNext(s.pools[tenant], LastAutoAssigned(s.assignments, tenant));
          && next.Some? && next.value in s.pools[tenant] && IsWith(t, tenant, id, next.value.id)
          && LastAutoAssigned(t.assignments, tenant) == Some(next.value.id)
          && OtherConversationsKept(s, t, id) && t.messages == s.messages)
    && PerformAutoAssign(t, tenant, id, enabled) == t
  }

  lemma AutoAssignMeans(s: Chat, tenant: string, id: ConvId, enabled: bool)
    requires ChatSound(s)
    ensures var t := PerformAutoAssign(s, tenant, id, enabled);
            ChatSound(t) && AutoAssignHolds(s, tenant, id, enabled, t)
  {
    JobKeeps(s, tenant, id, enabled);
    if enabled && AwaitsAgent(s, tenant, id) {
      var next := PickNextAssignableEmployee(s, tenant).value;
      AssignedIsWith(s, tenant, id, next.id, next.userId, None);
      TurnIsTaken(s.assignments, Assignment(tenant, id, next.id, None));
    }
  }

  lemma TurnIsTaken(log: seq<Assignment>, entry: Assignment)
    requires entry.assignedBy.None?
    ensures LastAutoAssigned(log + [entry], entry.tenant) == Some(entry.employee)
  {
  }

  // ----- Status -----

  /**
   * Nothing reaches a closed conversation but a visitor: members' messages are refused, the job skips it, and a
   * visitor's message opens it again.
   */
  ghost predicate IsShut(t: Chat, tenant: string, id: ConvId) {
    && Exists(t, tenant, id) && t.conversations[id].status in {Closed, Archived} && t.conversations[id].closedAt.Some?
    && (forall sender, content, now ::
          SendMessage(t, tenant, id, true, sender, content, now) == (t, Some(ConversationClosed)))
    && (forall enabled :: PerformAutoAssign(t, tenant, id, enabled) == t)
    && (forall content, now :: var u := SendPublicMessage(t, tenant, id, true, content, now).0;
          |u.conversations| == |t.conversations| && u.conversations[id].status == Open && u.conversations[id].closedAt.None?)
  }

  lemma ClosedIsShut(t: Chat, tenant: string, id: ConvId)
    requires ChatSound(t) && Exists(t, tenant, id) && IsClosed(t.conversations[id].status)
    ensures IsShut(t, tenant, id)
  {
    assert RowSound(t.conversations[id], id, t.assignments, t.participants, t.messages);
  }

  ghost predicate CloseHolds(
    s: Chat, tenant: string, id: ConvId, allowed: bool, archive: bool, now: int, t: Chat, outcome: Outcome)
  {
    && (outcome.None? <==> allowed && Exists(s, tenant, id))
    && (outcome.Some? ==> t == s && outcome.value == NotFound)
    && (outcome.None? ==>
          && IsShut(t, tenant, id) && t.conversations[id].closedAt == Some(now)
          && t.conversations[id] == s.conversations[id].(closedAt := Some(now), status := if archive then Archived else Closed)
          && OtherConversationsKept(s, t, id) && t.messages == s.messages && t.participants == s.participants)
  }

  lemma CloseMeans(s: Chat, tenant: string, id: ConvId, allowed: bool, archive: bool, now: int)
    requires ChatSound(s)
    ensures var (t, outcome) := Close(s, tenant, id, allowed, archive, now);
            ChatSound(t) && CloseHolds(s, tenant, id, allowed, archive, now, t, outcome)
  {
    var (t, outcome) := Close(s, tenant, id, allowed, archive, now);
    StepKeeps(s, CloseCall(tenant, id, allowed, archive, now));
    if outcome.None? {
      ClosedIsShut(t, tenant, id);
    }
  }

  /** The status asked for is set and asking again changes nothing; a changed status that closes sets the time. */
  ghost predicate UpdateHolds(
    s: Chat, tenant: string, id: ConvId, allowed: bool, status: Option<ConversationStatus>, now: int, t: Chat, outcome: Outcome)
  {
    && (outcome.None? <==> allowed && Exists(s, tenant, id))
    && (outcome.Some? ==> outcome.value == NotFound)
    && (outcome.Some? || status.None? ==> t == s)
    && (forall later :: Update(t, tenant, id, allowed, status, later) == (t, outcome))
    && (outcome.None? && status.Some? ==>
          && OtherConversationsKept(s, t, id) && t.conversations[id].status == status.value
          && (status.value in {Closed, Archived} ==> IsShut(t, tenant, id))
          && (status.value in {Closed, Archived} && s.conversations[id].status != status.value ==>
                t.conversations[id].closedAt == Some(now))
          && (status.value !in {Closed, Archived} || s.conversations[id].status == status.value ==>
                t.conversations[id].closedAt == s.conversations[id].closedAt)
          && t.conversations[id] ==
               s.conversations[id].(status := status.value, closedAt := t.conversations[id].closedAt)
          && t.messages == s.messages && t.participants == s.participants)
  }

  lemma UpdateMeans(s: Chat, tenant: string, id: ConvId, allowed: bool, status: Option<ConversationStatus>, now: int)
    requires ChatSound(s)
    ensures var (t, outcome) := Update(s, tenant, id, allowed, status, now);
            ChatSound(t) && UpdateHolds(s, tenant, id, allowed, status, now, t, outcome)
  {
    var (t, outcome) := Update(s, tenant, id, allowed, status, now);
    StepKeeps(s, UpdateCall(tenant, id, allowed, status, now));
    if outcome.None? && status.Some? && IsClosed(status.value) {
      ClosedIsShut(t, tenant, id);
    }
  }

  // ----- Messages -----

  /** Between the states one message of the conversation was written and nothing else but `sender`'s cursor. */
  ghost predicate OneMessage(s: Chat, t: Chat, id: ConvId, sender: Option<string>, now: int) {
    && id < |t.conversations| && t.messages == s.messages + [Message(id, sender, now)]
    && t.conversations[id].lastMessageAt == Some(now) && t.conversations[id].status !in {Closed, Archived}
    && id < |s.conversations|
    && t.conversations[id] == s.conversations[id].(lastMessageAt := Some(now), status := t.conversations[id].status,
                                                   closedAt := t.conversations[id].closedAt)
    && (s.conversations[id].status !in {Closed, Archived} ==>
          t.conversations[id].status == s.conversations[id].status && t.conversations[id].closedAt == s.conversations[id].closedAt)
    && OtherConversationsKept(s, t, id) && t.assignments == s.assignments
    && OnlyCursors(s.participants, t.participants)
    && (forall i :: 0 <= i < |s.participants| && !(sender.Some? && IsRowOf(s.participants[i], id, sender.value)) ==>
          t.participants[i] == s.participants[i])
  }

  /** A member's message is written exactly in an open conversation; its sender has read it if they take part. */
  ghost predicate SendHolds(
    s: Chat, tenant: string, id: ConvId, allowed: bool, sender: string, content: bool, now: int, t: Chat, outcome: Outcome)
  {
    && (outcome.None? <==> allowed && Exists(s, tenant, id) && s.conversations[id].status !in {Closed, Archived} && content)
    && (outcome.Some? ==> t == s)
    && (outcome == Some(NotFound) <==> !allowed || !Exists(s, tenant, id))
    && (outcome == Some(ConversationClosed) <==>
          allowed && Exists(s, tenant, id) && s.conversations[id].status in {Closed, Archived})
    && (outcome.Some? && outcome.value != NotFound && outcome.value != ConversationClosed ==> outcome.value == EmptyMessage)
    && (outcome.None? ==>
          OneMessage(s, t, id, Some(sender), now) && (UnreadFor(t, id, sender) <==> !IsParticipant(s, id, sender)))
  }

  lemma AddedIsOneMessage(s: Chat, tenant: string, id: ConvId, sender: Option<string>, now: int)
    requires ChatSound(s) && id < |s.conversations| && !IsClosed(s.conversations[id].status)
    ensures ChatSound(AddMessage(s, tenant, id, sender, now))
    ensures OneMessage(s, AddMessage(s, tenant, id, sender, now), id, sender, now)
  {
    MessageKeeps(s, tenant, id, sender, now);
  }

  lemma SendMeans(s: Chat, tenant: string, id: ConvId, allowed: bool, sender: string, content: bool, now: int)
    requires ChatSound(s)
    ensures var (t, outcome) := SendMessage(s, tenant, id, allowed, sender, content, now);
            ChatSound(t) && SendHolds(s, tenant, id, allowed, sender, content, now, t, outcome)
  {
    if SendMessage(s, tenant, id, allowed, sender, content, now).1.None? {
      AddedIsOneMessage(s, tenant, id, Some(sender), now);
      if IsParticipant(s, id, sender) {
        SenderHasRead(s, tenant, id, sender, now);
      } else {
        StrangerStaysUnread(s, tenant, id, sender, now);
      }
    }
  }

  /**
   * A visitor's message is written in any conversation of the tenant, and opens it. One without content writes
   * nothing, yet a closed conversation is open afterwards.
   */
  ghost predicate SendPublicHolds(
    s: Chat, tenant: string, id: ConvId, allowed: bool, content: bool, now: int, t: Chat, outcome: Outcome)
  {
    && (outcome == Some(Forbidden) <==> !allowed)
    && (outcome == Some(NotFound) <==> allowed && !Exists(s, tenant, id))
    && (outcome == Some(EmptyMessage) <==> allowed && Exists(s, tenant, id) && !content)
    && (outcome == Some(Forbidden) || outcome == Some(NotFound) ==> t == s)
    && (outcome.None? <==> allowed && Exists(s, tenant, id) && content)
    && (outcome.None? ==> OneMessage(s, t, id, None, now))
    && (outcome == Some(EmptyMessage) ==>
          && OtherConversationsKept(s, t, id) && t.conversations[id].status !in {Closed, Archived}
          && t.messages == s.messages && t.participants == s.participants)
    && (allowed && Exists(s, tenant, id) && s.conversations[id].status in {Closed, Archived} ==>
          id < |t.conversations| && t.conversations[id].status == Open && t.conversations[id].closedAt.None?)
  }

  lemma SendPublicMeans(s: Chat, tenant: string, id: ConvId, allowed: bool, content: bool, now: int)
    requires ChatSound(s)
    ensures var (t, outcome) := SendPublicMessage(s, tenant, id, allowed, content, now);
            ChatSound(t) && SendPublicHolds(s, tenant, id, allowed, content, now, t, outcome)
  {
    SendPublicKeeps(s, tenant, id, allowed, content, now);
    if allowed && Exists(s, tenant, id) && content {
      var c := s.conversations[id];
      if IsClosed(c.status) {
        StatusKeeps(s, id, Open, None);
        AddedIsOneMessage(s.(conversations := s.conversations[id := c.(status := Open, closedAt := None)]),
                          tenant, id, None, now);
      } else {
        AddedIsOneMessage(s, tenant, id, None, now);
      }
    }
  }

  /** Reading writes no message and no conversation, clears the reader's badge there and touches no other badge. */
  ghost predicate ReadHolds(
    s: Chat, tenant: string, message: nat, allowed: bool, user: string, now: int, t: Chat, outcome: Outcome)
  {
    && (outcome.None? <==>
          allowed && message < |s.messages| && Exists(s, tenant, s.messages[message].conversation))
    && (outcome.Some? ==> t == s && outcome.value == NotFound)
    && t.conversations == s.conversations && t.messages == s.messages && t.assignments == s.assignments
    && (outcome.None? && ClockAhead(s, now) && IsParticipant(s, s.messages[message].conversation, user) ==>
          !UnreadFor(t, s.messages[message].conversation, user))
    && (forall c, u :: 0 <= c < |s.conversations| && (u != user || outcome.Some? || c != s.messages[message].conversation) ==>
          (UnreadFor(t, c, u) <==> UnreadFor(s, c, u)))
  }

  lemma OtherBadgesStay(s: Chat, tenant: string, id: ConvId, user: string, now: int, c: ConvId, u: string)
    requires c < |s.conversations| && (u != user || c != id)
    ensures UnreadFor(s.(participants := TouchRead(s.participants, tenant, id, user, now)), c, u) <==> UnreadFor(s, c, u)
  {
    CursorsKeepPositions(s.participants, TouchRead(s.participants, tenant, id, user, now), c, u);
  }

  lemma ReadMeans(s: Chat, tenant: string, message: nat, allowed: bool, user: string, now: int)
    requires ChatSound(s)
    ensures var (t, outcome) := MarkMessageRead(s, tenant, message, allowed, user, now);
            ChatSound(t) && ReadHolds(s, tenant, message, allowed, user, now, t, outcome)
  {
    var (t, outcome) := MarkMessageRead(s, tenant, message, allowed, user, now);
    if outcome.None? {
      var id := s.messages[message].conversation;
      CursorStepKeeps(s, t);
      forall c, u | 0 <= c < |s.conversations| && (u != user || c != id)
        ensures UnreadFor(t, c, u) <==> UnreadFor(s, c, u)
      {
        OtherBadgesStay(s, tenant, id, user, now, c, u);
      }
      if ClockAhead(s, now) && IsParticipant(s, id, user) {
        ReaderHasRead(s, tenant, message, user, now);
      }
    }
  }

  // ----- New conversations -----

  /** A new row is that of the assignee, or of the creator of an internal or support thread. */
  predicate Joins(s: Chat, dto: NewConversation, p: Participant) {
    && p.tenant == dto.tenant && p.conversation == |s.conversations| && p.lastReadAt.None? && p.userId.Some?
    && (IsAssignee(s, dto, p) || IsCreator(s, dto, p))
  }

  predicate IsAssignee(s: Chat, dto: NewConversation, p: Participant) {
    && dto.assignee.Some? && p.employeeId == dto.assignee
    && var found := FindEmployeeById(s.employees, dto.tenant, dto.assignee.value);
       found.Some? && p.userId == Some(found.value.userId)
  }

  predicate IsCreator(s: Chat, dto: NewConversation, p: Participant) {
    && (dto.convType == Internal || dto.convType == Support) && p.userId == Some(dto.creator)
    && var found := FindEmployeeByUserId(s.employees, dto.tenant, dto.creator);
       p.employeeId == if found.Some? then Some(found.value.id) else None
  }

  /**
   * A new conversation leaves every earlier one as it was. An assignee must be an employee of the tenant and takes
   * part; so does the creator of an internal or support thread. It is unread, for everybody, exactly when it starts
   * with a message.
   */
  ghost predicate CreateHolds(s: Chat, dto: NewConversation, now: int, t: Chat, outcome: Outcome) {
    var id := |s.conversations|;
    && (outcome.None? <==> dto.assignee.None? || FindEmployeeById(s.employees, dto.tenant, dto.assignee.value).Some?)
    && (outcome.Some? ==> outcome == Some(InvalidEmployee) && t == s)
    && (outcome.None? ==>
          && |t.conversations| == id + 1 && t.conversations[..id] == s.conversations && Exists(t, dto.tenant, id)
          && t.conversations[id].convType == dto.convType
          && (dto.assignee.Some? ==> IsWith(t, dto.tenant, id, dto.assignee.value))
          && (dto.assignee.None? ==> t.conversations[id].assignedEmployee.None? && t.conversations[id].status == Open)
          && (dto.convType == Internal || dto.convType == Support ==> IsParticipant(t, id, dto.creator))
          && t.messages == s.messages + (if dto.initialMessage then [Message(id, Some(dto.creator), now)] else [])
          && t.assignments == s.assignments
               + (if dto.assignee.Some? then [Assignment(dto.tenant, id, dto.assignee.value, Some(dto.creator))] else [])
          && s.participants <= t.participants
          && (forall i :: |s.participants| <= i < |t.participants| ==> Joins(s, dto, t.participants[i]))
          && forall user :: UnreadFor(t, id, user) <==> dto.initialMessage)
  }

  lemma JoinedTakesPart(ps: seq<Participant>, qs: seq<Participant>, c: ConvId, user: string)
    requires FindParticipant(ps, c, user).Some? && |ps| <= |qs|
    requires forall i :: 0 <= i < |ps| ==> qs[i].conversation == ps[i].conversation && qs[i].userId == ps[i].userId
    ensures FindParticipant(qs, c, user).Some?
  {
    var i := FindParticipant(ps, c, user).value;
    assert IsRowOf(qs[i], c, user);
  }

  lemma AddedTakesPart(ps: seq<Participant>, row: Participant)
    requires row.userId.Some?
    ensures FindParticipant(AddIfAbsent(ps, row), row.conversation, row.userId.value).Some?
  {
    assert IsRowOf((ps + [row])[|ps|], row.conversation, row.userId.value);
  }

  lemma UpsertKeepsParts(ps: seq<Participant>, row: Participant, c: ConvId, user: string)
    requires row.userId.Some? && FindParticipant(ps, c, user).Some?
    ensures FindParticipant(Upsert(ps, row), c, user).Some?
  {
    JoinedTakesPart(ps, Upsert(ps, row), c, user);
  }

  lemma CreatorJoins(s: Chat, dto: NewConversation, id: ConvId)
    requires dto.convType == Internal || dto.convType == Support
    ensures FindParticipant(InitialParticipants(s, dto, id), id, dto.creator).Some?
  {
    var creator := FindEmployeeByUserId(s.employees, dto.tenant, dto.creator);
    var row := Participant(dto.tenant, id, Some(dto.creator), if creator.Some? then Some(creator.value.id) else None, None);
    AddedTakesPart(s.participants, row);
    JoinedTakesPart(AddIfAbsent(s.participants, row), InitialParticipants(s, dto, id), id, dto.creator);
  }

  lemma CreatorTakesPart(s: Chat, dto: NewConversation, now: int)
    requires (dto.convType == Internal || dto.convType == Support) && Create(s, dto, now).1.None?
    ensures IsParticipant(Create(s, dto, now).0, |s.conversations|, dto.creator)
  {
    var id := |s.conversations|;
    CreatorJoins(s, dto, id);
    if dto.assignee.Some? {
      var user := FindEmployeeById(s.employees, dto.tenant, dto.assignee.value).value.userId;
      UpsertKeepsParts(InitialParticipants(s, dto, id), Participant(dto.tenant, id, Some(user), dto.assignee, None),
                       id, dto.creator);
    }
  }

  lemma AssigneeIsWith(s: Chat, dto: NewConversation, now: int)
    requires ChatSound(s) && dto.assignee.Some? && Create(s, dto, now).1.None?
    ensures IsWith(Create(s, dto, now).0, dto.tenant, |s.conversations|, dto.assignee.value)
  {
    var id := |s.conversations|;
    var started := s.(
      conversations := s.conversations + [Conversation(dto.tenant, dto.convType, Open, None, None, None, false)],
      participants := InitialParticipants(s, dto, id));
    InitialRows(s, dto);
    OpenKeeps(s, started.conversations[id], started.participants);
    var user := FindEmployeeById(s.employees, dto.tenant, dto.assignee.value).value.userId;
    AssignedIsWith(started, dto.tenant, id, dto.assignee.value, user, Some(dto.creator));
  }

  lemma NewRow(s: Chat, dto: NewConversation, now: int)
    requires Create(s, dto, now).1.None?
    ensures var t := Create(s, dto, now).0;
            var id := |s.conversations|;
            && |t.conversations| == id + 1 && t.conversations[..id] == s.conversations && Exists(t, dto.tenant, id)
            && t.conversations[id].convType == dto.convType
            && (dto.assignee.None? ==> t.conversations[id].assignedEmployee.None? && t.conversations[id].status == Open)
            && t.messages == s.messages + (if dto.initialMessage then [Message(id, Some(dto.creator), now)] else [])
            && t.assignments == s.assignments
                 + (if dto.assignee.Some? then [Assignment(dto.tenant, id, dto.assignee.value, Some(dto.creator))] else [])
            && t.conversations[id].lastMessageAt == if dto.initialMessage then Some(now) else None
  {
  }

  lemma AddJoins(s: Chat, dto: NewConversation, ps: seq<Participant>, row: Participant)
    requires s.participants <= ps && row.userId.Some? && Joins(s, dto, row)
    requires forall i :: |s.participants| <= i < |ps| ==> Joins(s, dto, ps[i])
    ensures s.participants <= AddIfAbsent(ps, row)
    ensures forall i :: |s.participants| <= i < |AddIfAbsent(ps, row)| ==> Joins(s, dto, AddIfAbsent(ps, row)[i])
  {
  }

  lemma InitialRowsJoin(s: Chat, dto: NewConversation)
    ensures var ps := InitialParticipants(s, dto, |s.conversations|);
            s.participants <= ps && forall i :: |s.participants| <= i < |ps| ==> Joins(s, dto, ps[i])
  {
    var id := |s.conversations|;
    var creator := FindEmployeeByUserId(s.employees, dto.tenant, dto.creator);
    var first := Participant(dto.tenant, id, Some(dto.creator),
                             if creator.Some? then Some(creator.value.id) else None, None);
    var joined := s.participants;
    if dto.convType == Internal || dto.convType == Support {
      AddJoins(s, dto, joined, first);
      joined := AddIfAbsent(joined, first);
    }
    var assignee := if dto.assignee.Some? then FindEmployeeById(s.employees, dto.tenant, dto.assignee.value) else None;
    if assignee.Some? {
      AddJoins(s, dto, joined, Participant(dto.tenant, id, Some(assignee.value.userId), Some(assignee.value.id), None));
    }
  }

  lemma UpsertJoins(s: Chat, dto: NewConversation, ps: seq<Participant>, row: Participant)
    requires ChatSound(s) && s.participants <= ps && Joins(s, dto, row) && IsAssignee(s, dto, row)
    requires forall i :: |s.participants| <= i < |ps| ==> Joins(s, dto, ps[i])
    ensures s.participants <= Upsert(ps, row)
    ensures forall i :: |s.participants| <= i < |Upsert(ps, row)| ==> Joins(s, dto, Upsert(ps, row)[i])
  {
    EarlierRowsElsewhere(s);
  }

  lemma NewRowsJoin(s: Chat, dto: NewConversation, now: int)
    requires ChatSound(s) && Create(s, dto, now).1.None?
    ensures var t := Create(s, dto, now).0;
            s.participants <= t.participants
            && forall i :: |s.participants| <= i < |t.participants| ==> Joins(s, dto, t.participants[i])
  {
    InitialRowsJoin(s, dto);
    if dto.assignee.Some? {
      var user := FindEmployeeById(s.employees, dto.tenant, dto.assignee.value).value.userId;
      UpsertJoins(s, dto, InitialParticipants(s, dto, |s.conversations|),
                  Participant(dto.tenant, |s.conversations|, Some(user), dto.assignee, None));
    }
  }

  lemma NewIsUnreadWithMessage(s: Chat, dto: NewConversation, now: int, user: string)
    requires ChatSound(s) && Create(s, dto, now).1.None?
    ensures |Create(s, dto, now).0.conversations| == |s.conversations| + 1
    ensures UnreadFor(Create(s, dto, now).0, |s.conversations|, user) <==> dto.initialMessage
  {
    NewRow(s, dto, now);
    CreateRows(s, dto, now);
  }

  lemma CreateMeans(s: Chat, dto: NewConversation, now: int)
    requires ChatSound(s)
    ensures var (t, outcome) := Create(s, dto, now);
            ChatSound(t) && CreateHolds(s, dto, now, t, outcome)
  {
    CreateKeeps(s, dto, now);
    if Create(s, dto, now).1.None? {
      CreatedHolds(s, dto, now);
    }
  }

  lemma CreatedHolds(s: Chat, dto: NewConversation, now: int)
    requires ChatSound(s) && Create(s, dto, now).1.None?
    ensures CreateHolds(s, dto, now, Create(s, dto, now).0, None)
  {
    var t := Create(s, dto, now).0;
    NewRow(s, dto, now);
    NewRowsJoin(s, dto, now);
    if dto.assignee.Some? {
      AssigneeIsWith(s, dto, now);
    }
    if dto.convType == Internal || dto.convType == Support {
      CreatorTakesPart(s, dto, now);
    }
    forall user ensures UnreadFor(t, |s.conversations|, user) <==> dto.initialMessage {
      NewIsUnreadWithMessage(s, dto, now, user);
    }
  }

  /** A visitor's first message opens a website conversation that awaits an agent; without content nothing happens. */
  ghost predicate StartHolds(s: Chat, tenant: string, content: bool, now: int, t: Chat, outcome: Outcome) {
    var id := |s.conversations|;
    && outcome == (if content then None else Some(EmptyMessage))
    && (!content ==> t == s)
    && (content ==>
          && |t.conversations| == id + 1 && t.conversations[..id] == s.conversations
          && t.messages == s.messages + [Message(id, None, now)] && t.assignments == s.assignments
          && t.conversations[id] == Conversation(tenant, Website, Open, None, Some(now), None, false)
          && t.participants == s.participants + [Participant(tenant, id, None, None, None)]
          && (AwaitsAgent(t, tenant, id) <==> tenant in s.pools && |s.pools[tenant]| > 0)
          && forall user :: UnreadFor(t, id, user) && !IsParticipant(t, id, user))
  }

  lemma StartMeans(s: Chat, tenant: string, content: bool, now: int)
    requires ChatSound(s)
    ensures var (t, outcome) := StartPublic(s, tenant, content, now);
            ChatSound(t) && StartHolds(s, tenant, content, now, t, outcome)
  {
    StartPublicKeeps(s, tenant, content, now);
  }
}
