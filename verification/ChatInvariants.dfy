/** What every run keeps about assignments, participants, messages and closing times. */
module ChatInvariants {
  import opened Common
  import opened ChatModel

  /** The employee of the conversation's newest log entry. */
  function LastAssignee(log: seq<Assignment>, c: ConvId): Option<string> {
    if |log| == 0 then None
    else if log[|log| - 1].conversation == c then Some(log[|log| - 1].employee)
    else LastAssignee(log[..|log| - 1], c)
  }

  /** The time of the conversation's last inserted message. */
  function LastMessageTime(messages: seq<Message>, c: ConvId): Option<int> {
    if |messages| == 0 then None
    else if messages[|messages| - 1].conversation == c then Some(messages[|messages| - 1].createdAt)
    else LastMessageTime(messages[..|messages| - 1], c)
  }

  ghost predicate HasEmployeeRow(ps: seq<Participant>, c: ConvId, employee: string) {
    exists i :: 0 <= i < |ps| && ps[i].conversation == c && ps[i].employeeId == Some(employee) && ps[i].userId.Some?
  }

  /** The schema's unique (conversation, user) constraint. */
  ghost predicate UniqueRows(ps: seq<Participant>) {
    forall i, j :: 0 <= i < j < |ps| && ps[i].userId.Some? && ps[i].conversation == ps[j].conversation ==>
      ps[i].userId != ps[j].userId
  }

  /** An automatic entry is its conversation's first: there is never a second one, nor one after a manual one. */
  ghost predicate AutoFirst(log: seq<Assignment>) {
    forall i, j :: 0 <= j < i < |log| && log[i].assignedBy.None? ==> log[j].conversation != log[i].conversation
  }

  predicate BelongsTo(s: Chat, c: ConvId, tenant: string) {
    c < |s.conversations| && s.conversations[c].tenant == tenant
  }

  /** Every row refers to a conversation that exists, in its own tenant. */
  ghost predicate RefsExist(s: Chat) {
    && (forall i :: 0 <= i < |s.participants| ==> BelongsTo(s, s.participants[i].conversation, s.participants[i].tenant))
    && (forall i :: 0 <= i < |s.assignments| ==> BelongsTo(s, s.assignments[i].conversation, s.assignments[i].tenant))
    && (forall i :: 0 <= i < |s.messages| ==> s.messages[i].conversation < |s.conversations|)
  }

  /** One conversation row against the log, the participants and the messages. */
  ghost predicate RowSound(c: Conversation, id: ConvId, log: seq<Assignment>, ps: seq<Participant>, messages: seq<Message>) {
    && c.assignedEmployee == LastAssignee(log, id)
    && (c.assignedEmployee.Some? ==> HasEmployeeRow(ps, id, c.assignedEmployee.value))
    && (IsClosed(c.status) ==> c.closedAt.Some?)
    && c.lastMessageAt == LastMessageTime(messages, id)
  }

  ghost predicate RowsSound(s: Chat) {
    forall id :: 0 <= id < |s.conversations| ==>
      RowSound(s.conversations[id], id, s.assignments, s.participants, s.messages)
  }

  ghost predicate ChatSound(s: Chat) {
    RefsExist(s) && UniqueRows(s.participants) && AutoFirst(s.assignments) && RowsSound(s)
  }

  // ----- Participants -----

  /** Rows are kept or appended; a kept row may have its employee or cursor rewritten. */
  lemma UpsertKeeps(ps: seq<Participant>, row: Participant)
    requires UniqueRows(ps) && row.userId.Some? && row.employeeId.Some?
    ensures var qs := Upsert(ps, row);
            && UniqueRows(qs) && |ps| <= |qs| <= |ps| + 1
            && HasEmployeeRow(qs, row.conversation, row.employeeId.value)
            && (forall i :: |ps| <= i < |qs| ==> qs[i] == row)
  {
    var qs := Upsert(ps, row);
    var found := FindParticipant(ps, row.conversation, row.userId.value);
    var i := if found.Some? then found.value else |ps|;
    assert qs[i].conversation == row.conversation && qs[i].employeeId == row.employeeId && qs[i].userId.Some?;
  }

  lemma AddKeeps(ps: seq<Participant>, row: Participant)
    requires UniqueRows(ps) && row.userId.Some?
    ensures UniqueRows(AddIfAbsent(ps, row)) && ps <= AddIfAbsent(ps, row)
    ensures forall i :: |ps| <= i < |AddIfAbsent(ps, row)| ==> AddIfAbsent(ps, row)[i] == row
  {
  }

  /** Only cursors change. */
  ghost predicate OnlyCursors(ps: seq<Participant>, qs: seq<Participant>) {
    |qs| == |ps| && forall i :: 0 <= i < |ps| ==> qs[i].(lastReadAt := None) == ps[i].(lastReadAt := None)
  }

  lemma CursorsKeep(ps: seq<Participant>, qs: seq<Participant>, c: ConvId, employee: string)
    requires OnlyCursors(ps, qs)
    ensures UniqueRows(ps) ==> UniqueRows(qs)
    ensures HasEmployeeRow(ps, c, employee) ==> HasEmployeeRow(qs, c, employee)
  {
  }

  lemma OtherRowsKept(ps: seq<Participant>, qs: seq<Participant>, changed: ConvId, c: ConvId, employee: string)
    requires c != changed && |ps| <= |qs|
    requires forall i :: 0 <= i < |ps| ==> qs[i].conversation == changed || qs[i] == ps[i]
    requires forall i :: 0 <= i < |ps| && ps[i].conversation != changed ==> qs[i] == ps[i]
    requires HasEmployeeRow(ps, c, employee)
    ensures HasEmployeeRow(qs, c, employee)
  {
  }

  // ----- The repository's writes -----

  lemma AssignKeeps(s: Chat, tenant: string, id: ConvId, employee: string, user: string, assignedBy: Option<string>)
    requires ChatSound(s) && BelongsTo(s, id, tenant)
    requires assignedBy.None? ==> s.conversations[id].assignedEmployee.None?
    ensures ChatSound(AssignTo(s, tenant, id, employee, user, assignedBy))
  {
    var t := AssignTo(s, tenant, id, employee, user, assignedBy);
    var row := Participant(tenant, id, Some(user), Some(employee), None);
    UpsertKeeps(s.participants, row);
    assert t.assignments[..|s.assignments|] == s.assignments;
    if assignedBy.None? {
      NoEntry(s.assignments, id);
    }
    assert AutoFirst(t.assignments);
    forall c | 0 <= c < |t.conversations|
      ensures RowSound(t.conversations[c], c, t.assignments, t.participants, t.messages)
    {
      if c != id {
        assert RowSound(s.conversations[c], c, s.assignments, s.participants, s.messages);
        if s.conversations[c].assignedEmployee.Some? {
          OtherRowsKept(s.participants, t.participants, id, c, s.conversations[c].assignedEmployee.value);
        }
      } else {
        assert RowSound(s.conversations[id], id, s.assignments, s.participants, s.messages);
      }
    }
  }

  lemma {:induction false} NoEntry(log: seq<Assignment>, c: ConvId)
    requires LastAssignee(log, c).None?
    ensures forall i :: 0 <= i < |log| ==> log[i].conversation != c
    decreases |log|
  {
    if |log| > 0 {
      var front := log[..|log| - 1];
      NoEntry(front, c);
      assert forall i :: 0 <= i < |front| ==> front[i] == log[i];
    }
  }

  lemma MessageKeeps(s: Chat, tenant: string, id: ConvId, sender: Option<string>, now: int)
    requires ChatSound(s) && id < |s.conversations|
    ensures ChatSound(AddMessage(s, tenant, id, sender, now))
  {
    var t := AddMessage(s, tenant, id, sender, now);
    assert t.messages[..|s.messages|] == s.messages;
    CursorRowsKeep(s, t);
    forall c | 0 <= c < |t.conversations|
      ensures RowSound(t.conversations[c], c, t.assignments, t.participants, t.messages)
    {
      assert RowSound(s.conversations[c], c, s.assignments, s.participants, s.messages);
      if s.conversations[c].assignedEmployee.Some? {
        CursorsKeep(s.participants, t.participants, c, s.conversations[c].assignedEmployee.value);
      }
    }
  }

  lemma CursorRowsKeep(s: Chat, t: Chat)
    requires ChatSound(s) && OnlyCursors(s.participants, t.participants)
    ensures UniqueRows(t.participants)
    ensures forall i :: 0 <= i < |t.participants| ==>
              BelongsTo(s, t.participants[i].conversation, t.participants[i].tenant)
  {
  }

  lemma CursorStepKeeps(s: Chat, t: Chat)
    requires ChatSound(s) && t == s.(participants := t.participants) && OnlyCursors(s.participants, t.participants)
    ensures ChatSound(t)
  {
  }

  /** A rewrite of status and closing time that does not close without a time. */
  lemma StatusKeeps(s: Chat, id: ConvId, status: ConversationStatus, closedAt: Option<int>)
    requires ChatSound(s) && id < |s.conversations| && (IsClosed(status) ==> closedAt.Some?)
    ensures ChatSound(s.(conversations := s.conversations[id := s.conversations[id].(status := status, closedAt := closedAt)]))
  {
  }

  /** A new open conversation with nothing but participants. */
  lemma OpenKeeps(s: Chat, c: Conversation, ps: seq<Participant>)
    requires ChatSound(s) && UniqueRows(ps) && s.participants <= ps
    requires forall i :: |s.participants| <= i < |ps| ==>
               ps[i].conversation == |s.conversations| && ps[i].tenant == c.tenant
    requires c.status == Open && c.assignedEmployee.None? && c.lastMessageAt.None?
    ensures ChatSound(s.(conversations := s.conversations + [c], participants := ps))
  {
    var t := s.(conversations := s.conversations + [c], participants := ps);
    var n := |s.conversations|;
    NoRows(s.assignments, s.messages, n);
    forall id | 0 <= id < |t.conversations|
      ensures RowSound(t.conversations[id], id, t.assignments, t.participants, t.messages)
    {
      if id < n {
        assert RowSound(s.conversations[id], id, s.assignments, s.participants, s.messages);
        if s.conversations[id].assignedEmployee.Some? {
          OtherRowsKept(s.participants, ps, n, id, s.conversations[id].assignedEmployee.value);
        }
      }
    }
  }

  lemma {:induction false} NoRows(log: seq<Assignment>, messages: seq<Message>, c: ConvId)
    requires forall i :: 0 <= i < |log| ==> log[i].conversation != c
    requires forall i :: 0 <= i < |messages| ==> messages[i].conversation != c
    ensures LastAssignee(log, c) == None && LastMessageTime(messages, c) == None
    decreases |log| + |messages|
  {
    if |log| > 0 {
      NoRows(log[..|log| - 1], messages, c);
    } else if |messages| > 0 {
      NoRows(log, messages[..|messages| - 1], c);
    }
  }

  // ----- Steps -----

  lemma CreateKeeps(s: Chat, dto: NewConversation, now: int)
    requires ChatSound(s)
    ensures ChatSound(Create(s, dto, now).0)
  {
    if Create(s, dto, now).1.None? {
      var id := |s.conversations|;
      var ps := InitialParticipants(s, dto, id);
      InitialRows(s, dto);
      var c := Conversation(dto.tenant, dto.convType, Open, None, None, None, false);
      var started := s.(conversations := s.conversations + [c], participants := ps);
      OpenKeeps(s, c, ps);
      var staffed := started;
      if dto.assignee.Some? {
        var user := FindEmployeeById(s.employees, dto.tenant, dto.assignee.value).value.userId;
        AssignKeeps(started, dto.tenant, id, dto.assignee.value, user, Some(dto.creator));
        staffed := AssignTo(started, dto.tenant, id, dto.assignee.value, user, Some(dto.creator));
      }
      if dto.initialMessage {
        FirstMessageKeeps(staffed, id, Some(dto.creator), now);
      }
    }
  }

  /** A message that moves no cursor. */
  lemma FirstMessageKeeps(s: Chat, id: ConvId, sender: Option<string>, now: int)
    requires ChatSound(s) && id < |s.conversations|
    ensures ChatSound(s.(conversations := s.conversations[id := s.conversations[id].(lastMessageAt := Some(now))],
                         messages := s.messages + [Message(id, sender, now)]))
  {
  }

  lemma InitialRows(s: Chat, dto: NewConversation)
    requires ChatSound(s)
    ensures Joined(s.participants, InitialParticipants(s, dto, |s.conversations|), |s.conversations|, dto.tenant)
  {
    var id := |s.conversations|;
    var creator := FindEmployeeByUserId(s.employees, dto.tenant, dto.creator);
    var first := Participant(dto.tenant, id, Some(dto.creator),
                             if creator.Some? then Some(creator.value.id) else None, None);
    var joined := if dto.convType == Internal || dto.convType == Support
                  then AddIfAbsent(s.participants, first) else s.participants;
    AddedTo(s.participants, s.participants, first);
    var assignee := if dto.assignee.Some? then FindEmployeeById(s.employees, dto.tenant, dto.assignee.value) else None;
    if assignee.Some? {
      AddedTo(s.participants, joined, Participant(dto.tenant, id, Some(assignee.value.userId), Some(assignee.value.id), None));
    }
  }

  /** `ps` extends `before` by unread rows of one conversation and tenant. */
  ghost predicate Joined(before: seq<Participant>, ps: seq<Participant>, c: ConvId, tenant: string) {
    && UniqueRows(ps) && before <= ps
    && forall i :: |before| <= i < |ps| ==> ps[i].conversation == c && ps[i].tenant == tenant && ps[i].lastReadAt.None?
  }

  lemma AddedTo(before: seq<Participant>, ps: seq<Participant>, row: Participant)
    requires Joined(before, ps, row.conversation, row.tenant) && row.userId.Some? && row.lastReadAt.None?
    ensures Joined(before, AddIfAbsent(ps, row), row.conversation, row.tenant)
  {
    AddKeeps(ps, row);
  }

  lemma StartPublicKeeps(s: Chat, tenant: string, content: bool, now: int)
    requires ChatSound(s)
    ensures ChatSound(StartPublic(s, tenant, content, now).0)
  {
    if content {
      var id := |s.conversations|;
      var c := Conversation(tenant, Website, Open, None, None, None, false);
      var ps := s.participants + [Participant(tenant, id, None, None, None)];
      OpenKeeps(s, c, ps);
      var started := s.(conversations := s.conversations + [c], participants := ps);
      FirstMessageKeeps(started, id, None, now);
      assert started.conversations[id := c.(lastMessageAt := Some(now))]
             == s.conversations + [c.(lastMessageAt := Some(now))];
    }
  }

  lemma StepKeeps(s: Chat, e: Event)
    requires ChatSound(s)
    ensures ChatSound(Apply(s, e))
  {
    match e
    case CreateCall(dto, now) => CreateKeeps(s, dto, now);
    case StartPublicCall(tenant, content, now) => StartPublicKeeps(s, tenant, content, now);
    case UpdateCall(tenant, id, allowed, status, now) => UpdateKeeps(s, tenant, id, allowed, status, now);
    case AssignCall(tenant, id, allowed, employee, actor, _) => ManualKeeps(s, tenant, id, allowed, employee, actor);
    case CloseCall(tenant, id, allowed, archive, now) => CloseKeeps(s, tenant, id, allowed, archive, now);
    case AutoAssignJob(tenant, id, enabled, _) => JobKeeps(s, tenant, id, enabled);
    case SendCall(tenant, id, allowed, sender, content, now) => SendKeeps(s, tenant, id, allowed, sender, content, now);
    case SendPublicCall(tenant, id, allowed, content, now) => SendPublicKeeps(s, tenant, id, allowed, content, now);
    case ReadCall(tenant, message, allowed, user, now) => ReadKeeps(s, tenant, message, allowed, user, now);
    case PoolChanged(tenant, pool, _) => PoolKeeps(s, s.pools[tenant := pool]);
  }

  lemma UpdateKeeps(s: Chat, tenant: string, id: ConvId, allowed: bool, status: Option<ConversationStatus>, now: int)
    requires ChatSound(s)
    ensures ChatSound(Update(s, tenant, id, allowed, status, now).0)
  {
    if Exists(s, tenant, id) && allowed && status.Some? && status.value != s.conversations[id].status {
      assert RowSound(s.conversations[id], id, s.assignments, s.participants, s.messages);
      StatusKeeps(s, id, status.value, if IsClosed(status.value) then Some(now) else s.conversations[id].closedAt);
    }
  }

  lemma ManualKeeps(s: Chat, tenant: string, id: ConvId, allowed: bool, employee: string, actor: string)
    requires ChatSound(s)
    ensures ChatSound(Assign(s, tenant, id, allowed, employee, actor).0)
  {
    var found := FindEmployeeById(s.employees, tenant, employee);
    if allowed && Exists(s, tenant, id) && found.Some? {
      AssignKeeps(s, tenant, id, employee, found.value.userId, Some(actor));
    }
  }

  lemma CloseKeeps(s: Chat, tenant: string, id: ConvId, allowed: bool, archive: bool, now: int)
    requires ChatSound(s)
    ensures ChatSound(Close(s, tenant, id, allowed, archive, now).0)
  {
    if Exists(s, tenant, id) && allowed {
      StatusKeeps(s, id, if archive then Archived else Closed, Some(now));
    }
  }

  lemma JobKeeps(s: Chat, tenant: string, id: ConvId, enabled: bool)
    requires ChatSound(s)
    ensures ChatSound(PerformAutoAssign(s, tenant, id, enabled))
  {
    var next := PickNextAssignableEmployee(s, tenant);
    if Exists(s, tenant, id) && s.conversations[id].assignedEmployee.None? && next.Some? {
      AssignKeeps(s, tenant, id, next.value.id, next.value.userId, None);
    }
  }

  lemma SendKeeps(s: Chat, tenant: string, id: ConvId, allowed: bool, sender: string, content: bool, now: int)
    requires ChatSound(s)
    ensures ChatSound(SendMessage(s, tenant, id, allowed, sender, content, now).0)
  {
    if Exists(s, tenant, id) {
      MessageKeeps(s, tenant, id, Some(sender), now);
    }
  }

  lemma ReadKeeps(s: Chat, tenant: string, message: nat, allowed: bool, user: string, now: int)
    requires ChatSound(s)
    ensures ChatSound(MarkMessageRead(s, tenant, message, allowed, user, now).0)
  {
    CursorStepKeeps(s, MarkMessageRead(s, tenant, message, allowed, user, now).0);
  }

  lemma PoolKeeps(s: Chat, pools: map<string, seq<Employee>>)
    requires ChatSound(s)
    ensures ChatSound(s.(pools := pools))
  {
  }

  lemma SendPublicKeeps(s: Chat, tenant: string, id: ConvId, allowed: bool, content: bool, now: int)
    requires ChatSound(s)
    ensures ChatSound(SendPublicMessage(s, tenant, id, allowed, content, now).0)
  {
    if allowed && Exists(s, tenant, id) {
      var c := s.conversations[id];
      var reopened := s;
      if IsClosed(c.status) {
        StatusKeeps(s, id, Open, None);
        reopened := s.(conversations := s.conversations[id := c.(status := Open, closedAt := None)]);
      }
      if content {
        MessageKeeps(reopened, tenant, id, None, now);
      }
    }
  }

  lemma EmptyIsSound(employees: seq<Employee>, pools: map<string, seq<Employee>>)
    ensures ChatSound(Chat(employees, pools, [], [], [], []))
  {
  }

  /**
   * Over every run: the assignee is the log's last employee (so it is set exactly when the log has an entry) and
   * has a participant row; an automatic entry only ever comes first; a closed conversation has a closing time;
   * `lastMessageAt` is the last message's time, null exactly without messages; (conversation, user) is unique.
   */
  lemma {:induction false} EveryRunIsSound(s: Chat, es: seq<Event>)
    requires ChatSound(s)
    ensures ChatSound(Run(s, es))
    decreases |es|
  {
    if |es| > 0 {
      EveryRunIsSound(s, es[..|es| - 1]);
      StepKeeps(Run(s, es[..|es| - 1]), es[|es| - 1]);
    }
  }

  /** Redelivered jobs: a conversation's log holds at most one automatic entry, whatever the run. */
  lemma OneAutomaticEntry(s: Chat, es: seq<Event>, i: nat, j: nat)
    requires ChatSound(s)
    requires var log := Run(s, es).assignments;
             i < |log| && j < |log| && log[i].conversation == log[j].conversation
             && log[i].assignedBy.None? && log[j].assignedBy.None?
    ensures i == j
  {
    EveryRunIsSound(s, es);
  }
}
