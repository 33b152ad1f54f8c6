/** Messages against closing, and read cursors against unread badges, along runs. */
module ChatCursors {
  import opened Common
  import opened ChatModel
  import opened ChatInvariants

  /** The conversation a step appends a message to. */
  function AppendedTo(s: Chat, e: Event): Option<ConvId> {
    var t := Apply(s, e);
    if |t.messages| > |s.messages| then Some(t.messages[|s.messages|].conversation) else None
  }

  /** At most one message per step, always in an open conversation; one that was closed is reopened by a visitor. */
  lemma NoMessageWhileClosed(s: Chat, e: Event)
    ensures var t := Apply(s, e);
            && s.messages <= t.messages && |t.messages| <= |s.messages| + 1
            && (AppendedTo(s, e).Some? ==>
                  var c := AppendedTo(s, e).value;
                  && c < |t.conversations| && !IsClosed(t.conversations[c].status)
                  && (c < |s.conversations| && IsClosed(s.conversations[c].status) ==>
                        e.SendPublicCall? && t.conversations[c].status == Open && t.conversations[c].closedAt.None?))
  {
    match e
    case CreateCall(dto, now) => CreateAppends(s, dto, now);
    case StartPublicCall(_, _, _) =>
    case UpdateCall(_, _, _, _, _) =>
    case AssignCall(_, _, _, _, _, _) =>
    case CloseCall(_, _, _, _, _) =>
    case AutoAssignJob(_, _, _, _) =>
    case SendCall(_, _, _, _, _, _) =>
    case SendPublicCall(_, _, _, _, _) =>
    case ReadCall(_, _, _, _, _) =>
    case PoolChanged(_, _, _) =>
  }

  lemma CreateAppends(s: Chat, dto: NewConversation, now: int)
    ensures var (t, outcome) := Create(s, dto, now);
            && (outcome.Some? ==> t == s)
            && (outcome.None? ==>
                  && |t.conversations| == |s.conversations| + 1
                  && t.conversations[..|s.conversations|] == s.conversations
                  && !IsClosed(t.conversations[|s.conversations|].status)
                  && t.messages == s.messages +
                       (if dto.initialMessage then [Message(|s.conversations|, Some(dto.creator), now)] else []))
  {
  }

  /** The unread badge of one user: a missing participant row counts as never read. */
  predicate UnreadFor(s: Chat, c: ConvId, user: string)
    requires c < |s.conversations|
  {
    var found := FindParticipant(s.participants, c, user);
    IsUnread(s.conversations[c].lastMessageAt, if found.Some? then s.participants[found.value].lastReadAt else None)
  }

  predicate IsParticipant(s: Chat, c: ConvId, user: string) {
    FindParticipant(s.participants, c, user).Some?
  }

  /** No message is newer than the clock. */
  ghost predicate ClockAhead(s: Chat, now: int) {
    forall i :: 0 <= i < |s.messages| ==> s.messages[i].createdAt <= now
  }

  lemma TouchedRow(ps: seq<Participant>, tenant: string, c: ConvId, user: string, now: int)
    requires FindParticipant(ps, c, user).Some?
    requires ps[FindParticipant(ps, c, user).value].tenant == tenant
    ensures var qs := TouchRead(ps, tenant, c, user, now);
            FindParticipant(qs, c, user) == FindParticipant(ps, c, user)
            && qs[FindParticipant(ps, c, user).value].lastReadAt == Some(now)
  {
    CursorsKeepPositions(ps, TouchRead(ps, tenant, c, user, now), c, user);
  }

  lemma {:induction false} CursorsKeepPositions(ps: seq<Participant>, qs: seq<Participant>, c: ConvId, user: string)
    requires OnlyCursors(ps, qs)
    ensures FindParticipant(qs, c, user) == FindParticipant(ps, c, user)
    decreases |ps|
  {
    if |ps| > 0 {
      var n := |ps| - 1;
      assert qs[n].(lastReadAt := None) == ps[n].(lastReadAt := None);
      assert forall i :: 0 <= i < n ==> qs[..n][i] == qs[i] && ps[..n][i] == ps[i];
      CursorsKeepPositions(ps[..n], qs[..n], c, user);
    }
  }

  lemma {:induction false} NewestIsNotAhead(messages: seq<Message>, c: ConvId, now: int)
    requires forall i :: 0 <= i < |messages| ==> messages[i].createdAt <= now
    ensures LastMessageTime(messages, c).Some? ==> LastMessageTime(messages, c).value <= now
    decreases |messages|
  {
    if |messages| > 0 {
      NewestIsNotAhead(messages[..|messages| - 1], c, now);
    }
  }

  /** Right after a participant sends a message, the conversation is not unread for them. */
  lemma SenderHasRead(s: Chat, tenant: string, c: ConvId, user: string, now: int)
    requires ChatSound(s) && Exists(s, tenant, c) && IsParticipant(s, c, user)
    requires SendMessage(s, tenant, c, true, user, true, now).1.None?
    ensures var t := SendMessage(s, tenant, c, true, user, true, now).0;
            t.conversations[c].lastMessageAt == Some(now) && IsParticipant(t, c, user) && !UnreadFor(t, c, user)
  {
    var row := s.participants[FindParticipant(s.participants, c, user).value];
    assert BelongsTo(s, row.conversation, row.tenant);
    TouchedRow(s.participants, tenant, c, user, now);
  }

  /** Right after a participant marks a message read, its conversation is not unread for them. */
  lemma ReaderHasRead(s: Chat, tenant: string, message: nat, user: string, now: int)
    requires ChatSound(s) && ClockAhead(s, now)
    requires message < |s.messages| && Exists(s, tenant, s.messages[message].conversation)
    requires IsParticipant(s, s.messages[message].conversation, user)
    ensures var t := MarkMessageRead(s, tenant, message, true, user, now).0;
            IsParticipant(t, s.messages[message].conversation, user)
            && !UnreadFor(t, s.messages[message].conversation, user)
  {
    var c := s.messages[message].conversation;
    var row := s.participants[FindParticipant(s.participants, c, user).value];
    assert BelongsTo(s, row.conversation, row.tenant);
    TouchedRow(s.participants, tenant, c, user, now);
    assert RowSound(s.conversations[c], c, s.assignments, s.participants, s.messages);
    NewestIsNotAhead(s.messages, c, now);
  }

  // ----- The badge stays clear until the next message -----

  lemma {:induction false} PrefixKeepsPosition(ps: seq<Participant>, qs: seq<Participant>, c: ConvId, user: string)
    requires FindParticipant(ps, c, user).Some? && |ps| <= |qs|
    requires forall i :: 0 <= i < |ps| ==> qs[i].conversation == ps[i].conversation && qs[i].userId == ps[i].userId
    ensures FindParticipant(qs, c, user) == FindParticipant(ps, c, user)
    decreases |qs|
  {
    var n := |qs| - 1;
    assert forall i :: 0 <= i < n ==> qs[..n][i] == qs[i];
    if |qs| > |ps| {
      PrefixKeepsPosition(ps, qs[..n], c, user);
    } else if FindParticipant(ps[..n], c, user).Some? {
      PrefixKeepsPosition(ps[..n], qs[..n], c, user);
    } else {
      assert IsRowOf(qs[n], c, user);
      forall i | 0 <= i < n ensures !IsRowOf(qs[..n][i], c, user) {
        assert !IsRowOf(ps[..n][i], c, user);
        assert ps[..n][i] == ps[i];
      }
    }
  }

  /** Kept rows stay where they are, with their user and, unless touched now, their cursor. */
  ghost predicate RowsStay(ps: seq<Participant>, qs: seq<Participant>, now: int) {
    |ps| <= |qs| && forall i :: 0 <= i < |ps| ==>
      && qs[i].conversation == ps[i].conversation && qs[i].userId == ps[i].userId
      && (qs[i].lastReadAt == ps[i].lastReadAt || qs[i].lastReadAt == Some(now))
  }

  function EventTime(e: Event): int {
    e.now
  }

  lemma CreateRows(s: Chat, dto: NewConversation, now: int)
    requires ChatSound(s)
    ensures RowsStay(s.participants, Create(s, dto, now).0.participants, now)
    ensures Create(s, dto, now).1.None? ==>
              NoneRead(Create(s, dto, now).0.participants, |s.conversations|)
  {
    var ps, qs := InitialParticipants(s, dto, |s.conversations|), Create(s, dto, now).0.participants;
    InitialRows(s, dto);
    if Create(s, dto, now).1.None? {
      EarlierRowsElsewhere(s);
      if dto.assignee.Some? {
        var user := FindEmployeeById(s.employees, dto.tenant, dto.assignee.value).value.userId;
        AssigneeRow(s.participants, ps, Participant(dto.tenant, |s.conversations|, Some(user), dto.assignee, None), now);
        assert qs == Upsert(ps, Participant(dto.tenant, |s.conversations|, Some(user), dto.assignee, None));
      } else {
        assert qs == ps;
      }
    }
  }

  lemma EarlierRowsElsewhere(s: Chat)
    requires ChatSound(s)
    ensures forall i :: 0 <= i < |s.participants| ==> s.participants[i].conversation < |s.conversations|
  {
  }

  lemma AssigneeRow(before: seq<Participant>, ps: seq<Participant>, row: Participant, now: int)
    requires RowsStay(before, ps, now) && NoneRead(ps, row.conversation) && row.lastReadAt.None?
    requires UniqueRows(ps) && row.userId.Some? && row.employeeId.Some?
    ensures RowsStay(before, Upsert(ps, row), now) && NoneRead(Upsert(ps, row), row.conversation)
  {
  }

  ghost predicate NoneRead(ps: seq<Participant>, c: ConvId) {
    forall i :: 0 <= i < |ps| && ps[i].conversation == c ==> ps[i].lastReadAt.None?
  }

  lemma StepRows(s: Chat, e: Event)
    requires ChatSound(s)
    ensures RowsStay(s.participants, Apply(s, e).participants, EventTime(e))
  {
    if e.CreateCall? {
      CreateRows(s, e.dto, e.now);
    }
  }

  lemma StepTimes(s: Chat, e: Event, c: ConvId)
    requires c < |s.conversations| && AppendedTo(s, e) != Some(c)
    ensures c < |Apply(s, e).conversations|
    ensures Apply(s, e).conversations[c].lastMessageAt == s.conversations[c].lastMessageAt
  {
    if e.CreateCall? {
      CreateAppends(s, e.dto, e.now);
      if Create(s, e.dto, e.now).1.None? {
        assert Apply(s, e).conversations[..|s.conversations|][c] == s.conversations[c];
      }
    }
  }

  lemma StepKeepsRead(s: Chat, e: Event, c: ConvId, user: string)
    requires ChatSound(s) && c < |s.conversations| && ClockAhead(s, EventTime(e))
    requires IsParticipant(s, c, user) && !UnreadFor(s, c, user) && AppendedTo(s, e) != Some(c)
    ensures var t := Apply(s, e); c < |t.conversations| && IsParticipant(t, c, user) && !UnreadFor(t, c, user)
  {
    StepRows(s, e);
    StepTimes(s, e, c);
    PrefixKeepsPosition(s.participants, Apply(s, e).participants, c, user);
    assert RowSound(s.conversations[c], c, s.assignments, s.participants, s.messages);
    NewestIsNotAhead(s.messages, c, EventTime(e));
  }

  /** The clock never runs behind a message already written, and no event of the run writes one in `c`. */
  ghost predicate QuietRun(s: Chat, es: seq<Event>, c: ConvId) {
    forall i :: 0 <= i < |es| ==>
      ClockAhead(Run(s, es[..i]), EventTime(es[i])) && AppendedTo(Run(s, es[..i]), es[i]) != Some(c)
  }

  /** Once read, a conversation stays read for that participant through any run without a new message in it. */
  lemma {:induction false} StaysReadUntilNextMessage(s: Chat, es: seq<Event>, c: ConvId, user: string)
    requires ChatSound(s) && c < |s.conversations| && QuietRun(s, es, c)
    requires IsParticipant(s, c, user) && !UnreadFor(s, c, user)
    ensures var t := Run(s, es); c < |t.conversations| && IsParticipant(t, c, user) && !UnreadFor(t, c, user)
    decreases |es|
  {
    if |es| > 0 {
      var front := es[..|es| - 1];
      forall i | 0 <= i < |front|
        ensures ClockAhead(Run(s, front[..i]), EventTime(front[i])) && AppendedTo(Run(s, front[..i]), front[i]) != Some(c)
      {
        assert front[..i] == es[..i];
      }
      StaysReadUntilNextMessage(s, front, c, user);
      EveryRunIsSound(s, front);
      StepKeepsRead(Run(s, front), es[|es| - 1], c, user);
    }
  }

  // ----- When the sender has read the message -----

  /** The sender of the message a step appends. */
  function SenderOf(s: Chat, e: Event): Option<string> {
    if AppendedTo(s, e).None? then None else Apply(s, e).messages[|s.messages|].sender
  }

  /** A first message written by `create` moves no cursor: its own author sees the new conversation as unread. */
  lemma AuthorOfFirstMessageIsUnread(s: Chat, dto: NewConversation, now: int)
    requires ChatSound(s) && dto.initialMessage && Create(s, dto, now).1.None?
    ensures UnreadFor(Create(s, dto, now).0, |s.conversations|, dto.creator)
  {
    CreateRows(s, dto, now);
  }

  lemma StrangerStaysUnread(s: Chat, tenant: string, c: ConvId, user: string, now: int)
    requires Exists(s, tenant, c) && !IsParticipant(s, c, user)
    ensures UnreadFor(AddMessage(s, tenant, c, Some(user), now), c, user)
  {
    CursorsKeepPositions(s.participants, TouchRead(s.participants, tenant, c, user, now), c, user);
  }

  /** Right after a step appends a message, its sender has read it exactly when a participant sent it by `sendMessage`. */
  lemma SenderHasReadExactly(s: Chat, e: Event, c: ConvId, user: string)
    requires ChatSound(s) && AppendedTo(s, e) == Some(c) && SenderOf(s, e) == Some(user)
    ensures c < |Apply(s, e).conversations|
    ensures !UnreadFor(Apply(s, e), c, user) <==> e.SendCall? && IsParticipant(s, c, user)
  {
    NoMessageWhileClosed(s, e);
    if e.CreateCall? {
      CreateAppends(s, e.dto, e.now);
      AuthorOfFirstMessageIsUnread(s, e.dto, e.now);
    } else if e.SendCall? {
      if IsParticipant(s, c, user) {
        SenderHasRead(s, e.tenant, c, user, e.now);
      } else {
        StrangerStaysUnread(s, e.tenant, c, user, e.now);
      }
    }
  }

  // ----- When a closing time outlives the closing -----

  predicate IsReopenedBy(s: Chat, e: Event, c: ConvId) {
    || (e.AssignCall? && e.id == c && e.allowed && Exists(s, e.tenant, c)
        && FindEmployeeById(s.employees, e.tenant, e.employee).Some?)
    || (e.UpdateCall? && e.id == c && e.allowed && Exists(s, e.tenant, c)
        && e.status.Some? && !IsClosed(e.status.value))
  }

  /**
   * A closing time does not mean closed: a step reopens a closed conversation and keeps its closing time exactly
   * when it is an assignment or a status update of it that goes through.
   */
  lemma ReopenedWithClosingTime(s: Chat, e: Event, c: ConvId)
    requires ChatSound(s) && c < |s.conversations| && IsClosed(s.conversations[c].status)
    ensures c < |Apply(s, e).conversations|
    ensures var before, after := s.conversations[c], Apply(s, e).conversations[c];
            && before.closedAt.Some?
            && (!IsClosed(after.status) && after.closedAt.Some? <==> IsReopenedBy(s, e, c))
            && (IsReopenedBy(s, e, c) ==> after.closedAt == before.closedAt)
  {
    assert RowSound(s.conversations[c], c, s.assignments, s.participants, s.messages);
    match e
    case UpdateCall(_, _, _, _, _) => UpdateReopens(s, e, c);
    case AssignCall(_, _, _, _, _, _) => AssignReopens(s, e, c);
    case _ => OthersDoNotReopen(s, e, c);
  }

  lemma UpdateReopens(s: Chat, e: Event, c: ConvId)
    requires e.UpdateCall? && c < |s.conversations| && IsClosed(s.conversations[c].status)
    requires s.conversations[c].closedAt.Some?
    ensures |Apply(s, e).conversations| == |s.conversations|
    ensures !IsClosed(Apply(s, e).conversations[c].status) <==> IsReopenedBy(s, e, c)
    ensures Apply(s, e).conversations[c].closedAt.Some?
    ensures IsReopenedBy(s, e, c) ==> Apply(s, e).conversations[c].closedAt == s.conversations[c].closedAt
  {
  }

  lemma AssignReopens(s: Chat, e: Event, c: ConvId)
    requires e.AssignCall? && c < |s.conversations| && IsClosed(s.conversations[c].status)
    ensures |Apply(s, e).conversations| == |s.conversations|
    ensures !IsClosed(Apply(s, e).conversations[c].status) <==> IsReopenedBy(s, e, c)
    ensures Apply(s, e).conversations[c].closedAt == s.conversations[c].closedAt
  {
  }

  lemma OthersDoNotReopen(s: Chat, e: Event, c: ConvId)
    requires !e.UpdateCall? && !e.AssignCall? && c < |s.conversations| && IsClosed(s.conversations[c].status)
    ensures c < |Apply(s, e).conversations|
    ensures IsClosed(Apply(s, e).conversations[c].status) || Apply(s, e).conversations[c].closedAt.None?
  {
    if e.CreateCall? {
      CreateAppends(s, e.dto, e.now);
      assert Apply(s, e).conversations[..|s.conversations|][c] == s.conversations[c];
    }
  }

  // ----- The newest message -----

  /** Messages were written in the order of their times. */
  ghost predicate InOrder(messages: seq<Message>) {
    forall i, j :: 0 <= i < j < |messages| ==> messages[i].createdAt <= messages[j].createdAt
  }

  lemma {:induction false} LastIsNewest(messages: seq<Message>, c: ConvId, i: nat)
    requires InOrder(messages) && i < |messages| && messages[i].conversation == c
    ensures LastMessageTime(messages, c).Some? && messages[i].createdAt <= LastMessageTime(messages, c).value
    decreases |messages|
  {
    if messages[|messages| - 1].conversation != c {
      LastIsNewest(messages[..|messages| - 1], c, i);
    }
  }

  /** The clock never runs behind a message already written. */
  ghost predicate ClockRun(s: Chat, es: seq<Event>) {
    forall i :: 0 <= i < |es| ==> ClockAhead(Run(s, es[..i]), EventTime(es[i]))
  }

  lemma StepKeepsOrder(s: Chat, e: Event)
    requires InOrder(s.messages) && ClockAhead(s, EventTime(e))
    ensures InOrder(Apply(s, e).messages)
  {
    NoMessageWhileClosed(s, e);
    if e.CreateCall? {
      CreateAppends(s, e.dto, e.now);
    }
    assert |Apply(s, e).messages| > |s.messages| ==> Apply(s, e).messages[|s.messages|].createdAt == EventTime(e);
  }

  lemma {:induction false} EveryRunIsInOrder(s: Chat, es: seq<Event>)
    requires InOrder(s.messages) && ClockRun(s, es)
    ensures InOrder(Run(s, es).messages)
    decreases |es|
  {
    if |es| > 0 {
      var front := es[..|es| - 1];
      assert forall i :: 0 <= i < |front| ==> front[..i] == es[..i];
      EveryRunIsInOrder(s, front);
      StepKeepsOrder(Run(s, front), es[|es| - 1]);
    }
  }

  /** With a clock that does not run back, no message of a conversation is later than its `lastMessageAt`. */
  lemma NoMessageIsLater(s: Chat, es: seq<Event>, i: nat)
    requires ChatSound(s) && InOrder(s.messages) && ClockRun(s, es) && i < |Run(s, es).messages|
    ensures var t := Run(s, es);
            var m := t.messages[i];
            && m.conversation < |t.conversations| && t.conversations[m.conversation].lastMessageAt.Some?
            && m.createdAt <= t.conversations[m.conversation].lastMessageAt.value
  {
    var t := Run(s, es);
    EveryRunIsSound(s, es);
    EveryRunIsInOrder(s, es);
    var c := t.messages[i].conversation;
    assert RowSound(t.conversations[c], c, t.assignments, t.participants, t.messages);
    LastIsNewest(t.messages, c, i);
  }
}
