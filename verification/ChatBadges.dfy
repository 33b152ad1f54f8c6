/** What a badge means: messages the user has not seen. */
module ChatBadges {
  import opened Common
  import opened ChatModel
  import opened ChatInvariants
  import opened ChatCursors
  import opened ChatUnread

  /** The user's cursor in the message's conversation has not reached it, if there is a cursor at all. */
  ghost predicate IsUnseen(ps: seq<Participant>, m: Message, user: string) {
    forall k :: 0 <= k < |ps| && ps[k].conversation == m.conversation && ps[k].userId == Some(user) ==>
      ps[k].lastReadAt.None? || ps[k].lastReadAt.value < m.createdAt
  }

  ghost predicate HasUnseen(s: Chat, c: ConvId, user: string) {
    exists i :: 0 <= i < |s.messages| && s.messages[i].conversation == c && IsUnseen(s.participants, s.messages[i], user)
  }

  /** `at` is the user's cursor in the conversation: that of every row of theirs, and null without a row. */
  ghost predicate IsCursor(ps: seq<Participant>, c: ConvId, user: string, at: Option<int>) {
    && (forall k :: 0 <= k < |ps| && IsRowOf(ps[k], c, user) ==> ps[k].lastReadAt == at)
    && (at.Some? ==> exists k :: 0 <= k < |ps| && IsRowOf(ps[k], c, user))
  }

  lemma {:induction false} LastIsThere(messages: seq<Message>, c: ConvId) returns (i: nat)
    requires LastMessageTime(messages, c).Some?
    ensures i < |messages| && messages[i].conversation == c && Some(messages[i].createdAt) == LastMessageTime(messages, c)
    decreases |messages|
  {
    var n := |messages| - 1;
    if messages[n].conversation == c {
      i := n;
    } else {
      i := LastIsThere(messages[..n], c);
    }
  }

  lemma CursorDecides(s: Chat, c: ConvId, user: string, at: Option<int>)
    requires ChatSound(s) && InOrder(s.messages) && c < |s.conversations| && IsCursor(s.participants, c, user, at)
    ensures IsUnread(s.conversations[c].lastMessageAt, at) <==> HasUnseen(s, c, user)
  {
    assert RowSound(s.conversations[c], c, s.assignments, s.participants, s.messages);
    if i :| 0 <= i < |s.messages| && s.messages[i].conversation == c && IsUnseen(s.participants, s.messages[i], user) {
      LastIsNewest(s.messages, c, i);
      if at.Some? {
        var k :| 0 <= k < |s.participants| && IsRowOf(s.participants[k], c, user);
        assert s.participants[k].lastReadAt == at;
      }
    }
    if IsUnread(s.conversations[c].lastMessageAt, at) {
      var i := LastIsThere(s.messages, c);
      assert IsUnseen(s.participants, s.messages[i], user);
    }
  }

  function CursorOf(ps: seq<Participant>, c: ConvId, user: string): Option<int> {
    var found := FindParticipant(ps, c, user);
    if found.Some? then ps[found.value].lastReadAt else None
  }

  lemma CursorIsFound(ps: seq<Participant>, c: ConvId, user: string)
    requires UniqueRows(ps)
    ensures IsCursor(ps, c, user, CursorOf(ps, c, user))
  {
    var found := FindParticipant(ps, c, user);
    if found.Some? {
      forall k | 0 <= k < |ps| && IsRowOf(ps[k], c, user) ensures k == found.value {
        assert IsRowOf(ps[found.value], c, user);
      }
    }
  }

  /**
   * In every state of a run whose clock does not run back, a conversation is unread for a user exactly when it has
   * a message that the user has no cursor for, or one earlier than the message.
   */
  lemma UnreadExactly(s: Chat, es: seq<Event>, c: ConvId, user: string)
    requires ChatSound(s) && InOrder(s.messages) && ClockRun(s, es) && c < |Run(s, es).conversations|
    ensures UnreadFor(Run(s, es), c, user) <==> HasUnseen(Run(s, es), c, user)
  {
    var t := Run(s, es);
    EveryRunIsSound(s, es);
    EveryRunIsInOrder(s, es);
    CursorIsFound(t.participants, c, user);
    CursorDecides(t, c, user, CursorOf(t.participants, c, user));
  }

  /** A new message makes its conversation unread, exactly for those whose cursor is still earlier. */
  lemma NewMessageIsUnread(s: Chat, e: Event, c: ConvId, user: string)
    requires ChatSound(s) && AppendedTo(s, e) == Some(c)
    ensures var t := Apply(s, e);
            && c < |t.conversations|
            && (UnreadFor(t, c, user) <==>
                  forall k :: 0 <= k < |t.participants| && t.participants[k].conversation == c
                              && t.participants[k].userId == Some(user) ==>
                    t.participants[k].lastReadAt.None? || t.participants[k].lastReadAt.value < EventTime(e))
  {
    var t := Apply(s, e);
    StepKeeps(s, e);
    NoMessageWhileClosed(s, e);
    MessageOfStep(s, e);
    assert RowSound(t.conversations[c], c, t.assignments, t.participants, t.messages);
    CursorIsFound(t.participants, c, user);
    var found := FindParticipant(t.participants, c, user);
    if found.Some? {
      assert IsRowOf(t.participants[found.value], c, user);
    }
  }

  lemma MessageOfStep(s: Chat, e: Event)
    requires AppendedTo(s, e).Some?
    ensures var t := Apply(s, e);
            && |t.messages| == |s.messages| + 1 && t.messages[|s.messages|].createdAt == EventTime(e)
            && LastMessageTime(t.messages, AppendedTo(s, e).value) == Some(EventTime(e))
  {
    NoMessageWhileClosed(s, e);
    if e.CreateCall? {
      CreateAppends(s, e.dto, e.now);
    }
  }

  // ----- The counts -----

  function TablesOf(s: Chat, roles: seq<RoleRow>): Tables {
    Tables(s.conversations, s.participants, roles)
  }

  ghost predicate IsOpenInbox(s: Chat, tenant: string, c: ConvId) {
    && c < |s.conversations| && s.conversations[c].tenant == tenant && !s.conversations[c].deleted
    && s.conversations[c].status != Closed && s.conversations[c].status != Archived
  }

  /** The first `n` conversations of the tenant that are open and hold a message the user has not seen. */
  ghost function UnseenInbox(s: Chat, tenant: string, user: string, n: nat): set<ConvId> {
    set c | 0 <= c < n && IsOpenInbox(s, tenant, c) && HasUnseen(s, c, user)
  }

  ghost predicate IsRowAmong(s: Chat, c: ConvId, user: string, n: nat) {
    exists k :: 0 <= k < n && k < |s.participants| && IsRowOf(s.participants[k], c, user)
  }

  /** The tenant's conversations, closed ones too, that the user takes part in (by a row among the first `n`). */
  ghost function UnseenOwn(s: Chat, tenant: string, user: string, n: nat): set<ConvId> {
    set c | 0 <= c < |s.conversations| && s.conversations[c].tenant == tenant && !s.conversations[c].deleted
            && IsRowAmong(s, c, user, n) && HasUnseen(s, c, user)
  }

  lemma {:induction false} OwnRows(ps: seq<Participant>, c: ConvId, user: string)
    ensures forall i :: 0 <= i < |ps| && IsRowOf(ps[i], c, user) ==> ps[i] in ParticipantsOf(ps, c, {user})
    decreases |ps|
  {
    if |ps| > 0 {
      OwnRows(ps[..|ps| - 1], c, user);
      assert forall i :: 0 <= i < |ps| - 1 ==> ps[..|ps| - 1][i] == ps[i];
    }
  }

  lemma InboxCursor(ps: seq<Participant>, c: ConvId, user: string)
    requires UniqueRows(ps)
    ensures var rows := ParticipantsOf(ps, c, {user});
            IsCursor(ps, c, user, if |rows| == 0 then None else rows[0].lastReadAt)
  {
    var rows := ParticipantsOf(ps, c, {user});
    OwnRows(ps, c, user);
    if |rows| > 0 {
      var i :| 0 <= i < |ps| && ps[i] == rows[0];
      assert IsRowOf(ps[i], c, user);
    }
  }

  lemma InboxDecides(s: Chat, roles: seq<RoleRow>, tenant: string, user: string, c: ConvId)
    requires ChatSound(s) && InOrder(s.messages) && c < |s.conversations|
    ensures IsActiveInbox(s.conversations[c], tenant) && InboxUnread(TablesOf(s, roles), c, user)
            <==> IsOpenInbox(s, tenant, c) && HasUnseen(s, c, user)
  {
    var rows := ParticipantsOf(s.participants, c, {user});
    InboxCursor(s.participants, c, user);
    CursorDecides(s, c, user, if |rows| == 0 then None else rows[0].lastReadAt);
  }

  lemma InboxGrows(s: Chat, tenant: string, user: string, c: ConvId)
    ensures UnseenInbox(s, tenant, user, c + 1)
            == UnseenInbox(s, tenant, user, c) + if IsOpenInbox(s, tenant, c) && HasUnseen(s, c, user) then {c} else {}
  {
  }

  lemma InboxStep(s: Chat, roles: seq<RoleRow>, tenant: string, user: string, c: ConvId)
    requires ChatSound(s) && InOrder(s.messages) && c < |s.conversations|
    ensures InboxCount(TablesOf(s, roles), tenant, user, c + 1) - InboxCount(TablesOf(s, roles), tenant, user, c)
            == |UnseenInbox(s, tenant, user, c + 1)| - |UnseenInbox(s, tenant, user, c)|
  {
    InboxDecides(s, roles, tenant, user, c);
    InboxGrows(s, tenant, user, c);
  }

  lemma {:induction false} InboxCountIs(s: Chat, roles: seq<RoleRow>, tenant: string, user: string, n: nat)
    requires ChatSound(s) && InOrder(s.messages) && n <= |s.conversations|
    ensures InboxCount(TablesOf(s, roles), tenant, user, n) == |UnseenInbox(s, tenant, user, n)|
    decreases n
  {
    if n == 0 {
      assert UnseenInbox(s, tenant, user, 0) == {};
    } else {
      InboxCountIs(s, roles, tenant, user, n - 1);
      InboxStep(s, roles, tenant, user, n - 1);
    }
  }

  lemma RowDecides(s: Chat, user: string, k: nat)
    requires ChatSound(s) && InOrder(s.messages) && k < |s.participants| && s.participants[k].userId == Some(user)
    ensures s.participants[k].conversation < |s.conversations|
    ensures var p := s.participants[k];
            && s.conversations[p.conversation].tenant == p.tenant
            && (IsUnread(s.conversations[p.conversation].lastMessageAt, p.lastReadAt) <==> HasUnseen(s, p.conversation, user))
            && !IsRowAmong(s, p.conversation, user, k)
  {
    var p := s.participants[k];
    assert BelongsTo(s, p.conversation, p.tenant);
    assert IsRowOf(p, p.conversation, user);
    CursorDecides(s, p.conversation, user, p.lastReadAt);
  }

  lemma {:induction false} OwnCountIs(s: Chat, roles: seq<RoleRow>, tenant: string, user: string, n: nat)
    requires ChatSound(s) && InOrder(s.messages) && n <= |s.participants|
    ensures UnreadRows(CursorRows(TablesOf(s, roles), tenant, {user}, n)) == |UnseenOwn(s, tenant, user, n)|
    decreases n
  {
    if n > 0 {
      OwnCountIs(s, roles, tenant, user, n - 1);
      OwnStep(TablesOf(s, roles), tenant, user, n);
      OneMoreOwn(s, tenant, user, n);
    }
  }

  /** The row is the user's, in a conversation of the tenant that holds a message they have not seen. */
  ghost predicate IsCounted(s: Chat, tenant: string, user: string, p: Participant) {
    && p.userId == Some(user) && p.tenant == tenant && p.conversation < |s.conversations|
    && !s.conversations[p.conversation].deleted && HasUnseen(s, p.conversation, user)
  }

  lemma CountedIsUnread(s: Chat, tenant: string, user: string, k: nat)
    requires ChatSound(s) && InOrder(s.messages) && k < |s.participants|
    ensures UnreadOne(TablesOf(s, []), tenant, user, s.participants[k])
            == if IsCounted(s, tenant, user, s.participants[k]) then 1 else 0
  {
    if s.participants[k].userId == Some(user) {
      RowDecides(s, user, k);
    }
  }

  lemma OneMoreRow(s: Chat, c: ConvId, user: string, n: nat)
    requires 0 < n <= |s.participants|
    ensures IsRowAmong(s, c, user, n) <==> IsRowAmong(s, c, user, n - 1) || IsRowOf(s.participants[n - 1], c, user)
  {
  }

  lemma OwnGrows(s: Chat, tenant: string, user: string, n: nat)
    requires ChatSound(s) && InOrder(s.messages) && 0 < n <= |s.participants|
    ensures var p, before := s.participants[n - 1], UnseenOwn(s, tenant, user, n - 1);
            if IsCounted(s, tenant, user, p)
            then UnseenOwn(s, tenant, user, n) == before + {p.conversation} && p.conversation !in before
            else UnseenOwn(s, tenant, user, n) == before
  {
    forall c ensures IsRowAmong(s, c, user, n) <==> IsRowAmong(s, c, user, n - 1) || IsRowOf(s.participants[n - 1], c, user) {
      OneMoreRow(s, c, user, n);
    }
    if s.participants[n - 1].userId == Some(user) {
      RowDecides(s, user, n - 1);
    }
  }

  lemma OneMoreOwn(s: Chat, tenant: string, user: string, n: nat)
    requires ChatSound(s) && InOrder(s.messages) && 0 < n <= |s.participants|
    ensures |UnseenOwn(s, tenant, user, n)| == |UnseenOwn(s, tenant, user, n - 1)|
            + UnreadOne(TablesOf(s, []), tenant, user, s.participants[n - 1])
  {
    OwnGrows(s, tenant, user, n);
    CountedIsUnread(s, tenant, user, n - 1);
  }

  ghost predicate HasFullAccess(roles: seq<RoleRow>, tenant: string, user: string) {
    exists i :: 0 <= i < |roles| && roles[i].tenant == tenant && roles[i].userId == user && roles[i].fullAccess
  }

  /**
   * In every state of a run whose clock does not run back, a user's count is the number of the tenant's
   * conversations with a message they have not seen: of the open ones, with full access, and else of those they
   * take part in.
   */
  lemma CountIsUnseen(s: Chat, es: seq<Event>, roles: seq<RoleRow>, tenant: string, user: string)
    requires ChatSound(s) && InOrder(s.messages) && ClockRun(s, es)
    ensures var t := Run(s, es);
            UnreadConversationCount(TablesOf(t, roles), tenant, user) ==
              if HasFullAccess(roles, tenant, user) then |UnseenInbox(t, tenant, user, |t.conversations|)|
              else |UnseenOwn(t, tenant, user, |t.participants|)|
  {
    var t := Run(s, es);
    EveryRunIsSound(s, es);
    EveryRunIsInOrder(s, es);
    InboxCountIs(t, roles, tenant, user, |t.conversations|);
    OwnCountIs(t, roles, tenant, user, |t.participants|);
  }
}
