/** What every run keeps of the chats: the registry, the memberships, and the invitations. */
module ChatRegistry {
  import opened Users
  import opened Chats

  // ---- Reading the history ----

  /** Who is on a chat according to the history. */
  function MembersAt(h: seq<Event>, cid: nat): set<nat> {
    if h == [] then {}
    else
      var front := MembersAt(h[..|h| - 1], cid);
      match h[|h| - 1]
      case Created(c, _) => if c == cid then {} else front
      case Invited(_, _, _) => front
      case Joined(c, u) => if c == cid then front + {u} else front
      case Left(c, u) => if c == cid then front - {u} else front
      case Gone(u) => front - {u}
  }

  /** Somebody has joined the chat since it was created. */
  predicate EverJoined(h: seq<Event>, cid: nat) {
    h != [] && match h[|h| - 1]
               case Created(c, _) => c != cid && EverJoined(h[..|h| - 1], cid)
               case Joined(c, _) => c == cid || EverJoined(h[..|h| - 1], cid)
               case _ => EverJoined(h[..|h| - 1], cid)
  }

  /** A chain of invitations leads from the chat's creator to the user, and whoever issued one was
      a member of the chat at that moment. */
  predicate Sponsored(h: seq<Event>, cid: nat, user: nat)
    decreases |h|
  {
    h != [] &&
    var front := h[..|h| - 1];
    match h[|h| - 1]
    case Created(c, u) => if c == cid then u == user else Sponsored(front, cid, user)
    case Invited(c, by', u) =>
      || Sponsored(front, cid, user)
      || (c == cid && u == user && by' in MembersAt(front, cid) && Sponsored(front, cid, by'))
    case _ => Sponsored(front, cid, user)
  }

  function JoinCount(h: seq<Event>, cid: nat, user: nat): nat {
    if h == [] then 0
    else JoinCount(h[..|h| - 1], cid, user) + if h[|h| - 1] == Joined(cid, user) then 1 else 0
  }

  /** Creating a chat invites its creator. */
  predicate Grants(e: Event, cid: nat, user: nat) {
    match e
    case Created(c, u) => c == cid && u == user
    case Invited(c, _, u) => c == cid && u == user
    case _ => false
  }

  function GrantCount(h: seq<Event>, cid: nat, user: nat): nat {
    if h == [] then 0
    else GrantCount(h[..|h| - 1], cid, user) + if Grants(h[|h| - 1], cid, user) then 1 else 0
  }

  /** The ids of the chats that were created, in order. */
  function Ids(h: seq<Event>): seq<nat> {
    if h == [] then []
    else
      var e, front := h[|h| - 1], Ids(h[..|h| - 1]);
      if e.Created? then front + [e.chat] else front
  }

  lemma Appended(h: seq<Event>, e: Event)
    ensures (h + [e])[..|h + [e]| - 1] == h && (h + [e])[|h + [e]| - 1] == e
  {
  }

  // ---- One chat ----

  predicate NoDuplicates(s: seq<nat>) {
    forall i, j | 0 <= i < j < |s| :: s[i] != s[j]
  }

  ghost predicate ChatOk(ids: set<nat>, h: seq<Event>, cid: nat, c: Chat) {
    && NoDuplicates(c.users)
    && (forall u | u in c.users :: u in ids)
    && (forall u :: u in c.users <==> u in MembersAt(h, cid))
    && (cid != PUBLIC ==>
          && (c.users == [] ==> !EverJoined(h, cid))
          && (forall u | u in c.users || u in c.invited :: Sponsored(h, cid, u)))
  }

  /** An invitation that is still open was not used up by a join. */
  ghost predicate Counted(h: seq<Event>, chats: map<nat, Chat>, cid: nat, u: nat) {
    JoinCount(h, cid, u) + (if cid in chats && u in chats[cid].invited then 1 else 0) <= GrantCount(h, cid, u)
  }

  ghost predicate Inv(st: State) {
    && PUBLIC in st.chats
    && (forall cid | cid in st.chats :: ChatOk(st.users.Keys, st.history, cid, st.chats[cid]))
    && (forall cid: nat, u: nat | cid != PUBLIC :: Counted(st.history, st.chats, cid, u))
    && (forall id | id in st.users :: id < st.nextUser)
  }

  lemma {:induction false} WithoutKeeps(s: seq<nat>, uid: nat)
    requires NoDuplicates(s)
    ensures NoDuplicates(Without(s, uid))
  {
    if s != [] {
      assert forall i, j | 0 <= i < j < |s[1..]| :: s[1..][i] != s[1..][j];
      WithoutKeeps(s[1..], uid);
      assert s[0] !in s[1..];
    }
  }

  /** Events about other chats, and declined invitations, leave a chat as it is. */
  lemma ChatUntouched(ids: set<nat>, ids': set<nat>, h: seq<Event>, e: Event, cid: nat, c: Chat)
    requires ChatOk(ids, h, cid, c) && ids <= ids'
    requires !e.Gone? && e.chat != cid
    ensures ChatOk(ids', h + [e], cid, c)
  {
    Appended(h, e);
  }

  lemma ChatJoined(ids: set<nat>, h: seq<Event>, cid: nat, c: Chat, u: nat)
    requires ChatOk(ids, h, cid, c) && u !in c.users && u in ids && (cid != PUBLIC ==> u in c.invited)
    ensures ChatOk(ids, h + [Joined(cid, u)], cid,
                   Chat(c.users + [u], if cid != PUBLIC then c.invited - {u} else c.invited))
  {
    Appended(h, Joined(cid, u));
  }

  lemma ChatLeft(ids: set<nat>, h: seq<Event>, cid: nat, c: Chat, u: nat)
    requires ChatOk(ids, h, cid, c) && (cid != PUBLIC ==> Without(c.users, u) != [])
    ensures ChatOk(ids, h + [Left(cid, u)], cid, c.(users := Without(c.users, u)))
  {
    Appended(h, Left(cid, u));
    WithoutKeeps(c.users, u);
  }

  lemma ChatGone(ids: set<nat>, h: seq<Event>, cid: nat, c: Chat, u: nat)
    requires ChatOk(ids, h, cid, c) && (cid != PUBLIC ==> Without(c.users, u) != [])
    ensures ChatOk(ids - {u}, h + [Gone(u)], cid, c.(users := Without(c.users, u)))
  {
    Appended(h, Gone(u));
    WithoutKeeps(c.users, u);
  }

  lemma ChatInvited(ids: set<nat>, h: seq<Event>, cid: nat, c: Chat, u: nat, peer: nat)
    requires ChatOk(ids, h, cid, c) && u in c.users
    ensures ChatOk(ids, h + [Invited(cid, u, peer)], cid, c.(invited := c.invited + {peer}))
  {
    Appended(h, Invited(cid, u, peer));
  }

  lemma ChatCreation(ids: set<nat>, h: seq<Event>, cid: nat, u: nat)
    requires cid != PUBLIC
    ensures ChatOk(ids, h + [Created(cid, u)], cid, Chat([], {u}))
  {
    Appended(h, Created(cid, u));
  }

  lemma CountedAppended(h: seq<Event>, e: Event, cid: nat, u: nat)
    ensures JoinCount(h + [e], cid, u) == JoinCount(h, cid, u) + if e == Joined(cid, u) then 1 else 0
    ensures GrantCount(h + [e], cid, u) == GrantCount(h, cid, u) + if Grants(e, cid, u) then 1 else 0
    ensures Ids(h + [e]) == Ids(h) + if e.Created? then [e.chat] else []
  {
    Appended(h, e);
  }

  // ---- Steps ----

  /** `st'` differs from `st` only in states and outboxes of the users. */
  predicate SameChats(st: State, st': State) {
    st'.users.Keys == st.users.Keys && st' == st.(users := st'.users)
  }

  lemma SameChatsKeep(st: State, st': State)
    requires Inv(st) && SameChats(st, st')
    ensures Inv(st')
  {
  }

  /** An event on one chat, after which that chat is in order. */
  lemma ChangeKeeps(st: State, st': State, cid: nat, c': Chat, e: Event)
    requires Inv(st) && st'.users.Keys == st.users.Keys && !e.Gone? && e.chat == cid
    requires st' == st.(users := st'.users, chats := st.chats[cid := c'], history := st.history + [e],
                        currentId := st'.currentId)
    requires ChatOk(st.users.Keys, st.history + [e], cid, c')
    requires forall u: nat | cid != PUBLIC :: Counted(st'.history, st'.chats, cid, u)
    ensures Inv(st')
  {
    forall c | c in st'.chats && c != cid ensures ChatOk(st'.users.Keys, st'.history, c, st'.chats[c]) {
      ChatUntouched(st.users.Keys, st'.users.Keys, st.history, e, c, st.chats[c]);
    }
    forall c: nat, u: nat | c != PUBLIC && c != cid ensures Counted(st'.history, st'.chats, c, u) {
      assert Counted(st.history, st.chats, c, u);
      CountedAppended(st.history, e, c, u);
    }
  }

  lemma JoinCounted(h: seq<Event>, chats: map<nat, Chat>, cid: nat, uid: nat, u: nat)
    requires cid in chats && uid in chats[cid].invited && Counted(h, chats, cid, u)
    ensures Counted(h + [Joined(cid, uid)], chats[cid := Chat(chats[cid].users + [uid], chats[cid].invited - {uid})],
                    cid, u)
  {
    CountedAppended(h, Joined(cid, uid), cid, u);
  }

  lemma JoinKeeps(st: State, uid: nat, cid: nat)
    requires Inv(st) && uid in st.users
    ensures Inv(Joins(st, uid, cid))
  {
    var st' := Joins(st, uid, cid);
    if st'.history == st.history {
      SameChatsKeep(st, st');
    } else {
      ChatJoined(st.users.Keys, st.history, cid, st.chats[cid], uid);
      if cid != PUBLIC {
        forall u: nat ensures Counted(st'.history, st'.chats, cid, u) {
          JoinCounted(st.history, st.chats, cid, uid, u);
        }
      }
      ChangeKeeps(st, st', cid, st'.chats[cid], Joined(cid, uid));
    }
  }

  lemma RemovalKeeps(st: State, st': State, cid: nat, who: nat)
    requires Inv(st) && cid in st.chats && who in st.chats[cid].users && st'.users.Keys == st.users.Keys
    requires st' == st.(users := st'.users, chats := RemoveFrom(st.chats, cid, who),
                        history := st.history + [Left(cid, who)])
    ensures Inv(st')
  {
    var e := Left(cid, who);
    forall c | c in st'.chats ensures ChatOk(st'.users.Keys, st'.history, c, st'.chats[c]) {
      if c == cid {
        ChatLeft(st.users.Keys, st.history, cid, st.chats[cid], who);
      } else {
        ChatUntouched(st.users.Keys, st'.users.Keys, st.history, e, c, st.chats[c]);
      }
    }
    forall c: nat, u: nat | c != PUBLIC ensures Counted(st'.history, st'.chats, c, u) {
      assert Counted(st.history, st.chats, c, u);
      CountedAppended(st.history, e, c, u);
    }
  }

  lemma LeaveKeeps(st: State, uid: nat, cid: nat)
    requires Inv(st) && uid in st.users
    ensures Inv(Leaves(st, uid, cid))
  {
    var st' := Leaves(st, uid, cid);
    if st'.history == st.history {
      SameChatsKeep(st, st');
    } else {
      RemovalKeeps(st, st', cid, uid);
    }
  }

  lemma KickKeeps(st: State, uid: nat, cid: nat, peer: nat, may: bool)
    requires Inv(st) && uid in st.users
    ensures Inv(Kicks(st, uid, cid, peer, may))
  {
    var st' := Kicks(st, uid, cid, peer, may);
    if st'.history == st.history {
      SameChatsKeep(st, st');
    } else {
      RemovalKeeps(st, st', cid, peer);
    }
  }

  lemma CreationKeeps(st: State, uid: nat, may: bool)
    requires Inv(st) && uid in st.users
    requires may ==> NextId(st.currentId) != PUBLIC
    ensures Inv(Creates(st, uid, may))
  {
    var st' := Creates(st, uid, may);
    if st'.history == st.history {
      SameChatsKeep(st, st');
    } else {
      var cid := NextId(st.currentId);
      ChatCreation(st.users.Keys, st.history, cid, uid);
      forall u: nat ensures Counted(st'.history, st'.chats, cid, u) {
        assert Counted(st.history, st.chats, cid, u);
        CountedAppended(st.history, Created(cid, uid), cid, u);
      }
      ChangeKeeps(st, st', cid, Chat([], {uid}), Created(cid, uid));
    }
  }

  lemma InviteKeeps(st: State, uid: nat, cid: nat, peer: nat)
    requires Inv(st) && uid in st.users
    ensures Inv(Invites(st, uid, cid, peer))
  {
    var st' := Invites(st, uid, cid, peer);
    if st'.history == st.history {
      SameChatsKeep(st, st');
    } else {
      ChatInvited(st.users.Keys, st.history, cid, st.chats[cid], uid, peer);
      if cid != PUBLIC {
        forall u: nat ensures Counted(st'.history, st'.chats, cid, u) {
          assert Counted(st.history, st.chats, cid, u);
          CountedAppended(st.history, Invited(cid, uid, peer), cid, u);
        }
      }
      ChangeKeeps(st, st', cid, st'.chats[cid], Invited(cid, uid, peer));
    }
  }

  lemma DeclineKeeps(st: State, uid: nat, cid: nat, peer: nat)
    requires Inv(st) && uid in st.users
    ensures Inv(Declines(st, uid, cid, peer))
  {
    var st' := Declines(st, uid, cid, peer);
    assert st'.users.Keys == st.users.Keys && st'.history == st.history;
    if st'.chats == st.chats {
      SameChatsKeep(st, st');
    } else {
      forall c: nat, u: nat | c != PUBLIC ensures Counted(st'.history, st'.chats, c, u) {
        assert Counted(st.history, st.chats, c, u);
      }
    }
  }

  lemma RemoveKeepsChats(st: State, uid: nat, c: nat)
    requires Inv(st) && c in RemovedEverywhere(st.chats, uid)
    ensures ChatOk(st.users.Keys - {uid}, st.history + [Gone(uid)], c, RemovedEverywhere(st.chats, uid)[c])
  {
    assert ChatOk(st.users.Keys, st.history, c, st.chats[c]);
    ChatGone(st.users.Keys, st.history, c, st.chats[c], uid);
  }

  lemma RemoveKeepsCounts(st: State, uid: nat, c: nat, u: nat)
    requires Inv(st) && c != PUBLIC
    ensures Counted(st.history + [Gone(uid)], RemovedEverywhere(st.chats, uid), c, u)
  {
    assert Counted(st.history, st.chats, c, u);
    CountedAppended(st.history, Gone(uid), c, u);
  }

  lemma RemoveKeeps(st: State, uid: nat)
    requires Inv(st) && uid in st.users && st.users[uid].leaving
    ensures Inv(Next(st, Remove(uid)))
  {
    var st' := Next(st, Remove(uid));
    assert st'.users.Keys == st.users.Keys - {uid};
    forall c | c in st'.chats ensures ChatOk(st'.users.Keys, st'.history, c, st'.chats[c]) {
      RemoveKeepsChats(st, uid, c);
    }
    forall c: nat, u: nat | c != PUBLIC ensures Counted(st'.history, st'.chats, c, u) {
      RemoveKeepsCounts(st, uid, c, u);
    }
  }

  predicate Creating(st: State, uid: nat, req: Request)
    requires uid in st.users
  {
    req.CreateChat? && req.may && st.users[uid].state != Connected && st.users[uid].state != GaveClientInfo
  }

  lemma HandleKeeps(st: State, uid: nat, req: Request)
    requires Inv(st) && uid in st.users && (Creating(st, uid, req) ==> NextId(st.currentId) != PUBLIC)
    ensures Inv(Handle(st, uid, req))
  {
    if st.users[uid].state == Connected || st.users[uid].state == GaveClientInfo {
      SameChatsKeep(st, Handle(st, uid, req));
    } else {
      match req
      case JoinChat(cid) => JoinKeeps(st, uid, cid);
      case LeaveChat(cid) => LeaveKeeps(st, uid, cid);
      case KickUser(cid, peer, may) => KickKeeps(st, uid, cid, peer, may);
      case CreateChat(may) => CreationKeeps(st, uid, may);
      case InviteUser(cid, peer) => InviteKeeps(st, uid, cid, peer);
      case DeclineInvitation(cid, peer) => DeclineKeeps(st, uid, cid, peer);
    }
  }

  lemma ConnectKeeps(st: State)
    requires Inv(st)
    ensures Inv(Next(st, Connect))
  {
    var st' := Next(st, Connect);
    forall c | c in st'.chats ensures ChatOk(st'.users.Keys, st'.history, c, st'.chats[c]) {
      assert ChatOk(st.users.Keys, st.history, c, st.chats[c]);
    }
  }

  /** The id counter is not about to come round to the public chat's id. */
  predicate IdsLeft(st: State, step: Step) {
    step.Handling? && Active(st, step.uid) && Creating(st, step.uid, step.request) ==> NextId(st.currentId) != PUBLIC
  }

  lemma StepKeeps(st: State, step: Step)
    requires Inv(st) && IdsLeft(st, step)
    ensures Inv(Next(st, step))
  {
    if step.Connect? {
      ConnectKeeps(st);
    } else if step.Remove? {
      if step.uid in st.users && st.users[step.uid].leaving {
        RemoveKeeps(st, step.uid);
      }
    } else if step.Handling? {
      if Active(st, step.uid) {
        HandleKeeps(st, step.uid, step.request);
      }
    } else {
      SameChatsKeep(st, Next(st, step));
    }
  }

  // ---- Runs ----

  ghost predicate IdsLeftAfter(st: State, steps: seq<Step>) {
    steps != [] ==>
      IdsLeftAfter(st, steps[..|steps| - 1]) && IdsLeft(Run(st, steps[..|steps| - 1]), steps[|steps| - 1])
  }

  ghost predicate IdsLeftThroughout(steps: seq<Step>) {
    IdsLeftAfter(Initial, steps)
  }

  lemma InitialOk()
    ensures Inv(Initial)
  {
    assert MembersAt([], PUBLIC) == {};
  }

  lemma {:induction false} InvThroughout(steps: seq<Step>)
    requires IdsLeftThroughout(steps)
    ensures Inv(Run(Initial, steps))
    decreases |steps|
  {
    if steps == [] {
      InitialOk();
    } else {
      InvThroughout(steps[..|steps| - 1]);
      StepKeeps(Run(Initial, steps[..|steps| - 1]), steps[|steps| - 1]);
    }
  }

  /** In every run the public chat is registered, nobody is twice on a chat, the members are
      connected users, and a registered private chat has members or was never joined. */
  lemma RegistryHolds(steps: seq<Step>)
    requires IdsLeftThroughout(steps)
    ensures var st := Run(Initial, steps);
            && PUBLIC in st.chats
            && (forall cid | cid in st.chats ::
                  && NoDuplicates(st.chats[cid].users)
                  && (forall u | u in st.chats[cid].users :: u in st.users)
                  && (forall u :: u in st.chats[cid].users <==> u in MembersAt(st.history, cid))
                  && (cid != PUBLIC && st.chats[cid].users == [] ==> !EverJoined(st.history, cid)))
  {
    InvThroughout(steps);
    forall cid | cid in Run(Initial, steps).chats
      ensures ChatOk(Run(Initial, steps).users.Keys, Run(Initial, steps).history, cid, Run(Initial, steps).chats[cid])
    {
    }
  }

  /** In every run each member of a private chat, and everybody invited to it, has a chain of
      invitations back to the chat's creator, issued by members; and nobody has joined a chat more
      often than he was invited to it. */
  lemma MembersWereInvited(steps: seq<Step>, cid: nat, u: nat)
    requires IdsLeftThroughout(steps) && cid != PUBLIC
    ensures var st := Run(Initial, steps);
            && (cid in st.chats && (u in st.chats[cid].users || u in st.chats[cid].invited) ==>
                 Sponsored(st.history, cid, u))
            && JoinCount(st.history, cid, u) <= GrantCount(st.history, cid, u)
            && (cid in st.chats && u in st.chats[cid].invited ==>
                 JoinCount(st.history, cid, u) < GrantCount(st.history, cid, u))
  {
    InvThroughout(steps);
    var st := Run(Initial, steps);
    assert Counted(st.history, st.chats, cid, u);
    if cid in st.chats {
      assert ChatOk(st.users.Keys, st.history, cid, st.chats[cid]);
    }
  }

  /** A removed user is on no registered chat, and no registered private chat is empty. */
  lemma RemovedFromAllChats(st: State, uid: nat)
    requires uid in st.users && st.users[uid].leaving
    ensures var st' := Next(st, Remove(uid));
            && uid !in st'.users
            && (forall cid | cid in st'.chats ::
                 uid !in st'.chats[cid].users && (cid != PUBLIC ==> st'.chats[cid].users != []))
            && (forall cid, u | cid in st.chats && u in st.chats[cid].users && u != uid ::
                  cid in st'.chats && u in st'.chats[cid].users)
  {
    forall cid, u | cid in st.chats && u in st.chats[cid].users && u != uid
      ensures cid in RemovedEverywhere(st.chats, uid) && u in RemovedEverywhere(st.chats, uid)[cid].users
    {
      assert u in Without(st.chats[cid].users, uid);
    }
  }

  // ---- Ids ----

  /** What one step adds to the history. */
  lemma HandleHistory(st: State, uid: nat, req: Request)
    requires uid in st.users
    ensures var st' := Handle(st, uid, req);
            if Creating(st, uid, req)
            then && st'.currentId == NextId(st.currentId)
                 && st'.history == st.history + [Created(NextId(st.currentId), uid)]
            else st'.currentId == st.currentId
                 && (st'.history == st.history || exists e: Event :: !e.Created? && st'.history == st.history + [e])
  {
    var st' := Handle(st, uid, req);
    if !req.CreateChat? && st'.history != st.history {
      var e := st'.history[|st'.history| - 1];
      assert st'.history == st.history + [e] && !e.Created?;
    }
  }

  /** The id of the `n`th private chat. */
  function IdOf(n: nat): nat {
    if n == 0 then PUBLIC else NextId(IdOf(n - 1))
  }

  lemma {:induction false} IdOfValue(n: nat)
    requires n <= UINT32
    ensures IdOf(n) == if n < UINT32 - 1 then n + 1 else if n == UINT32 - 1 then 0 else PUBLIC
  {
    if n > 0 { IdOfValue(n - 1); }
  }

  ghost predicate Numbered(st: State) {
    && st.currentId == IdOf(|Ids(st.history)|)
    && forall k | 0 <= k < |Ids(st.history)| :: Ids(st.history)[k] == IdOf(k + 1)
  }

  lemma StepNumbers(st: State, step: Step)
    requires Numbered(st)
    ensures Numbered(Next(st, step)) && |Ids(st.history)| <= |Ids(Next(st, step).history)|
  {
    var st' := Next(st, step);
    if step.Handling? && Active(st, step.uid) {
      HandleHistory(st, step.uid, step.request);
    }
    if st'.history != st.history {
      var e := st'.history[|st'.history| - 1];
      assert st'.history == st.history + [e];
      CountedAppended(st.history, e, 0, 0);
    }
  }

  lemma {:induction false} NumberedThroughout(steps: seq<Step>)
    ensures Numbered(Run(Initial, steps))
    decreases |steps|
  {
    if steps != [] {
      NumberedThroughout(steps[..|steps| - 1]);
      StepNumbers(Run(Initial, steps[..|steps| - 1]), steps[|steps| - 1]);
    }
  }

  /** No id is given out twice, and none is the public chat's, as long as fewer than 2^32 private
      chats are created; the 2^32nd gets the id of the public chat. */
  lemma IdsAreNeverReused(steps: seq<Step>)
    ensures var ids := Ids(Run(Initial, steps).history);
            && (|ids| < UINT32 ==> NoDuplicates(ids) && PUBLIC !in ids)
            && (|ids| >= UINT32 ==> ids[UINT32 - 1] == PUBLIC)
  {
    NumberedThroughout(steps);
    var ids := Ids(Run(Initial, steps).history);
    if |ids| < UINT32 {
      forall k | 0 <= k < |ids| ensures ids[k] == if k + 1 < UINT32 - 1 then k + 2 else 0 {
        IdOfValue(k + 1);
      }
    } else {
      IdOfValue(UINT32);
    }
  }

  lemma NextIdLeft(st: State, step: Step)
    requires Numbered(st) && |Ids(Next(st, step).history)| < UINT32
    ensures IdsLeft(st, step)
  {
    if step.Handling? && Active(st, step.uid) && Creating(st, step.uid, step.request) {
      HandleHistory(st, step.uid, step.request);
      CountedAppended(st.history, Created(NextId(st.currentId), step.uid), 0, 0);
      IdOfValue(|Ids(st.history)| + 1);
    }
  }

  /** Fewer than 2^32 creations are enough for the other properties. */
  lemma {:induction false} FewCreationsSuffice(steps: seq<Step>)
    requires |Ids(Run(Initial, steps).history)| < UINT32
    ensures IdsLeftThroughout(steps)
    decreases |steps|
  {
    if steps != [] {
      var front := steps[..|steps| - 1];
      NumberedThroughout(front);
      StepNumbers(Run(Initial, front), steps[|steps| - 1]);
      FewCreationsSuffice(front);
      NextIdLeft(Run(Initial, front), steps[|steps| - 1]);
    }
  }
}
