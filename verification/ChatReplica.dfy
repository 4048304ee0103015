/** A member of the public chat who replays the user list and the join, leave and kick messages
    holds a set of users that lies between the logged-in members and all members. */
module ChatReplica {
  import opened Users
  import opened Chats
  import opened ChatRegistry

  /** What a client does with a message about the public chat. */
  function React(known: set<nat>, m: Message): set<nat> {
    match m
    case UserList(c, u) => if c == PUBLIC then known + {u} else known
    case UserJoin(c, u) => if c == PUBLIC then known + {u} else known
    case UserLeave(c, u) => if c == PUBLIC then known - {u} else known
    case UserKick(c, _, u) => if c == PUBLIC then known - {u} else known
    case _ => known
  }

  function Replay(ms: seq<Message>): set<nat> {
    if ms == [] then {} else React(Replay(ms[..|ms| - 1]), ms[|ms| - 1])
  }

  lemma ReplayMore(ms: seq<Message>, m: Message)
    ensures Replay(ms + [m]) == React(Replay(ms), m)
  {
    assert (ms + [m])[..|ms|] == ms;
  }

  predicate Quiet(ms: seq<Message>) {
    forall i | 0 <= i < |ms| ::
      ms[i].UserList? || ms[i].UserJoin? || ms[i].UserLeave? || ms[i].UserKick? ==> ms[i].chat != PUBLIC
  }

  lemma {:induction false} QuietReplay(ms: seq<Message>, more: seq<Message>)
    requires Quiet(more)
    ensures Replay(ms + more) == Replay(ms)
    decreases |more|
  {
    if more == [] {
      assert ms + more == ms;
    } else {
      var front := more[..|more| - 1];
      QuietReplay(ms, front);
      assert ms + more == (ms + front) + [more[|more| - 1]];
      ReplayMore(ms + front, more[|more| - 1]);
    }
  }

  // ---- The claim about one member ----

  predicate Member(st: State, id: nat) {
    PUBLIC in st.chats && id in st.chats[PUBLIC].users
  }

  /** Members of the public chat are connected; users who have ended their loop are disconnected. */
  ghost predicate Settled(st: State) {
    && PUBLIC in st.chats
    && (forall id | Member(st, id) :: id in st.users)
    && (forall id | id in st.users && st.users[id].leaving :: st.users[id].state == Disconnected)
    && (forall id | id in st.users :: id < st.nextUser)
  }

  ghost predicate Fits(st: State, known: set<nat>) {
    && (forall id | Member(st, id) && id in st.users && st.users[id].state == LoggedIn :: id in known)
    && (forall id | id in known :: Member(st, id) && id in st.users && !st.users[id].leaving)
  }

  predicate Watching(st: State, uid: nat, from: nat) {
    && Member(st, uid) && uid in st.users
    && st.users[uid].state == LoggedIn && !st.users[uid].transfer && from <= |st.users[uid].outbox|
  }

  function Knows(st: State, uid: nat, from: nat): set<nat>
    requires Watching(st, uid, from)
  {
    Replay(st.users[uid].outbox[from..])
  }

  /** A member the observer does not know of logs in, having given client info again or having been
      marked as disconnected before. */
  predicate Hides(st: State, step: Step, known: set<nat>) {
    && step.LogIn? && Active(st, step.uid) && st.users[step.uid].state != Connected
    && Member(st, step.uid) && step.uid !in known
  }

  // ---- What a step sends to a member ----

  lemma HeardQuietly(st: State, st': State, uid: nat, from: nat, more: seq<Message>)
    requires Watching(st, uid, from) && Watching(st', uid, from)
    requires st'.users[uid].outbox == st.users[uid].outbox + more && Quiet(more)
    ensures Knows(st', uid, from) == Knows(st, uid, from)
  {
    assert st'.users[uid].outbox[from..] == st.users[uid].outbox[from..] + more;
    QuietReplay(st.users[uid].outbox[from..], more);
  }

  lemma HeardOne(st: State, st': State, uid: nat, from: nat, m: Message, more: seq<Message>)
    requires Watching(st, uid, from) && Watching(st', uid, from)
    requires st'.users[uid].outbox == st.users[uid].outbox + [m] + more && Quiet(more)
    ensures Knows(st', uid, from) == React(Knows(st, uid, from), m)
  {
    var before := st.users[uid].outbox[from..];
    assert st'.users[uid].outbox[from..] == before + [m] + more;
    ReplayMore(before, m);
    QuietReplay(before + [m], more);
  }

  lemma {:induction false} ListingQuiet(users: map<nat, User>, cid: nat, members: seq<nat>)
    requires cid != PUBLIC
    ensures Quiet(Listing(users, cid, members))
    decreases |members|
  {
    if members != [] {
      ListingQuiet(users, cid, members[..|members| - 1]);
    }
  }

  /** Only the outboxes and the private chats differ. */
  predicate SamePublic(st: State, st': State) {
    && PUBLIC in st.chats && PUBLIC in st'.chats && st'.chats[PUBLIC].users == st.chats[PUBLIC].users
    && st'.nextUser == st.nextUser
    && st'.users.Keys == st.users.Keys
    && forall id | id in st.users ::
         && st'.users[id].state == st.users[id].state && st'.users[id].leaving == st.users[id].leaving
         && st'.users[id].transfer == st.users[id].transfer
  }

  lemma SamePublicFits(st: State, st': State, known: set<nat>)
    requires SamePublic(st, st') && Settled(st)
    ensures Settled(st') && (Fits(st, known) ==> Fits(st', known))
  {
  }

  // ---- Steps that do not concern the public chat ----

  /** A step that changes nothing on the public chat and sends only other messages. */
  lemma QuietStep(st: State, st': State, uid: nat, from: nat, more: seq<Message>)
    requires Settled(st) && SamePublic(st, st') && Watching(st, uid, from)
    requires st'.users[uid].outbox == st.users[uid].outbox + more && Quiet(more)
    ensures Settled(st') && Watching(st', uid, from) && Knows(st', uid, from) == Knows(st, uid, from)
    ensures Fits(st, Knows(st, uid, from)) ==> Fits(st', Knows(st', uid, from))
  {
    HeardQuietly(st, st', uid, from, more);
  }

  function To(uid: nat, asker: nat, ms: seq<Message>): seq<Message> {
    if uid == asker then ms else []
  }

  lemma SendQuietly(st: State, asker: nat, ms: seq<Message>, uid: nat, from: nat)
    requires Settled(st) && Watching(st, uid, from) && asker in st.users && Quiet(ms)
    ensures var st' := Send(st, asker, ms);
            && Settled(st') && Watching(st', uid, from) && Knows(st', uid, from) == Knows(st, uid, from)
            && (Fits(st, Knows(st, uid, from)) ==> Fits(st', Knows(st', uid, from)))
  {
    QuietStep(st, Send(st, asker, ms), uid, from, To(uid, asker, ms));
  }

  lemma BroadcastQuietly(st: State, cid: nat, m: Message, uid: nat, from: nat)
    requires Settled(st) && Watching(st, uid, from) && Quiet([m])
    ensures var st' := Broadcast(st, cid, m);
            && Settled(st') && Watching(st', uid, from) && Knows(st', uid, from) == Knows(st, uid, from)
            && (Fits(st, Knows(st, uid, from)) ==> Fits(st', Knows(st', uid, from)))
  {
    QuietStep(st, Broadcast(st, cid, m), uid, from, if Hears(st, cid, uid) then [m] else []);
  }

  /** A broadcast on the public chat reaches every member who is logged in. */
  lemma BroadcastHeard(st: State, m: Message, uid: nat, from: nat)
    requires Settled(st) && Watching(st, uid, from)
    ensures var st' := Broadcast(st, PUBLIC, m);
            && SamePublic(st, st') && Settled(st')
            && Watching(st', uid, from) && Knows(st', uid, from) == React(Knows(st, uid, from), m)
  {
    HeardOne(st, Broadcast(st, PUBLIC, m), uid, from, m, []);
  }

  /** The members, but not the outboxes, change. */
  lemma SameOutboxes(st: State, st': State, uid: nat, from: nat)
    requires Watching(st, uid, from) && Member(st', uid) && uid in st'.users && st'.users[uid] == st.users[uid]
    ensures Watching(st', uid, from) && Knows(st', uid, from) == Knows(st, uid, from)
  {
  }

  // ---- Requests ----

  lemma PublicJoinFits(st: State, v: nat, uid: nat, from: nat)
    requires Settled(st) && Watching(st, uid, from) && Fits(st, Knows(st, uid, from)) && v != uid
    requires Active(st, v)
    ensures var st' := Admit(st, v, PUBLIC);
            Settled(st') && Watching(st', uid, from) && Fits(st', Knows(st', uid, from))
  {
    var st' := Admit(st, v, PUBLIC);
    var told := Broadcast(st, PUBLIC, UserJoin(PUBLIC, v));
    BroadcastHeard(st, UserJoin(PUBLIC, v), uid, from);
    assert st'.users[uid] == told.users[uid];
    SameOutboxes(told, st', uid, from);
    assert forall id :: Member(st', id) <==> Member(st, id) || id == v;
  }

  lemma PrivateJoinFits(st: State, v: nat, cid: nat, uid: nat, from: nat)
    requires Settled(st) && Watching(st, uid, from) && Fits(st, Knows(st, uid, from))
    requires v in st.users && cid in st.chats && cid != PUBLIC
    ensures var st' := Admit(st, v, cid); Settled(st') && Watching(st', uid, from) && Fits(st', Knows(st', uid, from))
  {
    var told := Broadcast(st, cid, UserJoin(cid, v));
    var chat := Chat(st.chats[cid].users + [v], st.chats[cid].invited - {v});
    var st1 := told.(chats := told.chats[cid := chat], history := told.history + [Joined(cid, v)]);
    BroadcastQuietly(st, cid, UserJoin(cid, v), uid, from);
    SameOutboxes(told, st1, uid, from);
    SamePublicFits(told, st1, Knows(told, uid, from));
    ListingQuiet(st1.users, cid, chat.users);
    SendQuietly(st1, v, Listing(st1.users, cid, chat.users) + [UserListDone(cid)], uid, from);
  }

  lemma JoinFits(st: State, v: nat, cid: nat, uid: nat, from: nat)
    requires Settled(st) && Watching(st, uid, from) && Fits(st, Knows(st, uid, from))
    requires Active(st, v)
    ensures var st' := Joins(st, v, cid); Settled(st') && Watching(st', uid, from) && Fits(st', Knows(st', uid, from))
  {
    if cid !in st.chats {
      SendQuietly(st, v, [Error(ChatNotFound)], uid, from);
    } else if v in st.chats[cid].users {
      SendQuietly(st, v, [Error(AlreadyOnChat)], uid, from);
    } else if cid != PUBLIC && v !in st.chats[cid].invited {
      SendQuietly(st, v, [Error(NotInvited)], uid, from);
    } else if cid == PUBLIC {
      PublicJoinFits(st, v, uid, from);
    } else {
      PrivateJoinFits(st, v, cid, uid, from);
    }
  }

  /** `who` is taken off a chat. */
  lemma RemovalFits(st: State, st': State, cid: nat, who: nat, uid: nat, from: nat)
    requires Settled(st) && Watching(st, uid, from) && who != uid && cid in st.chats
    requires st' == st.(chats := RemoveFrom(st.chats, cid, who), history := st'.history)
    ensures Settled(st') && Watching(st', uid, from) && Knows(st', uid, from) == Knows(st, uid, from)
    ensures cid != PUBLIC ==> (Fits(st, Knows(st, uid, from)) ==> Fits(st', Knows(st', uid, from)))
    ensures cid == PUBLIC ==> forall id :: Member(st', id) <==> Member(st, id) && id != who
  {
    SameOutboxes(st, st', uid, from);
  }

  lemma PublicLeaveFits(st: State, st1: State, v: nat, uid: nat, from: nat)
    requires Settled(st) && Watching(st, uid, from) && Fits(st, Knows(st, uid, from)) && v != uid
    requires st1 == st.(chats := RemoveFrom(st.chats, PUBLIC, v), history := st1.history)
    ensures var told := Broadcast(st1, PUBLIC, UserLeave(PUBLIC, v));
            Settled(told) && Watching(told, uid, from) && Fits(told, Knows(told, uid, from))
  {
    RemovalFits(st, st1, PUBLIC, v, uid, from);
    BroadcastHeard(st1, UserLeave(PUBLIC, v), uid, from);
  }

  lemma PrivateLeaveFits(st: State, st1: State, cid: nat, v: nat, m: Message, uid: nat, from: nat)
    requires Settled(st) && Watching(st, uid, from) && Fits(st, Knows(st, uid, from))
    requires cid in st.chats && cid != PUBLIC && Quiet([m])
    requires st1 == st.(chats := RemoveFrom(st.chats, cid, v), history := st1.history)
    ensures Settled(st1) && Watching(st1, uid, from) && Fits(st1, Knows(st1, uid, from))
    ensures var told := Broadcast(st1, cid, m);
            Settled(told) && Watching(told, uid, from) && Fits(told, Knows(told, uid, from))
  {
    assert SamePublic(st, st1);
    SamePublicFits(st, st1, Knows(st, uid, from));
    SameOutboxes(st, st1, uid, from);
    BroadcastQuietly(st1, cid, m, uid, from);
  }

  lemma LeaveFits(st: State, v: nat, cid: nat, uid: nat, from: nat)
    requires Settled(st) && Watching(st, uid, from) && Fits(st, Knows(st, uid, from))
    requires v in st.users && (cid == PUBLIC ==> v != uid)
    ensures var st' := Leaves(st, v, cid); Settled(st') && Watching(st', uid, from) && Fits(st', Knows(st', uid, from))
  {
    if cid !in st.chats {
      SendQuietly(st, v, [Error(ChatNotFound)], uid, from);
    } else if v !in st.chats[cid].users {
      SendQuietly(st, v, [Error(NotOnChat)], uid, from);
    } else {
      var st1 := st.(chats := RemoveFrom(st.chats, cid, v), history := st.history + [Left(cid, v)]);
      if cid == PUBLIC {
        PublicLeaveFits(st, st1, v, uid, from);
      } else {
        PrivateLeaveFits(st, st1, cid, v, UserLeave(cid, v), uid, from);
      }
      SendQuietly(Broadcast(st1, cid, UserLeave(cid, v)), v, [Okay], uid, from);
    }
  }

  predicate MayKick(st: State, v: nat, cid: nat, peer: nat, may: bool) {
    peer in st.users && cid in st.chats && v in st.chats[cid].users && peer in st.chats[cid].users
    && (cid == PUBLIC ==> may)
  }

  lemma PublicKickFits(st: State, st1: State, v: nat, peer: nat, uid: nat, from: nat)
    requires Settled(st) && Watching(st, uid, from) && Fits(st, Knows(st, uid, from)) && peer != uid
    requires var told := Broadcast(st, PUBLIC, UserKick(PUBLIC, v, peer));
             st1 == told.(chats := RemoveFrom(told.chats, PUBLIC, peer), history := st1.history)
    ensures Settled(st1) && Watching(st1, uid, from) && Fits(st1, Knows(st1, uid, from))
  {
    BroadcastHeard(st, UserKick(PUBLIC, v, peer), uid, from);
    RemovalFits(Broadcast(st, PUBLIC, UserKick(PUBLIC, v, peer)), st1, PUBLIC, peer, uid, from);
  }

  lemma KickedFits(st: State, v: nat, cid: nat, peer: nat, may: bool, uid: nat, from: nat)
    requires Settled(st) && Watching(st, uid, from) && Fits(st, Knows(st, uid, from))
    requires MayKick(st, v, cid, peer, may) && v in st.users && (cid == PUBLIC ==> peer != uid)
    ensures var st' := Kicks(st, v, cid, peer, may);
            Settled(st') && Watching(st', uid, from) && Fits(st', Knows(st', uid, from))
  {
    var told := Broadcast(st, cid, UserKick(cid, v, peer));
    var st1 := told.(chats := RemoveFrom(told.chats, cid, peer), history := told.history + [Left(cid, peer)]);
    if cid == PUBLIC {
      PublicKickFits(st, st1, v, peer, uid, from);
    } else {
      BroadcastQuietly(st, cid, UserKick(cid, v, peer), uid, from);
      PrivateLeaveFits(told, st1, cid, peer, Okay, uid, from);
    }
    SendQuietly(st1, v, [Okay], uid, from);
  }

  lemma KickFits(st: State, v: nat, cid: nat, peer: nat, may: bool, uid: nat, from: nat)
    requires Settled(st) && Watching(st, uid, from) && Fits(st, Knows(st, uid, from)) && v in st.users
    requires MayKick(st, v, cid, peer, may) && cid == PUBLIC ==> peer != uid
    ensures var st' := Kicks(st, v, cid, peer, may);
            Settled(st') && Watching(st', uid, from) && Fits(st', Knows(st', uid, from))
  {
    if MayKick(st, v, cid, peer, may) {
      KickedFits(st, v, cid, peer, may, uid, from);
    } else if peer !in st.users {
      SendQuietly(st, v, [Error(UserNotFound)], uid, from);
    } else if cid !in st.chats {
      SendQuietly(st, v, [Error(ChatNotFound)], uid, from);
    } else if v !in st.chats[cid].users || peer !in st.chats[cid].users {
      SendQuietly(st, v, [Error(NotOnChat)], uid, from);
    } else {
      SendQuietly(st, v, [Error(PermissionDenied)], uid, from);
    }
  }

  lemma CreateFits(st: State, v: nat, may: bool, uid: nat, from: nat)
    requires Settled(st) && Watching(st, uid, from) && Fits(st, Knows(st, uid, from))
    requires v in st.users && (may ==> NextId(st.currentId) != PUBLIC)
    ensures var st' := Creates(st, v, may); Settled(st') && Watching(st', uid, from) && Fits(st', Knows(st', uid, from))
  {
    var st' := Creates(st, v, may);
    QuietStep(st, st', uid, from,
              To(uid, v, if may then [ChatCreated(NextId(st.currentId))] else [Error(PermissionDenied)]));
  }

  /** The invitations of a chat change, and two users are told. */
  lemma InvitationFits(st: State, st1: State, peer: nat, m: Message, v: nat, uid: nat, from: nat)
    requires Settled(st) && Watching(st, uid, from) && Fits(st, Knows(st, uid, from)) && v in st.users
             && peer in st.users
    requires SamePublic(st, st1) && st1.users == st.users && Quiet([m])
    ensures var st' := Send(Send(st1, peer, [m]), v, [Okay]);
            Settled(st') && Watching(st', uid, from) && Fits(st', Knows(st', uid, from))
  {
    SamePublicFits(st, st1, Knows(st, uid, from));
    SameOutboxes(st, st1, uid, from);
    SendQuietly(st1, peer, [m], uid, from);
    SendQuietly(Send(st1, peer, [m]), v, [Okay], uid, from);
  }

  lemma InviteFits(st: State, v: nat, cid: nat, peer: nat, uid: nat, from: nat)
    requires Settled(st) && Watching(st, uid, from) && Fits(st, Knows(st, uid, from)) && v in st.users
    ensures var st' := Invites(st, v, cid, peer);
            Settled(st') && Watching(st', uid, from) && Fits(st', Knows(st', uid, from))
  {
    if peer !in st.users {
      SendQuietly(st, v, [Error(UserNotFound)], uid, from);
    } else if cid !in st.chats {
      SendQuietly(st, v, [Error(ChatNotFound)], uid, from);
    } else if v !in st.chats[cid].users {
      SendQuietly(st, v, [Error(NotOnChat)], uid, from);
    } else if peer in st.chats[cid].users {
      SendQuietly(st, v, [Error(AlreadyOnChat)], uid, from);
    } else {
      var chat := st.chats[cid].(invited := st.chats[cid].invited + {peer});
      var st1 := st.(chats := st.chats[cid := chat], history := st.history + [Invited(cid, v, peer)]);
      InvitationFits(st, st1, peer, Invitation(cid, v), v, uid, from);
    }
  }

  lemma DeclineFits(st: State, v: nat, cid: nat, peer: nat, uid: nat, from: nat)
    requires Settled(st) && Watching(st, uid, from) && Fits(st, Knows(st, uid, from)) && v in st.users
    ensures var st' := Declines(st, v, cid, peer);
            Settled(st') && Watching(st', uid, from) && Fits(st', Knows(st', uid, from))
  {
    if peer !in st.users {
      SendQuietly(st, v, [Error(UserNotFound)], uid, from);
    } else if cid !in st.chats {
      SendQuietly(st, v, [Error(ChatNotFound)], uid, from);
    } else if cid != PUBLIC && v !in st.chats[cid].invited {
      SendQuietly(st, v, [Error(NotInvited)], uid, from);
    } else {
      var chat := st.chats[cid].(invited := st.chats[cid].invited - {v});
      InvitationFits(st, st.(chats := st.chats[cid := chat]), peer, Declined(cid, v), v, uid, from);
    }
  }

  // ---- The other steps ----

  lemma HandleFits(st: State, v: nat, req: Request, uid: nat, from: nat)
    requires Settled(st) && Watching(st, uid, from) && Fits(st, Knows(st, uid, from)) && Active(st, v)
    requires IdsLeft(st, Handling(v, req)) && Watching(Handle(st, v, req), uid, from)
    ensures var st' := Handle(st, v, req); Settled(st') && Fits(st', Knows(st', uid, from))
  {
    if st.users[v].state == Connected || st.users[v].state == GaveClientInfo {
      SendQuietly(st, v, [Error(OutOfSequence)], uid, from);
    } else {
      match req
      case JoinChat(cid) => JoinFits(st, v, cid, uid, from);
      case LeaveChat(cid) => LeaveFits(st, v, cid, uid, from);
      case KickUser(cid, peer, may) => KickFits(st, v, cid, peer, may, uid, from);
      case CreateChat(may) => CreateFits(st, v, may, uid, from);
      case InviteUser(cid, peer) => InviteFits(st, v, cid, peer, uid, from);
      case DeclineInvitation(cid, peer) => DeclineFits(st, v, cid, peer, uid, from);
    }
  }

  lemma EndFits(st: State, v: nat, uid: nat, from: nat)
    requires Settled(st) && Watching(st, uid, from) && Fits(st, Knows(st, uid, from)) && Active(st, v)
    requires Watching(Ends(st, v), uid, from)
    ensures var st' := Ends(st, v); Settled(st') && Fits(st', Knows(st', uid, from))
  {
    assert v != uid;
    var st1 := st.(users := st.users[v := st.users[v].(state := Disconnected, leaving := true)]);
    SameOutboxes(st, st1, uid, from);
    if Member(st1, v) {
      BroadcastHeard(st1, UserLeave(PUBLIC, v), uid, from);
    }
  }

  lemma RemoveFits(st: State, v: nat, uid: nat, from: nat)
    requires Settled(st) && Watching(st, uid, from) && Fits(st, Knows(st, uid, from))
    requires v in st.users && st.users[v].leaving
    ensures var st' := Next(st, Remove(v)); Settled(st') && Watching(st', uid, from) && Fits(st', Knows(st', uid, from))
  {
    var st' := Next(st, Remove(v));
    assert forall id :: Member(st', id) <==> Member(st, id) && id != v;
    SameOutboxes(st, st', uid, from);
  }

  /** A step keeps a member's set between the logged-in members and all members, unless it is a
      login that hides a member. */
  lemma StepFits(st: State, step: Step, uid: nat, from: nat)
    requires Settled(st) && Watching(st, uid, from) && Fits(st, Knows(st, uid, from))
    requires IdsLeft(st, step) && Watching(Next(st, step), uid, from)
    ensures var st' := Next(st, step);
            && Settled(st')
            && (Fits(st', Knows(st', uid, from)) <==> !Hides(st, step, Knows(st, uid, from)))
  {
    if step.Handling? && Active(st, step.uid) {
      HandleFits(st, step.uid, step.request, uid, from);
    } else if step.EndLoop? && Active(st, step.uid) {
      EndFits(st, step.uid, uid, from);
    } else if step.Remove? && step.uid in st.users && st.users[step.uid].leaving {
      RemoveFits(st, step.uid, uid, from);
    } else if !step.Handling? && !step.EndLoop? && !step.Remove? {
      SameOutboxes(st, Next(st, step), uid, from);
    }
  }

  // ---- Runs ----

  /** The user list tells of exactly the members who are logged in. */
  lemma {:induction false} ListingReplayed(ms: seq<Message>, users: map<nat, User>, members: seq<nat>)
    ensures forall id :: id in Replay(ms + Listing(users, PUBLIC, members)) <==>
              id in Replay(ms) || (id in members && id in users && users[id].state == LoggedIn)
    decreases |members|
  {
    if members == [] {
      assert ms + Listing(users, PUBLIC, members) == ms;
    } else {
      var front, id := members[..|members| - 1], members[|members| - 1];
      ListingReplayed(ms, users, front);
      assert members == front + [id];
      if id in users && users[id].state == LoggedIn {
        assert ms + Listing(users, PUBLIC, members) == (ms + Listing(users, PUBLIC, front)) + [UserList(PUBLIC, id)];
        ReplayMore(ms + Listing(users, PUBLIC, front), UserList(PUBLIC, id));
      }
    }
  }

  predicate LoggedInMember(st: State, id: nat) {
    Member(st, id) && id in st.users && st.users[id].state == LoggedIn
  }

  /** After its own join a user knows exactly the members who are logged in. */
  lemma OwnJoin(st: State, uid: nat)
    requires PUBLIC in st.chats && uid in st.users && !Member(st, uid)
    requires st.users[uid].state == LoggedIn && !st.users[uid].transfer
    ensures var (st', from) := (Admit(st, uid, PUBLIC), |st.users[uid].outbox|);
            && Watching(st', uid, from)
            && (forall id :: Member(st', id) <==> Member(st, id) || id == uid)
            && (forall id :: id in Knows(st', uid, from) <==> LoggedInMember(st', id))
            && SameUsers(st, st')
  {
    var st', from := Admit(st, uid, PUBLIC), |st.users[uid].outbox|;
    var told := Broadcast(st, PUBLIC, UserJoin(PUBLIC, uid));
    var members := st.chats[PUBLIC].users + [uid];
    var list := Listing(told.users, PUBLIC, members);
    assert told.users[uid].outbox == st.users[uid].outbox;
    assert st'.users[uid].outbox[from..] == [] + list + [UserListDone(PUBLIC)];
    ListingReplayed([], told.users, members);
    ReplayMore([] + list, UserListDone(PUBLIC));
  }

  /** The same users in the same states. */
  predicate SameUsers(st: State, st': State) {
    && st'.nextUser == st.nextUser && st'.users.Keys == st.users.Keys
    && forall id | id in st.users ::
         st'.users[id].state == st.users[id].state && st'.users[id].leaving == st.users[id].leaving
  }

  lemma AdmitRoster(st: State, v: nat, cid: nat)
    requires PUBLIC in st.chats && cid in st.chats
    ensures var st' := Admit(st, v, cid);
            SameUsers(st, st') && PUBLIC in st'.chats && forall id | Member(st', id) :: Member(st, id) || id == v
  {
    assert SameUsers(st, Broadcast(st, cid, UserJoin(cid, v)));
  }

  lemma JoinRoster(st: State, v: nat, cid: nat)
    requires PUBLIC in st.chats
    ensures var st' := Joins(st, v, cid);
            SameUsers(st, st') && PUBLIC in st'.chats && forall id | Member(st', id) :: Member(st, id) || id == v
  {
    if cid in st.chats { AdmitRoster(st, v, cid); }
  }

  lemma LeaveRoster(st: State, v: nat, cid: nat)
    requires PUBLIC in st.chats
    ensures var st' := Leaves(st, v, cid);
            SameUsers(st, st') && PUBLIC in st'.chats && forall id | Member(st', id) :: Member(st, id)
  {
  }

  lemma SendRoster(st: State, v: nat, ms: seq<Message>)
    ensures SameUsers(st, Send(st, v, ms)) && Send(st, v, ms).chats == st.chats
  {
  }

  lemma KickedRoster(st: State, v: nat, cid: nat, peer: nat)
    requires PUBLIC in st.chats && cid in st.chats
    ensures var told := Broadcast(st, cid, UserKick(cid, v, peer));
            var chats := RemoveFrom(told.chats, cid, peer);
            var st' := Send(told.(chats := chats, history := told.history + [Left(cid, peer)]), v, [Okay]);
            SameUsers(st, st') && PUBLIC in st'.chats && forall id | Member(st', id) :: Member(st, id)
  {
    var told := Broadcast(st, cid, UserKick(cid, v, peer));
    assert SameUsers(st, told);
    RemovalRoster(told, cid, peer);
    var st1 := told.(chats := RemoveFrom(told.chats, cid, peer), history := told.history + [Left(cid, peer)]);
    SendRoster(st1, v, [Okay]);
  }

  lemma KickRoster(st: State, v: nat, cid: nat, peer: nat, may: bool)
    requires PUBLIC in st.chats
    ensures var st' := Kicks(st, v, cid, peer, may);
            SameUsers(st, st') && PUBLIC in st'.chats && forall id | Member(st', id) :: Member(st, id)
  {
    if MayKick(st, v, cid, peer, may) { KickedRoster(st, v, cid, peer); }
  }

  lemma RemovalRoster(st: State, cid: nat, v: nat)
    requires PUBLIC in st.chats && cid in st.chats
    ensures var st' := st.(chats := RemoveFrom(st.chats, cid, v));
            PUBLIC in st'.chats && forall id | Member(st', id) :: Member(st, id)
  {
  }

  lemma InviteRoster(st: State, v: nat, cid: nat, peer: nat)
    requires PUBLIC in st.chats
    ensures var st' := Invites(st, v, cid, peer);
            SameUsers(st, st') && PUBLIC in st'.chats && forall id | Member(st', id) :: Member(st, id)
  {
  }

  lemma DeclineRoster(st: State, v: nat, cid: nat, peer: nat)
    requires PUBLIC in st.chats
    ensures var st' := Declines(st, v, cid, peer);
            SameUsers(st, st') && PUBLIC in st'.chats && forall id | Member(st', id) :: Member(st, id)
  {
  }

  lemma HandleSettles(st: State, v: nat, req: Request)
    requires Settled(st) && Active(st, v) && IdsLeft(st, Handling(v, req))
    ensures Settled(Handle(st, v, req))
  {
    if st.users[v].state != Connected && st.users[v].state != GaveClientInfo {
      match req
      case JoinChat(cid) => JoinRoster(st, v, cid);
      case LeaveChat(cid) => LeaveRoster(st, v, cid);
      case KickUser(cid, peer, may) => KickRoster(st, v, cid, peer, may);
      case CreateChat(may) =>
      case InviteUser(cid, peer) => InviteRoster(st, v, cid, peer);
      case DeclineInvitation(cid, peer) => DeclineRoster(st, v, cid, peer);
    }
  }

  lemma RemoveSettles(st: State, v: nat)
    requires Settled(st) && v in st.users && st.users[v].leaving
    ensures Settled(Next(st, Remove(v)))
  {
    var st' := Next(st, Remove(v));
    assert forall id :: Member(st', id) <==> Member(st, id) && id != v;
  }

  lemma SettledKeeps(st: State, step: Step)
    requires Settled(st) && IdsLeft(st, step)
    ensures Settled(Next(st, step))
  {
    if step.Handling? {
      if Active(st, step.uid) { HandleSettles(st, step.uid, step.request); }
    } else if step.Remove? {
      if step.uid in st.users && st.users[step.uid].leaving { RemoveSettles(st, step.uid); }
    } else {
      assert Next(st, step).chats == st.chats;
    }
  }

  lemma {:induction false} SettledThroughout(steps: seq<Step>)
    requires IdsLeftThroughout(steps)
    ensures Settled(Run(Initial, steps))
    decreases |steps|
  {
    if steps != [] {
      SettledThroughout(steps[..|steps| - 1]);
      SettledKeeps(Run(Initial, steps[..|steps| - 1]), steps[|steps| - 1]);
    }
  }

  lemma {:induction false} RunOn(st: State, before: seq<Step>, steps: seq<Step>)
    ensures Run(st, before + steps) == Run(Run(st, before), steps)
    decreases |steps|
  {
    if steps == [] {
      assert before + steps == before;
    } else {
      assert (before + steps)[..|before + steps| - 1] == before + steps[..|steps| - 1];
      RunOn(st, before, steps[..|steps| - 1]);
    }
  }

  lemma {:induction false} IdsLeftOn(st: State, before: seq<Step>, steps: seq<Step>)
    requires IdsLeftAfter(st, before + steps)
    ensures IdsLeftAfter(st, before) && IdsLeftAfter(Run(st, before), steps)
    decreases |steps|
  {
    if steps == [] {
      assert before + steps == before;
    } else {
      assert (before + steps)[..|before + steps| - 1] == before + steps[..|steps| - 1];
      RunOn(st, before, steps[..|steps| - 1]);
      IdsLeftOn(st, before, steps[..|steps| - 1]);
    }
  }

  /** All the logged-in members and only members; so all members once all of them are logged in. */
  ghost predicate Between(st: State, known: set<nat>) {
    && (forall id | LoggedInMember(st, id) :: id in known)
    && (forall id | id in known :: Member(st, id))
  }

  /** The user stays a logged-in member without a transfer. */
  ghost predicate StaysMember(st: State, uid: nat, from: nat, steps: seq<Step>) {
    && (steps != [] ==> StaysMember(st, uid, from, steps[..|steps| - 1]))
    && Watching(Run(st, steps), uid, from)
  }

  /** No login of the run hides a member. */
  ghost predicate NobodyHidden(st: State, uid: nat, from: nat, steps: seq<Step>)
    requires StaysMember(st, uid, from, steps)
  {
    steps != [] ==>
      var front := steps[..|steps| - 1];
      && NobodyHidden(st, uid, from, front)
      && !Hides(Run(st, front), steps[|steps| - 1], Knows(Run(st, front), uid, from))
  }

  /** The user's set is between the logged-in members and all members, all through the run. */
  ghost predicate HoldsMembers(st: State, uid: nat, from: nat, steps: seq<Step>)
    requires StaysMember(st, uid, from, steps)
  {
    && (steps != [] ==> HoldsMembers(st, uid, from, steps[..|steps| - 1]))
    && Between(Run(st, steps), Knows(Run(st, steps), uid, from))
  }

  lemma LastStepFits(st: State, step: Step, uid: nat, from: nat)
    requires Settled(st) && Watching(st, uid, from) && Fits(st, Knows(st, uid, from))
    requires IdsLeft(st, step) && Watching(Next(st, step), uid, from)
    ensures var (st', known) := (Next(st, step), Knows(Next(st, step), uid, from));
            && Settled(st')
            && (Between(st', known) <==> !Hides(st, step, Knows(st, uid, from)))
            && (Between(st', known) ==> Fits(st', known))
  {
    StepFits(st, step, uid, from);
    if Hides(st, step, Knows(st, uid, from)) {
      SameOutboxes(st, Next(st, step), uid, from);
      assert LoggedInMember(Next(st, step), step.uid);
    }
  }

  lemma {:induction false} MembersHeld(st: State, uid: nat, from: nat, steps: seq<Step>)
    requires Settled(st) && StaysMember(st, uid, from, steps) && IdsLeftAfter(st, steps)
    requires Watching(st, uid, from) && Fits(st, Knows(st, uid, from))
    ensures Settled(Run(st, steps))
    ensures HoldsMembers(st, uid, from, steps) <==> NobodyHidden(st, uid, from, steps)
    ensures NobodyHidden(st, uid, from, steps) ==> Fits(Run(st, steps), Knows(Run(st, steps), uid, from))
    decreases |steps|
  {
    if steps != [] {
      var front := steps[..|steps| - 1];
      MembersHeld(st, uid, from, front);
      SettledKeeps(Run(st, front), steps[|steps| - 1]);
      if NobodyHidden(st, uid, from, front) {
        LastStepFits(Run(st, front), steps[|steps| - 1], uid, from);
      }
    }
  }

  lemma JoinStart(before: seq<Step>, uid: nat)
    requires IdsLeftThroughout(before)
    requires var st := Run(Initial, before);
             && Active(st, uid) && st.users[uid].state == LoggedIn && !st.users[uid].transfer && !Member(st, uid)
    ensures var st := Run(Initial, before);
            var (joined, from) := (Next(st, Handling(uid, JoinChat(PUBLIC))), |st.users[uid].outbox|);
            Settled(joined) && Watching(joined, uid, from) && Fits(joined, Knows(joined, uid, from))
  {
    var st := Run(Initial, before);
    SettledThroughout(before);
    OwnJoin(st, uid);
    SettledKeeps(st, Handling(uid, JoinChat(PUBLIC)));
    assert Next(st, Handling(uid, JoinChat(PUBLIC))) == Admit(st, uid, PUBLIC);
  }

  /** In every run, a user who joins the public chat and stays there holds, at every moment, a set
      of users between the logged-in members and all members, if and only if no login since then
      hides a member. */
  lemma MemberHoldsTheMembers(before: seq<Step>, uid: nat, steps: seq<Step>)
    requires IdsLeftThroughout(before + [Handling(uid, JoinChat(PUBLIC))] + steps)
    requires var st := Run(Initial, before);
             && Active(st, uid) && st.users[uid].state == LoggedIn && !st.users[uid].transfer
             && !Member(st, uid)
             && StaysMember(Next(st, Handling(uid, JoinChat(PUBLIC))), uid, |st.users[uid].outbox|, steps)
    ensures var st := Run(Initial, before);
            var (joined, from) := (Next(st, Handling(uid, JoinChat(PUBLIC))), |st.users[uid].outbox|);
            HoldsMembers(joined, uid, from, steps) <==> NobodyHidden(joined, uid, from, steps)
  {
    var join := Handling(uid, JoinChat(PUBLIC));
    IdsLeftOn(Initial, before + [join], steps);
    IdsLeftOn(Initial, before, [join]);
    RunMore(Initial, before, join);
    JoinStart(before, uid);
    MembersHeld(Run(Initial, before + [join]), uid, |Run(Initial, before).users[uid].outbox|, steps);
  }

  // ---- When nobody is hidden ----

  /** Client info is given once, before the login, and a disconnected user does not log in again. */
  predicate InOrder(st: State, step: Step) {
    match step
    case ClientInfo(uid) => uid in st.users ==> st.users[uid].state == Connected
    case LogIn(uid) => uid in st.users ==> st.users[uid].state != Disconnected
    case _ => true
  }

  ghost predicate AllInOrder(st: State, steps: seq<Step>) {
    steps != [] ==>
      AllInOrder(st, steps[..|steps| - 1]) && InOrder(Run(st, steps[..|steps| - 1]), steps[|steps| - 1])
  }

  ghost predicate MembersLoggedIn(st: State) {
    forall id | Member(st, id) && id in st.users :: st.users[id].state == LoggedIn || st.users[id].state == Disconnected
  }

  lemma HandleInOrder(st: State, v: nat, req: Request)
    requires Settled(st) && MembersLoggedIn(st) && Active(st, v) && IdsLeft(st, Handling(v, req))
    ensures MembersLoggedIn(Handle(st, v, req))
  {
    if st.users[v].state != Connected && st.users[v].state != GaveClientInfo {
      match req
      case JoinChat(cid) => JoinRoster(st, v, cid);
      case LeaveChat(cid) => LeaveRoster(st, v, cid);
      case KickUser(cid, peer, may) => KickRoster(st, v, cid, peer, may);
      case CreateChat(may) =>
      case InviteUser(cid, peer) => InviteRoster(st, v, cid, peer);
      case DeclineInvitation(cid, peer) => DeclineRoster(st, v, cid, peer);
    }
  }

  lemma RemovalInOrder(st: State, v: nat)
    requires Settled(st) && MembersLoggedIn(st) && v in st.users && st.users[v].leaving
    ensures MembersLoggedIn(Next(st, Remove(v)))
  {
    var st' := Next(st, Remove(v));
    forall id: nat | Member(st', id) && id in st'.users
      ensures st'.users[id].state == LoggedIn || st'.users[id].state == Disconnected
    {
      assert Member(st, id) && st'.users[id] == st.users[id];
    }
  }

  lemma StateInOrder(st: State, step: Step)
    requires MembersLoggedIn(st) && Settled(st) && InOrder(st, step) && !step.Handling? && !step.Remove?
    ensures MembersLoggedIn(Next(st, step))
  {
    var st' := Next(st, step);
    assert st'.chats == st.chats;
    forall id: nat | Member(st', id) && id in st'.users
      ensures st'.users[id].state == LoggedIn || st'.users[id].state == Disconnected
    {
      assert Member(st, id) && id in st.users && id < st.nextUser;
      assert st.users[id].state == LoggedIn || st.users[id].state == Disconnected;
    }
  }

  lemma StepInOrder(st: State, step: Step)
    requires Settled(st) && MembersLoggedIn(st) && IdsLeft(st, step) && InOrder(st, step)
    ensures MembersLoggedIn(Next(st, step))
  {
    if step.Handling? {
      if Active(st, step.uid) { HandleInOrder(st, step.uid, step.request); }
    } else if step.Remove? {
      if step.uid in st.users && st.users[step.uid].leaving { RemovalInOrder(st, step.uid); }
    } else {
      StateInOrder(st, step);
    }
  }

  lemma {:induction false} OrderThroughout(steps: seq<Step>)
    requires IdsLeftThroughout(steps) && AllInOrder(Initial, steps)
    ensures MembersLoggedIn(Run(Initial, steps))
    decreases |steps|
  {
    if steps != [] {
      OrderThroughout(steps[..|steps| - 1]);
      SettledThroughout(steps[..|steps| - 1]);
      StepInOrder(Run(Initial, steps[..|steps| - 1]), steps[|steps| - 1]);
    }
  }

  lemma {:induction false} OrderHidesNobody(st: State, uid: nat, from: nat, steps: seq<Step>)
    requires Settled(st) && StaysMember(st, uid, from, steps) && IdsLeftAfter(st, steps)
    requires Watching(st, uid, from) && Fits(st, Knows(st, uid, from))
    requires MembersLoggedIn(st) && AllInOrder(st, steps)
    ensures NobodyHidden(st, uid, from, steps) && MembersLoggedIn(Run(st, steps))
    decreases |steps|
  {
    if steps != [] {
      var front := steps[..|steps| - 1];
      OrderHidesNobody(st, uid, from, front);
      MembersHeld(st, uid, from, front);
      StepInOrder(Run(st, front), steps[|steps| - 1]);
    }
  }

  /** In runs in which client info and logins come in order, a user who joins the public chat and
      stays there always holds a set between the logged-in members and all members. */
  lemma OrderlyRunsHoldTheMembers(before: seq<Step>, uid: nat, steps: seq<Step>)
    requires IdsLeftThroughout(before + [Handling(uid, JoinChat(PUBLIC))] + steps)
    requires var st := Run(Initial, before);
             && Active(st, uid) && st.users[uid].state == LoggedIn && !st.users[uid].transfer
             && !Member(st, uid)
             && StaysMember(Next(st, Handling(uid, JoinChat(PUBLIC))), uid, |st.users[uid].outbox|, steps)
    requires AllInOrder(Initial, before + [Handling(uid, JoinChat(PUBLIC))])
    requires AllInOrder(Next(Run(Initial, before), Handling(uid, JoinChat(PUBLIC))), steps)
    ensures var st := Run(Initial, before);
            var (joined, from) := (Next(st, Handling(uid, JoinChat(PUBLIC))), |st.users[uid].outbox|);
            HoldsMembers(joined, uid, from, steps)
  {
    var join := Handling(uid, JoinChat(PUBLIC));
    MemberHoldsTheMembers(before, uid, steps);
    IdsLeftOn(Initial, before + [join], steps);
    IdsLeftOn(Initial, before, [join]);
    RunMore(Initial, before, join);
    JoinStart(before, uid);
    OrderThroughout(before + [join]);
    OrderHidesNobody(Run(Initial, before + [join]), uid, |Run(Initial, before).users[uid].outbox|, steps);
  }

  /** Outside that order members are hidden: if a member gives client info again, or is marked as
      disconnected while its loop goes on, a user who joins then does not learn of that member, who
      after another login is a logged-in member all the same. */
  lemma LoginAgainHidesAMember(st: State, uid: nat, v: nat, step: Step)
    requires PUBLIC in st.chats && Active(st, uid) && !Member(st, uid)
    requires st.users[uid].state == LoggedIn && !st.users[uid].transfer
    requires Member(st, v) && Active(st, v) && st.users[v].state == LoggedIn
    requires step == ClientInfo(v) || step == Disconnect(v)
    ensures var st1 := Next(st, step);
            var st' := Next(Next(st1, Handling(uid, JoinChat(PUBLIC))), LogIn(v));
            var from := |st.users[uid].outbox|;
            && Watching(st', uid, from) && LoggedInMember(st', v) && v !in Knows(st', uid, from)
  {
    var st1 := Next(st, step);
    assert st1.users[uid] == st.users[uid] && st1.chats == st.chats;
    OwnJoin(st1, uid);
    assert Next(st1, Handling(uid, JoinChat(PUBLIC))) == Admit(st1, uid, PUBLIC);
    UnknownLogIn(Admit(st1, uid, PUBLIC), v, uid, |st.users[uid].outbox|);
  }

  lemma UnknownLogIn(st: State, v: nat, uid: nat, from: nat)
    requires Watching(st, uid, from) && v !in Knows(st, uid, from) && v != uid
    requires Member(st, v) && Active(st, v) && st.users[v].state != Connected
    ensures var st' := Next(st, LogIn(v));
            Watching(st', uid, from) && LoggedInMember(st', v) && v !in Knows(st', uid, from)
  {
    SameOutboxes(st, Next(st, LogIn(v)), uid, from);
  }
}
