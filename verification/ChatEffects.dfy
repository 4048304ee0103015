/** What each chat request does: from whom it is accepted, which chats and members there are
    afterwards, who is invited, and who is told. */
module ChatEffects {
  import opened Users
  import opened Chats

  predicate PastLogin(st: State, uid: nat) {
    && uid in st.users && !st.users[uid].leaving
    && (st.users[uid].state == LoggedIn || st.users[uid].state == Disconnected)
  }

  predicate On(st: State, cid: nat, uid: nat) {
    cid in st.chats && uid in st.chats[cid].users
  }

  predicate InvitedTo(st: State, cid: nat, uid: nat) {
    cid in st.chats && uid in st.chats[cid].invited
  }

  predicate OtherChatsSame(st: State, st': State, cid: nat) {
    && st.chats.Keys - {cid} == st'.chats.Keys - {cid}
    && forall c | c in st.chats && c in st'.chats && c != cid :: st'.chats[c] == st.chats[c]
  }

  /** A user is as before but for the messages that were sent to him. */
  predicate WasSent(u: User, u': User, ms: seq<Message>) {
    u' == if u.transfer then u else u.(outbox := u.outbox + ms)
  }

  /** What each user was sent. */
  ghost predicate Sends(st: State, st': State, what: nat -> seq<Message>) {
    && st'.users.Keys == st.users.Keys && st'.nextUser == st.nextUser
    && forall id | id in st.users :: WasSent(st.users[id], st'.users[id], what(id))
  }

  /** The logged-in members of a chat, before the request. */
  predicate Listens(st: State, cid: nat, id: nat) {
    On(st, cid, id) && id in st.users && st.users[id].state == LoggedIn
  }

  /** A refused request changes nothing and is answered with one error. */
  ghost predicate IsRefused(st: State, st': State, uid: nat) {
    && st'.chats == st.chats && st'.currentId == st.currentId && st'.history == st.history
    && exists code :: Sends(st, st', (id: nat) => if id == uid then [Error(code)] else [])
  }

  lemma Refusal(st: State, uid: nat, code: ErrorCode)
    requires uid in st.users
    ensures IsRefused(st, Send(st, uid, [Error(code)]), uid)
  {
    var what := (id: nat) => if id == uid then [Error(code)] else [];
    forall id | id in st.users ensures WasSent(st.users[id], Send(st, uid, [Error(code)]).users[id], what(id)) {
      assert id != uid ==> st.users[id].outbox + [] == st.users[id].outbox;
    }
    assert Sends(st, Send(st, uid, [Error(code)]), what);
  }

  lemma Gate(st: State, uid: nat, req: Request)
    requires uid in st.users && !st.users[uid].leaving && !PastLogin(st, uid)
    ensures IsRefused(st, Next(st, Handling(uid, req)), uid)
  {
    Refusal(st, uid, OutOfSequence);
  }

  // ---- Joining ----

  predicate Joinable(st: State, uid: nat, cid: nat) {
    PastLogin(st, uid) && cid in st.chats && !On(st, cid, uid) && (cid == PUBLIC || InvitedTo(st, cid, uid))
  }

  function JoinMessages(st: State, uid: nat, cid: nat): nat -> seq<Message>
    requires cid in st.chats
  {
    (id: nat) =>
      (if Listens(st, cid, id) then [UserJoin(cid, uid)] else [])
      + if id == uid then Listing(st.users, cid, st.chats[cid].users + [uid]) + [UserListDone(cid)] else []
  }

  lemma {:induction false} ListingAlike(users: map<nat, User>, users': map<nat, User>, cid: nat, members: seq<nat>)
    requires users'.Keys == users.Keys && forall id | id in users :: users'[id].state == users[id].state
    ensures Listing(users', cid, members) == Listing(users, cid, members)
    decreases |members|
  {
    if members != [] { ListingAlike(users, users', cid, members[..|members| - 1]); }
  }

  lemma AdmitSends(st: State, uid: nat, cid: nat)
    requires uid in st.users && !st.users[uid].leaving && cid in st.chats && !On(st, cid, uid)
    ensures Sends(st, Admit(st, uid, cid), JoinMessages(st, uid, cid))
  {
    var told := Broadcast(st, cid, UserJoin(cid, uid));
    var list := Listing(st.users, cid, st.chats[cid].users + [uid]) + [UserListDone(cid)];
    ListingAlike(st.users, told.users, cid, st.chats[cid].users + [uid]);
    var st' := Admit(st, uid, cid);
    forall id | id in st.users ensures WasSent(st.users[id], st'.users[id], JoinMessages(st, uid, cid)(id)) {
      var u := st.users[id];
      assert u.outbox + [] == u.outbox && u.outbox + ([] + list) == u.outbox + list;
      assert u.outbox + ([UserJoin(cid, uid)] + []) == u.outbox + [UserJoin(cid, uid)];
    }
  }

  lemma AdmitChats(st: State, uid: nat, cid: nat)
    requires cid in st.chats
    ensures var st' := Admit(st, uid, cid);
            && cid in st'.chats && OtherChatsSame(st, st', cid) && st'.currentId == st.currentId
            && st'.chats[cid].users == st.chats[cid].users + [uid]
            && st'.chats[cid].invited
               == (if cid == PUBLIC then st.chats[cid].invited else st.chats[cid].invited - {uid})
  {
  }

  /** Whoever is past the login joins the public chat, or a private chat he is invited to, unless he
      is on it already; the invitation is used up, the members are told, and he gets their list. */
  lemma JoinEffect(st: State, uid: nat, cid: nat)
    requires uid in st.users && !st.users[uid].leaving
    ensures var st' := Next(st, Handling(uid, JoinChat(cid)));
            if Joinable(st, uid, cid)
            then && cid in st'.chats && OtherChatsSame(st, st', cid) && st'.currentId == st.currentId
                 && st'.chats[cid].users == st.chats[cid].users + [uid]
                 && st'.chats[cid].invited
                    == (if cid == PUBLIC then st.chats[cid].invited else st.chats[cid].invited - {uid})
                 && Sends(st, st', JoinMessages(st, uid, cid))
            else IsRefused(st, st', uid)
  {
    if !PastLogin(st, uid) { Gate(st, uid, JoinChat(cid)); }
    else if cid !in st.chats { Refusal(st, uid, ChatNotFound); }
    else if On(st, cid, uid) { Refusal(st, uid, AlreadyOnChat); }
    else if cid != PUBLIC && !InvitedTo(st, cid, uid) { Refusal(st, uid, NotInvited); }
    else {
      AdmitChats(st, uid, cid);
      AdmitSends(st, uid, cid);
    }
  }

  // ---- Leaving and kicking ----

  /** The user is off the chat, everybody else still on it; a private chat that nobody is left on is
      gone. */
  ghost predicate OffTheChat(st: State, st': State, cid: nat, who: nat)
    requires cid in st.chats
  {
    && OtherChatsSame(st, st', cid) && st'.currentId == st.currentId
    && (cid in st'.chats <==> cid == PUBLIC || exists id :: id in st.chats[cid].users && id != who)
    && (cid in st'.chats ==>
          && st'.chats[cid].invited == st.chats[cid].invited
          && forall id :: id in st'.chats[cid].users <==> id in st.chats[cid].users && id != who)
  }

  lemma RemovalOff(st: State, st': State, cid: nat, who: nat)
    requires cid in st.chats && st'.chats == RemoveFrom(st.chats, cid, who) && st'.currentId == st.currentId
    ensures OffTheChat(st, st', cid, who)
  {
    var rest := Without(st.chats[cid].users, who);
    if rest != [] { assert rest[0] in rest; }
  }

  function LeaveMessages(st: State, uid: nat, cid: nat): nat -> seq<Message> {
    (id: nat) => if id == uid then [Okay] else if Listens(st, cid, id) then [UserLeave(cid, uid)] else []
  }

  /** A member leaves, and the others are told. */
  lemma LeaveEffect(st: State, uid: nat, cid: nat)
    requires uid in st.users && !st.users[uid].leaving
    ensures var st' := Next(st, Handling(uid, LeaveChat(cid)));
            if PastLogin(st, uid) && On(st, cid, uid)
            then OffTheChat(st, st', cid, uid) && Sends(st, st', LeaveMessages(st, uid, cid))
            else IsRefused(st, st', uid)
  {
    if !PastLogin(st, uid) { Gate(st, uid, LeaveChat(cid)); }
    else if cid !in st.chats { Refusal(st, uid, ChatNotFound); }
    else if !On(st, cid, uid) { Refusal(st, uid, NotOnChat); }
    else {
      RemovalOff(st, Next(st, Handling(uid, LeaveChat(cid))), cid, uid);
      LeaveSends(st, uid, cid);
    }
  }

  lemma LeaveSends(st: State, uid: nat, cid: nat)
    requires PastLogin(st, uid) && On(st, cid, uid)
    ensures Sends(st, Leaves(st, uid, cid), LeaveMessages(st, uid, cid))
  {
    var st' := Leaves(st, uid, cid);
    forall id | id in st.users ensures WasSent(st.users[id], st'.users[id], LeaveMessages(st, uid, cid)(id)) {
      assert st.users[id].outbox + [] == st.users[id].outbox;
    }
  }

  function KickMessages(st: State, uid: nat, cid: nat, peer: nat): nat -> seq<Message> {
    (id: nat) => (if Listens(st, cid, id) then [UserKick(cid, uid, peer)] else []) + if id == uid then [Okay] else []
  }

  predicate Kickable(st: State, uid: nat, cid: nat, peer: nat, may: bool) {
    PastLogin(st, uid) && peer in st.users && On(st, cid, uid) && On(st, cid, peer) && (cid == PUBLIC ==> may)
  }

  /** A member kicks a member, on the public chat only with the privilege; all members are told, the
      kicked one too. */
  lemma KickEffect(st: State, uid: nat, cid: nat, peer: nat, may: bool)
    requires uid in st.users && !st.users[uid].leaving
    ensures var st' := Next(st, Handling(uid, KickUser(cid, peer, may)));
            if Kickable(st, uid, cid, peer, may)
            then OffTheChat(st, st', cid, peer) && Sends(st, st', KickMessages(st, uid, cid, peer))
            else IsRefused(st, st', uid)
  {
    if !PastLogin(st, uid) { Gate(st, uid, KickUser(cid, peer, may)); }
    else if peer !in st.users { Refusal(st, uid, UserNotFound); }
    else if cid !in st.chats { Refusal(st, uid, ChatNotFound); }
    else if !On(st, cid, uid) || !On(st, cid, peer) { Refusal(st, uid, NotOnChat); }
    else if cid == PUBLIC && !may { Refusal(st, uid, PermissionDenied); }
    else {
      RemovalOff(st, Next(st, Handling(uid, KickUser(cid, peer, may))), cid, peer);
      KickSends(st, uid, cid, peer, may);
    }
  }

  lemma KickSends(st: State, uid: nat, cid: nat, peer: nat, may: bool)
    requires Kickable(st, uid, cid, peer, may)
    ensures Sends(st, Kicks(st, uid, cid, peer, may), KickMessages(st, uid, cid, peer))
  {
    var st' := Kicks(st, uid, cid, peer, may);
    forall id | id in st.users ensures WasSent(st.users[id], st'.users[id], KickMessages(st, uid, cid, peer)(id)) {
      var u, m := st.users[id], UserKick(cid, uid, peer);
      assert u.outbox + ([] + []) == u.outbox && u.outbox + ([] + [Okay]) == u.outbox + [Okay];
      assert u.outbox + ([m] + []) == u.outbox + [m] && u.outbox + ([m] + [Okay]) == u.outbox + [m] + [Okay];
    }
  }

  // ---- Creating, inviting and declining ----

  /** A new private chat has nobody on it, and its creator is invited. */
  lemma CreateEffect(st: State, uid: nat, may: bool)
    requires uid in st.users && !st.users[uid].leaving
    ensures var (st', cid) := (Next(st, Handling(uid, CreateChat(may))), NextId(st.currentId));
            if PastLogin(st, uid) && may
            then && OtherChatsSame(st, st', cid) && cid in st'.chats && st'.chats[cid] == Chat([], {uid})
                 && st'.currentId == cid
                 && Sends(st, st', (id: nat) => if id == uid then [ChatCreated(cid)] else [])
            else IsRefused(st, st', uid)
  {
    if !PastLogin(st, uid) { Gate(st, uid, CreateChat(may)); }
    else if !may { Refusal(st, uid, PermissionDenied); }
    else {
      var st', cid := Next(st, Handling(uid, CreateChat(may))), NextId(st.currentId);
      var what := (id: nat) => if id == uid then [ChatCreated(cid)] else [];
      forall id | id in st.users ensures WasSent(st.users[id], st'.users[id], what(id)) {
        assert st.users[id].outbox + [] == st.users[id].outbox;
      }
      assert Sends(st, st', what);
    }
  }

  /** The chat's invitations are what they become, and all else about the chats is as it was. */
  predicate OnlyInvited(st: State, st': State, cid: nat, invited: set<nat>) {
    && cid in st.chats && cid in st'.chats && OtherChatsSame(st, st', cid) && st'.currentId == st.currentId
    && st'.chats[cid].users == st.chats[cid].users && st'.chats[cid].invited == invited
  }

  function PeerMessages(peer: nat, m: Message, uid: nat): nat -> seq<Message> {
    (id: nat) => (if id == peer then [m] else []) + if id == uid then [Okay] else []
  }

  lemma PeerSends(st: State, st1: State, peer: nat, m: Message, uid: nat)
    requires peer in st.users && uid in st.users && st1.users == st.users && st1.nextUser == st.nextUser
    ensures Sends(st, Send(Send(st1, peer, [m]), uid, [Okay]), PeerMessages(peer, m, uid))
  {
    var st' := Send(Send(st1, peer, [m]), uid, [Okay]);
    forall id | id in st.users ensures WasSent(st.users[id], st'.users[id], PeerMessages(peer, m, uid)(id)) {
      var u := st.users[id];
      assert u.outbox + ([] + []) == u.outbox && u.outbox + ([] + [Okay]) == u.outbox + [Okay];
      assert u.outbox + ([m] + []) == u.outbox + [m] && u.outbox + ([m] + [Okay]) == u.outbox + [m] + [Okay];
    }
  }

  /** A member invites a user who is not on the chat; that user is told. */
  lemma InviteEffect(st: State, uid: nat, cid: nat, peer: nat)
    requires uid in st.users && !st.users[uid].leaving
    ensures var st' := Next(st, Handling(uid, InviteUser(cid, peer)));
            if PastLogin(st, uid) && peer in st.users && On(st, cid, uid) && !On(st, cid, peer)
            then && OnlyInvited(st, st', cid, st.chats[cid].invited + {peer})
                 && Sends(st, st', PeerMessages(peer, Invitation(cid, uid), uid))
            else IsRefused(st, st', uid)
  {
    if !PastLogin(st, uid) { Gate(st, uid, InviteUser(cid, peer)); }
    else if peer !in st.users { Refusal(st, uid, UserNotFound); }
    else if cid !in st.chats { Refusal(st, uid, ChatNotFound); }
    else if !On(st, cid, uid) { Refusal(st, uid, NotOnChat); }
    else if On(st, cid, peer) { Refusal(st, uid, AlreadyOnChat); }
    else {
      var chat := st.chats[cid].(invited := st.chats[cid].invited + {peer});
      PeerSends(st, st.(chats := st.chats[cid := chat], history := st.history + [Invited(cid, uid, peer)]),
                peer, Invitation(cid, uid), uid);
    }
  }

  /** An invitation that is declined is gone, and the named peer is told. */
  lemma DeclineEffect(st: State, uid: nat, cid: nat, peer: nat)
    requires uid in st.users && !st.users[uid].leaving
    ensures var st' := Next(st, Handling(uid, DeclineInvitation(cid, peer)));
            if && PastLogin(st, uid) && peer in st.users && cid in st.chats
               && (cid == PUBLIC || InvitedTo(st, cid, uid))
            then && OnlyInvited(st, st', cid, st.chats[cid].invited - {uid})
                 && Sends(st, st', PeerMessages(peer, Declined(cid, uid), uid))
            else IsRefused(st, st', uid)
  {
    if !PastLogin(st, uid) { Gate(st, uid, DeclineInvitation(cid, peer)); }
    else if peer !in st.users { Refusal(st, uid, UserNotFound); }
    else if cid !in st.chats { Refusal(st, uid, ChatNotFound); }
    else if cid != PUBLIC && !InvitedTo(st, cid, uid) { Refusal(st, uid, NotInvited); }
    else {
      var chat := st.chats[cid].(invited := st.chats[cid].invited - {uid});
      PeerSends(st, st.(chats := st.chats[cid := chat]), peer, Declined(cid, uid), uid);
    }
  }

  // ---- Who can get onto a private chat ----

  /** The creator of a private chat can join it. */
  lemma CreatorCanJoin(st: State, uid: nat)
    requires PastLogin(st, uid) && NextId(st.currentId) != PUBLIC
    ensures var cid := NextId(st.currentId);
            On(Next(Next(st, Handling(uid, CreateChat(true))), Handling(uid, JoinChat(cid))), cid, uid)
  {
    var st1 := Next(st, Handling(uid, CreateChat(true)));
    CreateEffect(st, uid, true);
    JoinEffect(st1, uid, NextId(st.currentId));
  }

  /** Whoever a member invites can join, and a member who joined can invite in turn. */
  lemma InvitedCanJoin(st: State, uid: nat, cid: nat, peer: nat)
    requires PastLogin(st, uid) && On(st, cid, uid) && PastLogin(st, peer) && !On(st, cid, peer)
    ensures On(Next(Next(st, Handling(uid, InviteUser(cid, peer))), Handling(peer, JoinChat(cid))), cid, peer)
  {
    var st1 := Next(st, Handling(uid, InviteUser(cid, peer)));
    InviteEffect(st, uid, cid, peer);
    JoinEffect(st1, peer, cid);
  }

  /** A declined invitation is of no more use. */
  lemma DeclinedCannotJoin(st: State, uid: nat, cid: nat, peer: nat)
    requires PastLogin(st, uid) && peer in st.users && cid in st.chats && cid != PUBLIC
    requires InvitedTo(st, cid, uid) && !On(st, cid, uid)
    ensures !On(Next(Next(st, Handling(uid, DeclineInvitation(cid, peer))), Handling(uid, JoinChat(cid))), cid, uid)
  {
    var st1 := Next(st, Handling(uid, DeclineInvitation(cid, peer)));
    DeclineEffect(st, uid, cid, peer);
    JoinEffect(st1, uid, cid);
  }

  // ---- The end of a connection ----

  /** Whose message loop ends is disconnected and waits to be removed; the chats are as they were, and
      the others on the public chat are told, if he was on it. */
  lemma EndEffect(st: State, uid: nat, id: nat)
    requires uid in st.users && !st.users[uid].leaving && id in st.users
    ensures var (st', u) := (Next(st, EndLoop(uid)), st.users[id]);
            && st'.chats == st.chats && st'.currentId == st.currentId && st'.users.Keys == st.users.Keys
            && (id == uid ==> st'.users[id] == User(Disconnected, true, u.transfer, u.outbox))
            && (id != uid ==>
                  WasSent(u, st'.users[id],
                          if On(st, PUBLIC, uid) && Listens(st, PUBLIC, id) then [UserLeave(PUBLIC, uid)] else []))
  {
    assert st.users[id].outbox + [] == st.users[id].outbox;
  }

  /** After that he is removed: no chat has him on it, and no request can come from him any more. */
  lemma EndedIsRemoved(st: State, uid: nat, req: Request)
    requires uid in st.users && !st.users[uid].leaving
    ensures Next(Next(st, EndLoop(uid)), Handling(uid, req)) == Next(st, EndLoop(uid))
    ensures var st' := Next(Next(st, EndLoop(uid)), Remove(uid));
            && uid !in st'.users && Next(st', Handling(uid, req)) == st'
            && forall cid | cid in st'.chats :: uid !in st'.chats[cid].users
  {
    EndEffect(st, uid, uid);
  }

  // ---- File transfers ----

  /** A transfer that starts or ends on a connection changes nothing else. */
  lemma TransferEffect(st: State, uid: nat, on: bool)
    requires uid in st.users
    ensures var st' := Next(st, if on then TransferStarts(uid) else TransferEnds(uid));
            && st'.users.Keys == st.users.Keys && st'.nextUser == st.nextUser
            && (forall id | id in st.users && id != uid :: st'.users[id] == st.users[id])
            && st'.users[uid].transfer == on && st'.users[uid].outbox == st.users[uid].outbox
            && st'.users[uid].state == st.users[uid].state && st'.users[uid].leaving == st.users[uid].leaving
            && st'.chats == st.chats && st'.currentId == st.currentId && st'.history == st.history
  {
  }

  predicate Numbered(st: State) {
    forall id | id in st.users :: id < st.nextUser
  }

  /** All users are still there, and whoever has a transfer running is as he was. */
  predicate Holds(st: State, st': State) {
    && st'.users.Keys == st.users.Keys && st'.nextUser == st.nextUser
    && forall id | id in st.users && st.users[id].transfer :: st'.users[id] == st.users[id]
  }

  lemma RequestHolds(st: State, uid: nat, req: Request)
    requires uid in st.users && !st.users[uid].leaving
    ensures Holds(st, Next(st, Handling(uid, req)))
  {
    match req
    case JoinChat(cid) => JoinEffect(st, uid, cid);
    case LeaveChat(cid) => LeaveEffect(st, uid, cid);
    case KickUser(cid, peer, may) => KickEffect(st, uid, cid, peer, may);
    case CreateChat(may) => CreateEffect(st, uid, may);
    case InviteUser(cid, peer) => InviteEffect(st, uid, cid, peer);
    case DeclineInvitation(cid, peer) => DeclineEffect(st, uid, cid, peer);
  }

  lemma StepDuringTransfer(st: State, uid: nat, step: Step)
    requires Numbered(st) && uid < st.nextUser && (uid in st.users ==> st.users[uid].transfer)
    requires step != TransferEnds(uid)
    ensures var st' := Next(st, step);
            && Numbered(st') && uid < st'.nextUser
            && (uid in st'.users ==>
                  uid in st.users && st'.users[uid].transfer && st'.users[uid].outbox == st.users[uid].outbox)
  {
    if step.Handling? && Active(st, step.uid) { RequestHolds(st, step.uid, step.request); }
  }

  /** From the start of a transfer to its end nothing is sent to that user, whatever happens on the
      chats and whoever asks. */
  lemma {:induction false} NothingSentDuringTransfer(st: State, uid: nat, steps: seq<Step>)
    requires Numbered(st) && uid in st.users && TransferEnds(uid) !in steps
    ensures var st' := Run(Next(st, TransferStarts(uid)), steps);
            && Numbered(st') && uid < st'.nextUser
            && (uid in st'.users ==> st'.users[uid].transfer && st'.users[uid].outbox == st.users[uid].outbox)
    decreases |steps|
  {
    if steps != [] {
      NothingSentDuringTransfer(st, uid, steps[..|steps| - 1]);
      StepDuringTransfer(Run(Next(st, TransferStarts(uid)), steps[..|steps| - 1]), uid, steps[|steps| - 1]);
    }
  }

  // ---- Why a request is refused ----

  /** What each error says. */
  predicate Reason(st: State, uid: nat, req: Request, code: ErrorCode) {
    match code
    case OutOfSequence => !PastLogin(st, uid)
    case PermissionDenied => (req.CreateChat? && !req.may) || (req.KickUser? && req.chat == PUBLIC && !req.may)
    case ChatNotFound => !req.CreateChat? && req.chat !in st.chats
    case UserNotFound => (req.KickUser? || req.InviteUser? || req.DeclineInvitation?) && req.user !in st.users
    case AlreadyOnChat =>
      (req.JoinChat? && On(st, req.chat, uid)) || (req.InviteUser? && On(st, req.chat, req.user))
    case NotOnChat =>
      || ((req.LeaveChat? || req.InviteUser?) && !On(st, req.chat, uid))
      || (req.KickUser? && !(On(st, req.chat, uid) && On(st, req.chat, req.user)))
    case NotInvited =>
      (req.JoinChat? || req.DeclineInvitation?) && req.chat != PUBLIC && !InvitedTo(st, req.chat, uid)
  }

  /** A request that is not accepted is answered with an error that says why. */
  lemma RefusalSaysWhy(st: State, uid: nat, req: Request) returns (code: ErrorCode)
    requires uid in st.users && !st.users[uid].leaving && !st.users[uid].transfer
    requires IsRefused(st, Next(st, Handling(uid, req)), uid)
    ensures Reason(st, uid, req, code)
    ensures Next(st, Handling(uid, req)).users[uid].outbox == st.users[uid].outbox + [Error(code)]
  {
    var st' := Next(st, Handling(uid, req));
    code :| Sends(st, st', (id: nat) => if id == uid then [Error(code)] else []);
    assert st'.users[uid].outbox == st.users[uid].outbox + [Error(code)];
    assert st'.users[uid].outbox[|st.users[uid].outbox|] == Error(code);
  }
}
