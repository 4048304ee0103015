/** The public chat and the private chats: one state machine of the registry, the members and
    invitations of each chat, and the messages sent to each user. A history of events, which the
    server does not keep, records who created, invited, joined and left. */
module Chats {
  import opened Users

  const PUBLIC: nat := 1
  const UINT32: nat := 0x1_0000_0000

  datatype ErrorCode =
    | OutOfSequence | PermissionDenied | ChatNotFound | UserNotFound
    | AlreadyOnChat | NotOnChat | NotInvited

  datatype Message =
    | Okay
    | Error(code: ErrorCode)
    | ChatCreated(chat: nat)
    | Invitation(chat: nat, user: nat)
    | Declined(chat: nat, user: nat)
    | UserList(chat: nat, user: nat)
    | UserListDone(chat: nat)
    | UserJoin(chat: nat, user: nat)
    | UserLeave(chat: nat, user: nat)
    | UserKick(chat: nat, kicker: nat, user: nat)

  /** `leaving` users have ended their message loop and wait to be removed; `transfer` tells that
      a file transfer runs on the connection. */
  datatype User = User(state: UserState, leaving: bool, transfer: bool, outbox: seq<Message>)

  datatype Chat = Chat(users: seq<nat>, invited: set<nat>)

  datatype Event =
    | Created(chat: nat, creator: nat)
    | Invited(chat: nat, inviter: nat, user: nat)
    | Joined(chat: nat, user: nat)
    | Left(chat: nat, user: nat)
    | Gone(user: nat)

  datatype State = State(
    users: map<nat, User>,
    nextUser: nat,
    chats: map<nat, Chat>,
    currentId: nat,
    history: seq<Event>)

  const Initial := State(map[], 0, map[PUBLIC := Chat([], {})], PUBLIC, [])

  // ---- Sending ----

  /** `wd_user_send_message`: nothing is sent to a user with a running transfer. */
  function Posted(u: User, ms: seq<Message>): User {
    if u.transfer then u else u.(outbox := u.outbox + ms)
  }

  function Send(st: State, uid: nat, ms: seq<Message>): State {
    if uid in st.users then st.(users := st.users[uid := Posted(st.users[uid], ms)]) else st
  }

  predicate Hears(st: State, cid: nat, id: nat) {
    cid in st.chats && id in st.chats[cid].users && id in st.users && st.users[id].state == LoggedIn
  }

  /** `wd_chat_broadcast_message`: to the logged-in members. */
  function Broadcast(st: State, cid: nat, m: Message): State {
    st.(users := map id | id in st.users ::
          if Hears(st, cid, id) then Posted(st.users[id], [m]) else st.users[id])
  }

  /** `wd_chat_reply_user_list`: only logged-in members are listed. */
  function Listing(users: map<nat, User>, cid: nat, members: seq<nat>): seq<Message> {
    if members == [] then []
    else
      var id := members[|members| - 1];
      var front := Listing(users, cid, members[..|members| - 1]);
      if id in users && users[id].state == LoggedIn then front + [UserList(cid, id)] else front
  }

  // ---- Requests ----

  function Without(members: seq<nat>, uid: nat): (r: seq<nat>)
    ensures forall id :: id in r <==> id in members && id != uid
    ensures |r| <= |members|
  {
    if members == [] then []
    else if members[0] == uid then Without(members[1..], uid)
    else [members[0]] + Without(members[1..], uid)
  }

  /** `wd_chat_remove_user`: a private chat without members is removed from the registry. */
  function RemoveFrom(chats: map<nat, Chat>, cid: nat, uid: nat): map<nat, Chat>
    requires cid in chats
  {
    var rest := Without(chats[cid].users, uid);
    if cid != PUBLIC && rest == [] then chats - {cid} else chats[cid := chats[cid].(users := rest)]
  }

  /** The user is announced, added, taken off the invitations, and sent the list of users. */
  function Admit(st: State, uid: nat, cid: nat): State
    requires cid in st.chats
  {
    var told := Broadcast(st, cid, UserJoin(cid, uid));
    var chat := Chat(st.chats[cid].users + [uid],
                     if cid != PUBLIC then st.chats[cid].invited - {uid} else st.chats[cid].invited);
    var st1 := told.(chats := told.chats[cid := chat], history := told.history + [Joined(cid, uid)]);
    Send(st1, uid, Listing(st1.users, cid, chat.users) + [UserListDone(cid)])
  }

  function Joins(st: State, uid: nat, cid: nat): State {
    if cid !in st.chats then Send(st, uid, [Error(ChatNotFound)])
    else if uid in st.chats[cid].users then Send(st, uid, [Error(AlreadyOnChat)])
    else if cid != PUBLIC && uid !in st.chats[cid].invited then Send(st, uid, [Error(NotInvited)])
    else Admit(st, uid, cid)
  }

  function Leaves(st: State, uid: nat, cid: nat): State {
    if cid !in st.chats then Send(st, uid, [Error(ChatNotFound)])
    else if uid !in st.chats[cid].users then Send(st, uid, [Error(NotOnChat)])
    else
      var st1 := st.(chats := RemoveFrom(st.chats, cid, uid), history := st.history + [Left(cid, uid)]);
      Send(Broadcast(st1, cid, UserLeave(cid, uid)), uid, [Okay])
  }

  /** `may` is the account's privilege to kick users off the public chat. */
  function Kicks(st: State, uid: nat, cid: nat, peer: nat, may: bool): State {
    if peer !in st.users then Send(st, uid, [Error(UserNotFound)])
    else if cid !in st.chats then Send(st, uid, [Error(ChatNotFound)])
    else if uid !in st.chats[cid].users || peer !in st.chats[cid].users then Send(st, uid, [Error(NotOnChat)])
    else if cid == PUBLIC && !may then Send(st, uid, [Error(PermissionDenied)])
    else
      var told := Broadcast(st, cid, UserKick(cid, uid, peer));
      var st1 := told.(chats := RemoveFrom(told.chats, cid, peer), history := told.history + [Left(cid, peer)]);
      Send(st1, uid, [Okay])
  }

  /** `wd_chat_next_id`: a 32-bit counter. */
  function NextId(id: nat): nat {
    (id + 1) % UINT32
  }

  function Creates(st: State, uid: nat, may: bool): State {
    if !may then Send(st, uid, [Error(PermissionDenied)])
    else
      var cid := NextId(st.currentId);
      var st1 := st.(chats := st.chats[cid := Chat([], {uid})], currentId := cid,
                     history := st.history + [Created(cid, uid)]);
      Send(st1, uid, [ChatCreated(cid)])
  }

  function Invites(st: State, uid: nat, cid: nat, peer: nat): State {
    if peer !in st.users then Send(st, uid, [Error(UserNotFound)])
    else if cid !in st.chats then Send(st, uid, [Error(ChatNotFound)])
    else if uid !in st.chats[cid].users then Send(st, uid, [Error(NotOnChat)])
    else if peer in st.chats[cid].users then Send(st, uid, [Error(AlreadyOnChat)])
    else
      var chat := st.chats[cid].(invited := st.chats[cid].invited + {peer});
      var st1 := st.(chats := st.chats[cid := chat], history := st.history + [Invited(cid, uid, peer)]);
      Send(Send(st1, peer, [Invitation(cid, uid)]), uid, [Okay])
  }

  function Declines(st: State, uid: nat, cid: nat, peer: nat): State {
    if peer !in st.users then Send(st, uid, [Error(UserNotFound)])
    else if cid !in st.chats then Send(st, uid, [Error(ChatNotFound)])
    else if cid != PUBLIC && uid !in st.chats[cid].invited then Send(st, uid, [Error(NotInvited)])
    else
      var chat := st.chats[cid].(invited := st.chats[cid].invited - {uid});
      Send(Send(st.(chats := st.chats[cid := chat]), peer, [Declined(cid, uid)]), uid, [Okay])
  }

  // ---- Steps ----

  datatype Request =
    | JoinChat(chat: nat)
    | LeaveChat(chat: nat)
    | KickUser(chat: nat, user: nat, may: bool)
    | CreateChat(may: bool)
    | InviteUser(chat: nat, user: nat)
    | DeclineInvitation(chat: nat, user: nat)

  datatype Step =
    | Connect
    | ClientInfo(uid: nat)
    | LogIn(uid: nat)
    | Handling(uid: nat, request: Request)
    | Disconnect(uid: nat)
    | TransferStarts(uid: nat)
    | TransferEnds(uid: nat)
    | EndLoop(uid: nat)
    | Remove(uid: nat)

  /** `wd_messages_handle_message` for the chat requests: nothing before the login. */
  function Handle(st: State, uid: nat, req: Request): State
    requires uid in st.users
  {
    if st.users[uid].state == Connected || st.users[uid].state == GaveClientInfo
    then Send(st, uid, [Error(OutOfSequence)])
    else
      match req
      case JoinChat(cid) => Joins(st, uid, cid)
      case LeaveChat(cid) => Leaves(st, uid, cid)
      case KickUser(cid, peer, may) => Kicks(st, uid, cid, peer, may)
      case CreateChat(may) => Creates(st, uid, may)
      case InviteUser(cid, peer) => Invites(st, uid, cid, peer)
      case DeclineInvitation(cid, peer) => Declines(st, uid, cid, peer)
  }

  /** `wd_chats_remove_user`: out of every chat; all private chats that are then empty go. */
  function RemovedEverywhere(chats: map<nat, Chat>, uid: nat): map<nat, Chat> {
    map cid | cid in chats && (cid == PUBLIC || Without(chats[cid].users, uid) != []) ::
      chats[cid].(users := Without(chats[cid].users, uid))
  }

  function SetState(st: State, uid: nat, s: UserState): State
    requires uid in st.users
  {
    st.(users := st.users[uid := st.users[uid].(state := s)])
  }

  function SetTransfer(st: State, uid: nat, on: bool): State {
    if uid in st.users then st.(users := st.users[uid := st.users[uid].(transfer := on)]) else st
  }

  /** The end of a user's message loop: the public chat is told before the user is removed. */
  function Ends(st: State, uid: nat): State
    requires uid in st.users
  {
    var st1 := st.(users := st.users[uid := st.users[uid].(state := Disconnected, leaving := true)]);
    if PUBLIC in st1.chats && uid in st1.chats[PUBLIC].users
    then Broadcast(st1, PUBLIC, UserLeave(PUBLIC, uid)) else st1
  }

  predicate Active(st: State, uid: nat) {
    uid in st.users && !st.users[uid].leaving
  }

  function Next(st: State, step: Step): State {
    match step
    case Connect =>
      st.(users := st.users[st.nextUser := User(Connected, false, false, [])], nextUser := st.nextUser + 1)
    case ClientInfo(uid) =>
      if Active(st, uid) && st.users[uid].state != GaveClientInfo then SetState(st, uid, GaveClientInfo) else st
    case LogIn(uid) =>
      if Active(st, uid) && st.users[uid].state != Connected then SetState(st, uid, LoggedIn) else st
    case Handling(uid, req) =>
      if Active(st, uid) then Handle(st, uid, req) else st
    case Disconnect(uid) =>
      if uid in st.users then SetState(st, uid, Disconnected) else st
    case TransferStarts(uid) =>
      SetTransfer(st, uid, true)
    case TransferEnds(uid) =>
      SetTransfer(st, uid, false)
    case EndLoop(uid) =>
      if Active(st, uid) then Ends(st, uid) else st
    case Remove(uid) =>
      if uid in st.users && st.users[uid].leaving
      then st.(users := st.users - {uid}, chats := RemovedEverywhere(st.chats, uid),
               history := st.history + [Gone(uid)])
      else st
  }

  function Run(st: State, steps: seq<Step>): State {
    if steps == [] then st else Next(Run(st, steps[..|steps| - 1]), steps[|steps| - 1])
  }

  lemma RunMore(st: State, steps: seq<Step>, step: Step)
    ensures Run(st, steps + [step]) == Next(Run(st, steps), step)
  {
    assert (steps + [step])[..|steps|] == steps;
  }
}
