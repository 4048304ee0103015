/** The chat functions as the server runs them: loops over a chat's users to tell or list them, and
    a loop over the registry to remove a user. */
module ChatServer {
  import opened Users
  import opened Chats
  import ChatRegistry

  /** A connected user, as far as chats are concerned. */
  class Peer {
    var state: UserState
    var leaving: bool
    var transfer: bool
    var outbox: seq<Message>

    constructor ()
      ensures View() == User(Connected, false, false, [])
    {
      state, leaving, transfer, outbox := Connected, false, false, [];
    }

    function View(): User
      reads this
    {
      User(state, leaving, transfer, outbox)
    }

    method Receive(m: Message)
      modifies this`outbox
      ensures View() == Posted(old(View()), [m])
    {
      if !transfer {
        outbox := outbox + [m];
      }
    }
  }

  /** What a broadcast to the members of a chat does to one user. */
  function Told(u: User, member: bool, m: Message): User {
    if member && u.state == LoggedIn then Posted(u, [m]) else u
  }

  lemma PostedTwice(u: User, ms: seq<Message>, more: seq<Message>)
    ensures Posted(Posted(u, ms), more) == Posted(u, ms + more)
  {
    assert u.outbox + ms + more == u.outbox + (ms + more);
  }

  class Server {
    var users: map<nat, Peer>
    var nextUser: nat
    var chats: map<nat, Chat>
    var currentId: nat
    ghost var history: seq<Event>

    constructor ()
      ensures Valid() && View() == Initial
    {
      users, nextUser, currentId, history := map[], 0, PUBLIC, [];
      chats := map[PUBLIC := Chat([], {})];
    }

    /** Every user has an object of its own, and nobody is twice on a chat. */
    ghost predicate Valid()
      reads this
    {
      && (forall i, j | i in users && j in users && i != j :: users[i] != users[j])
      && (forall cid | cid in chats :: ChatRegistry.NoDuplicates(chats[cid].users))
    }

    ghost function Peers(): map<nat, User>
      reads this, users.Values
    {
      map id | id in users :: users[id].View()
    }

    ghost function View(): State
      reads this, users.Values
    {
      State(Peers(), nextUser, chats, currentId, history)
    }

    method Reply(uid: nat, m: Message)
      requires Valid()
      modifies users.Values
      ensures View() == Send(old(View()), uid, [m])
    {
      if uid in users {
        users[uid].Receive(m);
      }
    }

    /** The loop of `wd_chat_broadcast_message`. */
    method TellEach(members: seq<nat>, m: Message)
      requires Valid() && ChatRegistry.NoDuplicates(members)
      modifies users.Values
      ensures forall id | id in users :: users[id].View() == Told(old(users[id].View()), id in members, m)
    {
      for i := 0 to |members|
        invariant forall id | id in users :: users[id].View() == Told(old(users[id].View()), id in members[..i], m)
      {
        assert members[..i + 1] == members[..i] + [members[i]];
        assert members[i] !in members[..i];
        if members[i] in users {
          var peer := users[members[i]];
          if peer.state == LoggedIn {
            peer.Receive(m);
          }
        }
      }
      assert members[..|members|] == members;
    }

    method Tell(cid: nat, m: Message)
      requires Valid()
      modifies users.Values
      ensures View() == Broadcast(old(View()), cid, m)
    {
      if cid in chats {
        TellEach(chats[cid].users, m);
      }
    }

    /** `wd_chat_reply_user_list`. */
    method ReplyUserList(peer: Peer, cid: nat)
      requires Valid() && cid in chats && peer in users.Values
      modifies peer
      ensures peer.View() ==
              Posted(old(peer.View()), Listing(old(Peers()), cid, chats[cid].users) + [UserListDone(cid)])
    {
      var members := chats[cid].users;
      ghost var was, start := Peers(), peer.View();
      for i := 0 to |members|
        invariant peer.View() == Posted(start, Listing(was, cid, members[..i]))
      {
        assert members[..i + 1][..i] == members[..i];
        PostedTwice(start, Listing(was, cid, members[..i]), [UserList(cid, members[i])]);
        if members[i] in users && users[members[i]].state == LoggedIn {
          peer.Receive(UserList(cid, members[i]));
        }
      }
      assert members[..|members|] == members;
      PostedTwice(start, Listing(was, cid, members), [UserListDone(cid)]);
      peer.Receive(UserListDone(cid));
    }

    method ReplyUserListTo(uid: nat, cid: nat)
      requires Valid() && cid in chats && uid in users
      modifies users[uid]
      ensures View() == Send(old(View()), uid, Listing(old(Peers()), cid, chats[cid].users) + [UserListDone(cid)])
    {
      ReplyUserList(users[uid], cid);
    }

    method AddUserAndBroadcast(uid: nat, cid: nat)
      requires Valid() && cid in chats && uid !in chats[cid].users
      modifies this`chats, this`history, users.Values
      ensures Valid()
      ensures View() == Broadcast(old(View()), cid, UserJoin(cid, uid)).(
                          chats := old(chats)[cid := old(chats)[cid].(users := old(chats)[cid].users + [uid])],
                          history := old(history) + [Joined(cid, uid)])
    {
      Tell(cid, UserJoin(cid, uid));
      chats := chats[cid := chats[cid].(users := chats[cid].users + [uid])];
      history := history + [Joined(cid, uid)];
    }

    method JoinChat(uid: nat, cid: nat)
      requires Valid() && uid in users
      modifies this`chats, this`history, users.Values
      ensures Valid() && View() == Joins(old(View()), uid, cid)
    {
      if cid !in chats {
        Reply(uid, Error(ChatNotFound));
      } else if uid in chats[cid].users {
        Reply(uid, Error(AlreadyOnChat));
      } else if cid != PUBLIC && uid !in chats[cid].invited {
        Reply(uid, Error(NotInvited));
      } else {
        Welcome(uid, cid);
      }
    }

    method Welcome(uid: nat, cid: nat)
      requires Valid() && uid in users && cid in chats && uid !in chats[cid].users
      modifies this`chats, this`history, users.Values
      ensures Valid() && View() == Admit(old(View()), uid, cid)
    {
      ghost var was := View();
      AddUserAndBroadcast(uid, cid);
      if cid != PUBLIC {
        RemoveInvitation(cid, uid);
      }
      assert View() == Broadcast(was, cid, UserJoin(cid, uid)).(chats := chats,
                                                                history := was.history + [Joined(cid, uid)]);
      assert chats == was.chats[cid := Chat(was.chats[cid].users + [uid],
                        if cid != PUBLIC then was.chats[cid].invited - {uid} else was.chats[cid].invited)];
      ReplyUserListTo(uid, cid);
    }

    /** `wd_chat_remove_user`. */
    method RemoveUser(cid: nat, uid: nat)
      requires Valid() && cid in chats
      modifies this`chats, this`history
      ensures Valid()
      ensures View() == old(View()).(chats := RemoveFrom(old(chats), cid, uid),
                                     history := old(history) + [Left(cid, uid)])
    {
      var rest := Without(chats[cid].users, uid);
      ChatRegistry.WithoutKeeps(chats[cid].users, uid);
      chats := chats[cid := chats[cid].(users := rest)];
      if cid != PUBLIC && |rest| == 0 {
        chats := chats - {cid};
      }
      history := history + [Left(cid, uid)];
    }

    method LeaveChat(uid: nat, cid: nat)
      requires Valid() && uid in users
      modifies this`chats, this`history, users.Values
      ensures Valid() && View() == Leaves(old(View()), uid, cid)
    {
      if cid !in chats {
        Reply(uid, Error(ChatNotFound));
      } else if uid !in chats[cid].users {
        Reply(uid, Error(NotOnChat));
      } else {
        RemoveUser(cid, uid);
        Tell(cid, UserLeave(cid, uid));
        Reply(uid, Okay);
      }
    }

    method KickUser(uid: nat, cid: nat, peer: nat, may: bool)
      requires Valid() && uid in users
      modifies this`chats, this`history, users.Values
      ensures Valid() && View() == Kicks(old(View()), uid, cid, peer, may)
    {
      if peer !in users {
        Reply(uid, Error(UserNotFound));
      } else if cid !in chats {
        Reply(uid, Error(ChatNotFound));
      } else if uid !in chats[cid].users || peer !in chats[cid].users {
        Reply(uid, Error(NotOnChat));
      } else if cid == PUBLIC && !may {
        Reply(uid, Error(PermissionDenied));
      } else {
        Tell(cid, UserKick(cid, uid, peer));
        RemoveUser(cid, peer);
        Reply(uid, Okay);
      }
    }

    method AddChat(uid: nat)
      requires Valid()
      modifies this`chats, this`history, this`currentId
      ensures Valid() && currentId == NextId(old(currentId))
      ensures View() == old(View()).(chats := old(chats)[currentId := Chat([], {uid})], currentId := currentId,
                                     history := old(history) + [Created(currentId, uid)])
    {
      currentId := NextId(currentId);
      chats := chats[currentId := Chat([], {uid})];
      history := history + [Created(currentId, uid)];
    }

    method CreateChat(uid: nat, may: bool)
      requires Valid() && uid in users
      modifies this`chats, this`history, this`currentId, users.Values
      ensures Valid() && View() == Creates(old(View()), uid, may)
    {
      if !may {
        Reply(uid, Error(PermissionDenied));
      } else {
        AddChat(uid);
        Reply(uid, ChatCreated(currentId));
      }
    }

    method AddInvitation(uid: nat, cid: nat, peer: nat)
      requires Valid() && cid in chats
      modifies this`chats, this`history
      ensures Valid()
      ensures var chat := old(chats)[cid].(invited := old(chats)[cid].invited + {peer});
              View() == old(View()).(chats := old(chats)[cid := chat],
                                     history := old(history) + [Invited(cid, uid, peer)])
    {
      chats := chats[cid := chats[cid].(invited := chats[cid].invited + {peer})];
      history := history + [Invited(cid, uid, peer)];
    }

    method RemoveInvitation(cid: nat, uid: nat)
      requires Valid() && cid in chats
      modifies this`chats
      ensures Valid()
      ensures var chat := old(chats)[cid].(invited := old(chats)[cid].invited - {uid});
              View() == old(View()).(chats := old(chats)[cid := chat])
    {
      chats := chats[cid := chats[cid].(invited := chats[cid].invited - {uid})];
    }

    method ReplyBoth(peer: nat, m: Message, uid: nat)
      requires Valid() && peer in users && uid in users
      modifies users.Values
      ensures View() == Send(Send(old(View()), peer, [m]), uid, [Okay])
    {
      Reply(peer, m);
      Reply(uid, Okay);
    }

    method InviteUser(uid: nat, cid: nat, peer: nat)
      requires Valid() && uid in users
      modifies this`chats, this`history, users.Values
      ensures Valid() && View() == Invites(old(View()), uid, cid, peer)
    {
      if peer !in users {
        Reply(uid, Error(UserNotFound));
      } else if cid !in chats {
        Reply(uid, Error(ChatNotFound));
      } else if uid !in chats[cid].users {
        Reply(uid, Error(NotOnChat));
      } else if peer in chats[cid].users {
        Reply(uid, Error(AlreadyOnChat));
      } else {
        AddInvitation(uid, cid, peer);
        ReplyBoth(peer, Invitation(cid, uid), uid);
      }
    }

    method DeclineInvitation(uid: nat, cid: nat, peer: nat)
      requires Valid() && uid in users
      modifies this`chats, users.Values
      ensures Valid() && View() == Declines(old(View()), uid, cid, peer)
    {
      if peer !in users {
        Reply(uid, Error(UserNotFound));
      } else if cid !in chats {
        Reply(uid, Error(ChatNotFound));
      } else if cid != PUBLIC && uid !in chats[cid].invited {
        Reply(uid, Error(NotInvited));
      } else {
        RemoveInvitation(cid, uid);
        ReplyBoth(peer, Declined(cid, uid), uid);
      }
    }

    /** `wd_chats_remove_user`: off every chat in the registry, and empty private chats go. */
    method RemoveFromChats(uid: nat)
      requires Valid()
      modifies this`chats
      ensures Valid() && chats == RemovedEverywhere(old(chats), uid)
    {
      var todo := chats.Keys;
      while todo != {}
        invariant todo <= old(chats).Keys && Valid()
        invariant chats == HalfRemoved(old(chats), todo, uid)
        decreases |todo|
      {
        var cid :| cid in todo;
        HalfRemovedOne(old(chats), todo, cid, uid);
        RemoveFromOne(cid, uid);
        todo := todo - {cid};
      }
      assert HalfRemoved(old(chats), {}, uid) == RemovedEverywhere(old(chats), uid);
    }

    method RemoveFromOne(cid: nat, uid: nat)
      requires Valid() && cid in chats
      modifies this`chats
      ensures Valid()
      ensures var rest := Without(old(chats)[cid].users, uid);
              chats == if cid != PUBLIC && rest == [] then old(chats) - {cid}
                       else old(chats)[cid := old(chats)[cid].(users := rest)]
    {
      var rest := Without(chats[cid].users, uid);
      ChatRegistry.WithoutKeeps(chats[cid].users, uid);
      if cid != PUBLIC && |rest| == 0 {
        chats := chats - {cid};
      } else {
        chats := chats[cid := chats[cid].(users := rest)];
      }
    }

    /** `wd_users_remove_user`. */
    method RemoveFromAll(uid: nat)
      requires Valid() && uid in users && users[uid].leaving
      modifies this`chats, this`users, this`history
      ensures Valid() && View() == Next(old(View()), Remove(uid))
    {
      RemoveFromChats(uid);
      users := users - {uid};
      history := history + [Gone(uid)];
    }
  }

  /** The registry while the chats in `todo` still have to be looked at. */
  function HalfRemoved(chats: map<nat, Chat>, todo: set<nat>, uid: nat): map<nat, Chat> {
    map cid | cid in chats && (cid in todo || cid == PUBLIC || Without(chats[cid].users, uid) != []) ::
      if cid in todo then chats[cid] else chats[cid].(users := Without(chats[cid].users, uid))
  }

  lemma HalfRemovedOne(chats: map<nat, Chat>, todo: set<nat>, cid: nat, uid: nat)
    requires cid in todo && todo <= chats.Keys
    ensures var half, rest := HalfRemoved(chats, todo, uid), Without(chats[cid].users, uid);
            && cid in half && half[cid] == chats[cid]
            && HalfRemoved(chats, todo - {cid}, uid) ==
               if cid != PUBLIC && rest == [] then half - {cid} else half[cid := half[cid].(users := rest)]
  {
  }
}
