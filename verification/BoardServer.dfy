/** The board functions as the server runs them: statements against the database in loops over
    fetched rows, and broadcast loops over the connected users. */
module BoardServer {
  import opened Text
  import opened Collation
  import opened Rights
  import opened BoardTables
  import opened Boards
  import opened Users
  import opened BoardRename

  lemma SentTwice(s: Session, ms: seq<Message>, more: seq<Message>)
    ensures Sent(Sent(s, ms), more) == Sent(s, ms + more)
  {
    assert s.outbox + ms + more == s.outbox + (ms + more);
  }

  lemma NextListed(s: Session, boards: map<string, Privileges>, rows: seq<string>, i: nat, a: Account)
    requires i < |rows| && forall b | b in rows :: b in boards
    ensures var (front, p) := (Sent(s, BoardListing(boards, rows[..i], a)), boards[rows[i]]);
            Sent(s, BoardListing(boards, rows[..i + 1], a)) ==
            if Visible(p, a) then Sent(front, [BoardList(rows[i], Readable(p, a), Writable(p, a))]) else front
  {
    assert rows[..i + 1][..i] == rows[..i];
    var p := boards[rows[i]];
    SentTwice(s, BoardListing(boards, rows[..i], a), [BoardList(rows[i], Readable(p, a), Writable(p, a))]);
  }

  lemma NextThreadListed(s: Session, db: Tables, ids: seq<Uuid>, i: nat, a: Account)
    requires i < |ids| && forall id | id in ids :: id in db.threads
    ensures var (front, th) := (Sent(s, ThreadListing(db, ids[..i], a)), db.threads[ids[i]]);
            Sent(s, ThreadListing(db, ids[..i + 1], a)) ==
            if Readable(RightsOf(db, th.board), a) then Sent(front, [ThreadList(th.board, ids[i], th.subject)])
              else front
  {
    assert ids[..i + 1][..i] == ids[..i];
    var th := db.threads[ids[i]];
    SentTwice(s, ThreadListing(db, ids[..i], a), [ThreadList(th.board, ids[i], th.subject)]);
  }

  /** What a reload tells about one board. */
  function Reloading(name: string, p: Privileges, a: Account, a': Account): seq<Message> {
    if !Visible(p, a) && Visible(p, a') then [BoardAdded(name, Readable(p, a'), Writable(p, a'))]
    else if Visible(p, a) && !Visible(p, a') then [BoardDeleted(name)]
    else []
  }

  lemma NextReloaded(s: Session, boards: map<string, Privileges>, rows: seq<string>, i: nat, a: Account, a': Account)
    requires i < |rows| && forall b | b in rows :: b in boards
    ensures Sent(s, ReloadNotices(boards, rows[..i + 1], a, a'))
         == Sent(Sent(s, ReloadNotices(boards, rows[..i], a, a')), Reloading(rows[i], boards[rows[i]], a, a'))
  {
    assert rows[..i + 1][..i] == rows[..i];
    SentTwice(s, ReloadNotices(boards, rows[..i], a, a'), Reloading(rows[i], boards[rows[i]], a, a'));
  }

  /** A connected user, as far as boards are concerned; `outbox` is what was written to its socket. */
  class Client {
    var state: UserState
    var login: string
    var account: Account
    var subscribed: bool
    var transfer: bool
    var outbox: seq<Message>

    constructor (account: Account)
      ensures View() == Session(LoggedIn, account.name, account, false, false, [])
    {
      this.state, this.login, this.account := LoggedIn, account.name, account;
      subscribed, transfer, outbox := false, false, [];
    }

    function View(): Session
      reads this
    {
      Session(state, login, account, subscribed, transfer, outbox)
    }

    method Send(m: Message)
      modifies this`outbox
      ensures View() == Sent(old(View()), [m])
    {
      if !transfer {
        outbox := outbox + [m];
      }
    }
  }

  predicate Renames(staged: seq<string>, renamed: seq<string>, name: string, newName: string) {
    && |renamed| == |staged|
    && (forall b | b in staged :: IndexOf(b, name).Some?)
    && (forall k | 0 <= k < |staged| :: renamed[k] == Replaced(staged[k], name, newName))
  }

  lemma RenamesOne(staged: seq<string>, renamed: seq<string>, row: string, name: string, newName: string)
    requires Renames(staged, renamed, name, newName) && IndexOf(row, name).Some?
    ensures Renames(staged + [row], renamed + [Replaced(row, name, newName)], name, newName)
  {
  }

  lemma StageOne(rows: seq<string>, i: nat, name: string, newName: string)
    requires i < |rows|
    ensures Stage(rows[..i + 1], name, newName)
         == Stage(rows[..i], name, newName) + if Staged(rows[i], name, newName) then [rows[i]] else []
  {
    assert rows[..i + 1][..i] == rows[..i];
  }

  /** Only the listings are answered from the tables, and only a rename can stop half-way. */
  lemma NoListing(db: Tables, s: Session, req: Request)
    requires !req.GetBoards? && !req.GetThreads? && !req.RenameBoard?
    ensures var d := Decide(db, s, req); d.Refused? || d.Switched? || d.Changed?
  {
  }

  class Server {
    var db: Tables
    var users: map<nat, Client>

    constructor (db: Tables)
      ensures Valid() && View() == State(db, map[])
    {
      this.db, users := db, map[];
    }

    /** Every user id has its own client object. */
    ghost predicate Valid()
      reads this
    {
      forall i, j | i in users && j in users && i != j :: users[i] != users[j]
    }

    ghost function Sessions(): map<nat, Session>
      reads this, users.Values
    {
      map id | id in users :: users[id].View()
    }

    ghost function View(): State
      reads this, users.Values
    {
      State(db, Sessions())
    }

    /** The loop over `wd_users` that every broadcast to the subscribers of boards consists of. */
    method Broadcast(notice: Notice)
      requires Valid()
      modifies users.Values
      ensures Sessions() == Tell(old(Sessions()), notice)
    {
      var todo := users.Keys;
      while todo != {}
        invariant todo <= users.Keys
        invariant forall id | id in users ::
                    var was := old(users[id].View());
                    users[id].View() == if id in todo then was else Heard(was, notice)
        decreases |todo|
      {
        var id :| id in todo;
        var peer := users[id];
        if peer.state == LoggedIn && peer.subscribed {
          match notice(peer.account)
          case None =>
          case Some(m) => peer.Send(m);
        }
        todo := todo - {id};
      }
    }

    method Refuse(uid: nat, code: ErrorCode)
      requires Valid() && uid in users
      modifies users[uid]
      ensures View() == Carry(old(View()), uid, Refused(code))
    {
      users[uid].Send(Error(code));
    }

    method Answer(uid: nat, m: Message)
      requires Valid() && uid in users
      modifies users[uid]
      ensures View() == Reply(old(View()), uid, [m])
    {
      users[uid].Send(m);
    }

    method Apply(changed: Tables, notice: Notice)
      requires Valid()
      modifies this`db, users.Values
      ensures View() == State(changed, Tell(old(View()).sessions, notice))
    {
      db := changed;
      Broadcast(notice);
    }

    /** Run the statements, tell the subscribers, and answer. */
    method Commit(uid: nat, changed: Tables, notice: Notice)
      requires Valid() && uid in users
      modifies this`db, users.Values
      ensures View() == Carry(old(View()), uid, Changed(changed, notice))
    {
      Apply(changed, notice);
      Answer(uid, Okay);
    }

    method Switch(uid: nat, on: bool)
      requires Valid() && uid in users
      modifies users[uid]
      ensures View() == Carry(old(View()), uid, Switched(on))
    {
      users[uid].subscribed := on;
      users[uid].Send(Okay);
    }

    /** Carry out a decision that needs no loop over the tables. */
    method Perform(uid: nat, d: Decision)
      requires Valid() && uid in users && (d.Refused? || d.Switched? || d.Changed?)
      modifies this`db, users.Values
      ensures View() == Carry(old(View()), uid, d)
    {
      match d
      case Refused(code) => Refuse(uid, code);
      case Switched(on) => Switch(uid, on);
      case Changed(changed, notice) => Commit(uid, changed, notice);
    }

    /** `wd_boards_reply_threads`: one message for each fetched thread that the account may read. */
    method ReplyThreads(peer: Client, ids: seq<Uuid>)
      requires forall id | id in ids :: id in db.threads
      modifies peer
      ensures peer.View() == Sent(old(peer.View()), ThreadListing(db, ids, old(peer.account)) + [ThreadListDone])
    {
      ghost var was, a := peer.View(), peer.account;
      for i := 0 to |ids|
        invariant peer.View() == Sent(was, ThreadListing(db, ids[..i], a))
      {
        NextThreadListed(was, db, ids, i, a);
        var th := db.threads[ids[i]];
        if Readable(RightsOf(db, th.board), peer.account) {
          peer.Send(ThreadList(th.board, ids[i], th.subject));
        }
      }
      assert ids[..|ids|] == ids;
      SentTwice(was, ThreadListing(db, ids, a), [ThreadListDone]);
      peer.Send(ThreadListDone);
    }

    method AnswerThreads(uid: nat, ids: set<Uuid>)
      requires Valid() && uid in users && ids <= db.threads.Keys
      modifies users[uid]
      ensures forall id | id in Sorted(ids) :: id in db.threads
      ensures View() == Carry(old(View()), uid,
                              Answered(ThreadListing(db, Sorted(ids), old(users[uid].account)) + [ThreadListDone]))
    {
      ReplyThreads(users[uid], Sorted(ids));
    }

    method GetThreads(uid: nat, of: Option<string>)
      requires Valid() && uid in users
      modifies users[uid]
      ensures View() == Handle(old(View()), uid, Request.GetThreads(of))
    {
      var s := users[uid];
      if s.state == Connected || s.state == GaveClientInfo {
        Refuse(uid, OutOfSequence);
      } else if ReadBoards !in s.account.can {
        Refuse(uid, PermissionDenied);
      } else if of.Some? && of.value !in db.boards {
        Refuse(uid, BoardNotFound);
      } else {
        AnswerThreads(uid, if of.None? then db.threads.Keys else ThreadsOn(db, of.value));
      }
    }

    /** `wd_boards_reply_boards`: one message for each fetched row that the account may see. */
    method ReplyBoards(peer: Client)
      modifies peer
      ensures peer.View() == Sent(old(peer.View()),
                                  BoardListing(db.boards, Sorted(db.boards.Keys), old(peer.account)) + [BoardListDone])
    {
      var rows := Sorted(db.boards.Keys);
      ghost var was, a := peer.View(), peer.account;
      for i := 0 to |rows|
        invariant peer.View() == Sent(was, BoardListing(db.boards, rows[..i], a))
      {
        NextListed(was, db.boards, rows, i, a);
        var p := db.boards[rows[i]];
        var readable, writable := Readable(p, peer.account), Writable(p, peer.account);
        if readable || writable {
          peer.Send(BoardList(rows[i], readable, writable));
        }
      }
      assert rows[..|rows|] == rows;
      SentTwice(was, BoardListing(db.boards, rows, a), [BoardListDone]);
      peer.Send(BoardListDone);
    }

    method AnswerBoards(uid: nat)
      requires Valid() && uid in users
      modifies users[uid]
      ensures View() == Carry(old(View()), uid,
                Answered(BoardListing(db.boards, Sorted(db.boards.Keys), old(users[uid].account)) + [BoardListDone]))
    {
      ReplyBoards(users[uid]);
    }

    method GetBoards(uid: nat)
      requires Valid() && uid in users
      modifies users[uid]
      ensures View() == Handle(old(View()), uid, Request.GetBoards)
    {
      var s := users[uid];
      if s.state == Connected || s.state == GaveClientInfo {
        Refuse(uid, OutOfSequence);
      } else if ReadBoards !in s.account.can {
        Refuse(uid, PermissionDenied);
      } else {
        AnswerBoards(uid);
      }
    }

    method ReloadBoard(peer: Client, name: string, p: Privileges, before: Account, account: Account)
      modifies peer
      ensures peer.View() == Sent(old(peer.View()), Reloading(name, p, before, account))
    {
      if !Visible(p, before) && Visible(p, account) {
        peer.Send(BoardAdded(name, Readable(p, account), Writable(p, account)));
      } else if Visible(p, before) && !Visible(p, account) {
        peer.Send(BoardDeleted(name));
      }
    }

    /** `wd_boards_reload_account`: tell a user which boards the new account shows or hides. */
    method ReloadBoards(peer: Client, before: Account, account: Account)
      modifies peer
      ensures peer.View() == Sent(old(peer.View()), ReloadNotices(db.boards, Sorted(db.boards.Keys), before, account))
    {
      ReloadRows(peer, db.boards, Sorted(db.boards.Keys), before, account);
    }

    method ReloadRows(peer: Client, boards: map<string, Privileges>, rows: seq<string>, before: Account,
                      account: Account)
      requires forall b | b in rows :: b in boards
      modifies peer
      ensures peer.View() == Sent(old(peer.View()), ReloadNotices(boards, rows, before, account))
    {
      ghost var was := peer.View();
      for i := 0 to |rows|
        invariant peer.View() == Sent(was, ReloadNotices(boards, rows[..i], before, account))
      {
        NextReloaded(was, boards, rows, i, before, account);
        ReloadBoard(peer, rows[i], boards[rows[i]], before, account);
      }
      assert rows[..|rows|] == rows;
    }

    /** `wd_accounts_reload_account`. */
    method ReloadUser(peer: Client, account: Account)
      modifies peer
      ensures var subscribed := old(peer.subscribed) && ReadBoards in account.can;
              var notices := ReloadNotices(db.boards, Sorted(db.boards.Keys), old(peer.account), account);
              var s := old(peer.View()).(login := account.name, account := account, subscribed := subscribed);
              peer.View() == Sent(s, [AccountPrivileges] + notices)
    {
      var before := peer.account;
      peer.account, peer.login := account, account.name;
      if ReadBoards !in account.can && peer.subscribed {
        peer.subscribed := false;
      }
      SentTwice(peer.View(), [AccountPrivileges], ReloadNotices(db.boards, Sorted(db.boards.Keys), before, account));
      peer.Send(AccountPrivileges);
      ReloadBoards(peer, before, account);
    }

    method ReloadAccount(uid: nat, account: Account)
      requires Valid() && uid in users
      modifies users[uid]
      ensures View() == Reloaded(old(View()), uid, account)
    {
      ReloadUser(users[uid], account);
    }

    /** Collect the selected rows that need a new name, and those names. */
    method StageRows(name: string, newName: string) returns (staged: seq<string>, renamed: seq<string>)
      ensures staged == Stage(Matching(db, name), name, newName)
      ensures Renames(staged, renamed, name, newName)
    {
      var rows := Matching(db, name);
      staged, renamed := [], [];
      for i := 0 to |rows|
        invariant staged == Stage(rows[..i], name, newName)
        invariant Renames(staged, renamed, name, newName)
      {
        var row := rows[i];
        StageOne(rows, i, name, newName);
        if row != newName && IndexOf(row, name).Some? {
          RenamesOne(staged, renamed, row, name, newName);
          staged, renamed := staged + [row], renamed + [Replaced(row, name, newName)];
        }
      }
      assert rows[..|rows|] == rows;
    }

    /** Update the staged boards, each with its threads. */
    method UpdateRows(name: string, newName: string, staged: seq<string>, renamed: seq<string>) returns (ok: bool)
      requires Renames(staged, renamed, name, newName)
      modifies this`db
      ensures RenameRows(old(db), staged, name, newName) == if ok then Done(db) else Failed(db)
    {
      for i := 0 to |staged|
        invariant RenameRows(db, staged[i..], name, newName) == RenameRows(old(db), staged, name, newName)
      {
        assert staged[i..][1..] == staged[i + 1..];
        var r := RekeyBoard(db, staged[i], renamed[i]);
        if r.None? { return false; }
        db := RetargetThreads(r.value, staged[i], renamed[i]);
      }
      ok := true;
    }

    /** The statements of `wd_boards_rename_board`: the parent board, then the staged sub-boards
        with their threads, then the parent board's threads. */
    method RunStatements(name: string, newName: string) returns (ok: bool)
      modifies this`db
      ensures Rename(old(db), name, newName) == if ok then Done(db) else Failed(db)
    {
      var parent := RekeyBoard(db, name, newName);
      if parent.None? { return false; }
      db := parent.value;
      var staged, renamed := StageRows(name, newName);
      ok := UpdateRows(name, newName, staged, renamed);
      if ok {
        db := RetargetThreads(db, name, newName);
      }
    }

    method RunRename(uid: nat, name: string, newName: string)
      requires Valid() && uid in users
      modifies this`db, users.Values
      ensures View() == Carry(old(View()), uid, RenameDecision(old(db), name, newName))
    {
      ghost var was := View();
      var ok := RunStatements(name, newName);
      assert View() == was.(db := db);
      if ok {
        Commit(uid, db, RenamedNotice(name, newName, RightsOf(db, newName)));
      } else {
        Refuse(uid, InternalError);
      }
    }

    method RenameBoard(uid: nat, name: string, newName: string)
      requires Valid() && uid in users
      modifies this`db, users.Values
      ensures View() == Handle(old(View()), uid, Request.RenameBoard(name, newName))
    {
      var s := users[uid];
      if s.state == Connected || s.state == GaveClientInfo {
        Refuse(uid, OutOfSequence);
      } else if RenameBoards !in s.account.can {
        Refuse(uid, PermissionDenied);
      } else if name !in db.boards {
        Refuse(uid, BoardNotFound);
      } else if newName in db.boards {
        Refuse(uid, BoardExists);
      } else if Parent(name) != Parent(newName) {
        Refuse(uid, BoardNotFound);
      } else {
        RunRename(uid, name, newName);
      }
    }

    /** Any request about boards: the listings and the rename run their loops, all others decide and
        then carry the decision out. */
    method Serve(uid: nat, req: Request)
      requires Valid() && uid in users
      modifies this`db, users.Values
      ensures View() == Handle(old(View()), uid, req)
    {
      match req
      case GetBoards => GetBoards(uid);
      case GetThreads(of) => GetThreads(uid, of);
      case RenameBoard(name, newName) => RenameBoard(uid, name, newName);
      case _ =>
        var d := Decide(db, users[uid].View(), req);
        NoListing(db, users[uid].View(), req);
        Perform(uid, d);
    }

    method Greet(uid: nat)
      requires Valid() && uid in users
      modifies users[uid]
      ensures View() == Reply(Reply(old(View()), uid, [Login]), uid, [AccountPrivileges])
    {
      Answer(uid, Login);
      Answer(uid, AccountPrivileges);
    }

    method SetAccount(uid: nat, account: Account)
      requires Valid() && uid in users
      modifies users[uid]
      ensures var s := old(View()).sessions[uid].(state := LoggedIn, login := account.name, account := account);
              View() == With(old(View()), uid, s)
    {
      var s := users[uid];
      s.state, s.login, s.account := LoggedIn, account.name, account;
    }

    method Arrive(uid: nat, account: Account)
      requires Valid() && uid !in users
      modifies this`users
      ensures Valid() && uid in users && fresh(users[uid]) && users == old(users)[uid := users[uid]]
      ensures View() == With(old(View()), uid, Session(LoggedIn, account.name, account, false, false, []))
    {
      ghost var was := View();
      var s := new Client(account);
      users := users[uid := s];
      assert Sessions() == was.sessions[uid := s.View()];
    }

    /** `wd_message_send_login`, accepted: the account is set whether or not there was one. */
    method Accept(uid: nat, account: Account)
      requires Valid()
      modifies this`users, users.Values
      ensures Valid() && View() == LoggedOn(old(View()), uid, account)
    {
      if uid in users {
        SetAccount(uid, account);
      } else {
        Arrive(uid, account);
      }
      Greet(uid);
    }

    method LogIn(uid: nat, account: Account)
      requires Valid()
      modifies this`users, users.Values
      ensures Valid() && View() == Next(old(View()), Step.LogIn(uid, account))
    {
      if uid in users && users[uid].state == Connected {
        Refuse(uid, OutOfSequence);
      } else {
        Accept(uid, account);
      }
    }
  }
}
