/** What a subscribed client knows of the boards and threads by replaying the messages it was
    sent, and that this is exactly what it may see. */
module BoardReplica {
  import opened Text
  import opened Collation
  import opened Rights
  import opened BoardTables
  import opened Boards
  import opened Users
  import BoardRename

  datatype Flags = Flags(readable: bool, writable: bool)
  datatype Seen = Seen(board: string, subject: string)

  datatype Replica = Replica(boards: map<string, Flags>, threads: map<Uuid, Seen>)

  const Blank := Replica(map[], map[])

  /** A client's reaction to one message: it drops a deleted board's threads with it. */
  function React(r: Replica, m: Message): Replica {
    match m
    case BoardList(b, x, y) => r.(boards := r.boards[b := Flags(x, y)])
    case BoardAdded(b, x, y) => r.(boards := r.boards[b := Flags(x, y)])
    case BoardInfoChanged(b, x, y) => r.(boards := r.boards[b := Flags(x, y)])
    case BoardDeleted(b) =>
      Replica(r.boards - {b}, map id | id in r.threads && r.threads[id].board != b :: r.threads[id])
    case ThreadList(b, id, subject) => r.(threads := r.threads[id := Seen(b, subject)])
    case ThreadAdded(b, id, subject) => r.(threads := r.threads[id := Seen(b, subject)])
    case ThreadChanged(id, subject) =>
      if id in r.threads then r.(threads := r.threads[id := r.threads[id].(subject := subject)]) else r
    case ThreadMoved(id, b) =>
      if id in r.threads then r.(threads := r.threads[id := r.threads[id].(board := b)]) else r
    case ThreadDeleted(id) => r.(threads := r.threads - {id})
    case _ => r
  }

  function Replay(ms: seq<Message>): Replica {
    if ms == [] then Blank else React(Replay(ms[..|ms| - 1]), ms[|ms| - 1])
  }

  lemma ReplayMore(ms: seq<Message>, m: Message)
    ensures Replay(ms + [m]) == React(Replay(ms), m)
  {
    assert (ms + [m])[..|ms|] == ms;
  }

  // ---- What the server would show ----

  function BoardView(db: Tables, a: Account): map<string, Flags> {
    map b | b in db.boards && Visible(db.boards[b], a) :: Flags(Readable(db.boards[b], a), Writable(db.boards[b], a))
  }

  predicate Reads(db: Tables, board: string, a: Account) {
    board in db.boards && Readable(db.boards[board], a)
  }

  function ThreadView(db: Tables, a: Account): map<Uuid, Seen> {
    map id | id in db.threads && Reads(db, db.threads[id].board, a) ::
      Seen(db.threads[id].board, db.threads[id].subject)
  }

  // ---- One session through one step ----

  predicate Watching(st: State, uid: nat) {
    uid in st.sessions && Listens(st.sessions[uid]) && !st.sessions[uid].transfer
  }

  /** The messages a session was sent since its outbox held `from` of them. */
  function Since(st: State, uid: nat, from: nat): seq<Message>
    requires uid in st.sessions && from <= |st.sessions[uid].outbox|
  {
    st.sessions[uid].outbox[from..]
  }

  predicate Follows(st: State, uid: nat, from: nat) {
    Watching(st, uid) && from <= |st.sessions[uid].outbox|
  }

  function Knows(st: State, uid: nat, from: nat): Replica
    requires Follows(st, uid, from)
  {
    Replay(Since(st, uid, from))
  }

  /** What one session makes of a broadcast. */
  function Informed(r: Replica, a: Account, notice: Notice): Replica {
    match notice(a)
    case None => r
    case Some(m) => React(r, m)
  }

  lemma ReplyHeard(st: State, asker: nat, ms: seq<Message>, uid: nat, from: nat)
    requires Follows(st, uid, from)
    ensures var st' := Reply(st, asker, ms);
            && Follows(st', uid, from) && st'.db == st.db
            && st'.sessions[uid].account == st.sessions[uid].account
            && Since(st', uid, from) == Since(st, uid, from) + (if asker == uid then ms else [])
  {
  }

  predicate Plain(m: Message) {
    || m.Okay? || m.Error? || m.ServerInfo? || m.Login? || m.LoginFailed? || m.AccountPrivileges?
    || m.BoardListDone? || m.ThreadListDone?
  }

  /** A message that carries no board or thread changes nothing. */
  lemma PlainHeard(st: State, asker: nat, m: Message, uid: nat, from: nat)
    requires Follows(st, uid, from) && Plain(m)
    ensures Follows(Reply(st, asker, [m]), uid, from)
    ensures Knows(Reply(st, asker, [m]), uid, from) == Knows(st, uid, from)
  {
    ReplyHeard(st, asker, [m], uid, from);
    ReplayMore(Since(st, uid, from), m);
    assert Since(st, uid, from) + [] == Since(st, uid, from);
  }

  lemma ChangeHeard(st: State, asker: nat, db: Tables, notice: Notice, uid: nat, from: nat)
    requires Follows(st, uid, from)
    ensures var st' := Reply(State(db, Tell(st.sessions, notice)), asker, [Okay]);
            var a := st.sessions[uid].account;
            && Follows(st', uid, from) && st'.db == db && st'.sessions[uid].account == a
            && Knows(st', uid, from) == Informed(Knows(st, uid, from), a, notice)
  {
    var mid := State(db, Tell(st.sessions, notice));
    var a := st.sessions[uid].account;
    if notice(a).Some? {
      ReplayMore(Since(st, uid, from), notice(a).value);
      assert Since(mid, uid, from) == Since(st, uid, from) + [notice(a).value];
    } else {
      assert Since(mid, uid, from) == Since(st, uid, from);
    }
    PlainHeard(mid, asker, Okay, uid, from);
    ReplyHeard(mid, asker, [Okay], uid, from);
  }

  // ---- Listings, replayed ----

  function Listed(boards: map<string, Privileges>, names: seq<string>, a: Account): map<string, Flags>
    requires forall b | b in names :: b in boards
  {
    map b | b in names && Visible(boards[b], a) :: Flags(Readable(boards[b], a), Writable(boards[b], a))
  }

  lemma ListedSnoc(r: map<string, Flags>, boards: map<string, Privileges>, names: seq<string>, b: string, a: Account)
    requires forall x | x in names + [b] :: x in boards
    ensures (forall x | x in names :: x in boards) && b in boards
    ensures r + Listed(boards, names + [b], a) ==
            if Visible(boards[b], a)
            then (r + Listed(boards, names, a))[b := Flags(Readable(boards[b], a), Writable(boards[b], a))]
            else r + Listed(boards, names, a)
  {
    assert b in names + [b];
    assert forall x :: x in names + [b] <==> x in names || x == b;
  }

  lemma BoardListingSnoc(boards: map<string, Privileges>, front: seq<string>, b: string, a: Account)
    requires (forall x | x in front :: x in boards) && b in boards
    ensures var (p, listing) := (boards[b], BoardListing(boards, front, a));
            BoardListing(boards, front + [b], a) ==
            if Visible(p, a) then listing + [BoardList(b, Readable(p, a), Writable(p, a))] else listing
  {
    assert (front + [b])[..|front + [b]| - 1] == front;
  }

  lemma {:induction false} BoardListingReplayed(ms: seq<Message>, boards: map<string, Privileges>, names: seq<string>,
                                                a: Account)
    requires forall b | b in names :: b in boards
    ensures Replay(ms + BoardListing(boards, names, a))
            == Replay(ms).(boards := Replay(ms).boards + Listed(boards, names, a))
    decreases |names|
  {
    if names == [] {
      assert ms + BoardListing(boards, names, a) == ms;
      assert Replay(ms).boards + Listed(boards, names, a) == Replay(ms).boards;
    } else {
      var front, b := names[..|names| - 1], names[|names| - 1];
      assert names == front + [b];
      BoardListingReplayed(ms, boards, front, a);
      BoardListingSnoc(boards, front, b, a);
      ListedSnoc(Replay(ms).boards, boards, front, b, a);
      var listing := BoardListing(boards, front, a);
      if Visible(boards[b], a) {
        var m := BoardList(b, Readable(boards[b], a), Writable(boards[b], a));
        ReplayMore(ms + listing, m);
        assert ms + (listing + [m]) == ms + listing + [m];
      }
    }
  }

  function ListedThreads(db: Tables, ids: seq<Uuid>, a: Account): map<Uuid, Seen>
    requires forall id | id in ids :: id in db.threads
  {
    map id | id in ids && Readable(RightsOf(db, db.threads[id].board), a) ::
      Seen(db.threads[id].board, db.threads[id].subject)
  }

  lemma ListedThreadsSnoc(r: map<Uuid, Seen>, db: Tables, ids: seq<Uuid>, id: Uuid, a: Account)
    requires forall x | x in ids + [id] :: x in db.threads
    ensures (forall x | x in ids :: x in db.threads) && id in db.threads
    ensures r + ListedThreads(db, ids + [id], a) ==
            if Readable(RightsOf(db, db.threads[id].board), a)
            then (r + ListedThreads(db, ids, a))[id := Seen(db.threads[id].board, db.threads[id].subject)]
            else r + ListedThreads(db, ids, a)
  {
    assert id in ids + [id];
    assert forall x :: x in ids + [id] <==> x in ids || x == id;
  }

  lemma ThreadListingSnoc(db: Tables, front: seq<Uuid>, id: Uuid, a: Account)
    requires (forall x | x in front :: x in db.threads) && id in db.threads
    ensures var (th, listing) := (db.threads[id], ThreadListing(db, front, a));
            ThreadListing(db, front + [id], a) ==
            if Readable(RightsOf(db, th.board), a) then listing + [ThreadList(th.board, id, th.subject)] else listing
  {
    assert (front + [id])[..|front + [id]| - 1] == front;
  }

  lemma {:induction false} ThreadListingReplayed(ms: seq<Message>, db: Tables, ids: seq<Uuid>, a: Account)
    requires forall id | id in ids :: id in db.threads
    ensures Replay(ms + ThreadListing(db, ids, a))
            == Replay(ms).(threads := Replay(ms).threads + ListedThreads(db, ids, a))
    decreases |ids|
  {
    if ids == [] {
      assert ms + ThreadListing(db, ids, a) == ms;
      assert Replay(ms).threads + ListedThreads(db, ids, a) == Replay(ms).threads;
    } else {
      var front, id := ids[..|ids| - 1], ids[|ids| - 1];
      assert ids == front + [id];
      ThreadListingReplayed(ms, db, front, a);
      ThreadListingSnoc(db, front, id, a);
      ListedThreadsSnoc(Replay(ms).threads, db, front, id, a);
      var th, listing := db.threads[id], ThreadListing(db, front, a);
      if Readable(RightsOf(db, th.board), a) {
        var m := ThreadList(th.board, id, th.subject);
        ReplayMore(ms + listing, m);
        assert ms + (listing + [m]) == ms + listing + [m];
      }
    }
  }

  predicate Appears(p: Privileges, a: Account, a': Account) {
    !Visible(p, a) && Visible(p, a')
  }

  function Appearing(boards: map<string, Privileges>, names: seq<string>, a: Account, a': Account): map<string, Flags>
    requires forall b | b in names :: b in boards
  {
    map b | b in names && Appears(boards[b], a, a') :: Flags(Readable(boards[b], a'), Writable(boards[b], a'))
  }

  /** A reload adds the boards that appear and removes those that disappear, with their threads. */
  function ReloadEffect(r: Replica, added: map<string, Flags>, gone: set<string>): Replica {
    Replica(r.boards - gone + added, map id | id in r.threads && r.threads[id].board !in gone :: r.threads[id])
  }

  lemma EffectAdds(r: Replica, added: map<string, Flags>, gone: set<string>, b: string, x: bool, y: bool)
    ensures React(ReloadEffect(r, added, gone), BoardAdded(b, x, y)) == ReloadEffect(r, added[b := Flags(x, y)], gone)
  {
  }

  lemma EffectRemoves(r: Replica, added: map<string, Flags>, gone: set<string>, b: string)
    requires b !in added
    ensures React(ReloadEffect(r, added, gone), BoardDeleted(b)) == ReloadEffect(r, added, gone + {b})
  {
  }

  lemma AppearingSnoc(boards: map<string, Privileges>, names: seq<string>, b: string, a: Account, a': Account)
    requires (forall x | x in names :: x in boards) && b in boards && b !in names
    ensures forall x | x in names + [b] :: x in boards
    ensures Appearing(boards, names + [b], a, a') ==
            if Appears(boards[b], a, a')
            then Appearing(boards, names, a, a')[b := Flags(Readable(boards[b], a'), Writable(boards[b], a'))]
            else Appearing(boards, names, a, a')
    ensures Appearing(boards, names + [b], a, a').Keys ==
            Appearing(boards, names, a, a').Keys + if Appears(boards[b], a, a') then {b} else {}
  {
    assert forall x :: x in names + [b] <==> x in names || x == b;
  }

  lemma {:induction false} ReloadReplayed(ms: seq<Message>, boards: map<string, Privileges>, names: seq<string>,
                                          a: Account, a': Account)
    requires (forall b | b in names :: b in boards) && Ascending(names)
    ensures Replay(ms + ReloadNotices(boards, names, a, a'))
            == ReloadEffect(Replay(ms), Appearing(boards, names, a, a'), Appearing(boards, names, a', a).Keys)
    decreases |names|
  {
    if names == [] {
      assert ms + ReloadNotices(boards, names, a, a') == ms;
    } else {
      var front := names[..|names| - 1];
      var b := names[|names| - 1];
      assert names == front + [b];
      assert b !in front by {
        Irreflexive(b);
        assert forall i | 0 <= i < |front| :: Less(front[i], b) by {
          assert forall i | 0 <= i < |front| :: front[i] == names[i];
        }
      }
      ReloadReplayed(ms, boards, front, a, a');
      ReloadOne(ms, boards, front, b, a, a');
    }
  }

  lemma NoticesSnoc(boards: map<string, Privileges>, front: seq<string>, b: string, a: Account, a': Account)
    requires (forall b | b in front :: b in boards) && b in boards
    ensures forall x | x in front + [b] :: x in boards
    ensures var (p, sent) := (boards[b], ReloadNotices(boards, front, a, a'));
            ReloadNotices(boards, front + [b], a, a') ==
            if Appears(p, a, a') then sent + [BoardAdded(b, Readable(p, a'), Writable(p, a'))]
            else if Appears(p, a', a) then sent + [BoardDeleted(b)]
            else sent
  {
    assert (front + [b])[..|front + [b]| - 1] == front;
  }

  lemma ReplayedAfter(ms: seq<Message>, sent: seq<Message>, m: Message)
    ensures Replay(ms + (sent + [m])) == React(Replay(ms + sent), m)
  {
    assert ms + (sent + [m]) == ms + sent + [m];
    ReplayMore(ms + sent, m);
  }

  lemma ReloadOne(ms: seq<Message>, boards: map<string, Privileges>, front: seq<string>, b: string, a: Account,
                  a': Account)
    requires (forall b | b in front :: b in boards) && b in boards && b !in front
    requires Replay(ms + ReloadNotices(boards, front, a, a'))
             == ReloadEffect(Replay(ms), Appearing(boards, front, a, a'), Appearing(boards, front, a', a).Keys)
    ensures forall x | x in front + [b] :: x in boards
    ensures Replay(ms + ReloadNotices(boards, front + [b], a, a'))
            == ReloadEffect(Replay(ms), Appearing(boards, front + [b], a, a'),
                            Appearing(boards, front + [b], a', a).Keys)
  {
    var sent := ReloadNotices(boards, front, a, a');
    var p := boards[b];
    AppearingSnoc(boards, front, b, a, a');
    AppearingSnoc(boards, front, b, a', a);
    NoticesSnoc(boards, front, b, a, a');
    var added, gone := Appearing(boards, front, a, a'), Appearing(boards, front, a', a).Keys;
    if Appears(p, a, a') {
      ReplayedAfter(ms, sent, BoardAdded(b, Readable(p, a'), Writable(p, a')));
      EffectAdds(Replay(ms), added, gone, b, Readable(p, a'), Writable(p, a'));
    } else if Appears(p, a', a) {
      ReplayedAfter(ms, sent, BoardDeleted(b));
      EffectRemoves(Replay(ms), added, gone, b);
    }
  }

  // ---- What each change means to an observer ----

  predicate IsRename(step: Step) {
    step.Handling? && step.request.RenameBoard?
  }

  /** A replica's boards agree with the tables: the names, and with `exact` the flags. */
  predicate Agrees(r: Replica, db: Tables, a: Account, exact: bool) {
    r.boards.Keys == BoardView(db, a).Keys && (exact ==> r.boards == BoardView(db, a))
  }

  lemma ViewOfUpdate(db: Tables, name: string, p: Privileges, a: Account)
    ensures BoardView(db.(boards := db.boards[name := p]), a) ==
            if Visible(p, a) then BoardView(db, a)[name := Flags(Readable(p, a), Writable(p, a))]
            else BoardView(db, a) - {name}
  {
  }

  lemma AddedAgrees(db: Tables, name: string, p: Privileges, a: Account, r: Replica, exact: bool)
    requires Agrees(r, db, a, exact) && name !in db.boards
    ensures Agrees(Informed(r, a, AddedNotice(name, p)), db.(boards := db.boards[name := p]), a, exact)
  {
    ViewOfUpdate(db, name, p, a);
    assert BoardView(db, a) - {name} == BoardView(db, a);
  }

  lemma DeletedAgrees(db: Tables, name: string, a: Account, r: Replica, exact: bool)
    requires Agrees(r, db, a, exact) && name in db.boards
    ensures Agrees(Informed(r, a, DeletedNotice(name, db.boards[name])), WithoutBoard(db, name), a, exact)
  {
    assert BoardView(WithoutBoard(db, name), a) == BoardView(db, a) - {name};
    if !Visible(db.boards[name], a) { assert BoardView(db, a) - {name} == BoardView(db, a); }
  }

  lemma InfoAgrees(db: Tables, name: string, p: Privileges, a: Account, r: Replica, exact: bool)
    requires Agrees(r, db, a, exact) && name in db.boards
    ensures Agrees(Informed(r, a, InfoNotice(name, db.boards[name], p)), db.(boards := db.boards[name := p]), a, exact)
  {
    ViewOfUpdate(db, name, p, a);
    assert name in BoardView(db, a) <==> Visible(db.boards[name], a);
    var r' := Informed(r, a, InfoNotice(name, db.boards[name], p));
    if Visible(p, a) {
      assert r'.boards == r.boards[name := Flags(Readable(p, a), Writable(p, a))];
    } else {
      assert r'.boards == r.boards - {name} by {
        if !Visible(db.boards[name], a) { assert r.boards - {name} == r.boards; }
      }
    }
  }

  predicate OnBoards(req: Request) {
    req.AddBoard? || req.DeleteBoard? || req.SetBoardInfo? || req.RenameBoard?
  }

  /** A change of threads or posts leaves the boards alone, in the tables and in every replica. */
  lemma ThreadChangesLeaveBoards(db: Tables, s: Session, req: Request, a: Account, r: Replica)
    requires Decide(db, s, req).Changed? && !OnBoards(req)
    ensures Decide(db, s, req).db.boards == db.boards
    ensures Informed(r, a, Decide(db, s, req).notice).boards == r.boards
  {
  }

  /** Every accepted change of the tables is told to each observer in just the way that keeps its
      list of boards. */
  lemma ChangeAgrees(db: Tables, s: Session, req: Request, a: Account, r: Replica, exact: bool)
    requires Decide(db, s, req).Changed? && !req.RenameBoard?
    requires Agrees(r, db, a, exact)
    ensures var d := Decide(db, s, req); Agrees(Informed(r, a, d.notice), d.db, a, exact)
  {
    if req.AddBoard? { AddedAgrees(db, req.name, req.rights, a, r, exact); }
    else if req.DeleteBoard? { DeletedAgrees(db, req.name, a, r, exact); }
    else if req.SetBoardInfo? { InfoAgrees(db, req.name, req.rights, a, r, exact); }
    else {
      ThreadChangesLeaveBoards(db, s, req, a, r);
      assert BoardView(Decide(db, s, req).db, a) == BoardView(db, a);
    }
  }

  /** On every board that carries a thread, an account that could read it still can, unless the
      board is hidden from it altogether, and an account that could not still cannot. */
  ghost predicate KeepsReading(db: Tables, db': Tables, a: Account, a': Account) {
    forall id | id in db.threads && db.threads[id].board in db.boards && db.threads[id].board in db'.boards ::
      var p, p' := db.boards[db.threads[id].board], db'.boards[db.threads[id].board];
      Readable(p', a') <==> Readable(p, a) && Visible(p', a')
  }

  lemma SameRightsKeepReading(db: Tables, db': Tables, a: Account)
    requires forall b | b in db.boards && b in db'.boards :: db'.boards[b] == db.boards[b]
    ensures KeepsReading(db, db', a, a)
  {
  }

  /** The threads a replica keeps when the boards in `hidden` are deleted from it. */
  function Keeping(threads: map<Uuid, Seen>, hidden: set<string>): map<Uuid, Seen> {
    map id | id in threads && threads[id].board !in hidden :: threads[id]
  }

  lemma ViewWithoutBoard(db: Tables, name: string, a: Account)
    ensures ThreadView(WithoutBoard(db, name), a) == Keeping(ThreadView(db, a), {name})
  {
  }

  lemma KeepingUnseen(db: Tables, name: string, a: Account)
    requires name in db.boards && !Visible(db.boards[name], a)
    ensures Keeping(ThreadView(db, a), {name}) == ThreadView(db, a)
  {
  }

  lemma DeletedThreads(db: Tables, name: string, a: Account, r: Replica)
    requires r.threads == ThreadView(db, a) && name in db.boards
    ensures Informed(r, a, DeletedNotice(name, db.boards[name])).threads == ThreadView(WithoutBoard(db, name), a)
  {
    ViewWithoutBoard(db, name, a);
    if Visible(db.boards[name], a) {
      assert Keeping(r.threads, {name}) == React(r, BoardDeleted(name)).threads;
    } else {
      KeepingUnseen(db, name, a);
    }
  }

  lemma InfoKeeps(db: Tables, name: string, p: Privileges, a: Account, r: Replica)
    requires r.threads == ThreadView(db, a) && name in db.boards
    ensures Informed(r, a, InfoNotice(name, db.boards[name], p)).threads
            == Keeping(r.threads, if Visible(p, a) then {} else {name})
  {
    if Visible(p, a) || !Visible(db.boards[name], a) {
      assert Keeping(r.threads, if Visible(p, a) then {} else {name}) == r.threads;
    }
  }

  /** Once hidden boards' threads are dropped, what is left is the new view exactly when reading
      has been kept. */
  lemma KeptIsView(db: Tables, db': Tables, hidden: set<string>, a: Account, a': Account)
    requires db'.threads == db.threads && db'.boards.Keys == db.boards.Keys && Integrity(db)
    requires forall b | b in db.boards :: b in hidden ==> !Visible(db'.boards[b], a')
    requires forall b | b in db.boards :: b !in hidden && Visible(db.boards[b], a) ==> Visible(db'.boards[b], a')
    ensures Keeping(ThreadView(db, a), hidden) == ThreadView(db', a') <==> KeepsReading(db, db', a, a')
  {
    var kept := Keeping(ThreadView(db, a), hidden);
    var view := ThreadView(db', a');
    forall id | id in db.threads
      ensures var b := db.threads[id].board;
              (id in kept <==> id in view) <==>
              (Readable(db'.boards[b], a') <==> Readable(db.boards[b], a) && Visible(db'.boards[b], a'))
    {
      KeptOne(db, db', hidden, a, a', id);
    }
    if KeepsReading(db, db', a, a') {
      assert kept.Keys == view.Keys;
    }
  }

  lemma KeptOne(db: Tables, db': Tables, hidden: set<string>, a: Account, a': Account, id: Uuid)
    requires db'.threads == db.threads && db'.boards.Keys == db.boards.Keys
    requires id in db.threads && db.threads[id].board in db.boards
    requires var b := db.threads[id].board;
             && (b in hidden ==> !Visible(db'.boards[b], a'))
             && (b !in hidden && Visible(db.boards[b], a) ==> Visible(db'.boards[b], a'))
    ensures var b := db.threads[id].board;
            && (id in Keeping(ThreadView(db, a), hidden) <==> Readable(db.boards[b], a) && Visible(db'.boards[b], a'))
            && (id in ThreadView(db', a') <==> Readable(db'.boards[b], a'))
  {
    var b := db.threads[id].board;
    assert Readable(db.boards[b], a) ==> Visible(db.boards[b], a);
  }

  lemma InfoThreads(db: Tables, name: string, p: Privileges, a: Account, r: Replica)
    requires r.threads == ThreadView(db, a) && name in db.boards && Integrity(db)
    ensures var db' := db.(boards := db.boards[name := p]);
            Informed(r, a, InfoNotice(name, db.boards[name], p)).threads == ThreadView(db', a)
            <==> KeepsReading(db, db', a, a)
  {
    InfoKeeps(db, name, p, a, r);
    KeptIsView(db, db.(boards := db.boards[name := p]), if Visible(p, a) then {} else {name}, a, a);
  }

  lemma ThreadViewOfUpdate(db: Tables, id: Uuid, th: Thread, posts: map<Uuid, Post>, a: Account)
    requires th.board in db.boards
    ensures ThreadView(db.(threads := db.threads[id := th], posts := posts), a) ==
            if Readable(db.boards[th.board], a) then ThreadView(db, a)[id := Seen(th.board, th.subject)]
            else ThreadView(db, a) - {id}
  {
  }

  lemma ReadersTold(db: Tables, id: Uuid, a: Account)
    requires id in db.threads && db.threads[id].board in db.boards
    ensures id in ThreadView(db, a) <==> Readable(db.boards[db.threads[id].board], a)
    ensures id !in ThreadView(db, a) ==> ThreadView(db, a) - {id} == ThreadView(db, a)
  {
  }

  lemma AddedThread(db: Tables, name: string, id: Uuid, th: Thread, a: Account, r: Replica)
    requires r.threads == ThreadView(db, a) && name in db.boards && th.board == name
    requires id !in db.threads
    ensures Informed(r, a, ReadersNotice(db.boards[name], ThreadAdded(name, id, th.subject))).threads
            == ThreadView(db.(threads := db.threads[id := th]), a)
  {
    ThreadViewOfUpdate(db, id, th, db.posts, a);
    assert ThreadView(db, a) - {id} == ThreadView(db, a);
  }

  lemma ChangedThread(db: Tables, id: Uuid, subject: string, posts: map<Uuid, Post>, a: Account, r: Replica)
    requires r.threads == ThreadView(db, a) && id in db.threads && db.threads[id].board in db.boards
    ensures var db' := db.(threads := db.threads[id := db.threads[id].(subject := subject)], posts := posts);
            Informed(r, a, ChangedNotice(db', id)).threads == ThreadView(db', a)
  {
    ThreadViewOfUpdate(db, id, db.threads[id].(subject := subject), posts, a);
    ReadersTold(db, id, a);
  }

  lemma MovedThread(db: Tables, id: Uuid, name: string, a: Account, r: Replica)
    requires r.threads == ThreadView(db, a) && id in db.threads
    requires db.threads[id].board in db.boards && name in db.boards
    ensures var th := db.threads[id];
            Informed(r, a, MovedNotice(id, th, name, db.boards[th.board], db.boards[name])).threads
            == ThreadView(db.(threads := db.threads[id := th.(board := name)]), a)
  {
    ThreadViewOfUpdate(db, id, db.threads[id].(board := name), db.posts, a);
    ReadersTold(db, id, a);
  }

  lemma RemovedThread(db: Tables, id: Uuid, a: Account, r: Replica)
    requires r.threads == ThreadView(db, a) && id in db.threads && db.threads[id].board in db.boards
    ensures Informed(r, a, ReadersNotice(RightsOf(db, db.threads[id].board), ThreadDeleted(id))).threads
            == ThreadView(WithoutThreads(db, {id}), a)
  {
    assert ThreadView(WithoutThreads(db, {id}), a) == ThreadView(db, a) - {id};
    ReadersTold(db, id, a);
  }

  /** Every accepted change is told to each observer in just the way that keeps its threads, with
      their boards and subjects, exactly when reading has been kept. */
  lemma ChangeThreads(db: Tables, s: Session, req: Request, a: Account, r: Replica)
    requires Decide(db, s, req).Changed? && !req.RenameBoard?
    requires Integrity(db) && r.threads == ThreadView(db, a)
    ensures var d := Decide(db, s, req);
            Informed(r, a, d.notice).threads == ThreadView(d.db, a) <==> KeepsReading(db, d.db, a, a)
  {
    if req.SetBoardInfo? {
      InfoThreads(db, req.name, req.rights, a, r);
    } else {
      FixedRightsDecision(db, s, req);
      SameRightsKeepReading(db, Decide(db, s, req).db, a);
      if OnBoards(req) { BoardChangeThreads(db, s, req, a, r); }
      else if req.AddPost? || req.EditPost? || req.DeletePost? { PostChangeThreads(db, s, req, a, r); }
      else { ThreadChangeThreads(db, s, req, a, r); }
    }
  }

  lemma FixedRightsDecision(db: Tables, s: Session, req: Request)
    requires !req.RenameBoard? && !req.SetBoardInfo? && Decide(db, s, req).Changed?
    ensures var db' := Decide(db, s, req).db;
            forall b | b in db.boards && b in db'.boards :: db'.boards[b] == db.boards[b]
  {
  }

  lemma BoardChangeThreads(db: Tables, s: Session, req: Request, a: Account, r: Replica)
    requires Decide(db, s, req).Changed? && (req.AddBoard? || req.DeleteBoard?)
    requires Integrity(db) && r.threads == ThreadView(db, a)
    ensures var d := Decide(db, s, req); Informed(r, a, d.notice).threads == ThreadView(d.db, a)
  {
    if req.AddBoard? { assert ThreadView(Decide(db, s, req).db, a) == ThreadView(db, a); }
    else { DeletedThreads(db, req.name, a, r); }
  }

  lemma ThreadChangeThreads(db: Tables, s: Session, req: Request, a: Account, r: Replica)
    requires Decide(db, s, req).Changed? && (req.AddThread? || req.EditThread? || req.MoveThread? || req.DeleteThread?)
    requires Integrity(db) && r.threads == ThreadView(db, a)
    ensures var d := Decide(db, s, req); Informed(r, a, d.notice).threads == ThreadView(d.db, a)
  {
    if req.AddThread? { AddedThread(db, req.name, req.thread, Thread(req.name, req.subject, s.login), a, r); }
    else if req.EditThread? { ChangedThread(db, req.thread, req.subject, db.posts, a, r); }
    else if req.MoveThread? { MovedThread(db, req.thread, req.name, a, r); }
    else { RemovedThread(db, req.thread, a, r); }
  }

  lemma PostChangeThreads(db: Tables, s: Session, req: Request, a: Account, r: Replica)
    requires Decide(db, s, req).Changed? && (req.AddPost? || req.EditPost? || req.DeletePost?)
    requires Integrity(db) && r.threads == ThreadView(db, a)
    ensures var d := Decide(db, s, req); Informed(r, a, d.notice).threads == ThreadView(d.db, a)
  {
    var d := Decide(db, s, req);
    var id := if req.AddPost? then req.thread else db.posts[req.post].thread;
    assert d.db == db.(threads := db.threads[id := db.threads[id].(subject := db.threads[id].subject)],
                       posts := d.db.posts);
    ChangedThread(db, id, db.threads[id].subject, d.db.posts, a, r);
  }

  // ---- One step, one observer ----

  predicate KnowsBoards(st: State, uid: nat, from: nat, exact: bool) {
    Follows(st, uid, from) && Agrees(Knows(st, uid, from), st.db, st.sessions[uid].account, exact)
  }

  predicate KnowsThreads(st: State, uid: nat, from: nat) {
    Follows(st, uid, from) && Knows(st, uid, from).threads == ThreadView(st.db, st.sessions[uid].account)
  }

  lemma ListedIsBoardView(db: Tables, a: Account)
    ensures Listed(db.boards, Sorted(db.boards.Keys), a) == BoardView(db, a)
  {
  }

  lemma EndMark(ms: seq<Message>, listing: seq<Message>, done: Message)
    requires done == BoardListDone || done == ThreadListDone
    ensures Replay(ms + (listing + [done])) == Replay(ms + listing)
  {
    assert ms + (listing + [done]) == ms + listing + [done];
    ReplayMore(ms + listing, done);
  }

  /** A listing of all boards, followed by its end mark. */
  lemma BoardsAnswered(ms: seq<Message>, db: Tables, a: Account)
    ensures Replay(ms + (BoardListing(db.boards, Sorted(db.boards.Keys), a) + [BoardListDone]))
            == Replay(ms).(boards := Replay(ms).boards + BoardView(db, a))
  {
    var names := Sorted(db.boards.Keys);
    EndMark(ms, BoardListing(db.boards, names, a), BoardListDone);
    BoardListingReplayed(ms, db.boards, names, a);
    ListedIsBoardView(db, a);
  }

  function Within(view: map<Uuid, Seen>, ids: set<Uuid>): map<Uuid, Seen> {
    map id | id in view && id in ids :: view[id]
  }

  lemma ListedIsView(db: Tables, ids: set<Uuid>, a: Account)
    requires Integrity(db) && ids <= db.threads.Keys
    ensures forall id | id in Sorted(ids) :: id in db.threads
    ensures ListedThreads(db, Sorted(ids), a) == Within(ThreadView(db, a), ids)
  {
  }

  function Asked(db: Tables, of: Option<string>): set<Uuid> {
    if of.None? then db.threads.Keys else ThreadsOn(db, of.value)
  }

  lemma ThreadsAnswered(ms: seq<Message>, db: Tables, ids: set<Uuid>, a: Account)
    requires Integrity(db) && ids <= db.threads.Keys
    ensures forall id | id in Sorted(ids) :: id in db.threads
    ensures Replay(ms + (ThreadListing(db, Sorted(ids), a) + [ThreadListDone]))
            == Replay(ms).(threads := Replay(ms).threads + Within(ThreadView(db, a), ids))
  {
    EndMark(ms, ThreadListing(db, Sorted(ids), a), ThreadListDone);
    ThreadListingReplayed(ms, db, Sorted(ids), a);
    ListedIsView(db, ids, a);
  }

  /** The boards an account change brings into view. */
  function Gains(boards: map<string, Privileges>, a: Account, a': Account): map<string, Flags> {
    map b | b in boards && Appears(boards[b], a, a') :: Flags(Readable(boards[b], a'), Writable(boards[b], a'))
  }

  lemma AppearingIsGains(boards: map<string, Privileges>, a: Account, a': Account)
    ensures Appearing(boards, Sorted(boards.Keys), a, a') == Gains(boards, a, a')
  {
  }

  function AfterReload(r: Replica, boards: map<string, Privileges>, a: Account, a': Account): Replica {
    ReloadEffect(r, Gains(boards, a, a'), Gains(boards, a', a).Keys)
  }

  lemma ReloadHeard(st: State, uid: nat, a': Account, from: nat)
    requires Follows(st, uid, from)
    ensures var st' := Reloaded(st, uid, a');
            && st'.db == st.db && uid in st'.sessions && st'.sessions[uid].account == a'
            && from <= |st'.sessions[uid].outbox|
            && Replay(Since(st', uid, from))
               == AfterReload(Knows(st, uid, from), st.db.boards, st.sessions[uid].account, a')
  {
    var a := st.sessions[uid].account;
    var boards := st.db.boards;
    var before := Since(st, uid, from);
    var notices := ReloadNotices(boards, Sorted(boards.Keys), a, a');
    assert Since(Reloaded(st, uid, a'), uid, from) == before + [AccountPrivileges] + notices;
    ReplayMore(before, AccountPrivileges);
    ReloadReplayed(before + [AccountPrivileges], boards, Sorted(boards.Keys), a, a');
    AppearingIsGains(boards, a, a');
    AppearingIsGains(boards, a', a);
  }

  /** A board that stays visible through a reload keeps its flags. */
  ghost predicate KeepsFlags(db: Tables, a: Account, a': Account) {
    forall b | b in BoardView(db, a) && b in BoardView(db, a') :: BoardView(db, a)[b] == BoardView(db, a')[b]
  }

  lemma ReloadMaps(r: map<string, Flags>, v: map<string, Flags>, v': map<string, Flags>, added: map<string, Flags>,
                   gone: set<string>)
    requires r.Keys == v.Keys && gone == v.Keys - v'.Keys && added.Keys == v'.Keys - v.Keys
    requires forall b | b in added :: added[b] == v'[b]
    ensures (r - gone + added).Keys == v'.Keys
    ensures r == v ==> (r - gone + added == v' <==> forall b | b in v && b in v' :: v[b] == v'[b])
  {
    var r' := r - gone + added;
    if r == v {
      forall b | b in v && b in v' ensures r'[b] == v[b] {}
      if forall b | b in v && b in v' :: v[b] == v'[b] {
        forall b | b in v' ensures r'[b] == v'[b] {}
      }
    }
  }

  /** A reload keeps the names of the visible boards exact, and their flags exactly when every
      board that stays visible has the same flags for the old and the new account. */
  lemma ReloadBoards(db: Tables, a: Account, a': Account, r: Replica)
    requires Agrees(r, db, a, false)
    ensures Agrees(AfterReload(r, db.boards, a, a'), db, a', false)
    ensures Agrees(r, db, a, true) ==>
              (Agrees(AfterReload(r, db.boards, a, a'), db, a', true) <==> KeepsFlags(db, a, a'))
  {
    ReloadMaps(r.boards, BoardView(db, a), BoardView(db, a'), Gains(db.boards, a, a'), Gains(db.boards, a', a).Keys);
  }

  lemma ReloadThreads(db: Tables, a: Account, a': Account, r: Replica)
    requires Integrity(db) && r.threads == ThreadView(db, a)
    ensures AfterReload(r, db.boards, a, a').threads == ThreadView(db, a') <==> KeepsReading(db, db, a, a')
  {
    KeptIsView(db, db, Gains(db.boards, a', a).Keys, a, a');
  }

  // ---- Any step ----

  /** Whether an account finds readable what `KeepsReading` says, from one state to another. */
  ghost predicate ReadingKept(st: State, st': State, uid: nat)
    requires uid in st.sessions && uid in st'.sessions
  {
    KeepsReading(st.db, st'.db, st.sessions[uid].account, st'.sessions[uid].account)
  }

  /** The observer's account and the tables are as they were. */
  lemma QuietFollows(st: State, st': State, uid: nat, from: nat)
    requires Follows(st, uid, from) && Follows(st', uid, from)
    requires st'.db == st.db && st'.sessions[uid].account == st.sessions[uid].account
    requires Knows(st', uid, from) == Knows(st, uid, from)
    ensures forall exact :: KnowsBoards(st, uid, from, exact) ==> KnowsBoards(st', uid, from, exact)
    ensures KnowsThreads(st, uid, from) ==> KnowsThreads(st', uid, from)
    ensures ReadingKept(st, st', uid)
  {
    SameRightsKeepReading(st.db, st.db, st.sessions[uid].account);
  }

  /** What a refusal, another session's answer or subscription means to an observer: nothing. */
  lemma AsideFollows(st: State, asker: nat, d: Decision, uid: nat, from: nat)
    requires Follows(st, uid, from) && asker in st.sessions
    requires d.Refused? || (asker != uid && (d.Answered? || d.Switched?))
    ensures Follows(Carry(st, asker, d), uid, from)
    ensures forall exact :: KnowsBoards(st, uid, from, exact) ==> KnowsBoards(Carry(st, asker, d), uid, from, exact)
    ensures KnowsThreads(st, uid, from) ==> KnowsThreads(Carry(st, asker, d), uid, from)
    ensures ReadingKept(st, Carry(st, asker, d), uid)
  {
    match d
    case Refused(code) =>
      PlainHeard(st, asker, Error(code), uid, from);
      QuietFollows(st, Carry(st, asker, d), uid, from);
    case Answered(ms) =>
      ReplyHeard(st, asker, ms, uid, from);
      assert Since(st, uid, from) + [] == Since(st, uid, from);
      QuietFollows(st, Carry(st, asker, d), uid, from);
    case Switched(on) =>
      var mid := st.(sessions := st.sessions[asker := st.sessions[asker].(subscribed := on)]);
      PlainHeard(mid, asker, Okay, uid, from);
      QuietFollows(st, Carry(st, asker, d), uid, from);
  }

  function BoardsReply(st: State, uid: nat): State
    requires uid in st.sessions
  {
    Reply(st, uid, BoardListing(st.db.boards, Sorted(st.db.boards.Keys), st.sessions[uid].account) + [BoardListDone])
  }

  function ThreadsReply(st: State, uid: nat, ids: set<Uuid>): State
    requires uid in st.sessions && ids <= st.db.threads.Keys
  {
    Reply(st, uid, ThreadListing(st.db, Sorted(ids), st.sessions[uid].account) + [ThreadListDone])
  }

  lemma BoardsHeard(st: State, uid: nat, from: nat)
    requires Follows(st, uid, from)
    ensures var (st', r, a) := (BoardsReply(st, uid), Knows(st, uid, from), st.sessions[uid].account);
            && Follows(st', uid, from) && st'.db == st.db && st'.sessions[uid].account == a
            && Knows(st', uid, from) == r.(boards := r.boards + BoardView(st.db, a))
  {
    var a := st.sessions[uid].account;
    ReplyHeard(st, uid, BoardListing(st.db.boards, Sorted(st.db.boards.Keys), a) + [BoardListDone], uid, from);
    BoardsAnswered(Since(st, uid, from), st.db, a);
  }

  lemma ThreadsHeard(st: State, uid: nat, from: nat, ids: set<Uuid>)
    requires Follows(st, uid, from) && Integrity(st.db) && ids <= st.db.threads.Keys
    ensures var (st', r, a) := (ThreadsReply(st, uid, ids), Knows(st, uid, from), st.sessions[uid].account);
            && Follows(st', uid, from) && st'.db == st.db && st'.sessions[uid].account == a
            && Knows(st', uid, from) == r.(threads := r.threads + Within(ThreadView(st.db, a), ids))
  {
    var a := st.sessions[uid].account;
    ThreadsAnswered(Since(st, uid, from), st.db, ids, a);
    ReplyHeard(st, uid, ThreadListing(st.db, Sorted(ids), a) + [ThreadListDone], uid, from);
  }

  lemma Again(r: map<string, Flags>, view: map<string, Flags>)
    requires r.Keys == view.Keys
    ensures r + view == view
  {
  }

  lemma SameBoardsKnown(st: State, st': State, uid: nat, from: nat)
    requires Follows(st, uid, from) && Follows(st', uid, from) && st'.db == st.db
    requires st'.sessions[uid].account == st.sessions[uid].account
    requires Knows(st', uid, from).boards == Knows(st, uid, from).boards
    ensures forall exact :: KnowsBoards(st, uid, from, exact) ==> KnowsBoards(st', uid, from, exact)
  {
  }

  lemma SameThreadsKnown(st: State, st': State, uid: nat, from: nat)
    requires Follows(st, uid, from) && Follows(st', uid, from) && st'.db == st.db
    requires st'.sessions[uid].account == st.sessions[uid].account
    requires KnowsThreads(st, uid, from) ==> Knows(st', uid, from).threads == Knows(st, uid, from).threads
    ensures KnowsThreads(st, uid, from) ==> KnowsThreads(st', uid, from)
    ensures ReadingKept(st, st', uid)
  {
    SameRightsKeepReading(st.db, st.db, st.sessions[uid].account);
  }

  lemma WithinAdds(view: map<Uuid, Seen>, ids: set<Uuid>)
    ensures view + Within(view, ids) == view
  {
  }

  lemma GetBoardsFollows(st: State, uid: nat, from: nat)
    requires Follows(st, uid, from)
    ensures var st' := BoardsReply(st, uid);
            && Follows(st', uid, from)
            && (KnowsBoards(st, uid, from, false) ==> KnowsBoards(st', uid, from, true))
            && (KnowsThreads(st, uid, from) ==> KnowsThreads(st', uid, from))
            && ReadingKept(st, st', uid)
  {
    BoardsHeard(st, uid, from);
    SameThreadsKnown(st, BoardsReply(st, uid), uid, from);
    var r, v := Knows(st, uid, from).boards, BoardView(st.db, st.sessions[uid].account);
    if r.Keys == v.Keys { Again(r, v); }
  }

  lemma GetThreadsFollows(st: State, uid: nat, from: nat, ids: set<Uuid>)
    requires Follows(st, uid, from) && Integrity(st.db) && ids <= st.db.threads.Keys
    ensures var st' := ThreadsReply(st, uid, ids);
            && Follows(st', uid, from)
            && (forall exact :: KnowsBoards(st, uid, from, exact) ==> KnowsBoards(st', uid, from, exact))
            && (KnowsThreads(st, uid, from) ==> KnowsThreads(st', uid, from))
            && ReadingKept(st, st', uid)
  {
    ThreadsHeard(st, uid, from, ids);
    WithinAdds(ThreadView(st.db, st.sessions[uid].account), ids);
    SameBoardsKnown(st, ThreadsReply(st, uid, ids), uid, from);
    SameThreadsKnown(st, ThreadsReply(st, uid, ids), uid, from);
  }

  lemma ChangeFollows(st: State, asker: nat, req: Request, uid: nat, from: nat)
    requires Follows(st, uid, from) && Integrity(st.db) && asker in st.sessions && !req.RenameBoard?
    requires Decide(st.db, st.sessions[asker], req).Changed?
    ensures var st' := Carry(st, asker, Decide(st.db, st.sessions[asker], req));
            && Follows(st', uid, from)
            && (forall exact :: KnowsBoards(st, uid, from, exact) ==> KnowsBoards(st', uid, from, exact))
            && (KnowsThreads(st, uid, from) ==> (KnowsThreads(st', uid, from) <==> ReadingKept(st, st', uid)))
  {
    var s := st.sessions[asker];
    var a := st.sessions[uid].account;
    var r := Knows(st, uid, from);
    var d := Decide(st.db, s, req);
    ChangeHeard(st, asker, d.db, d.notice, uid, from);
    forall exact | KnowsBoards(st, uid, from, exact) ensures Agrees(Informed(r, a, d.notice), d.db, a, exact) {
      ChangeAgrees(st.db, s, req, a, r, exact);
    }
    if KnowsThreads(st, uid, from) { ChangeThreads(st.db, s, req, a, r); }
  }

  lemma SubscriptionShape(db: Tables, s: Session, req: Request)
    ensures var d := Decide(db, s, req);
            && (d.Switched? && s.subscribed ==> !d.on)
            && (d.Answered? ==> req.GetBoards? || req.GetThreads?)
  {
  }

  lemma BoardsShape(db: Tables, s: Session)
    ensures var d := Decide(db, s, GetBoards);
            d.Answered? ==> d.reply == BoardListing(db.boards, Sorted(db.boards.Keys), s.account) + [BoardListDone]
  {
  }

  lemma ThreadsShape(db: Tables, s: Session, of: Option<string>)
    ensures forall id | id in Sorted(Asked(db, of)) :: id in db.threads
    ensures var d := Decide(db, s, GetThreads(of));
            d.Answered? ==> d.reply == ThreadListing(db, Sorted(Asked(db, of)), s.account) + [ThreadListDone]
  {
  }

  lemma HandlingFollows(st: State, asker: nat, req: Request, uid: nat, from: nat)
    requires Follows(st, uid, from) && Integrity(st.db) && asker in st.sessions && !req.RenameBoard?
    requires Watching(Carry(st, asker, Decide(st.db, st.sessions[asker], req)), uid)
    ensures var st' := Carry(st, asker, Decide(st.db, st.sessions[asker], req));
            && Follows(st', uid, from)
            && (forall exact :: KnowsBoards(st, uid, from, exact) ==> KnowsBoards(st', uid, from, exact))
            && (KnowsThreads(st, uid, from) ==> (KnowsThreads(st', uid, from) <==> ReadingKept(st, st', uid)))
  {
    var d := Decide(st.db, st.sessions[asker], req);
    OnlyRenamesBreak(st.db, st.sessions[asker], req);
    SubscriptionShape(st.db, st.sessions[asker], req);
    if d.Changed? {
      ChangeFollows(st, asker, req, uid, from);
    } else if d.Refused? || asker != uid {
      AsideFollows(st, asker, d, uid, from);
    } else if d.Answered? && req.GetBoards? {
      BoardsShape(st.db, st.sessions[asker]);
      GetBoardsFollows(st, uid, from);
    } else if d.Answered? {
      ThreadsShape(st.db, st.sessions[asker], req.of);
      GetThreadsFollows(st, uid, from, Asked(st.db, req.of));
    }
  }

  lemma AfterReloadAgrees(db: Tables, a: Account, a': Account, r: Replica)
    requires Integrity(db)
    ensures var r' := AfterReload(r, db.boards, a, a');
            && (Agrees(r, db, a, false) ==> Agrees(r', db, a', false))
            && (Agrees(r, db, a, true) ==> (Agrees(r', db, a', true) <==> KeepsFlags(db, a, a')))
            && (r.threads == ThreadView(db, a) ==> (r'.threads == ThreadView(db, a') <==> KeepsReading(db, db, a, a')))
  {
    if Agrees(r, db, a, false) { ReloadBoards(db, a, a', r); }
    if r.threads == ThreadView(db, a) { ReloadThreads(db, a, a', r); }
  }

  lemma ReloadFollows(st: State, uid: nat, a': Account, from: nat)
    requires Follows(st, uid, from) && Integrity(st.db) && Watching(Reloaded(st, uid, a'), uid)
    ensures var (st', a) := (Reloaded(st, uid, a'), st.sessions[uid].account);
            && Follows(st', uid, from)
            && (KnowsBoards(st, uid, from, false) ==> KnowsBoards(st', uid, from, false))
            && (KnowsBoards(st, uid, from, true) ==> (KnowsBoards(st', uid, from, true) <==> KeepsFlags(st.db, a, a')))
            && (KnowsThreads(st, uid, from) ==> (KnowsThreads(st', uid, from) <==> ReadingKept(st, st', uid)))
  {
    ReloadHeard(st, uid, a', from);
    AfterReloadAgrees(st.db, st.sessions[uid].account, a', Knows(st, uid, from));
  }

  // ---- Steps of which the clients are told nothing ----

  /** What a session may see in a state. */
  function Shown(st: State, uid: nat): map<string, Flags>
    requires uid in st.sessions
  {
    BoardView(st.db, st.sessions[uid].account)
  }

  function ShownThreads(st: State, uid: nat): map<Uuid, Seen>
    requires uid in st.sessions
  {
    ThreadView(st.db, st.sessions[uid].account)
  }

  /** A login of a session that is logged in already, and the statements that rename a user or a
      group in the boards table: no message about boards is sent to the session. */
  predicate Silent(step: Step, uid: nat) {
    (step.LogIn? && step.uid == uid) || step.UserRenamed? || step.GroupRenamed?
  }

  lemma LogInHeard(st: State, who: nat, a: Account, uid: nat, from: nat)
    requires Follows(st, uid, from)
    ensures var st' := LoggedOn(st, who, a);
            && Follows(st', uid, from) && Knows(st', uid, from) == Knows(st, uid, from) && st'.db == st.db
            && st'.sessions[uid].account == if who == uid then a else st.sessions[uid].account
  {
    var s :=
      if who in st.sessions then st.sessions[who].(state := LoggedIn, login := a.name, account := a)
      else Session(LoggedIn, a.name, a, false, false, []);
    var mid := st.(sessions := st.sessions[who := s]);
    assert Since(mid, uid, from) == Since(st, uid, from);
    PlainHeard(mid, who, Login, uid, from);
    PlainHeard(Reply(mid, who, [Login]), who, AccountPrivileges, uid, from);
    ReplyHeard(mid, who, [Login], uid, from);
    ReplyHeard(Reply(mid, who, [Login]), who, [AccountPrivileges], uid, from);
  }

  lemma SilentHeard(st: State, step: Step, uid: nat, from: nat)
    requires Follows(st, uid, from) && Silent(step, uid)
    ensures Follows(Next(st, step), uid, from) && Knows(Next(st, step), uid, from) == Knows(st, uid, from)
  {
    if step.LogIn? { LogInHeard(st, uid, step.account, uid, from); }
    else { assert Next(st, step).sessions == st.sessions; }
  }

  /** A client that is told nothing stays right exactly when what it may see stays the same. */
  lemma SilentFollows(st: State, st': State, uid: nat, from: nat)
    requires Follows(st, uid, from) && Follows(st', uid, from)
    requires Knows(st', uid, from) == Knows(st, uid, from)
    ensures KnowsBoards(st, uid, from, false) ==>
              (KnowsBoards(st', uid, from, false) <==> Shown(st', uid).Keys == Shown(st, uid).Keys)
    ensures KnowsBoards(st, uid, from, true) ==>
              (KnowsBoards(st', uid, from, true) <==> Shown(st', uid) == Shown(st, uid))
    ensures KnowsThreads(st, uid, from) ==>
              (KnowsThreads(st', uid, from) <==> ShownThreads(st', uid) == ShownThreads(st, uid))
  {
  }

  /** All other steps that are not requests leave the observer as it is. */
  lemma QuietStep(st: State, step: Step, uid: nat, from: nat)
    requires Follows(st, uid, from) && Watching(Next(st, step), uid)
    requires !step.Handling? && !Silent(step, uid) && !(step.Reload? && step.uid == uid)
    ensures var st' := Next(st, step);
            && Follows(st', uid, from) && Knows(st', uid, from) == Knows(st, uid, from)
            && st'.db == st.db && st'.sessions[uid].account == st.sessions[uid].account
  {
    if step.LogIn? && step.uid in st.sessions && st.sessions[step.uid].state == Connected {
      PlainHeard(st, step.uid, Error(OutOfSequence), uid, from);
    } else if step.LogIn? {
      LogInHeard(st, step.uid, step.account, uid, from);
    } else if step.LogInRefused? && step.uid == uid {
      var mid := With(st, uid, st.sessions[uid].(login := step.login));
      PlainHeard(mid, uid, LoginFailed, uid, from);
      ReplyHeard(mid, uid, [LoginFailed], uid, from);
    } else {
      assert Next(st, step).sessions[uid] == st.sessions[uid];
    }
  }

  // ---- Any step, seen by one watching session ----

  /** The condition under which a step leaves a list of boards right, by name or with the flags. */
  ghost predicate BoardsFollow(st: State, step: Step, uid: nat, exact: bool) {
    && uid in st.sessions && uid in Next(st, step).sessions
    && (step.Reload? && step.uid == uid && exact ==> KeepsFlags(st.db, st.sessions[uid].account, step.account))
    && (Silent(step, uid) ==>
          && Shown(Next(st, step), uid).Keys == Shown(st, uid).Keys
          && (exact ==> Shown(Next(st, step), uid) == Shown(st, uid)))
  }

  /** The condition under which a step leaves a list of threads right. */
  ghost predicate ThreadsFollow(st: State, step: Step, uid: nat) {
    && uid in st.sessions && uid in Next(st, step).sessions
    && if Silent(step, uid) then ShownThreads(Next(st, step), uid) == ShownThreads(st, uid)
       else ReadingKept(st, Next(st, step), uid)
  }

  lemma OtherFollows(st: State, step: Step, uid: nat, from: nat)
    requires Follows(st, uid, from) && Integrity(st.db) && !(step.Handling? && step.uid in st.sessions)
    requires Watching(Next(st, step), uid)
    ensures var st' := Next(st, step);
            && Follows(st', uid, from)
            && (forall exact :: KnowsBoards(st, uid, from, exact) ==>
                  (KnowsBoards(st', uid, from, exact) <==> BoardsFollow(st, step, uid, exact)))
            && (KnowsThreads(st, uid, from) ==> (KnowsThreads(st', uid, from) <==> ThreadsFollow(st, step, uid)))
  {
    if step.Handling? {
      QuietFollows(st, st, uid, from);
    } else if Silent(step, uid) {
      SilentHeard(st, step, uid, from);
      SilentFollows(st, Next(st, step), uid, from);
    } else if step.Reload? && step.uid == uid {
      ReloadFollows(st, uid, step.account, from);
    } else {
      QuietStep(st, step, uid, from);
      QuietFollows(st, Next(st, step), uid, from);
    }
  }

  /** One step of the server, seen by one watching session: its list of boards, by name or with the
      flags, and its list of threads stay right exactly when the step keeps them. */
  lemma StepFollows(st: State, step: Step, uid: nat, from: nat)
    requires Follows(st, uid, from) && Integrity(st.db) && !IsRename(step)
    requires Watching(Next(st, step), uid)
    ensures var st' := Next(st, step);
            && Follows(st', uid, from)
            && (forall exact :: KnowsBoards(st, uid, from, exact) ==>
                  (KnowsBoards(st', uid, from, exact) <==> BoardsFollow(st, step, uid, exact)))
            && (KnowsThreads(st, uid, from) ==> (KnowsThreads(st', uid, from) <==> ThreadsFollow(st, step, uid)))
  {
    if step.Handling? && step.uid in st.sessions {
      HandlingFollows(st, step.uid, step.request, uid, from);
    } else {
      OtherFollows(st, step, uid, from);
    }
  }

  /** A reload breaks an exact list of boards exactly when a board that stays visible changes flags. */
  lemma ReloadLagsExactly(st: State, uid: nat, a': Account, from: nat)
    requires KnowsBoards(st, uid, from, true) && Watching(Reloaded(st, uid, a'), uid)
    ensures KnowsBoards(Reloaded(st, uid, a'), uid, from, true) <==> KeepsFlags(st.db, st.sessions[uid].account, a')
  {
    ReloadHeard(st, uid, a', from);
    ReloadBoards(st.db, st.sessions[uid].account, a', Knows(st, uid, from));
  }

  // ---- Whole runs ----

  /** The session is subscribed, logged in and without a transfer throughout, and no board is renamed. */
  ghost predicate StaysWatching(st: State, uid: nat, steps: seq<Step>) {
    && (steps != [] ==> StaysWatching(st, uid, steps[..|steps| - 1]) && !IsRename(steps[|steps| - 1]))
    && Watching(Run(st, steps), uid)
  }

  lemma {:induction false} WatchingAtEnd(st: State, uid: nat, steps: seq<Step>)
    requires StaysWatching(st, uid, steps)
    ensures Watching(Run(st, steps), uid)
    ensures steps != [] ==>
              && StaysWatching(st, uid, steps[..|steps| - 1]) && Watching(Run(st, steps[..|steps| - 1]), uid)
              && uid in Next(Run(st, steps[..|steps| - 1]), steps[|steps| - 1]).sessions
  {
  }

  /** Every step of the run keeps the list of boards right. */
  ghost predicate BoardsFollowThroughout(st: State, uid: nat, steps: seq<Step>, exact: bool) {
    steps != [] ==>
      && BoardsFollowThroughout(st, uid, steps[..|steps| - 1], exact)
      && BoardsFollow(Run(st, steps[..|steps| - 1]), steps[|steps| - 1], uid, exact)
  }

  ghost predicate ThreadsFollowThroughout(st: State, uid: nat, steps: seq<Step>) {
    steps != [] ==>
      && ThreadsFollowThroughout(st, uid, steps[..|steps| - 1])
      && ThreadsFollow(Run(st, steps[..|steps| - 1]), steps[|steps| - 1], uid)
  }

  /** The list of boards is right at the start of the run and after each of its steps. */
  ghost predicate HoldsBoards(st: State, uid: nat, from: nat, steps: seq<Step>, exact: bool) {
    && (steps != [] ==> HoldsBoards(st, uid, from, steps[..|steps| - 1], exact))
    && KnowsBoards(Run(st, steps), uid, from, exact)
  }

  ghost predicate HoldsThreads(st: State, uid: nat, from: nat, steps: seq<Step>) {
    && (steps != [] ==> HoldsThreads(st, uid, from, steps[..|steps| - 1]))
    && KnowsThreads(Run(st, steps), uid, from)
  }

  lemma {:induction false} NoRenameNoLoss(st: State, uid: nat, steps: seq<Step>)
    requires StaysWatching(st, uid, steps) && Integrity(st.db)
    ensures NothingLost(st, steps)
    decreases |steps|
  {
    if steps != [] { NoRenameNoLoss(st, uid, steps[..|steps| - 1]); }
  }

  lemma IntegrityAtEnd(st: State, uid: nat, steps: seq<Step>)
    requires StaysWatching(st, uid, steps) && Integrity(st.db)
    ensures Integrity(Run(st, steps).db)
  {
    NoRenameNoLoss(st, uid, steps);
    NoDanglingReferences(st, steps);
    EndOfRun(st, steps);
  }

  lemma LastStepFollows(st: State, uid: nat, from: nat, steps: seq<Step>)
    requires StaysWatching(st, uid, steps) && Integrity(st.db) && steps != []
    requires Follows(Run(st, steps[..|steps| - 1]), uid, from)
    ensures var (before, step, after) := (Run(st, steps[..|steps| - 1]), steps[|steps| - 1], Run(st, steps));
            && Follows(after, uid, from) && uid in Next(before, step).sessions
            && (forall exact :: KnowsBoards(before, uid, from, exact) ==>
                  (KnowsBoards(after, uid, from, exact) <==> BoardsFollow(before, step, uid, exact)))
            && (KnowsThreads(before, uid, from) ==>
                  (KnowsThreads(after, uid, from) <==> ThreadsFollow(before, step, uid)))
  {
    WatchingAtEnd(st, uid, steps);
    IntegrityAtEnd(st, uid, steps[..|steps| - 1]);
    StepFollows(Run(st, steps[..|steps| - 1]), steps[|steps| - 1], uid, from);
  }

  /** A list of boards that is right stays right all through a run exactly when every step keeps it. */
  lemma {:induction false} BoardsHeld(st: State, uid: nat, from: nat, steps: seq<Step>, exact: bool)
    requires StaysWatching(st, uid, steps) && Integrity(st.db) && KnowsBoards(st, uid, from, exact)
    ensures HoldsBoards(st, uid, from, steps, exact) <==> BoardsFollowThroughout(st, uid, steps, exact)
    decreases |steps|
  {
    if steps != [] {
      var front := steps[..|steps| - 1];
      BoardsHeld(st, uid, from, front, exact);
      if HoldsBoards(st, uid, from, front, exact) { LastStepFollows(st, uid, from, steps); }
    }
  }

  lemma {:induction false} ThreadsHeld(st: State, uid: nat, from: nat, steps: seq<Step>)
    requires StaysWatching(st, uid, steps) && Integrity(st.db) && KnowsThreads(st, uid, from)
    ensures HoldsThreads(st, uid, from, steps) <==> ThreadsFollowThroughout(st, uid, steps)
    decreases |steps|
  {
    if steps != [] {
      var front := steps[..|steps| - 1];
      ThreadsHeld(st, uid, from, front);
      if HoldsThreads(st, uid, from, front) { LastStepFollows(st, uid, from, steps); }
    }
  }

  lemma AllBoardsAsked(st: State, uid: nat)
    requires Watching(st, uid) && ReadBoards in st.sessions[uid].account.can
    ensures Next(st, Handling(uid, GetBoards)) == BoardsReply(st, uid)
  {
  }

  lemma BoardsListed(st: State, uid: nat)
    requires Watching(st, uid) && ReadBoards in st.sessions[uid].account.can
    ensures var st0 := Next(st, Handling(uid, GetBoards));
            && st0.db == st.db && KnowsBoards(st0, uid, |st.sessions[uid].outbox|, true)
            && st0.sessions[uid].account == st.sessions[uid].account
  {
    var from := |st.sessions[uid].outbox|;
    AllBoardsAsked(st, uid);
    assert Since(st, uid, from) == [];
    BoardsHeard(st, uid, from);
    NothingPlus(BoardView(st.db, st.sessions[uid].account));
  }

  lemma NothingPlus(view: map<string, Flags>)
    ensures map[] + view == view
  {
  }

  /** A subscribed session that asks for the boards and then replays what it is sent holds exactly
      the boards it may see, by name or with their flags, all through a run of all sessions' steps
      if and only if every step of the run keeps that list. */
  lemma SubscriberHoldsItsBoards(st: State, uid: nat, steps: seq<Step>, exact: bool)
    requires Watching(st, uid) && Integrity(st.db) && ReadBoards in st.sessions[uid].account.can
    requires StaysWatching(Next(st, Handling(uid, GetBoards)), uid, steps)
    ensures var from := |st.sessions[uid].outbox|;
            var st0 := Next(st, Handling(uid, GetBoards));
            HoldsBoards(st0, uid, from, steps, exact) <==> BoardsFollowThroughout(st0, uid, steps, exact)
  {
    BoardsListed(st, uid);
    BoardsHeld(Next(st, Handling(uid, GetBoards)), uid, |st.sessions[uid].outbox|, steps, exact);
  }

  lemma WithinAll(view: map<Uuid, Seen>, ids: set<Uuid>)
    requires view.Keys <= ids
    ensures map[] + Within(view, ids) == view
  {
  }

  lemma AllThreadsAsked(st: State, uid: nat)
    requires Watching(st, uid) && ReadBoards in st.sessions[uid].account.can
    ensures Next(st, Handling(uid, GetThreads(None))) == ThreadsReply(st, uid, st.db.threads.Keys)
  {
  }

  lemma ThreadsListed(st: State, uid: nat)
    requires Watching(st, uid) && Integrity(st.db) && ReadBoards in st.sessions[uid].account.can
    ensures Next(st, Handling(uid, GetThreads(None))).db == st.db
    ensures KnowsThreads(Next(st, Handling(uid, GetThreads(None))), uid, |st.sessions[uid].outbox|)
  {
    var from := |st.sessions[uid].outbox|;
    AllThreadsAsked(st, uid);
    assert Since(st, uid, from) == [];
    ThreadsHeard(st, uid, from, st.db.threads.Keys);
    WithinAll(ThreadView(st.db, st.sessions[uid].account), st.db.threads.Keys);
  }

  /** The same for threads: after asking for all threads it holds exactly those in boards it can read. */
  lemma SubscriberHoldsItsThreads(st: State, uid: nat, steps: seq<Step>)
    requires Watching(st, uid) && Integrity(st.db) && ReadBoards in st.sessions[uid].account.can
    requires StaysWatching(Next(st, Handling(uid, GetThreads(None))), uid, steps)
    ensures var from := |st.sessions[uid].outbox|;
            var st0 := Next(st, Handling(uid, GetThreads(None)));
            HoldsThreads(st0, uid, from, steps) <==> ThreadsFollowThroughout(st0, uid, steps)
  {
    ThreadsListed(st, uid);
    ThreadsHeld(Next(st, Handling(uid, GetThreads(None))), uid, |st.sessions[uid].outbox|, steps);
  }

  // ---- When the conditions hold ----

  /** Without silent steps the names are right in every run, whatever all sessions do. */
  lemma {:induction false} NamesFollow(st: State, uid: nat, steps: seq<Step>)
    requires StaysWatching(st, uid, steps) && forall step | step in steps :: !Silent(step, uid)
    ensures BoardsFollowThroughout(st, uid, steps, false)
    decreases |steps|
  {
    if steps != [] {
      WatchingAtEnd(st, uid, steps);
      assert steps[|steps| - 1] in steps;
      NamesFollow(st, uid, steps[..|steps| - 1]);
    }
  }

  /** Neither a board's rights nor the session's account is changed. */
  predicate RightsFixed(step: Step, uid: nat) {
    && !(step.Handling? && step.request.SetBoardInfo?)
    && !(step.Reload? && step.uid == uid)
    && !Silent(step, uid)
  }

  lemma CarryKeepsAccounts(st: State, asker: nat, d: Decision, uid: nat)
    requires asker in st.sessions && uid in st.sessions
    ensures uid in Carry(st, asker, d).sessions && Carry(st, asker, d).sessions[uid].account == st.sessions[uid].account
  {
  }

  lemma FixedRightsRequest(st: State, asker: nat, req: Request, uid: nat)
    requires asker in st.sessions && uid in st.sessions && Integrity(st.db)
    requires !req.RenameBoard? && !req.SetBoardInfo?
    ensures var st' := Carry(st, asker, Decide(st.db, st.sessions[asker], req));
            uid in st'.sessions && ReadingKept(st, st', uid)
  {
    var d := Decide(st.db, st.sessions[asker], req);
    OnlyRenamesBreak(st.db, st.sessions[asker], req);
    if d.Changed? { FixedRightsDecision(st.db, st.sessions[asker], req); }
    CarryKeepsAccounts(st, asker, d, uid);
    SameRightsKeepReading(st.db, Carry(st, asker, d).db, st.sessions[uid].account);
  }

  lemma FixedRightsFollow(st: State, step: Step, uid: nat)
    requires Watching(st, uid) && Watching(Next(st, step), uid) && Integrity(st.db)
    requires !IsRename(step) && RightsFixed(step, uid)
    ensures BoardsFollow(st, step, uid, true) && ThreadsFollow(st, step, uid)
  {
    if step.Handling? && step.uid in st.sessions {
      FixedRightsRequest(st, step.uid, step.request, uid);
    } else {
      if !step.Handling? { QuietStep(st, step, uid, |st.sessions[uid].outbox|); }
      SameRightsKeepReading(st.db, st.db, st.sessions[uid].account);
    }
  }

  /** With board rights and the account fixed, flags and threads are right in every run. */
  lemma {:induction false} FixedRightsFollowThroughout(st: State, uid: nat, steps: seq<Step>)
    requires StaysWatching(st, uid, steps) && Integrity(st.db)
    requires forall step | step in steps :: RightsFixed(step, uid)
    ensures BoardsFollowThroughout(st, uid, steps, true) && ThreadsFollowThroughout(st, uid, steps)
    decreases |steps|
  {
    if steps != [] {
      var front := steps[..|steps| - 1];
      WatchingAtEnd(st, uid, steps);
      IntegrityAtEnd(st, uid, front);
      assert steps[|steps| - 1] in steps;
      FixedRightsFollowThroughout(st, uid, front);
      FixedRightsFollow(Run(st, front), steps[|steps| - 1], uid);
    }
  }

  // ---- Two silent steps that leave a client behind ----

  const ForOwner := Privileges("alice", "", Mode(true, false, false, false, false, false))
  const ForStaff := Privileges("", "staff", Mode(false, false, true, false, false, false))

  const Alice := Account("alice", "", ["staff"], {ReadBoards})
  const Bob := Account("bob", "", [], {ReadBoards})

  const Subscribed := State(
    Tables(map["x" := ForOwner, "y" := ForStaff], map[], map[]),
    map[1 := Session(LoggedIn, "alice", Alice, true, false, [])])

  lemma ExampleViews(step: Step)
    requires step == LogIn(1, Bob) || step == GroupRenamed("staff", "crew")
    ensures 1 in Next(Subscribed, step).sessions
    ensures var y := "y"; y in Shown(Subscribed, 1) && y !in Shown(Next(Subscribed, step), 1)
  {
    var st' := Next(Subscribed, step);
    assert Visible(ForStaff, Alice) && !Visible(ForStaff, Bob) && !Visible(ForStaff.(group := "crew"), Alice);
    assert st'.db.boards["y"] == ForStaff || st'.db.boards["y"] == ForStaff.(group := "crew");
  }

  /** A session that lists the boards and is then cut off from one by a silent step keeps it. */
  lemma KeptInSilence(st: State, step: Step, uid: nat, b: string)
    requires Watching(st, uid) && ReadBoards in st.sessions[uid].account.can && Silent(step, uid)
    requires uid in Next(st, step).sessions && b in Shown(st, uid) && b !in Shown(Next(st, step), uid)
    ensures var (st0, from) := (Next(st, Handling(uid, GetBoards)), |st.sessions[uid].outbox|);
            && KnowsBoards(st0, uid, from, true) && Watching(Next(st0, step), uid)
            && !KnowsBoards(Next(st0, step), uid, from, false)
  {
    var st0, from := Next(st, Handling(uid, GetBoards)), |st.sessions[uid].outbox|;
    BoardsListed(st, uid);
    SameView(st, st0, step, uid);
    SilentHeard(st0, step, uid, from);
    SilentFollows(st0, Next(st0, step), uid, from);
  }

  lemma SameView(st: State, st0: State, step: Step, uid: nat)
    requires Watching(st, uid) && Watching(st0, uid) && Silent(step, uid)
    requires st0.db == st.db && st0.sessions[uid].account == st.sessions[uid].account
    ensures uid in Next(st, step).sessions && uid in Next(st0, step).sessions
    ensures Shown(st0, uid) == Shown(st, uid) && Shown(Next(st0, step), uid) == Shown(Next(st, step), uid)
  {
  }

  /** Two such steps: the session logs in as somebody else, and its secondary group is renamed. */
  lemma SilentStepExamples(step: Step)
    requires step == LogIn(1, Bob) || step == GroupRenamed("staff", "crew")
    ensures var st0 := Next(Subscribed, Handling(1, GetBoards));
            && KnowsBoards(st0, 1, 0, true) && Watching(Next(st0, step), 1)
            && !KnowsBoards(Next(st0, step), 1, 0, false)
  {
    ExampleViews(step);
    KeptInSilence(Subscribed, step, 1, "y");
  }
}
