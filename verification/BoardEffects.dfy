/** What each request about boards does: which sessions it is accepted from, what the tables hold
    afterwards, row by row, and what the session is answered. */
module BoardEffects {
  import opened Text
  import opened Collation
  import opened Rights
  import opened BoardTables
  import opened Boards
  import opened Users
  import BoardRename

  // ---- Words for the effects ----

  predicate PastLogin(s: Session) {
    s.state == LoggedIn || s.state == Disconnected
  }

  /** The account may write on a board that exists. */
  predicate WritesOn(db: Tables, board: string, a: Account) {
    board in db.boards && Writable(db.boards[board], a)
  }

  predicate WritesThread(db: Tables, id: Uuid, a: Account) {
    id in db.threads && WritesOn(db, db.threads[id].board, a)
  }

  predicate WritesPost(db: Tables, post: Uuid, a: Account) {
    post in db.posts && WritesThread(db, db.posts[post].thread, a)
  }

  predicate SameElsewhere<V(==)>(m: map<string, V>, m': map<string, V>, key: string) {
    m.Keys - {key} == m'.Keys - {key} && forall k | k in m && k in m' && k != key :: m'[k] == m[k]
  }

  predicate OnlyBoard(db: Tables, db': Tables, name: string) {
    SameElsewhere(db.boards, db'.boards, name) && db'.threads == db.threads && db'.posts == db.posts
  }

  predicate OnlyThread(db: Tables, db': Tables, id: Uuid) {
    db'.boards == db.boards && SameElsewhere(db.threads, db'.threads, id) && db'.posts == db.posts
  }

  predicate OnlyPost(db: Tables, db': Tables, post: Uuid) {
    db'.boards == db.boards && db'.threads == db.threads && SameElsewhere(db.posts, db'.posts, post)
  }

  /** The last message sent to a session, if it can be sent any. */
  predicate Answered(st: State, uid: nat, m: Message) {
    uid in st.sessions &&
    (!st.sessions[uid].transfer ==> st.sessions[uid].outbox != [] && Last(st.sessions[uid].outbox) == m)
  }

  function Last<T>(s: seq<T>): T
    requires s != []
  {
    s[|s| - 1]
  }

  predicate AnsweredError(st: State, uid: nat) {
    uid in st.sessions &&
    (!st.sessions[uid].transfer ==> st.sessions[uid].outbox != [] && Last(st.sessions[uid].outbox).Error?)
  }

  /** No session changes but in what was sent to it; and `uid` may have switched its subscription. */
  ghost predicate OnlySent(st: State, st': State, uid: nat) {
    && st'.sessions.Keys == st.sessions.Keys
    && forall id | id in st.sessions ::
         var (s, s') := (st.sessions[id], st'.sessions[id]);
         && s'.state == s.state && s'.login == s.login && s'.account == s.account && s'.transfer == s.transfer
         && (id != uid ==> s'.subscribed == s.subscribed)
         && s.outbox <= s'.outbox && (s.transfer ==> s'.outbox == s.outbox)
  }

  /** A request is accepted and answered with okay, or else refused with an error and without any
      change of the tables and subscriptions or word to the others. */
  ghost predicate Effect(st: State, st': State, uid: nat, ok: bool) {
    && uid in st.sessions && OnlySent(st, st', uid)
    && if ok then Answered(st', uid, Okay)
       else
         && AnsweredError(st', uid) && st'.db == st.db
         && st'.sessions[uid].subscribed == st.sessions[uid].subscribed
         && forall id | id in st.sessions && id != uid :: st'.sessions[id] == st.sessions[id]
  }

  lemma ReplyEffect(st: State, uid: nat, m: Message)
    requires uid in st.sessions
    ensures var st' := Reply(st, uid, [m]);
            && OnlySent(st, st', uid) && Answered(st', uid, m) && st'.db == st.db
            && st'.sessions[uid].subscribed == st.sessions[uid].subscribed
            && forall id | id in st.sessions && id != uid :: st'.sessions[id] == st.sessions[id]
  {
  }

  lemma TellEffect(st: State, db: Tables, notice: Notice, uid: nat)
    ensures var st' := State(db, Tell(st.sessions, notice));
            && OnlySent(st, st', uid)
            && forall id | id in st.sessions :: st'.sessions[id].subscribed == st.sessions[id].subscribed
  {
  }

  lemma SentOn(st: State, st1: State, st2: State, uid: nat)
    requires OnlySent(st, st1, uid) && OnlySent(st1, st2, uid)
    ensures OnlySent(st, st2, uid)
  {
  }

  lemma ChangeEffect(st: State, uid: nat, db: Tables, notice: Notice)
    requires uid in st.sessions
    ensures var st' := Reply(State(db, Tell(st.sessions, notice)), uid, [Okay]);
            && OnlySent(st, st', uid) && Answered(st', uid, Okay) && st'.db == db
            && st'.sessions[uid].subscribed == st.sessions[uid].subscribed
  {
    var mid := State(db, Tell(st.sessions, notice));
    TellEffect(st, db, notice, uid);
    ReplyEffect(mid, uid, Okay);
    SentOn(st, mid, Reply(mid, uid, [Okay]), uid);
  }

  lemma SwitchEffect(st: State, uid: nat, on: bool)
    requires uid in st.sessions
    ensures var st' := Reply(st.(sessions := st.sessions[uid := st.sessions[uid].(subscribed := on)]), uid, [Okay]);
            && OnlySent(st, st', uid) && Answered(st', uid, Okay) && st'.db == st.db
            && st'.sessions[uid].subscribed == on
            && forall id | id in st.sessions && id != uid :: st'.sessions[id] == st.sessions[id]
  {
    ReplyEffect(st.(sessions := st.sessions[uid := st.sessions[uid].(subscribed := on)]), uid, Okay);
  }

  /** What is carried out of a decision that is no listing and does not break. */
  lemma CarryEffect(st: State, uid: nat, d: Decision)
    requires uid in st.sessions && !d.Answered? && !d.Broken?
    ensures var st' := Carry(st, uid, d);
            && Effect(st, st', uid, !d.Refused?)
            && st'.db == (if d.Changed? then d.db else st.db)
            && st'.sessions[uid].subscribed == (if d.Switched? then d.on else st.sessions[uid].subscribed)
            && (d.Switched? ==> forall id | id in st.sessions && id != uid :: st'.sessions[id] == st.sessions[id])
  {
    match d
    case Refused(code) => ReplyEffect(st, uid, Error(code));
    case Switched(on) => SwitchEffect(st, uid, on);
    case Changed(db, notice) => ChangeEffect(st, uid, db, notice);
  }

  lemma Handled(st: State, uid: nat, req: Request)
    requires uid in st.sessions
    ensures Next(st, Handling(uid, req)) == Carry(st, uid, Decide(st.db, st.sessions[uid], req))
  {
  }

  // ---- Boards ----

  lemma AddBoardEffect(st: State, uid: nat, name: string, p: Privileges)
    requires uid in st.sessions
    ensures var (s, st') := (st.sessions[uid], Next(st, Handling(uid, AddBoard(name, p))));
            var ok := PastLogin(s) && AddBoards in s.account.can && name !in st.db.boards;
            && Effect(st, st', uid, ok)
            && (ok ==> OnlyBoard(st.db, st'.db, name) && name in st'.db.boards && st'.db.boards[name] == p)
  {
    var req := AddBoard(name, p);
    Handled(st, uid, req);
    CarryEffect(st, uid, Decide(st.db, st.sessions[uid], req));
  }

  lemma SetBoardInfoEffect(st: State, uid: nat, name: string, p: Privileges)
    requires uid in st.sessions
    ensures var (s, st') := (st.sessions[uid], Next(st, Handling(uid, Request.SetBoardInfo(name, p))));
            var ok := PastLogin(s) && Permission.SetBoardInfo in s.account.can && name in st.db.boards;
            && Effect(st, st', uid, ok)
            && (ok ==> OnlyBoard(st.db, st'.db, name) && name in st'.db.boards && st'.db.boards[name] == p)
  {
    var req := Request.SetBoardInfo(name, p);
    Handled(st, uid, req);
    CarryEffect(st, uid, Decide(st.db, st.sessions[uid], req));
  }

  /** The board goes with its threads, and they with their posts; all other rows stay. */
  lemma DeleteBoardEffect(st: State, uid: nat, name: string)
    requires uid in st.sessions
    ensures var (s, st', db) := (st.sessions[uid], Next(st, Handling(uid, DeleteBoard(name))), st.db);
            var ok := PastLogin(s) && DeleteBoards in s.account.can && name in db.boards;
            && Effect(st, st', uid, ok)
            && (ok ==>
                  && st'.db.boards == db.boards - {name}
                  && (forall id :: id in st'.db.threads <==> id in db.threads && db.threads[id].board != name)
                  && (forall id | id in st'.db.threads :: st'.db.threads[id] == db.threads[id])
                  && (forall id :: id in st'.db.posts <==>
                        id in db.posts
                        && !(db.posts[id].thread in db.threads && db.threads[db.posts[id].thread].board == name))
                  && (forall id | id in st'.db.posts :: st'.db.posts[id] == db.posts[id]))
  {
    var req := DeleteBoard(name);
    Handled(st, uid, req);
    CarryEffect(st, uid, Decide(st.db, st.sessions[uid], req));
  }

  // ---- Threads ----

  lemma AddThreadEffect(st: State, uid: nat, name: string, id: Uuid, subject: string)
    requires uid in st.sessions
    ensures var (s, st') := (st.sessions[uid], Next(st, Handling(uid, AddThread(name, id, subject))));
            var ok := && PastLogin(s) && AddThreads in s.account.can
                      && WritesOn(st.db, name, s.account) && id !in st.db.threads;
            && Effect(st, st', uid, ok)
            && (ok ==> OnlyThread(st.db, st'.db, id)
                       && id in st'.db.threads && st'.db.threads[id] == Thread(name, subject, s.login))
  {
    var req := AddThread(name, id, subject);
    Handled(st, uid, req);
    CarryEffect(st, uid, Decide(st.db, st.sessions[uid], req));
  }

  predicate EditsThread(db: Tables, s: Session, id: Uuid) {
    && PastLogin(s) && WritesThread(db, id, s.account)
    && (EditAllPosts in s.account.can || (EditOwnPosts in s.account.can && db.threads[id].login == s.login))
  }

  lemma EditDecided(db: Tables, s: Session, id: Uuid, subject: string)
    ensures var d := Decide(db, s, EditThread(id, subject));
            if EditsThread(db, s, id)
            then && d.Changed? && OnlyThread(db, d.db, id) && id in d.db.threads
                 && d.db.threads[id] == Thread(db.threads[id].board, subject, db.threads[id].login)
            else d.Refused?
  {
  }

  lemma EditThreadEffect(st: State, uid: nat, id: Uuid, subject: string)
    requires uid in st.sessions
    ensures var (s, st') := (st.sessions[uid], Next(st, Handling(uid, EditThread(id, subject))));
            var ok := EditsThread(st.db, s, id);
            && Effect(st, st', uid, ok)
            && (ok ==> && OnlyThread(st.db, st'.db, id) && id in st'.db.threads
                       && st'.db.threads[id]
                          == Thread(st.db.threads[id].board, subject, st.db.threads[id].login))
  {
    var req := EditThread(id, subject);
    EditDecided(st.db, st.sessions[uid], id, subject);
    Handled(st, uid, req);
    CarryEffect(st, uid, Decide(st.db, st.sessions[uid], req));
  }

  /** A thread may be moved by whoever may write on its board or on the board it goes to. */
  predicate MovesThread(db: Tables, s: Session, id: Uuid, name: string) {
    && PastLogin(s) && MoveThreads in s.account.can && name in db.boards && id in db.threads
    && (WritesThread(db, id, s.account) || WritesOn(db, name, s.account))
  }

  lemma MoveDecided(db: Tables, s: Session, id: Uuid, name: string)
    ensures var d := Decide(db, s, MoveThread(id, name));
            if MovesThread(db, s, id, name)
            then && d.Changed? && OnlyThread(db, d.db, id) && id in d.db.threads
                 && d.db.threads[id] == Thread(name, db.threads[id].subject, db.threads[id].login)
            else d.Refused?
  {
  }

  lemma MoveThreadEffect(st: State, uid: nat, id: Uuid, name: string)
    requires uid in st.sessions
    ensures var (s, st') := (st.sessions[uid], Next(st, Handling(uid, MoveThread(id, name))));
            var ok := MovesThread(st.db, s, id, name);
            && Effect(st, st', uid, ok)
            && (ok ==> && OnlyThread(st.db, st'.db, id) && id in st'.db.threads
                       && st'.db.threads[id] == Thread(name, st.db.threads[id].subject, st.db.threads[id].login))
  {
    var req := MoveThread(id, name);
    MoveDecided(st.db, st.sessions[uid], id, name);
    Handled(st, uid, req);
    CarryEffect(st, uid, Decide(st.db, st.sessions[uid], req));
  }

  predicate DeletesThread(db: Tables, s: Session, id: Uuid) {
    && PastLogin(s) && WritesThread(db, id, s.account)
    && (|| DeleteAllPosts in s.account.can
        || (DeleteOwnPosts in s.account.can && db.threads[id].login == s.login))
  }

  /** The thread goes with its posts; all other rows stay. */
  ghost predicate ThreadGone(db: Tables, db': Tables, id: Uuid) {
    && db'.boards == db.boards && db'.threads == db.threads - {id}
    && (forall post :: post in db'.posts <==> post in db.posts && db.posts[post].thread != id)
    && (forall post | post in db'.posts :: db'.posts[post] == db.posts[post])
  }

  lemma DeletionDecided(db: Tables, s: Session, id: Uuid)
    ensures var d := Decide(db, s, DeleteThread(id));
            if DeletesThread(db, s, id) then d.Changed? && ThreadGone(db, d.db, id) else d.Refused?
  {
  }

  lemma DeleteThreadEffect(st: State, uid: nat, id: Uuid)
    requires uid in st.sessions
    ensures var (s, st') := (st.sessions[uid], Next(st, Handling(uid, DeleteThread(id))));
            && Effect(st, st', uid, DeletesThread(st.db, s, id))
            && (DeletesThread(st.db, s, id) ==> ThreadGone(st.db, st'.db, id))
  {
    var req := DeleteThread(id);
    DeletionDecided(st.db, st.sessions[uid], id);
    Handled(st, uid, req);
    CarryEffect(st, uid, Decide(st.db, st.sessions[uid], req));
  }

  // ---- Posts ----

  lemma PostDecided(db: Tables, s: Session, id: Uuid, post: Uuid)
    ensures var d := Decide(db, s, AddPost(id, post));
            if PastLogin(s) && AddPosts in s.account.can && WritesThread(db, id, s.account) && post !in db.posts
            then && d.Changed? && OnlyPost(db, d.db, post)
                 && post in d.db.posts && d.db.posts[post] == Post(id, s.login)
            else d.Refused?
  {
  }

  lemma AddPostEffect(st: State, uid: nat, id: Uuid, post: Uuid)
    requires uid in st.sessions
    ensures var (s, st') := (st.sessions[uid], Next(st, Handling(uid, AddPost(id, post))));
            var ok := && PastLogin(s) && AddPosts in s.account.can
                      && WritesThread(st.db, id, s.account) && post !in st.db.posts;
            && Effect(st, st', uid, ok)
            && (ok ==> OnlyPost(st.db, st'.db, post)
                       && post in st'.db.posts && st'.db.posts[post] == Post(id, s.login))
  {
    var req := AddPost(id, post);
    PostDecided(st.db, st.sessions[uid], id, post);
    Handled(st, uid, req);
    CarryEffect(st, uid, Decide(st.db, st.sessions[uid], req));
  }

  /** The text of a post is not part of the tables; editing it changes nothing else. */
  lemma EditPostEffect(st: State, uid: nat, post: Uuid)
    requires uid in st.sessions
    ensures var (s, st') := (st.sessions[uid], Next(st, Handling(uid, EditPost(post))));
            var can := s.account.can;
            var ok := && PastLogin(s) && WritesPost(st.db, post, s.account)
                      && (EditAllPosts in can || (EditOwnPosts in can && st.db.posts[post].login == s.login));
            && Effect(st, st', uid, ok)
            && st'.db == st.db
  {
    var req := EditPost(post);
    Handled(st, uid, req);
    CarryEffect(st, uid, Decide(st.db, st.sessions[uid], req));
  }

  lemma DeletePostEffect(st: State, uid: nat, post: Uuid)
    requires uid in st.sessions
    ensures var (s, st') := (st.sessions[uid], Next(st, Handling(uid, DeletePost(post))));
            var can := s.account.can;
            var ok := && PastLogin(s) && WritesPost(st.db, post, s.account)
                      && (DeleteAllPosts in can || (DeleteOwnPosts in can && st.db.posts[post].login == s.login));
            && Effect(st, st', uid, ok)
            && (ok ==> OnlyPost(st.db, st'.db, post) && post !in st'.db.posts)
  {
    var req := DeletePost(post);
    Handled(st, uid, req);
    CarryEffect(st, uid, Decide(st.db, st.sessions[uid], req));
  }

  // ---- Subscriptions and listings ----

  lemma SubscriptionEffect(st: State, uid: nat, on: bool)
    requires uid in st.sessions
    ensures var req := if on then SubscribeBoards else UnsubscribeBoards;
            var (s, st') := (st.sessions[uid], Next(st, Handling(uid, req)));
            var ok := PastLogin(s) && ReadBoards in s.account.can && s.subscribed == !on;
            && Effect(st, st', uid, ok)
            && st'.db == st.db
            && (ok ==> st'.sessions[uid].subscribed == on)
            && forall id | id in st.sessions && id != uid :: st'.sessions[id] == st.sessions[id]
  {
    var req := if on then SubscribeBoards else UnsubscribeBoards;
    Handled(st, uid, req);
    CarryEffect(st, uid, Decide(st.db, st.sessions[uid], req));
  }

  /** A listing goes to the session that asks, and changes nothing else. */
  ghost predicate Listing(st: State, st': State, uid: nat, ms: seq<Message>)
    requires uid in st.sessions
  {
    && st'.db == st.db
    && st'.sessions == st.sessions[uid := Sent(st.sessions[uid], ms)]
  }

  lemma ListingEffect(st: State, uid: nat, ms: seq<Message>)
    requires uid in st.sessions
    ensures Listing(st, Carry(st, uid, Decision.Answered(ms)), uid, ms)
  {
  }

  lemma BoardsDecided(db: Tables, s: Session)
    ensures var d := Decide(db, s, GetBoards);
            if PastLogin(s) && ReadBoards in s.account.can
            then d == Decision.Answered(BoardListing(db.boards, Sorted(db.boards.Keys), s.account) + [BoardListDone])
            else d.Refused?
  {
  }

  lemma GetBoardsEffect(st: State, uid: nat)
    requires uid in st.sessions
    ensures var (s, st') := (st.sessions[uid], Next(st, Handling(uid, GetBoards)));
            if PastLogin(s) && ReadBoards in s.account.can
            then Listing(st, st', uid,
                         BoardListing(st.db.boards, Sorted(st.db.boards.Keys), s.account) + [BoardListDone])
            else Effect(st, st', uid, false)
  {
    var d := Decide(st.db, st.sessions[uid], GetBoards);
    Handled(st, uid, GetBoards);
    BoardsDecided(st.db, st.sessions[uid]);
    if d.Refused? { CarryEffect(st, uid, d); } else { ListingEffect(st, uid, d.reply); }
  }

  function ThreadsOf(db: Tables, of: Option<string>): set<Uuid> {
    set id | id in db.threads && (of.None? || db.threads[id].board == of.value)
  }

  lemma ThreadsDecided(db: Tables, s: Session, of: Option<string>)
    ensures forall id | id in Sorted(ThreadsOf(db, of)) :: id in db.threads
    ensures var d := Decide(db, s, GetThreads(of));
            if PastLogin(s) && ReadBoards in s.account.can && (of.Some? ==> of.value in db.boards)
            then d == Decision.Answered(ThreadListing(db, Sorted(ThreadsOf(db, of)), s.account) + [ThreadListDone])
            else d.Refused?
  {
    assert ThreadsOf(db, of) == if of.None? then db.threads.Keys else ThreadsOn(db, of.value);
  }

  lemma GetThreadsEffect(st: State, uid: nat, of: Option<string>)
    requires uid in st.sessions
    ensures var (s, st', ids) := (st.sessions[uid], Next(st, Handling(uid, GetThreads(of))), ThreadsOf(st.db, of));
            && (forall id | id in Sorted(ids) :: id in st.db.threads)
            && if PastLogin(s) && ReadBoards in s.account.can && (of.Some? ==> of.value in st.db.boards)
               then Listing(st, st', uid, ThreadListing(st.db, Sorted(ids), s.account) + [ThreadListDone])
               else Effect(st, st', uid, false)
  {
    var d := Decide(st.db, st.sessions[uid], GetThreads(of));
    Handled(st, uid, GetThreads(of));
    ThreadsDecided(st.db, st.sessions[uid], of);
    if d.Refused? { CarryEffect(st, uid, d); } else { ListingEffect(st, uid, d.reply); }
  }

  // ---- Renaming a board ----

  /** Each subscriber but the one who asks. */
  ghost predicate OthersTold(st: State, st': State, uid: nat, p: Privileges, m: Message) {
    forall id | id in st.sessions && id in st'.sessions && id != uid ::
      var s := st.sessions[id];
      st'.sessions[id] ==
      if s.state == LoggedIn && s.subscribed && !s.transfer && Visible(p, s.account)
      then s.(outbox := s.outbox + [m]) else s
  }

  /** The checks of a rename. */
  predicate Renames(db: Tables, s: Session, name: string, newName: string) {
    && PastLogin(s) && RenameBoards in s.account.can
    && name in db.boards && newName !in db.boards && Parent(name) == Parent(newName)
  }

  lemma DoneEffect(st: State, uid: nat, name: string, newName: string, db: Tables)
    requires uid in st.sessions
    ensures var st' := Carry(st, uid, Changed(db, RenamedNotice(name, newName, RightsOf(db, newName))));
            OthersTold(st, st', uid, RightsOf(db, newName), BoardRenamed(name, newName))
  {
  }

  lemma BrokenEffect(st: State, uid: nat, db: Tables)
    requires uid in st.sessions
    ensures var st' := Carry(st, uid, Broken(db));
            OnlySent(st, st', uid) && st'.db == db && Answered(st', uid, Error(InternalError))
  {
    ReplyEffect(st.(db := db), uid, Error(InternalError));
  }

  lemma RenameCarried(st: State, uid: nat, name: string, newName: string)
    requires uid in st.sessions
    ensures var st' := Carry(st, uid, RenameDecision(st.db, name, newName));
            var r := BoardRename.Rename(st.db, name, newName);
            && OnlySent(st, st', uid) && st'.db == r.tables
            && (r.Done? ==>
                  && Answered(st', uid, Okay)
                  && OthersTold(st, st', uid, RightsOf(r.tables, newName), BoardRenamed(name, newName)))
            && (r.Failed? ==> Answered(st', uid, Error(InternalError)))
  {
    var r := BoardRename.Rename(st.db, name, newName);
    if r.Done? {
      CarryEffect(st, uid, Changed(r.tables, RenamedNotice(name, newName, RightsOf(r.tables, newName))));
      DoneEffect(st, uid, name, newName, r.tables);
    } else {
      BrokenEffect(st, uid, r.tables);
    }
  }

  /** A rename that gets past its checks either runs to its end, and those who may see the board
      under its new name are told, or stops half-way with an error. */
  lemma RenameBoardEffect(st: State, uid: nat, name: string, newName: string)
    requires uid in st.sessions
    ensures var st' := Next(st, Handling(uid, RenameBoard(name, newName)));
            var r := BoardRename.Rename(st.db, name, newName);
            if !Renames(st.db, st.sessions[uid], name, newName) then Effect(st, st', uid, false)
            else
              && OnlySent(st, st', uid) && st'.db == r.tables
              && (r.Done? ==>
                    && Answered(st', uid, Okay)
                    && OthersTold(st, st', uid, RightsOf(r.tables, newName), BoardRenamed(name, newName)))
              && (r.Failed? ==> Answered(st', uid, Error(InternalError)))
  {
    var d := Decide(st.db, st.sessions[uid], RenameBoard(name, newName));
    Handled(st, uid, RenameBoard(name, newName));
    RenameDecided(st.db, st.sessions[uid], name, newName);
    if Renames(st.db, st.sessions[uid], name, newName) {
      RenameCarried(st, uid, name, newName);
    } else {
      CarryEffect(st, uid, d);
    }
  }

  // ---- Why a request is refused ----

  /** One of these is needed. */
  function Needs(req: Request): set<Permission> {
    match req
    case GetBoards => {ReadBoards}
    case GetThreads(_) => {ReadBoards}
    case SubscribeBoards => {ReadBoards}
    case UnsubscribeBoards => {ReadBoards}
    case AddBoard(_, _) => {AddBoards}
    case RenameBoard(_, _) => {RenameBoards}
    case DeleteBoard(_) => {DeleteBoards}
    case SetBoardInfo(_, _) => {Permission.SetBoardInfo}
    case AddThread(_, _, _) => {AddThreads}
    case EditThread(_, _) => {EditOwnPosts, EditAllPosts}
    case MoveThread(_, _) => {MoveThreads}
    case DeleteThread(_) => {DeleteOwnPosts, DeleteAllPosts}
    case AddPost(_, _) => {AddPosts}
    case EditPost(_) => {EditOwnPosts, EditAllPosts}
    case DeletePost(_) => {DeleteOwnPosts, DeleteAllPosts}
  }

  /** The board that must exist. */
  function NamedBoard(req: Request): Option<string> {
    match req
    case GetThreads(of) => of
    case RenameBoard(name, _) => Some(name)
    case DeleteBoard(name) => Some(name)
    case SetBoardInfo(name, _) => Some(name)
    case AddThread(name, _, _) => Some(name)
    case MoveThread(_, name) => Some(name)
    case _ => None
  }

  /** What each error says about the tables and the session. */
  predicate Reason(db: Tables, s: Session, req: Request, code: ErrorCode) {
    match code
    case OutOfSequence => !PastLogin(s)
    case PermissionDenied =>
      || Needs(req) !! s.account.can
      || (req.AddThread? && !WritesOn(db, req.name, s.account))
      || (req.MoveThread? && !WritesThread(db, req.thread, s.account) && !WritesOn(db, req.name, s.account))
      || ((req.EditThread? || req.DeleteThread? || req.AddPost?) && !WritesThread(db, req.thread, s.account))
      || ((req.EditPost? || req.DeletePost?) && !WritesPost(db, req.post, s.account))
      || ((req.EditThread? || req.DeleteThread?) && req.thread in db.threads && db.threads[req.thread].login != s.login)
      || ((req.EditPost? || req.DeletePost?) && req.post in db.posts && db.posts[req.post].login != s.login)
    case BoardNotFound =>
      || (NamedBoard(req).Some? && NamedBoard(req).value !in db.boards)
      || (req.RenameBoard? && Parent(req.name) != Parent(req.newName))
    case BoardExists =>
      (req.AddBoard? && req.name in db.boards) || (req.RenameBoard? && req.newName in db.boards)
    case ThreadNotFound =>
      (req.MoveThread? || req.DeleteThread? || req.AddPost?) && req.thread !in db.threads
    case AlreadySubscribed => req.SubscribeBoards? && s.subscribed
    case NotSubscribed => req.UnsubscribeBoards? && !s.subscribed
    case InternalError =>
      || (req.AddThread? && req.thread in db.threads)
      || (req.AddPost? && req.post in db.posts)
      || req.RenameBoard?
  }

  predicate OnBoards(req: Request) {
    req.AddBoard? || req.DeleteBoard? || req.SetBoardInfo? || req.RenameBoard?
  }

  predicate OnThreads(req: Request) {
    req.AddThread? || req.EditThread? || req.MoveThread? || req.DeleteThread?
  }

  predicate OnPosts(req: Request) {
    req.AddPost? || req.EditPost? || req.DeletePost?
  }

  lemma BoardReason(db: Tables, s: Session, req: Request)
    requires Decide(db, s, req).Refused? && OnBoards(req)
    ensures Reason(db, s, req, Decide(db, s, req).code)
  {
  }

  lemma ThreadReason(db: Tables, s: Session, req: Request)
    requires Decide(db, s, req).Refused? && OnThreads(req)
    ensures Reason(db, s, req, Decide(db, s, req).code)
  {
  }

  lemma PostReason(db: Tables, s: Session, req: Request)
    requires Decide(db, s, req).Refused? && OnPosts(req)
    ensures Reason(db, s, req, Decide(db, s, req).code)
  {
  }

  lemma OtherReason(db: Tables, s: Session, req: Request)
    requires Decide(db, s, req).Refused? && !OnBoards(req) && !OnThreads(req) && !OnPosts(req)
    ensures Reason(db, s, req, Decide(db, s, req).code)
  {
  }

  lemma RefusedReason(db: Tables, s: Session, req: Request)
    requires Decide(db, s, req).Refused?
    ensures Reason(db, s, req, Decide(db, s, req).code)
  {
    if OnBoards(req) { BoardReason(db, s, req); }
    else if OnThreads(req) { ThreadReason(db, s, req); }
    else if OnPosts(req) { PostReason(db, s, req); }
    else { OtherReason(db, s, req); }
  }

  lemma RefusedAnswer(st: State, uid: nat, code: ErrorCode)
    requires uid in st.sessions
    ensures Answered(Carry(st, uid, Refused(code)), uid, Error(code))
  {
  }

  /** A refusal tells why. */
  lemma RefusalSaysWhy(st: State, uid: nat, req: Request) returns (code: ErrorCode)
    requires uid in st.sessions && Decide(st.db, st.sessions[uid], req).Refused?
    ensures Answered(Next(st, Handling(uid, req)), uid, Error(code))
    ensures Reason(st.db, st.sessions[uid], req, code)
  {
    code := Decide(st.db, st.sessions[uid], req).code;
    Handled(st, uid, req);
    RefusedAnswer(st, uid, code);
    RefusedReason(st.db, st.sessions[uid], req);
  }

  // ---- Where a board lies ----

  /** The components of a path that is its own normal form: names that are not empty and not ".". */
  predicate Plain(parts: seq<string>) {
    forall c | c in parts :: c != "" && '/' !in c && c != "."
  }

  lemma {:induction false} NonEmptyKeeps(parts: seq<string>)
    requires forall c | c in parts :: c != ""
    ensures NonEmpty(parts) == parts
  {
    if parts != [] {
      assert parts[0] in parts && forall c | c in parts[1..] :: c in parts;
      NonEmptyKeeps(parts[1..]);
    }
  }

  lemma {:induction false} FoldedKeeps(parts: seq<string>, absolute: bool)
    requires Plain(parts) && (absolute ==> ".." !in parts)
    ensures Folded(parts, absolute) == parts
    decreases |parts|
  {
    if parts != [] {
      var front, c := parts[..|parts| - 1], parts[|parts| - 1];
      assert forall x | x in front :: x in parts;
      assert c in parts && c != "/";
      FoldedKeeps(front, absolute);
      assert parts == front + [c];
    }
  }

  lemma RelativeComponents(parts: seq<string>)
    requires parts != [] && forall c | c in parts :: c != "" && '/' !in c
    ensures PathComponents(Join(parts, '/')) == parts
    ensures Join(parts, '/') != "" && Join(parts, '/')[0] != '/'
  {
    SplitJoin(parts, '/');
    assert parts[0] in parts && parts[0][0] in parts[0];
    NonEmptyKeeps(parts[1..]);
  }

  /** The parent of front "/" component is front, and a single component has the empty parent. */
  lemma ParentOfChild(parts: seq<string>, c: string)
    requires Plain(parts) && c != "" && '/' !in c
    ensures Parent(Join(parts + [c], '/')) == Join(parts, '/')
  {
    var path := parts + [c];
    RelativeComponents(path);
    assert path[..|path| - 1] == parts;
    if parts != [] {
      RelativeComponents(parts);
      FoldedKeeps(parts, false);
    }
  }

  /** The same for absolute names. */
  lemma AbsoluteParent(parts: seq<string>, c: string)
    requires Plain(parts) && ".." !in parts && c != "" && '/' !in c
    ensures Parent("/" + Join(parts + [c], '/')) == "/" + Join(parts, '/')
  {
    var path := parts + [c];
    AbsoluteComponents(path);
    assert (["/"] + path)[..|["/"] + path| - 1] == ["/"] + parts;
    assert path[0] in path && Join(path, '/') != "" by { RelativeComponents(path); }
    if parts != [] {
      TwiceAbsolute(parts);
    } else {
      assert ["/"] + parts == ["/"];
    }
  }

  lemma AbsoluteComponents(path: seq<string>)
    requires path != [] && forall c | c in path :: c != "" && '/' !in c
    ensures PathComponents("/" + Join(path, '/')) == ["/"] + path
  {
    SplitJoin(path, '/');
    LeadingSlash(Join(path, '/'));
    assert ([""] + path)[1..] == path;
    NonEmptyKeeps(path);
  }

  lemma DoubleSlash(parts: seq<string>)
    requires parts != [] && Plain(parts)
    ensures PathComponents("//" + Join(parts, '/')) == ["/"] + parts
  {
    var text := Join(parts, '/');
    SplitJoin(parts, '/');
    LeadingSlash(text);
    LeadingSlash("/" + text);
    assert "/" + ("/" + text) == "//" + text;
    NonEmptyAfter(parts);
    assert ([""] + ([""] + parts))[1..] == [""] + parts;
  }

  lemma LeadingSlash(text: string)
    ensures Split("/" + text, '/') == [""] + Split(text, '/')
  {
    assert ("/" + text)[1..] == text;
  }

  lemma NonEmptyAfter(parts: seq<string>)
    requires forall c | c in parts :: c != ""
    ensures NonEmpty([""] + parts) == parts
  {
    NonEmptyKeeps(parts);
    assert ([""] + parts)[1..] == parts;
  }

  lemma TwiceAbsolute(parts: seq<string>)
    requires parts != [] && Plain(parts) && ".." !in parts
    ensures Normalized(Join(["/"] + parts, '/')) == "/" + Join(parts, '/')
  {
    assert (["/"] + parts)[1..] == parts;
    assert Join(["/"] + parts, '/') == "//" + Join(parts, '/');
    DoubleSlash(parts);
    FoldedRoot(parts);
  }

  lemma {:induction false} FoldedRoot(parts: seq<string>)
    requires Plain(parts) && ".." !in parts
    ensures Folded(["/"] + parts, true) == parts
    decreases |parts|
  {
    if parts == [] {
      assert (["/"] + parts)[..0] == [];
    } else {
      var front, c := parts[..|parts| - 1], parts[|parts| - 1];
      assert forall x | x in front :: x in parts;
      assert c in parts && c != "/";
      FoldedRoot(front);
      assert (["/"] + parts)[..|parts|] == ["/"] + front && (["/"] + parts)[|parts|] == c;
      assert parts == front + [c];
    }
  }

  /** In an absolute path ".." takes a name away, in a relative one it stays; "." is dropped. */
  lemma DotsFolded(parts: seq<string>, absolute: bool)
    ensures Folded(parts + ["."], absolute) == Folded(parts, absolute)
    ensures Folded(parts + [".."], false) == Folded(parts, false) + [".."]
    ensures var front := Folded(parts, true);
            Folded(parts + [".."], true) == if front == [] then [".."] else front[..|front| - 1]
  {
    assert (parts + ["."])[..|parts|] == parts && (parts + [".."])[..|parts|] == parts;
  }

  /** Board names made of plain components may be renamed into each other exactly when they lie in
      the same place. */
  lemma SamePlace(parts: seq<string>, c: string, parts': seq<string>, c': string)
    requires Plain(parts) && Plain(parts') && c != "" && '/' !in c && c' != "" && '/' !in c'
    ensures Parent(Join(parts + [c], '/')) == Parent(Join(parts' + [c'], '/')) <==> parts == parts'
  {
    ParentOfChild(parts, c);
    ParentOfChild(parts', c');
    if parts != [] { RelativeComponents(parts); }
    if parts' != [] { RelativeComponents(parts'); }
  }

  // ---- Logins, reloads, and the renaming of a user ----

  /** Whoever has given client info may log in, also when logged in already; the subscription stays. */
  lemma LogInEffect(st: State, uid: nat, a: Account)
    ensures var st' := Next(st, LogIn(uid, a));
            && st'.db == st.db
            && (uid in st.sessions && st.sessions[uid].state == Connected ==> Effect(st, st', uid, false))
            && (!(uid in st.sessions && st.sessions[uid].state == Connected) ==>
                  && uid in st'.sessions && Answered(st', uid, AccountPrivileges)
                  && (var s' := st'.sessions[uid];
                      && s'.state == LoggedIn && s'.login == a.name && s'.account == a
                      && s'.subscribed == (uid in st.sessions && st.sessions[uid].subscribed)
                      && s'.transfer == (uid in st.sessions && st.sessions[uid].transfer))
                  && st'.sessions - {uid} == st.sessions - {uid})
  {
  }

  /** A reload takes over the account and ends a subscription that it does not allow. */
  lemma ReloadEffect(st: State, uid: nat, a: Account)
    requires uid in st.sessions
    ensures var (s, st') := (st.sessions[uid], Next(st, Reload(uid, a)));
            && st'.db == st.db && uid in st'.sessions
            && (var s' := st'.sessions[uid];
                && s'.state == s.state && s'.login == a.name && s'.account == a && s'.transfer == s.transfer
                && (s'.subscribed <==> s.subscribed && ReadBoards in a.can))
            && st'.sessions - {uid} == st.sessions - {uid}
  {
  }

  predicate OnlySession(st: State, st': State, uid: nat) {
    && st'.db == st.db && st'.sessions - {uid} == st.sessions - {uid}
    && (uid in st'.sessions <==> uid in st.sessions)
  }

  predicate SameAccount(s: Session, s': Session) {
    s'.account == s.account && s'.subscribed == s.subscribed
  }

  /** Client info and a refused login leave the account as it was, also that of a session that is
      logged in. */
  lemma HandshakeEffect(st: State, uid: nat, login: string)
    requires uid in st.sessions
    ensures var (s, st') := (st.sessions[uid], Next(st, ClientInfo(uid)));
            && OnlySession(st, st', uid) && SameAccount(s, st'.sessions[uid]) && st'.sessions[uid].login == s.login
            && st'.sessions[uid].state == GaveClientInfo && st'.sessions[uid].transfer == s.transfer
            && Answered(st', uid, if s.state == GaveClientInfo then Error(OutOfSequence) else ServerInfo)
    ensures var (s, st') := (st.sessions[uid], Next(st, LogInRefused(uid, login)));
            && OnlySession(st, st', uid) && SameAccount(s, st'.sessions[uid])
            && st'.sessions[uid].login == (if s.state == Connected then s.login else login)
            && st'.sessions[uid].state == s.state && st'.sessions[uid].transfer == s.transfer
            && Answered(st', uid, if s.state == Connected then Error(OutOfSequence) else LoginFailed)
  {
  }

  /** Disconnections and transfers concern one session only, and a removed session is gone. */
  lemma ConnectionEffect(st: State, uid: nat, on: bool)
    ensures var st' := Next(st, Disconnect(uid));
            && OnlySession(st, st', uid)
            && (uid in st.sessions ==>
                  var (s, s') := (st.sessions[uid], st'.sessions[uid]);
                  s' == Session(Disconnected, s.login, s.account, s.subscribed, s.transfer, s.outbox))
    ensures var st' := Next(st, if on then TransferStarts(uid) else TransferEnds(uid));
            && OnlySession(st, st', uid)
            && (uid in st.sessions ==>
                  var (s, s') := (st.sessions[uid], st'.sessions[uid]);
                  s' == Session(s.state, s.login, s.account, s.subscribed, on, s.outbox))
    ensures var st' := Next(st, Removed(uid));
            && st'.db == st.db && uid !in st'.sessions && st'.sessions - {uid} == st.sessions - {uid}
  {
  }

  /** With a name that nobody had before, the renamed user may do what he could do, and so may all
      others; and everybody's threads and posts stay his own. */
  lemma UserRenameKeepsDecisions(db: Tables, old': string, new': string, b: string, id: Uuid, post: Uuid, a: Account,
                                 login: string)
    requires old' != "" && new' != "" && old' != new' && a.name != new' && login != new'
    requires forall x | x in db.boards :: db.boards[x].owner != new'
    requires forall x | x in db.threads :: db.threads[x].login != new'
    requires forall x | x in db.posts :: db.posts[x].login != new'
    ensures var db' := WithUserRenamed(db, old', new');
            var (a', login') := (a.(name := if a.name == old' then new' else a.name),
                                 if login == old' then new' else login);
            && db'.boards.Keys == db.boards.Keys && db'.threads.Keys == db.threads.Keys
            && db'.posts.Keys == db.posts.Keys
            && (b in db.boards ==> && (Readable(db'.boards[b], a') <==> Readable(db.boards[b], a))
                                   && (Writable(db'.boards[b], a') <==> Writable(db.boards[b], a)))
            && (id in db.threads ==> && (db'.threads[id].login == login' <==> db.threads[id].login == login)
                                     && db'.threads[id].board == db.threads[id].board
                                     && db'.threads[id].subject == db.threads[id].subject)
            && (post in db.posts ==> && (db'.posts[post].login == login' <==> db.posts[post].login == login)
                                     && db'.posts[post].thread == db.posts[post].thread)
  {
  }
}
