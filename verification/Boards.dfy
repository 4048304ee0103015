/** The board requests as steps of one state machine: the tables, and for each connected session
    the messages sent to it so far. */
module Boards {
  import opened Text
  import opened Collation
  import opened Rights
  import opened BoardTables
  import opened Users
  import BoardRename

  datatype ErrorCode =
    | OutOfSequence | PermissionDenied | BoardNotFound | BoardExists
    | ThreadNotFound | AlreadySubscribed | NotSubscribed | InternalError

  datatype Message =
    | Okay
    | Error(code: ErrorCode)
    | ServerInfo
    | Login
    | LoginFailed
    | AccountPrivileges
    | BoardList(board: string, readable: bool, writable: bool)
    | BoardListDone
    | ThreadList(board: string, thread: Uuid, subject: string)
    | ThreadListDone
    | BoardAdded(board: string, readable: bool, writable: bool)
    | BoardInfoChanged(board: string, readable: bool, writable: bool)
    | BoardDeleted(board: string)
    | BoardRenamed(board: string, newBoard: string)
    | ThreadAdded(board: string, thread: Uuid, subject: string)
    | ThreadChanged(thread: Uuid, subject: string)
    | ThreadMoved(thread: Uuid, newBoard: string)
    | ThreadDeleted(thread: Uuid)

  /** A session's login is the name it last tried to log in with; its account is that of the last
      login that succeeded. */
  datatype Session = Session(
    state: UserState,
    login: string,
    account: Account,
    subscribed: bool,
    transfer: bool,
    outbox: seq<Message>)

  datatype State = State(db: Tables, sessions: map<nat, Session>)

  datatype Request =
    | GetBoards
    | GetThreads(of: Option<string>)
    | SubscribeBoards
    | UnsubscribeBoards
    | AddBoard(name: string, rights: Privileges)
    | RenameBoard(name: string, newName: string)
    | DeleteBoard(name: string)
    | SetBoardInfo(name: string, rights: Privileges)
    | AddThread(name: string, thread: Uuid, subject: string)
    | EditThread(thread: Uuid, subject: string)
    | MoveThread(thread: Uuid, name: string)
    | DeleteThread(thread: Uuid)
    | AddPost(thread: Uuid, post: Uuid)
    | EditPost(post: Uuid)
    | DeletePost(post: Uuid)

  // ---- Sending ----

  /** `wd_user_send_message`: nothing is sent to a session with a running transfer. */
  function Sent(s: Session, ms: seq<Message>): Session {
    if s.transfer then s else s.(outbox := s.outbox + ms)
  }

  predicate Listens(s: Session) {
    s.state == LoggedIn && s.subscribed
  }

  type Notice = Account -> Option<Message>

  /** What one session gets from a broadcast to the subscribers of boards. */
  function Heard(s: Session, notice: Notice): Session {
    if Listens(s) then
      match notice(s.account)
      case None => s
      case Some(m) => Sent(s, [m])
    else s
  }

  function Tell(sessions: map<nat, Session>, notice: Notice): map<nat, Session> {
    map id | id in sessions :: Heard(sessions[id], notice)
  }

  function Reply(st: State, uid: nat, ms: seq<Message>): State {
    if uid in st.sessions then st.(sessions := st.sessions[uid := Sent(st.sessions[uid], ms)]) else st
  }

  // ---- Notices ----

  function AddedNotice(name: string, p: Privileges): Notice {
    (a: Account) => if Visible(p, a) then Some(BoardAdded(name, Readable(p, a), Writable(p, a))) else None
  }

  function DeletedNotice(name: string, p: Privileges): Notice {
    (a: Account) => if Visible(p, a) then Some(BoardDeleted(name)) else None
  }

  function RenamedNotice(name: string, newName: string, p: Privileges): Notice {
    (a: Account) => if Visible(p, a) then Some(BoardRenamed(name, newName)) else None
  }

  function InfoNotice(name: string, p: Privileges, p': Privileges): Notice {
    (a: Account) =>
      if Visible(p, a) && !Visible(p', a) then Some(BoardDeleted(name))
      else if !Visible(p, a) && Visible(p', a) then Some(BoardAdded(name, Readable(p', a), Writable(p', a)))
      else if Visible(p, a) && Visible(p', a) then Some(BoardInfoChanged(name, Readable(p', a), Writable(p', a)))
      else None
  }

  function ReadersNotice(p: Privileges, m: Message): Notice {
    (a: Account) => if Readable(p, a) then Some(m) else None
  }

  function MovedNotice(id: Uuid, th: Thread, name: string, p: Privileges, p': Privileges): Notice {
    (a: Account) =>
      if Readable(p, a) && Readable(p', a) then Some(ThreadMoved(id, name))
      else if Readable(p, a) then Some(ThreadDeleted(id))
      else if Readable(p', a) then Some(ThreadAdded(name, id, th.subject))
      else None
  }

  // ---- Listings ----

  function BoardListing(boards: map<string, Privileges>, names: seq<string>, a: Account): seq<Message>
    requires forall b | b in names :: b in boards
  {
    if names == [] then []
    else
      var b := names[|names| - 1];
      var front := BoardListing(boards, names[..|names| - 1], a);
      if Visible(boards[b], a) then front + [BoardList(b, Readable(boards[b], a), Writable(boards[b], a))] else front
  }

  /** The rights a thread is under; a thread without a board has none (see `NoDanglingReferences`). */
  function RightsOf(db: Tables, board: string): Privileges {
    if board in db.boards then db.boards[board] else NoRights
  }

  function ThreadListing(db: Tables, ids: seq<Uuid>, a: Account): seq<Message>
    requires forall id | id in ids :: id in db.threads
  {
    if ids == [] then []
    else
      var id := ids[|ids| - 1];
      var th := db.threads[id];
      var front := ThreadListing(db, ids[..|ids| - 1], a);
      if Readable(RightsOf(db, th.board), a) then front + [ThreadList(th.board, id, th.subject)] else front
  }

  /** The messages of `wd_boards_reload_account`: only boards that appear or disappear. */
  function ReloadNotices(boards: map<string, Privileges>, names: seq<string>, a: Account, a': Account): seq<Message>
    requires forall b | b in names :: b in boards
  {
    if names == [] then []
    else
      var b := names[|names| - 1];
      var p := boards[b];
      var front := ReloadNotices(boards, names[..|names| - 1], a, a');
      if !Visible(p, a) && Visible(p, a') then front + [BoardAdded(b, Readable(p, a'), Writable(p, a'))]
      else if Visible(p, a) && !Visible(p, a') then front + [BoardDeleted(b)]
      else front
  }

  // ---- Requests ----

  function NonEmpty(parts: seq<string>): seq<string> {
    if parts == [] then []
    else (if parts[0] == "" then [] else [parts[0]]) + NonEmpty(parts[1..])
  }

  /** `wi_string_path_components`: a leading slash is a component of its own. */
  function PathComponents(path: string): (parts: seq<string>)
    ensures parts != []
  {
    var parts := Split(path, '/');
    (if parts[0] == "" then ["/"] else [parts[0]]) + NonEmpty(parts[1..])
  }

  /** The loop of `wi_mutable_string_normalize_path`. */
  function Folded(parts: seq<string>, absolute: bool): seq<string> {
    if parts == [] then []
    else
      var front, c := Folded(parts[..|parts| - 1], absolute), parts[|parts| - 1];
      if c == "" || c == "/" || c == "." then front
      else if absolute && c == ".." && front != [] then front[..|front| - 1]
      else front + [c]
  }

  function Normalized(path: string): string {
    if path == "" || path == "/" then path
    else
      var absolute := path[0] == '/';
      (if absolute then "/" else "") + Join(Folded(PathComponents(path), absolute), '/')
  }

  /** `wi_string_by_deleting_last_path_component`. */
  function Parent(name: string): string {
    var parts := PathComponents(name);
    if name == "/" then name else Normalized(Join(parts[..|parts| - 1], '/'))
  }

  /** What a handler decides: to refuse, to answer from the tables, to switch the subscription, or
      to change the tables and tell the subscribers. A rename can also stop half-way. */
  datatype Decision =
    | Refused(code: ErrorCode)
    | Answered(reply: seq<Message>)
    | Switched(on: bool)
    | Changed(db: Tables, notice: Notice)
    | Broken(db: Tables)

  function RenameDecision(db: Tables, name: string, newName: string): Decision {
    match BoardRename.Rename(db, name, newName)
    case Failed(db') => Broken(db')
    case Done(db') => Changed(db', RenamedNotice(name, newName, RightsOf(db', newName)))
  }

  /** `wd_boards_changed_thread`: the readers of the thread's board get its current subject. */
  function ChangedNotice(db: Tables, id: Uuid): Notice {
    if id in db.threads then
      ReadersNotice(RightsOf(db, db.threads[id].board), ThreadChanged(id, db.threads[id].subject))
    else (a: Account) => None
  }

  predicate MayTouch(s: Session, login: string, all: Permission) {
    all in s.account.can || login == s.login
  }

  /** A thread that does not exist is under no rights. */
  function ThreadRights(db: Tables, id: Uuid): (p: Privileges)
    ensures id !in db.threads ==> forall a :: !Writable(p, a)
  {
    if id in db.threads then RightsOf(db, db.threads[id].board) else NoRights
  }

  function PostRights(db: Tables, post: Uuid): (p: Privileges)
    ensures post !in db.posts ==> forall a :: !Writable(p, a)
  {
    if post in db.posts then ThreadRights(db, db.posts[post].thread) else NoRights
  }

  /** The board handlers, with their checks in the order in which the server makes them. */
  function Decide(db: Tables, s: Session, req: Request): Decision {
    var a := s.account;
    if s.state == Connected || s.state == GaveClientInfo then Refused(OutOfSequence)
    else
      match req
      case GetBoards =>
        if ReadBoards !in a.can then Refused(PermissionDenied)
        else Answered(BoardListing(db.boards, Sorted(db.boards.Keys), a) + [BoardListDone])
      case GetThreads(of) =>
        if ReadBoards !in a.can then Refused(PermissionDenied)
        else if of.Some? && of.value !in db.boards then Refused(BoardNotFound)
        else
          var ids := if of.None? then db.threads.Keys else ThreadsOn(db, of.value);
          Answered(ThreadListing(db, Sorted(ids), a) + [ThreadListDone])
      case SubscribeBoards =>
        if ReadBoards !in a.can then Refused(PermissionDenied)
        else if s.subscribed then Refused(AlreadySubscribed)
        else Switched(true)
      case UnsubscribeBoards =>
        if ReadBoards !in a.can then Refused(PermissionDenied)
        else if !s.subscribed then Refused(NotSubscribed)
        else Switched(false)
      case AddBoard(name, p) =>
        if AddBoards !in a.can then Refused(PermissionDenied)
        else if name in db.boards then Refused(BoardExists)
        else Changed(db.(boards := db.boards[name := p]), AddedNotice(name, p))
      case RenameBoard(name, newName) =>
        if RenameBoards !in a.can then Refused(PermissionDenied)
        else if name !in db.boards then Refused(BoardNotFound)
        else if newName in db.boards then Refused(BoardExists)
        else if Parent(name) != Parent(newName) then Refused(BoardNotFound)
        else RenameDecision(db, name, newName)
      case DeleteBoard(name) =>
        if DeleteBoards !in a.can then Refused(PermissionDenied)
        else if name !in db.boards then Refused(BoardNotFound)
        else Changed(WithoutBoard(db, name), DeletedNotice(name, db.boards[name]))
      case SetBoardInfo(name, p) =>
        if Permission.SetBoardInfo !in a.can then Refused(PermissionDenied)
        else if name !in db.boards then Refused(BoardNotFound)
        else Changed(db.(boards := db.boards[name := p]), InfoNotice(name, db.boards[name], p))
      case AddThread(name, id, subject) =>
        if AddThreads !in a.can then Refused(PermissionDenied)
        else if name !in db.boards then Refused(BoardNotFound)
        else if !Writable(db.boards[name], a) then Refused(PermissionDenied)
        else if id in db.threads then Refused(InternalError)
        else Changed(db.(threads := db.threads[id := Thread(name, subject, s.login)]),
                    ReadersNotice(db.boards[name], ThreadAdded(name, id, subject)))
      case EditThread(id, subject) =>
        if EditOwnPosts !in a.can && EditAllPosts !in a.can then Refused(PermissionDenied)
        else if !Writable(ThreadRights(db, id), a) then Refused(PermissionDenied)
        else if !MayTouch(s, db.threads[id].login, EditAllPosts) then Refused(PermissionDenied)
        else
          var db' := db.(threads := db.threads[id := db.threads[id].(subject := subject)]);
          Changed(db', ChangedNotice(db', id))
      case MoveThread(id, name) =>
        if MoveThreads !in a.can then Refused(PermissionDenied)
        else if name !in db.boards then Refused(BoardNotFound)
        else if id !in db.threads then Refused(ThreadNotFound)
        else
          var th := db.threads[id];
          var p, p' := RightsOf(db, th.board), db.boards[name];
          if !Writable(p, a) && !Writable(p', a) then Refused(PermissionDenied)
          else Changed(db.(threads := db.threads[id := th.(board := name)]), MovedNotice(id, th, name, p, p'))
      case DeleteThread(id) =>
        if DeleteOwnPosts !in a.can && DeleteAllPosts !in a.can then Refused(PermissionDenied)
        else if id !in db.threads then Refused(ThreadNotFound)
        else if !Writable(RightsOf(db, db.threads[id].board), a) then Refused(PermissionDenied)
        else if !MayTouch(s, db.threads[id].login, DeleteAllPosts) then Refused(PermissionDenied)
        else Changed(WithoutThreads(db, {id}),
                    ReadersNotice(RightsOf(db, db.threads[id].board), ThreadDeleted(id)))
      case AddPost(id, post) =>
        if AddPosts !in a.can then Refused(PermissionDenied)
        else if id !in db.threads then Refused(ThreadNotFound)
        else if !Writable(RightsOf(db, db.threads[id].board), a) then Refused(PermissionDenied)
        else if post in db.posts then Refused(InternalError)
        else
          var db' := db.(posts := db.posts[post := Post(id, s.login)]);
          Changed(db', ChangedNotice(db', id))
      case EditPost(post) =>
        if EditOwnPosts !in a.can && EditAllPosts !in a.can then Refused(PermissionDenied)
        else if !Writable(PostRights(db, post), a) then Refused(PermissionDenied)
        else if !MayTouch(s, db.posts[post].login, EditAllPosts) then Refused(PermissionDenied)
        else Changed(db, ChangedNotice(db, db.posts[post].thread))
      case DeletePost(post) =>
        if DeleteOwnPosts !in a.can && DeleteAllPosts !in a.can then Refused(PermissionDenied)
        else if !Writable(PostRights(db, post), a) then Refused(PermissionDenied)
        else if !MayTouch(s, db.posts[post].login, DeleteAllPosts) then Refused(PermissionDenied)
        else
          var db' := db.(posts := db.posts - {post});
          Changed(db', ChangedNotice(db', db.posts[post].thread))
  }

  function Carry(st: State, uid: nat, d: Decision): State
    requires uid in st.sessions
  {
    match d
    case Refused(code) => Reply(st, uid, [Error(code)])
    case Answered(reply) => Reply(st, uid, reply)
    case Switched(on) => Reply(st.(sessions := st.sessions[uid := st.sessions[uid].(subscribed := on)]), uid, [Okay])
    case Changed(db, notice) => Reply(State(db, Tell(st.sessions, notice)), uid, [Okay])
    case Broken(db) => Reply(st.(db := db), uid, [Error(InternalError)])
  }

  function Handle(st: State, uid: nat, req: Request): State
    requires uid in st.sessions
  {
    Carry(st, uid, Decide(st.db, st.sessions[uid], req))
  }

  // ---- Runs ----

  datatype Step =
    | Handling(uid: nat, request: Request)
    | ClientInfo(uid: nat)
    | LogIn(uid: nat, account: Account)
    | LogInRefused(uid: nat, login: string)
    | Reload(uid: nat, account: Account)
    | UserRenamed(name: string, newName: string)
    | GroupRenamed(name: string, newName: string)
    | Disconnect(uid: nat)
    | TransferStarts(uid: nat)
    | TransferEnds(uid: nat)
    | Removed(uid: nat)

  /** `wd_message_send_login`, accepted: the server does not ask whether the session is logged in
      already. A session enters the model with its first login. */
  function LoggedOn(st: State, uid: nat, a: Account): State {
    var s :=
      if uid in st.sessions then st.sessions[uid].(state := LoggedIn, login := a.name, account := a)
      else Session(LoggedIn, a.name, a, false, false, []);
    Reply(Reply(st.(sessions := st.sessions[uid := s]), uid, [Login]), uid, [AccountPrivileges])
  }

  /** `wd_accounts_reload_account`, as far as it concerns boards. */
  function Reloaded(st: State, uid: nat, a': Account): State
    requires uid in st.sessions
  {
    var s := st.sessions[uid];
    var s' := s.(login := a'.name, account := a', subscribed := s.subscribed && ReadBoards in a'.can);
    var ms := [AccountPrivileges] + ReloadNotices(st.db.boards, Sorted(st.db.boards.Keys), s.account, a');
    st.(sessions := st.sessions[uid := Sent(s', ms)])
  }

  function With(st: State, uid: nat, s: Session): State {
    st.(sessions := st.sessions[uid := s])
  }

  function Next(st: State, step: Step): State {
    match step
    case Handling(uid, req) =>
      if uid in st.sessions then Handle(st, uid, req) else st
    case ClientInfo(uid) =>
      if uid !in st.sessions then st
      else if st.sessions[uid].state == GaveClientInfo then Reply(st, uid, [Error(OutOfSequence)])
      else Reply(With(st, uid, st.sessions[uid].(state := GaveClientInfo)), uid, [ServerInfo])
    case LogIn(uid, a) =>
      if uid in st.sessions && st.sessions[uid].state == Connected then Reply(st, uid, [Error(OutOfSequence)])
      else LoggedOn(st, uid, a)
    case LogInRefused(uid, login) =>
      if uid !in st.sessions then st
      else if st.sessions[uid].state == Connected then Reply(st, uid, [Error(OutOfSequence)])
      else Reply(With(st, uid, st.sessions[uid].(login := login)), uid, [LoginFailed])
    case Reload(uid, a) =>
      if uid in st.sessions then Reloaded(st, uid, a) else st
    case UserRenamed(name, newName) =>
      st.(db := WithUserRenamed(st.db, name, newName))
    case GroupRenamed(name, newName) =>
      st.(db := st.db.(boards := RenamedBoards(st.db.boards, name, newName)))
    case Disconnect(uid) =>
      if uid in st.sessions then With(st, uid, st.sessions[uid].(state := Disconnected)) else st
    case TransferStarts(uid) =>
      if uid in st.sessions then With(st, uid, st.sessions[uid].(transfer := true)) else st
    case TransferEnds(uid) =>
      if uid in st.sessions then With(st, uid, st.sessions[uid].(transfer := false)) else st
    case Removed(uid) =>
      st.(sessions := st.sessions - {uid})
  }

  function Run(st: State, steps: seq<Step>): State {
    if steps == [] then st else Next(Run(st, steps[..|steps| - 1]), steps[|steps| - 1])
  }

  /** The checks that the handler makes before it renames a board. */
  predicate MayRename(db: Tables, s: Session, name: string, newName: string) {
    && s.state != Connected && s.state != GaveClientInfo
    && RenameBoards in s.account.can
    && name in db.boards && newName !in db.boards && Parent(name) == Parent(newName)
  }

  predicate ReachesRename(st: State, step: Step) {
    && step.Handling? && step.request.RenameBoard? && step.uid in st.sessions
    && MayRename(st.db, st.sessions[step.uid], step.request.name, step.request.newName)
  }

  /** A rename that stops half-way and leaves threads without a board, by the tables before it. */
  ghost predicate LosingRename(st: State, step: Step) {
    ReachesRename(st, step) && BoardRename.LosesThreads(st.db, step.request.name, step.request.newName)
  }

  lemma RenameDecided(db: Tables, s: Session, name: string, newName: string)
    ensures var d := Decide(db, s, RenameBoard(name, newName));
            if MayRename(db, s, name, newName) then d == RenameDecision(db, name, newName) else d.Refused?
  {
  }

  lemma OnlyRenamesBreak(db: Tables, s: Session, req: Request)
    requires !req.RenameBoard?
    ensures !Decide(db, s, req).Broken?
  {
  }

  /** A request stops half-way exactly when it is a rename that gets past the checks and meets a
      name that is taken. */
  lemma RequestBreaks(db: Tables, s: Session, req: Request)
    ensures Decide(db, s, req).Broken? <==>
            && req.RenameBoard? && MayRename(db, s, req.name, req.newName)
            && !BoardRename.AllFreeInTurn(db, req.name, req.newName)
  {
    if req.RenameBoard? {
      RenameDecided(db, s, req.name, req.newName);
      if MayRename(db, s, req.name, req.newName) {
        BoardRename.RenameFails(db, req.name, req.newName);
      }
    } else {
      OnlyRenamesBreak(db, s, req);
    }
  }

  lemma ThreadChangesKeepIntegrity(db: Tables, s: Session, req: Request)
    requires Integrity(db) && Decide(db, s, req).Changed?
    requires req.AddThread? || req.EditThread? || req.MoveThread?
    ensures Integrity(Decide(db, s, req).db)
  {
  }

  lemma PostChangesKeepIntegrity(db: Tables, s: Session, req: Request)
    requires Integrity(db) && Decide(db, s, req).Changed?
    requires req.AddPost? || req.EditPost? || req.DeletePost?
    ensures Integrity(Decide(db, s, req).db)
  {
  }

  lemma BoardChangesKeepIntegrity(db: Tables, s: Session, req: Request)
    requires Integrity(db) && Decide(db, s, req).Changed?
    requires req.AddBoard? || req.SetBoardInfo? || req.DeleteBoard? || req.DeleteThread?
    ensures Integrity(Decide(db, s, req).db)
  {
    if req.DeleteBoard? {
      DeletesKeepIntegrity(db, req.name, {});
    } else if req.DeleteThread? {
      DeletesKeepIntegrity(db, "", {req.thread});
    }
  }

  lemma RenameStep(st: State, step: Step)
    requires ReachesRename(st, step)
    ensures Next(st, step).db == BoardRename.Rename(st.db, step.request.name, step.request.newName).tables
  {
    var s, name, newName := st.sessions[step.uid], step.request.name, step.request.newName;
    RenameDecided(st.db, s, name, newName);
    CarriedTables(st, step.uid, RenameDecision(st.db, name, newName));
  }

  lemma CarriedTables(st: State, uid: nat, d: Decision)
    requires uid in st.sessions
    ensures Carry(st, uid, d).db == if d.Changed? || d.Broken? then d.db else st.db
  {
  }

  /** A step leaves a dangling reference exactly when it is such a rename. */
  lemma StepKeepsIntegrity(st: State, step: Step)
    requires Integrity(st.db)
    ensures Integrity(Next(st, step).db) <==> !LosingRename(st, step)
  {
    if ReachesRename(st, step) {
      RenameStep(st, step);
      BoardRename.FailedRenameDangles(st.db, step.request.name, step.request.newName);
    } else if step.Handling? && step.uid in st.sessions {
      var req, s := step.request, st.sessions[step.uid];
      var d := Decide(st.db, s, req);
      if d.Changed? && (req.AddThread? || req.EditThread? || req.MoveThread?) {
        ThreadChangesKeepIntegrity(st.db, s, req);
      } else if d.Changed? && (req.AddPost? || req.EditPost? || req.DeletePost?) {
        PostChangesKeepIntegrity(st.db, s, req);
      } else if d.Changed? {
        BoardChangesKeepIntegrity(st.db, s, req);
      }
    }
  }

  /** No reference dangles at the start of the run or after any of its steps. */
  ghost predicate IntegrityThroughout(st: State, steps: seq<Step>) {
    && (steps != [] ==> IntegrityThroughout(st, steps[..|steps| - 1]))
    && Integrity(Run(st, steps).db)
  }

  /** No step of the run is a rename that loses threads. */
  ghost predicate NothingLost(st: State, steps: seq<Step>) {
    steps != [] ==>
      && NothingLost(st, steps[..|steps| - 1])
      && !LosingRename(Run(st, steps[..|steps| - 1]), steps[|steps| - 1])
  }

  lemma LastStepKeepsIntegrity(st: State, steps: seq<Step>)
    requires steps != [] && Integrity(Run(st, steps[..|steps| - 1]).db)
    ensures Integrity(Run(st, steps).db) <==> !LosingRename(Run(st, steps[..|steps| - 1]), steps[|steps| - 1])
  {
    StepKeepsIntegrity(Run(st, steps[..|steps| - 1]), steps[|steps| - 1]);
  }

  lemma {:induction false} EndOfRun(st: State, steps: seq<Step>)
    requires IntegrityThroughout(st, steps)
    ensures Integrity(Run(st, steps).db)
  {
  }

  /** In every reachable state every post's thread and every thread's board exists, exactly as long
      as no rename of the run meets tables on which it loses threads. */
  lemma {:induction false} NoDanglingReferences(st: State, steps: seq<Step>)
    requires Integrity(st.db)
    ensures IntegrityThroughout(st, steps) <==> NothingLost(st, steps)
    decreases |steps|
  {
    if steps != [] {
      var front := steps[..|steps| - 1];
      NoDanglingReferences(st, front);
      if IntegrityThroughout(st, front) {
        EndOfRun(st, front);
        LastStepKeepsIntegrity(st, steps);
      }
    }
  }
}
