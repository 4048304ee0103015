/** The boards, threads and posts tables, with the statements the server runs on them. */
module BoardTables {
  import opened Text
  import opened Rights

  type Uuid = string

  datatype Thread = Thread(board: string, subject: string, login: string)
  datatype Post = Post(thread: Uuid, login: string)

  datatype Tables = Tables(
    boards: map<string, Privileges>,
    threads: map<Uuid, Thread>,
    posts: map<Uuid, Post>)

  /** No dangling reference: every thread's board and every post's thread exists. */
  ghost predicate Integrity(t: Tables) {
    && (forall id | id in t.threads :: t.threads[id].board in t.boards)
    && (forall id | id in t.posts :: t.posts[id].thread in t.threads)
  }

  /** `DELETE FROM threads WHERE …`: the trigger on threads removes the posts first. */
  function WithoutThreads(t: Tables, gone: set<Uuid>): Tables {
    t.(threads := map id | id in t.threads && id !in gone :: t.threads[id],
       posts := map id | id in t.posts && t.posts[id].thread !in gone :: t.posts[id])
  }

  function ThreadsOn(t: Tables, board: string): set<Uuid> {
    set id | id in t.threads && t.threads[id].board == board
  }

  /** `DELETE FROM boards WHERE board = ?`: the trigger on boards removes the threads first. */
  function WithoutBoard(t: Tables, board: string): Tables {
    WithoutThreads(t, ThreadsOn(t, board)).(boards := t.boards - {board})
  }

  /** `UPDATE boards SET board = to WHERE board = from`; None is a primary key conflict. */
  function RekeyBoard(t: Tables, from: string, to: string): Option<Tables> {
    if from !in t.boards || from == to then Some(t)
    else if to in t.boards then None
    else Some(t.(boards := (t.boards - {from})[to := t.boards[from]]))
  }

  /** `UPDATE threads SET board = to WHERE board = from`. */
  function RetargetThreads(t: Tables, from: string, to: string): Tables {
    t.(threads := map id | id in t.threads ::
         if t.threads[id].board == from then t.threads[id].(board := to) else t.threads[id])
  }

  /** `wd_boards_renamed_group`: `UPDATE boards SET group = new WHERE group = old`. */
  function RenamedBoard(p: Privileges, old': string, new': string): Privileges {
    if p.group == old' then p.(group := new') else p
  }

  function RenamedBoards(boards: map<string, Privileges>, old': string, new': string): map<string, Privileges> {
    map b | b in boards :: RenamedBoard(boards[b], old', new')
  }

  function NameAfter(name: string, old': string, new': string): string {
    if name == old' then new' else name
  }

  /** `wd_boards_renamed_user`: the owners of boards and the logins of threads and posts. */
  function WithUserRenamed(t: Tables, old': string, new': string): Tables {
    Tables(
      map b | b in t.boards :: t.boards[b].(owner := NameAfter(t.boards[b].owner, old', new')),
      map id | id in t.threads :: t.threads[id].(login := NameAfter(t.threads[id].login, old', new')),
      map id | id in t.posts :: t.posts[id].(login := NameAfter(t.posts[id].login, old', new')))
  }

  /** Deleting a board, or any set of threads, leaves no dangling reference behind. */
  lemma DeletesKeepIntegrity(t: Tables, board: string, gone: set<Uuid>)
    requires Integrity(t)
    ensures Integrity(WithoutBoard(t, board)) && Integrity(WithoutThreads(t, gone))
    ensures forall id :: id in WithoutBoard(t, board).posts <==>
              id in t.posts && t.threads[t.posts[id].thread].board != board
  {
  }
}
