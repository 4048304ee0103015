# A model of the Wired 2.0 server's state

The Wired server keeps its boards, accounts, chats, offline messages and file index in SQL tables
and in session objects, and tells its clients about every change so that each client can keep a copy
of what it may see. This project models that state and proves what the server is built to keep:
that the copies follow the tables, that references do not dangle, that a rename is one substitution,
that privileges do not grow, that messages are delivered once, and so on.

A table is a map and the messages sent to a session are a growing sequence. Each request handler is
a step of a state machine, written as a function; the classes (`BoardServer`, `AccountServer`,
`ChatServer`, `Index.Indexer`, `OfflineMessages.Mailbox`) run the same handlers with loops and
updates in place, and every method of theirs is proved to reach exactly the state that the function
gives. Where threads really interleave (offline messages, the listener) the steps are single
statements. Runs are arbitrary sequences of steps, with any number of sessions.

| module | what it models |
|---|---|
| `Text`, `Collation`, `Users`, `Rights` | the string primitives of libwired, SQLite's text order, the session states, owner/group/everyone rights |
| `BoardTables`, `BoardRename`, `Boards`, `BoardEffects`, `BoardReplica`, `BoardServer` | boards, threads and posts; the staged rename; the requests; what each request does; the clients' copies; the loops |
| `Volume`, `Index` | a finite file graph with symbolic links and aliases, and the walk over it |
| `Accounts`, `AccountEffects`, `GroupRename`, `AccountServer` | privileges with the group overlaid, the grant check, what each request does, group renames |
| `Chats`, `ChatEffects`, `ChatRegistry`, `ChatReplica`, `ChatServer` | the chat registry, what each request does, invitations, the public user list |
| `OfflineMessages`, `Listener` | the store-and-forward queue and the connection counter, in small steps |
| `Files`, `DropBox` | path validity and the permissions text |

Some properties hold only under a condition that the code does not check. Each is then stated with
the exact condition where one could be given, and with what goes wrong otherwise:

- A board rename matches rows by `LIKE`, so the new names may collide, and a collision stops the
  procedure half-way without undoing what was done. `BoardRename.RenameFails` says on which tables it
  stops, `RenameIsSimultaneous` and `RenameIsSubstitution` when the result is the intended one, and
  `FailedRenameDangles` when references are lost. `Boards.NoDanglingReferences` carries the last to runs.
- An account reload tells a client only about boards that appear or disappear.
  `BoardReplica.ReloadLagsExactly` says when the copy's flags stay right all the same.
- A session that is logged in may log in again, as somebody else, and the boards table is rewritten
  when a user or a group is renamed; neither sends a message about boards. The copies are right
  throughout a run if and only if every such step leaves what the session may see as it was
  (`BoardReplica.SubscriberHoldsItsBoards`); `SilentStepExamples` gives two that do not.
- A group rename merges two groups for a user who is in one of them on a board of the other.
  `GroupRename.RenameKeepsDecisions` gives the exact condition.
- `BEGIN EXCLUSIVE` is not checked for success before an offline delivery.
  `OfflineMessages.OverlapDuplicates` shows that overlapping deliveries hand a message over twice.
- Client info may be sent again after the login, and a session that is marked as disconnected may
  still get a login through; either takes a member out of the list and back into the chat unseen.
  `ChatReplica.MemberHoldsTheMembers` says exactly when that happens, `LoginAgainHidesAMember` how,
  and `OrderlyRunsHoldTheMembers` that it takes one of these two.
- The index skips a drop box only when it meets its inode for the first time; the walk goes into it
  when it is met again. Coverage is therefore a lower bound on what is indexed. An entry that closes
  a cycle (a symbolic link to a directory above it) is passed over without a row;
  `Index.Indexer.Rebuild` confines the exception to such entries.
- The 2^32nd private chat would get the public chat's id (`ChatRegistry.IdsAreNeverReused`).

## Model

| member | source | states |
|---|---|---|
| BoardReplica.SubscriberHoldsItsBoards | wired/wired/boards.c:230-269 | a subscribed session that replays its messages from a board list on holds exactly the boards it may see, by name or with their flags, all through a run of any sessions' steps if and only if every step keeps that list: no reload of the session's account changes the flags of a board that stays visible, and no second login, user rename or group rename changes what it may see |
| BoardReplica.NamesFollow | wired/wired/accounts.c:1675-1728 | without second logins and renames of users or groups the names are right in every run, reloads included |
| BoardReplica.SubscriberHoldsItsThreads | wired/wired/boards.c:273-353 | a subscribed session that replays its messages from a thread list on holds exactly the threads it may read, each under its board, all through a run if and only if no step makes a board readable or unreadable to it without the threads being told |
| BoardReplica.FixedRightsFollowThroughout | wired/wired/boards.c:948-1011 | with board rights and the session's account fixed, both conditions hold, flags included, in every run of adding, moving and deleting threads and adding and deleting boards |
| BoardReplica.StepFollows | wired/wired/boards.c:724-845 | one step of any session, a login, a reload or a rename of a user or group: the observer's right copies of the board names, of the flags and of the threads each stay right if and only if the condition for that step holds |
| BoardReplica.SilentFollows | wired/wired/messages.c:527-542 | a second login, of which boards are told nothing, keeps a right copy right if and only if the new account may see the same |
| BoardReplica.SilentStepExamples | wired/wired/boards.c:169-176 | a login as somebody else, and the rename of a secondary group, each leave a client with a board it may no longer see |
| BoardReplica.ReloadLagsExactly | wired/wired/boards.c:180-224 | after a reload the copy's flags are right if and only if every board that stays visible has the same flags for the old and the new account |
| BoardReplica.ReloadReplayed | wired/wired/boards.c:180-224 | replaying the messages of a reload adds exactly the boards that appear and removes exactly those that disappear |
| BoardReplica.BoardListingReplayed | wired/wired/boards.c:230-269 | replaying a board listing adds the visible boards of the listed rows with their flags |
| BoardReplica.ThreadListingReplayed | wired/wired/boards.c:273-353 | replaying a thread listing adds the readable threads of the listed rows |
| BoardReplica.InfoAgrees | wired/wired/boards.c:786-845 | changed rights: after the added, deleted or changed message the copy shows the board as the new rights say |
| BoardReplica.MovedThread | wired/wired/boards.c:1067-1160 | a moved thread: readers of both boards, of the old one only and of the new one only end up with the right copy |
| Boards.NoDanglingReferences | wired/wired/boards.c:1425-1467 | all through a run every post's thread and every thread's board exists, if and only if no rename that gets past the handler's checks meets tables on which it loses threads |
| Boards.RequestBreaks | wired/wired/messages.c:1501-1537 | a request stops half-way if and only if it is a rename that gets past the permission, existence and parent checks and some rewritten name is not free in its turn |
| Boards.StepKeepsIntegrity | wired/wired/messages.c:1413-1891 | every request, login, reload and rename of a user or group keeps the references intact, except exactly such a rename of a board |
| BoardTables.DeletesKeepIntegrity | wired/wired/boards.c:1425-1467 | deleting a board or threads leaves no dangling reference, and removes exactly the posts of the board's threads |
| BoardRename.RenameIsSubstitution | wired/wired/boards.c:502-599 | every board goes, with its rights and threads, where one simultaneous prefix substitution sends it, if and only if the pattern selects by prefix, every new name is free in its turn and no thread is carried on by a later row |
| BoardRename.RenameIsSimultaneous | wired/wired/boards.c:547-599 | for any names, the staged two-phase procedure is one simultaneous renaming of the selected rows, if and only if every new name is free in its turn and no thread is carried on |
| BoardRename.RenameFails | wired/wired/boards.c:567-599 | for any names, the rename stops if and only if the rewritten name of some selected row is not free in its turn: held by a row that has not moved yet, or given to an earlier row |
| BoardRename.UnusedNewNameIsSafe | wired/wired/messages.c:1513-1531 | a new name that no board's name starts with is always safe |
| BoardRename.PlainNamesMatchByPrefix | wired/wired/boards.c:530-545 | without wildcards in the old name and without names that differ only in case, the selected rows are the names with that prefix |
| BoardRename.LikeWithoutWildcards | wired/wired/boards.c:530-545 | the SQL pattern of a name without wildcards matches a string if and only if the string starts with it up to ASCII case |
| BoardRename.LikeConcat | wired/wired/boards.c:530-545 | a pattern matches exactly what its two parts match one after the other |
| BoardRename.LikeOne | wired/wired/boards.c:530-545 | a percent sign matches everything, an underscore any one character, and any other character itself up to ASCII case |
| BoardRename.ReplacedFirst | wired/wired/boards.c:547-565 | a name is rewritten by replacing the first occurrence of the old name |
| BoardRename.SubtreeRename | wired/wired/boards.c:502-599 | the substitution is the rename of a subtree of paths if and only if no other board extends the old name without a slash |
| BoardRename.SubstitutionKeepsRows | wired/wired/boards.c:547-599 | the substitution keeps the number of boards, threads and posts |
| BoardRename.RenameKeepsIntegrity | wired/wired/boards.c:502-599 | a rename that reports success leaves no dangling reference, whatever the names |
| BoardRename.RenameFailsWhenTaken | wired/wired/boards.c:547-599 | when the pattern selects by prefix, the rename fails if and only if the new name of some board below the old one is taken, by another board than the renamed one and than those already moved; also when one name is a prefix of the other |
| BoardRename.FailedRenameDangles | wired/wired/boards.c:547-599 | the references survive a rename unless it stops, the board has threads of its own, and no row took the old name before the first clash; for any names |
| BoardRename.FailedRenameExample | wired/wired/boards.c:502-599 | a concrete set of boards on which a rename stops half-way and leaves a thread without a board |
| Rights.BoardInfoRoundTrip | wired/wired/boards.c:1946-1980 | the six flags of a board info message read back from the stored mode are those that were set |
| Rights.OnlySixBitsMatter | wired/wired/boards.c:2007-2041 | of a stored mode only the six bits matter, and storing its flags again keeps them |
| Rights.NumberIsOctal | wired/wired/boards.c:46-53 | the stored mode is the sum of 4 to read and 2 to write, times 64 for the owner, times 8 for the group |
| Rights.RightsApart | wired/wired/boards.c:2007-2041 | changing a read right changes nobody's right to write, and changing a write right nobody's right to read |
| Rights.OneRight | wired/wired/boards.c:2007-2041 | each right alone lets in exactly those it is named after: the owner, the members of the group or everyone, and nobody if the name is empty |
| Rights.RightsAddUp | wired/wired/boards.c:2007-2041 | with one more right exactly those are let in who were let in before or are let in by that right alone, and without any right nobody is |
| BoardServer.Client.Send | wired/wired/server.c:963-972 | a message is appended to the session's messages unless a transfer is running |
| BoardServer.Server.Broadcast | wired/wired/boards.c:475-492 | the loop over the users sends each subscriber exactly what the notice says for its account, and changes nobody else |
| BoardServer.Server.Serve | wired/wired/messages.c:1474-1891 | any request about boards gives the state of the specified step: the listings and the rename run their own loops, the other requests carry out the specified decision and tell the subscribers in the broadcast loop |
| BoardServer.Server.GetThreads | wired/wired/messages.c:1427-1447 | the fetch loop that answers with the readable threads of one board or of all gives the state of the specified step |
| BoardServer.Server.GetBoards | wired/wired/messages.c:1413-1423 | the fetch loop that answers with the visible boards and their flags gives the state of the specified step |
| BoardServer.Server.ReloadAccount | wired/wired/accounts.c:1675-1728 | the account and the subscription change, and the loop over the boards tells the user what appears and disappears, as in the specified step |
| BoardServer.Server.LogIn | wired/wired/messages.c:527-542 | a login sets state, login and account of a new or a known session and sends the two answers, as in the specified step |
| BoardServer.Server.StageRows | wired/wired/boards.c:530-565 | the fetch loop collects the staged rows and their new names |
| BoardServer.Server.UpdateRows | wired/wired/boards.c:567-599 | the update loop rewrites the staged boards with their threads, stopping at the first conflict |
| BoardServer.Server.RenameBoard | wired/wired/messages.c:1501-1537 | the whole rename request gives the state of the specified step |
| BoardEffects.AddBoardEffect | wired/wired/messages.c:1474-1497 | who may add a board; it then stands with the rights that were sent, all other rows are as before, and the answer is okay exactly then |
| BoardEffects.SetBoardInfoEffect | wired/wired/messages.c:1626-1649 | who may set rights; the board then has those that were sent, and all other rows are as before |
| BoardEffects.DeleteBoardEffect | wired/wired/messages.c:1575-1598 | who may delete a board; exactly it, its threads and their posts are gone, and all other rows are as before |
| BoardEffects.AddThreadEffect | wired/wired/messages.c:1653-1679 | a thread is added by whoever may add threads and write on the board; its row holds board, subject and the session's login |
| BoardEffects.EditThreadEffect | wired/wired/boards.c:1015-1063 | a thread is edited by whoever may write on its board and may edit all threads, or his own and it is his; only its subject changes |
| BoardEffects.MoveThreadEffect | wired/wired/boards.c:1067-1160 | a thread is moved by whoever may move threads and write on one of the two boards; only its board changes |
| BoardEffects.DeleteThreadEffect | wired/wired/boards.c:1164-1234 | a thread is deleted by whoever may write on its board and may delete all threads, or his own and it is his; exactly it and its posts are gone |
| BoardEffects.AddPostEffect | wired/wired/boards.c:1240-1286 | a post is added by whoever may add posts and write on the thread's board; its row holds the thread and the session's login |
| BoardEffects.EditPostEffect | wired/wired/boards.c:1289-1345 | a post is edited by whoever may write on its board and may edit all posts, or his own and it is his; no row but its own is touched |
| BoardEffects.DeletePostEffect | wired/wired/boards.c:1350-1411 | a post is deleted by whoever may write on its board and may delete all posts, or his own and it is his; exactly its row is gone |
| BoardEffects.SubscriptionEffect | wired/wired/messages.c:1855-1891 | whoever may read boards switches his subscription on or off if it is not so already; nobody else is told or changed |
| BoardEffects.GetBoardsEffect | wired/wired/messages.c:1413-1423 | whoever may read boards, and nobody else, is sent the listing, and nothing else changes |
| BoardEffects.GetThreadsEffect | wired/wired/messages.c:1427-1447 | whoever may read boards is sent the threads of the named board, if there is one, or of all; nothing else changes |
| BoardEffects.RenameBoardEffect | wired/wired/messages.c:1501-1537 | a rename that passes its checks leaves the tables of the staged procedure; if that runs to its end, exactly the subscribers who may see the board are told, and otherwise the answer is an internal error |
| BoardEffects.RefusalSaysWhy | wired/wired/messages.c:1413-1891 | the error of a refused request about boards says why it was refused |
| BoardEffects.ParentOfChild | wired/libwired/libwired/data/wi-string.c:1407-1424 | the parent of front "/" name is front, for a front of plain components, and that of a single name is empty |
| BoardEffects.SamePlace | wired/wired/messages.c:1501-1537 | two board names made of plain components may be renamed into each other exactly when they lie in the same place |
| BoardEffects.DotsFolded | wired/libwired/libwired/data/wi-string.c:1858-1898 | "." is dropped from a path; ".." takes a name away in an absolute path and stays in a relative one |
| BoardEffects.LogInEffect | wired/wired/messages.c:468-544 | a login replaces login, account and state, keeps subscription and transfer, and changes no other session |
| BoardEffects.HandshakeEffect | wired/wired/messages.c:443-544 | client info and a refused login leave account and subscription as they were; the refused name becomes the session's login |
| BoardEffects.ReloadEffect | wired/wired/accounts.c:1675-1728 | a reload replaces login and account and ends a subscription that the account no longer allows |
| BoardEffects.UserRenameKeepsDecisions | wired/wired/boards.c:142-166 | after a user's rename to an unused name every board decides about everybody as before, and everybody's threads and posts stay his own |
| Index.Indexer.Rebuild | wired/wired/index.c:287-414 | on any finite file graph the walk ends with exactly one row per visited inode, each row traced by a path of shown entries, and totals equal to the rows; every inode at the end of a visible descent from the files root, without aliases and outside drop boxes, that does not come back on itself has a row, whatever else fails; and, if no lstat failed and the level cap was not hit, so has every inode reachable by visible descent and alias hops outside drop boxes, except where every entry that reaches it closes a cycle of entries with rows, and then the directory it leads to is the files root or has a row under another entry; the cap is hit only if at least 20 inodes were indexed, and no row lies behind 20 aliases; no row goes through an alias to a drop box, nor through a drop box unless an earlier row reached the same inode on another path, and then what lies straight below it has rows too |
| Index.Indexer.IndexPath | wired/wired/index.c:418-544 | the recursion ends (measure: unvisited inodes, then directories not on the path), restores the level, and keeps all of that |
| Index.Indexer.Visit | wired/wired/index.c:446-535 | one entry: skipped, recorded, descended into or followed as an alias; if it is shown, its inode has a row then, or descent through entries with rows goes from its directory, which is the root or has a row, back to this entry; and everything at the end of a straight descent below it has a row |
| Index.RowsResolve | wired/wired/index.c:493-531 | a row's virtual path, looked up from the configured files root with aliases followed at every component, gives the row's real path and inode |
| Volume.LookedUp | wired/wired/index.c:466-473 | a name is found in the directory, or link to one, that the path before it leads to; an alias file leads to its target, any other entry to what stands under its name |
| Volume.BrowsedFurther | wired/wired/index.c:460-464 | a path is browsed further by exactly the names that are found, do not start with a dot and are not hidden |
| Index.DirectoryAt | wired/wired/index.c:436-442 | the walk of a path begins exactly if the path leads to a directory or to a link to one |
| Index.TopLevelHasRows | wired/wired/index.c:418-547 | every visible entry of the shared files has a row, unless it is an alias, leads nowhere, or is the directory of shared files again |
| Index.BoxHasAnotherRow | wired/wired/index.c:487-529 | a row lies in a drop box only if an earlier row has the box under another path; what lies in a box with only one way in has no row |
| Index.SampleIndexed | wired/wired/index.c:418-547 | shared files with a file, an alias to it and a drop box with a file get rows for exactly the first file and the box |
| Index.PathText | wired/wired/index.c:493-526 | the virtual path and the prefix passed on, computed by cutting and pasting text, are the text of the entry's path below the files root |
| Index.ClosureCovers | wired/wired/index.c:468-535 | when every entered directory was walked to its end, the inode at the end of any visible path of descents and alias hops has a row, or the path's last entry closes a cycle of entries with rows |
| Index.SweptAll | wired/wired/index.c:446-535 | when each entry of a directory has its row and what lies straight below it was swept, so was the directory: every visible descent from it, without aliases or drop boxes, that does not come back on itself ends at an inode with a row |
| Index.ChronicleDistinct | wired/wired/index.c:468-491 | no two rows are for the same device and inode |
| Index.TallyCountsRows | wired/wired/index.c:509-515 | files and directories counted add up to the rows |
| Index.TallyRow | wired/wired/index.c:509-515 | each row adds one directory, or one file with its data and its resource fork, as its target is after links are followed |
| Accounts.PrivilegesNeverGrow | wired/wired/messages.c:2643-2826 | if nobody may raise privileges, then in every run of creating and editing users and groups, deleting users, logins and reloads the effective privileges of all accounts and sessions stay, field by field, within any bound they were within at the start, where a limit of 0 tops every limit |
| Accounts.AcceptedStaysWithinEditor | wired/wired/accounts.c:2339-2419 | one accepted request leaves every field of every account within its old value or within the editor's |
| Accounts.VerifiedIsWithin | wired/wired/accounts.c:2365-2402 | the check accepts exactly the accounts that are at most the editor in every field, or everything from an editor who may raise privileges |
| Accounts.MemberField | wired/wired/accounts.c:599-620 | after a change to a group's row each field of a member is what it was or at most the group's new value |
| AccountServer.Record.Override | wired/wired/accounts.c:2243-2277 | the loop over the field table fills in exactly the missing or zero fields that the group has |
| AccountServer.Record.MayBeGrantedBy | wired/wired/accounts.c:2362-2402 | the loop over the field table accepts exactly the verified accounts |
| AccountServer.Store.CreateUser | wired/wired/messages.c:2643-2681 | the handler gives the state of the specified step, and says whether it was accepted |
| AccountServer.Store.CreateGroup | wired/wired/messages.c:2685-2723 | the handler for creating a group gives the state of the specified step |
| AccountServer.Store.EditUser | wired/wired/messages.c:2727-2778 | the handler for editing or renaming a user gives the state of the specified step |
| AccountServer.Store.EditGroup | wired/wired/messages.c:2782-2826 | the handler for editing or renaming a group gives the state of the specified step |
| AccountServer.Store.RenameMembers | wired/wired/accounts.c:1731-1778 | the statement and the loop over the users replace the group's name in every primary group and its first occurrence in every list |
| AccountServer.Store.Load | wired/wired/accounts.c:599-620 | a login or a reload acts on the account's own privileges with its group's overlaid, as in the specified step |
| AccountEffects.CreateUserEffect | wired/wired/messages.c:2643-2681 | who may create a user; the row then stands under the name that was sent, with the group, the list of groups and the values that were sent, and all other rows and the groups table are as before |
| AccountEffects.EditUserEffect | wired/wired/messages.c:2727-2778 | who may edit a user; the row then stands under the new name and no longer under the old one, with what was sent or else what was there, and all other rows are as before |
| AccountEffects.CreateGroupEffect | wired/wired/messages.c:2685-2723 | who may create a group; its row then holds the values that were sent, and all else is as before |
| AccountEffects.EditGroupEffect | wired/wired/messages.c:2782-2826 | who may edit a group; its row then stands under the new name only, with the values that were sent, and exactly after a change of name every user's primary group and list follow |
| AccountEffects.DeleteUserEffect | wired/wired/messages.c:2830-2872 | who may delete a user; exactly that row is gone |
| AccountEffects.LoadingEffect | wired/wired/accounts.c:599-620 | after a login or a reload the session has, field by field, the account's own value, or its group's where that is missing or zero |
| GroupRename.RenameKeepsDecisions | wired/wired/boards.c:2007-2041 | after a group rename a board decides about a freshly read account as before, for every owner and mode, if and only if membership in the old and the new group is not mixed up on that board |
| GroupRename.UnusedNameKeepsDecisions | wired/wired/boards.c:169-176 | renaming to an unused name leaves every read and write decision unchanged |
| GroupRename.RenamedListRead | wired/wired/accounts.c:1745-1772 | the stored text of a list of groups, read again, is the list with one name replaced |
| Chats.Without | wired/wired/chats.c:370-380 | removing a user leaves exactly the other users |
| ChatRegistry.RegistryHolds | wired/wired/chats.c:108-158 | in every run in which no private chat gets the public chat's id, the public chat is registered, nobody is twice on a chat, members are connected users, and a registered private chat has members or was never joined |
| ChatRegistry.RemovedFromAllChats | wired/wired/chats.c:197-218 | after removing a user the user is on no chat, no registered private chat is empty, and everybody else is where he was |
| ChatRegistry.MembersWereInvited | wired/wired/messages.c:896-926 | every member of a private chat has a chain of invitations back to the creator, each issued by someone who was then a member, and joins never outnumber invitations |
| ChatRegistry.IdsAreNeverReused | wired/wired/chats.c:320-332 | with fewer than 2^32 private chats no id is given out twice and none is the public chat's; the 2^32nd gets the public chat's id |
| ChatRegistry.FewCreationsSuffice | wired/wired/chats.c:320-332 | fewer than 2^32 creations are enough for the other registry properties |
| ChatReplica.MemberHoldsTheMembers | wired/wired/chats.c:348-428 | in every run, a user who joins the public chat and stays holds a set between the logged-in members and all members throughout, if and only if no login in the meantime is that of a member the user does not know of |
| ChatReplica.OrderlyRunsHoldTheMembers | wired/wired/messages.c:399-424 | when client info comes only before the first login and no disconnected session logs in, that holds in every run |
| ChatReplica.OwnJoin | wired/wired/messages.c:911-926 | right after its own join a user knows exactly the logged-in members |
| ChatReplica.StepFits | wired/wired/messages.c:359-383 | a step keeps a member's set in between, also while a user disconnects in stages, unless it is a login of a member the set lacks, and then it does not |
| ChatReplica.LoginAgainHidesAMember | wired/wired/messages.c:446-450 | a member who gives client info again, or is marked as disconnected, and then logs in again is unknown to users who joined in the meantime |
| ChatServer.Server.Tell | wired/wired/server.c:1056-1073 | the loop over a chat's users sends the message once to every logged-in member without a running transfer, and to nobody else |
| ChatServer.Server.ReplyUserList | wired/wired/chats.c:386-416 | the loop lists exactly the logged-in members |
| ChatServer.Server.JoinChat | wired/wired/messages.c:896-943 | the handler gives the state of the specified step |
| ChatServer.Server.LeaveChat | wired/wired/messages.c:947-971 | the handler for leaving gives the state of the specified step |
| ChatServer.Server.KickUser | wired/wired/messages.c:975-1025 | the handler for kicking gives the state of the specified step |
| ChatServer.Server.CreateChat | wired/wired/messages.c:1116-1135 | the handler for creating a private chat gives the state of the specified step |
| ChatServer.Server.InviteUser | wired/wired/messages.c:1139-1185 | the handler for inviting gives the state of the specified step |
| ChatServer.Server.DeclineInvitation | wired/wired/messages.c:1189-1229 | the handler for declining gives the state of the specified step |
| ChatServer.Server.RemoveFromAll | wired/wired/users.c:251-260 | the loop over the registry removes the user everywhere, and the empty private chats |
| ChatEffects.JoinEffect | wired/wired/messages.c:896-943 | a user past the login joins exactly a registered chat he is not on that is public or that he is invited to; his invitation is used up, the members are told, he gets their list, and all other chats and members are as before |
| ChatEffects.LeaveEffect | wired/wired/messages.c:947-971 | exactly a member leaves; he and nobody else is off the chat, an emptied private chat is gone, and the others are told |
| ChatEffects.KickEffect | wired/wired/messages.c:975-1025 | exactly a member kicks a member, on the public chat only with the privilege; the peer and nobody else is off the chat, and all members are told |
| ChatEffects.CreateEffect | wired/wired/messages.c:1116-1135 | with the privilege, a chat with the next id has nobody on it and its creator invited; all other chats are as before |
| ChatEffects.InviteEffect | wired/wired/messages.c:1139-1185 | exactly a member invites a user who is not on the chat, and that user is told |
| ChatEffects.DeclineEffect | wired/wired/messages.c:1189-1229 | an invitation that is declined is gone, no other is, and the named peer is told |
| ChatEffects.CreatorCanJoin | wired/wired/messages.c:1116-1135 | the creator of a private chat can join it |
| ChatEffects.InvitedCanJoin | wired/wired/messages.c:1139-1185 | whoever a member invites can join |
| ChatEffects.DeclinedCannotJoin | wired/wired/messages.c:1189-1229 | whoever declined an invitation cannot join with it |
| ChatEffects.EndEffect | wired/wired/messages.c:368-371 | whose message loop ends is disconnected and waits to be removed; the chats are as they were, and exactly the others on the public chat are told |
| ChatEffects.NothingSentDuringTransfer | wired/wired/server.c:963-972 | from the start of a transfer to its end nothing is sent to that user, in every run of requests and connections |
| ChatEffects.RefusalSaysWhy | wired/wired/messages.c:896-1229 | the error of a refused chat request says why it was refused |
| OfflineMessages.ExactlyOnce | wired/wired/messages.c:546-609 | with exclusive deliveries, in every interleaving, every accepted message is waiting or was handed over exactly once |
| OfflineMessages.OverlapDuplicates | wired/wired/messages.c:558-609 | a delivery that begins while another has one of its rows in hand can always go on to hand that message over twice |
| OfflineMessages.DeliveredInOrder | wired/wired/messages.c:560-564 | every delivery hands messages over in the order of their sending times and to their addressee, in every interleaving |
| OfflineMessages.AdmittedAtMost | wired/wired/messages.c:1343-1380 | with at most k senders between check and insertion, pending and admitted messages for a user are at most 49 + k |
| OfflineMessages.SendEffect | wired/wired/messages.c:1343-1380 | a message to a user with fewer than 50 pending ones is stored as it was sent, any other not at all |
| OfflineMessages.DeliveryCanBegin | wired/wired/messages.c:560-564 | whatever is pending for a user can be selected in the order of sending |
| OfflineMessages.DeliveryCompletes | wired/wired/messages.c:560-609 | a delivery can always be brought to its end: its queue is handed over in order, and exactly the rows it had in hand are gone |
| OfflineMessages.Mailbox.Store | wired/wired/messages.c:1343-1380 | a message is stored if and only if fewer than 50 are pending, so one sender at a time keeps them at 50 or less |
| OfflineMessages.Mailbox.Deliver | wired/wired/messages.c:546-609 | the two loops send every pending message of the user in order and delete exactly those |
| Listener.CounterIsExact | wired/wired/server.c:624-722 | in every interleaving the counter is the live connection threads plus the reservations, and at most 49 plus the number of listeners (50 for the one listener) |
| Listener.BoundIsReached | wired/wired/server.c:651-661 | that bound is reached |
| Listener.StepEffects | wired/wired/server.c:624-722 | a listener admits a connection exactly below the limit, a reservation counts at once, and it is given back when no thread comes of it or when the thread ends |
| Listener.EndLetsIn | wired/wired/server.c:651-661 | at the limit the end of one thread lets a waiting listener go on |
| Files.ValidPaths | wired/wired/files.c:1374-1385 | a path is accepted if and only if its first component does not start with a dot, no later one starts with two dots and no earlier one ends in two dots |
| Files.ValidPathsDoNotRise | wired/wired/files.c:1374-1385 | an accepted path has no parent component |
| Files.NeverAboveTheRoot | wired/wired/files.c:1406-1419 | resolving any prefix of the real path of an accepted path stays below the account's root, and below the files root if the account's root names no parent directory |
| Files.RealPathLeads | wired/wired/files.c:1406-1419 | the real path of an accepted path leads from the account's root below the files root down exactly the names of the path |
| Files.DropBoxPathInPath | wired/wired/files.c:1464-1482 | the loop finds the first drop box on the way down, or none if there is none |
| Files.BelowIsJoined | wired/wired/files.c:1464-1482 | the directories tried on the way down are the root with one more name each |
| DropBox.PermissionsRoundTrip | wired/wired/files.c:1335-1368 | written drop box permissions are read back as they were if and only if no name has the separator, the owner does not start with a blank, and the text is at most 128 bytes |
| DropBox.WrittenParsed | wired/wired/files.c:1599-1639 | without separators in the names, the text parses to the same group and mode and to the owner without its leading blanks |
| DropBox.MalformedIsDefault | wired/wired/files.c:1335-1368 | without a file, with one of more than 128 bytes, or with a text that is not made of three fields, everyone may write and nobody is the owner |
| DropBox.PrintedNumberRead | wired/libwired/libwired/data/wi-string.c:1464-1479 | a printed 32-bit number is read back by the base-0 parser |
| DropBox.HexadecimalRead | wired/libwired/libwired/data/wi-string.c:1464-1479 | what follows 0x is read as hexadecimal |
| DropBox.OctalRead | wired/libwired/libwired/data/wi-string.c:1464-1479 | what follows 0 is read as octal |
| DropBox.MinusRead | wired/libwired/libwired/data/wi-string.c:1464-1479 | a negative number wraps around at 64 bits and is 0 unless that fits in 32 bits |

## Left out

- Moving a board: it updates rows while it scans them and does not exclude the moved row; rename is the modelled variant.
- Renaming a user, deleting a group, raising privileges in the runs of `Accounts`: the code does not carry them through consistently, so nothing is claimed for runs with them; for boards a user's rename is a step.
- Clients and a renamed board: what a client does with that message is not in the repository, so the copies are claimed for runs without renames.
- The order of rows in a `SELECT` without `ORDER BY`: the model takes ascending order; no proof about a listing depends on it.
- Connections before their first login: a board session enters the model with it.
- Deleting a user: it would set the owner of boards to NULL, which the table does not allow, so the boards stay as they are.
- The expansion of a leading "~" when the parents of the two names of a rename are compared: it looks up a home directory.
- BoardReplica.SubscriberHoldsItsThreads: leaves out the number of replies, the icon, the dates and the own-thread flag of a thread, and sessions with a running transfer, to which nothing is sent.
- Failing writes: database statements succeed except for key conflicts, and writing to a socket succeeds.
- Interleaving inside the board, account and chat handlers: each handler is one step.
- Index.Indexer.Rebuild: a directory that cannot be opened is a directory without entries; the visited set is one set of device and inode pairs; the counters are unbounded; the pre-computed metadata and the probe before the walk are not modelled.
- Index updates after a rename or deletion of a file, and searching.
- Accounts.PrivilegesNeverGrow: leaves out the path check on the `files` field, which only rejects more, and the overlay of `files` and colour.
- The widths of limits: they are unbounded natural numbers.
- ChatRegistry.RegistryHolds: invitations and memberships are by user id; ids of users are taken to be never reused.
- Topics, chat lines, idle times, nicks and icons: they would only add easy members.
- The pruning of old offline messages, which only looks at rows that the code never marks as delivered.
- Passwords, keys, the socket layer, trackers, transfers, events, ban lists, Finder comments and labels, legacy conversions.
