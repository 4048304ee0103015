/** Renaming a group: the group's name in the users and in the boards, and what becomes of every
    board's read and write decisions. */
module GroupRename {
  import opened Text
  import opened Rights
  import opened BoardTables
  import Accounts

  /** A freshly read account, as far as the board decisions look at it. */
  function Read(name: string, row: Accounts.Account, can: set<Permission>): Account {
    Account(name, row.group, if row.groups.Some? then Split(row.groups.value, Accounts.SEPARATOR) else [], can)
  }

  function FirstReplaced(names: seq<string>, old': string, new': string): seq<string> {
    match Accounts.IndexIn(names, old')
    case None => names
    case Some(i) => names[i := new']
  }

  /** The stored text of the list, read again, is the list with one name replaced. */
  lemma RenamedListRead(text: string, old': string, new': string)
    requires Accounts.SEPARATOR !in new'
    ensures Split(Accounts.RenamedText(text, old', new'), Accounts.SEPARATOR)
         == FirstReplaced(Split(text, Accounts.SEPARATOR), old', new')
  {
    var names := Split(text, Accounts.SEPARATOR);
    var r := Accounts.IndexIn(names, old');
    if r.Some? {
      forall p | p in names[r.value := new'] ensures Accounts.SEPARATOR !in p {
        assert p == new' || p in names;
      }
      SplitJoin(names[r.value := new'], Accounts.SEPARATOR);
    }
  }

  lemma ReplacedNames(names: seq<string>, old': string, new': string, g: string)
    requires old' != new'
    ensures g != old' && g != new' ==> (g in FirstReplaced(names, old', new') <==> g in names)
    ensures new' in FirstReplaced(names, old', new') <==> old' in names || new' in names
  {
    var r := Accounts.IndexIn(names, old');
    if r.Some? {
      var names' := names[r.value := new'];
      assert names'[r.value] == new';
      forall k | 0 <= k < |names| && k != r.value ensures names[k] in names' {
        assert names'[k] == names[k];
      }
    }
  }

  function Renamed(name: string, row: Accounts.Account, can: set<Permission>, old': string, new': string): Account {
    Read(name, Accounts.RenamedMember(row, old', new'), can)
  }

  /** Being in the old group and being in the new group do not get mixed up on this board. */
  predicate NoMixing(board: string, a: Account, old': string, new': string) {
    && (board == old' ==> (Member(a, new') ==> Member(a, old')))
    && (board == new' ==> (Member(a, old') ==> Member(a, new')))
  }

  lemma MembershipAfter(name: string, row: Accounts.Account, can: set<Permission>, g: string, old': string,
                        new': string)
    requires old' != new' && Accounts.SEPARATOR !in new' && g != old'
    ensures var (a, a') := (Read(name, row, can), Renamed(name, row, can, old', new'));
            Member(a', g) <==> if g == new' then Member(a, old') || Member(a, new') else Member(a, g)
  {
    if row.groups.Some? {
      RenamedListRead(row.groups.value, old', new');
      ReplacedNames(Split(row.groups.value, Accounts.SEPARATOR), old', new', g);
    }
  }

  const GroupMayRead := Mode(false, false, true, false, false, false)

  predicate SameDecisions(p: Privileges, a: Account, p': Privileges, a': Account) {
    (Readable(p, a) <==> Readable(p', a')) && (Writable(p, a) <==> Writable(p', a'))
  }

  /** A board keeps its decisions about a user, whatever its owner and mode, exactly when the old
      and the new group are not mixed up. */
  lemma RenameKeepsDecisions(name: string, row: Accounts.Account, can: set<Permission>, g: string, old': string,
                             new': string)
    requires old' != new' && old' != "" && new' != "" && Accounts.SEPARATOR !in new'
    ensures var (a, a') := (Read(name, row, can), Renamed(name, row, can, old', new'));
            (forall owner, mode ::
              var p := Privileges(owner, g, mode); SameDecisions(p, a, RenamedBoard(p, old', new'), a'))
            <==> NoMixing(g, a, old', new')
  {
    var a, a' := Read(name, row, can), Renamed(name, row, can, old', new');
    var g' := RenamedBoard(Privileges("", g, GroupMayRead), old', new').group;
    MembershipAfter(name, row, can, g', old', new');
    assert Member(a', g') == Member(a, g) <==> NoMixing(g, a, old', new');
    if NoMixing(g, a, old', new') {
      forall owner, mode
        ensures var p := Privileges(owner, g, mode); SameDecisions(p, a, RenamedBoard(p, old', new'), a')
      {
        SameMembership(owner, mode, g, g', a, a');
      }
    } else {
      GroupOnly(g, a);
      GroupOnly(g', a');
      var p := Privileges("", g, GroupMayRead);
      assert !SameDecisions(p, a, RenamedBoard(p, old', new'), a');
    }
  }

  lemma SameMembership(owner: string, mode: Mode, g: string, g': string, a: Account, a': Account)
    requires a.name == a'.name && Member(a, g) == Member(a', g') && (|g| > 0 <==> |g'| > 0)
    ensures SameDecisions(Privileges(owner, g, mode), a, Privileges(owner, g', mode), a')
  {
  }

  lemma GroupOnly(g: string, a: Account)
    ensures Readable(Privileges("", g, GroupMayRead), a) <==> |g| > 0 && Member(a, g)
  {
  }

  ghost predicate Unused(users: map<string, Accounts.Account>, boards: map<string, Privileges>, new': string) {
    && (forall b | b in boards :: boards[b].group != new')
    && (forall u | u in users :: !Member(Read(u, users[u], {}), new'))
  }

  /** After the rename of a group to an unused name, every freshly read account finds every board
      readable and writable exactly as before. */
  lemma UnusedNameKeepsDecisions(dir: Accounts.Directory, boards: map<string, Privileges>, old': string, new': string,
                                 u: string, can: set<Permission>, b: string)
    requires old' != new' && old' != "" && new' != "" && Accounts.SEPARATOR !in new'
    requires Unused(dir.users, boards, new') && u in dir.users && b in boards
    ensures SameDecisions(boards[b], Read(u, dir.users[u], can),
                          RenamedBoards(boards, old', new')[b],
                          Read(u, Accounts.RenamedMembers(dir.users, old', new')[u], can))
  {
    var p := boards[b];
    assert !Member(Read(u, dir.users[u], {}), new');
    assert NoMixing(p.group, Read(u, dir.users[u], can), old', new');
    RenameKeepsDecisions(u, dir.users[u], can, p.group, old', new');
    assert p == Privileges(p.owner, p.group, p.mode);
  }
}
