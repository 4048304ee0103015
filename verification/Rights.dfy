/** Owner, group and everyone rights on a board, and the account fields they look at. */
module Rights {

  /** The account privileges that gate the board requests. */
  datatype Permission =
    | ReadBoards | AddBoards | RenameBoards | DeleteBoards | SetBoardInfo
    | AddThreads | MoveThreads | AddPosts
    | EditOwnPosts | EditAllPosts | DeleteOwnPosts | DeleteAllPosts

  datatype Account = Account(name: string, group: string, groups: seq<string>, can: set<Permission>)

  /** The six rights that a board's mode grants. */
  datatype Mode = Mode(
    ownerRead: bool, ownerWrite: bool,
    groupRead: bool, groupWrite: bool,
    everyoneRead: bool, everyoneWrite: bool)

  datatype Privileges = Privileges(owner: string, group: string, mode: Mode)

  const NoRights := Privileges("", "", Mode(false, false, false, false, false, false))

  predicate Member(a: Account, group: string) {
    group == a.group || group in a.groups
  }

  /** Everyone, then the group, then the owner. */
  predicate Allowed(p: Privileges, a: Account, everyone: bool, group: bool, owner: bool) {
    || everyone
    || (group && |p.group| > 0 && Member(a, p.group))
    || (owner && |p.owner| > 0 && p.owner == a.name)
  }

  predicate Readable(p: Privileges, a: Account) {
    Allowed(p, a, p.mode.everyoneRead, p.mode.groupRead, p.mode.ownerRead)
  }

  predicate Writable(p: Privileges, a: Account) {
    Allowed(p, a, p.mode.everyoneWrite, p.mode.groupWrite, p.mode.ownerWrite)
  }

  predicate Visible(p: Privileges, a: Account) {
    Readable(p, a) || Writable(p, a)
  }

  // ---- What the six rights decide ----

  /** One right alone. */
  datatype Right = OwnerRead | OwnerWrite | GroupRead | GroupWrite | EveryoneRead | EveryoneWrite

  function Set(m: Mode, right: Right, on: bool): Mode {
    match right
    case OwnerRead => m.(ownerRead := on)
    case OwnerWrite => m.(ownerWrite := on)
    case GroupRead => m.(groupRead := on)
    case GroupWrite => m.(groupWrite := on)
    case EveryoneRead => m.(everyoneRead := on)
    case EveryoneWrite => m.(everyoneWrite := on)
  }

  const NoMode := Mode(false, false, false, false, false, false)

  /** Reading is decided by the read rights alone, and writing by the write rights alone. */
  lemma RightsApart(p: Privileges, a: Account, right: Right, on: bool)
    ensures var p' := p.(mode := Set(p.mode, right, on));
            if right.OwnerRead? || right.GroupRead? || right.EveryoneRead?
            then Writable(p', a) <==> Writable(p, a)
            else Readable(p', a) <==> Readable(p, a)
  {
  }

  /** Each right alone lets in exactly those it is named after: the owner, the members of the group,
      or everyone; an empty name is nobody's. Whoever may read or write sees the board. */
  lemma OneRight(owner: string, group: string, a: Account, right: Right)
    ensures var p := Privileges(owner, group, Set(NoMode, right, true));
            match right
            case OwnerRead => !Writable(p, a) && (Readable(p, a) <==> owner != "" && owner == a.name)
            case OwnerWrite => !Readable(p, a) && (Writable(p, a) <==> owner != "" && owner == a.name)
            case GroupRead =>
              !Writable(p, a) && (Readable(p, a) <==> group != "" && (group == a.group || group in a.groups))
            case GroupWrite =>
              !Readable(p, a) && (Writable(p, a) <==> group != "" && (group == a.group || group in a.groups))
            case EveryoneRead => !Writable(p, a) && Readable(p, a)
            case EveryoneWrite => !Readable(p, a) && Writable(p, a)
    ensures var p := Privileges(owner, group, Set(NoMode, right, true));
            Visible(p, a) <==> Readable(p, a) || Writable(p, a)
  {
  }

  /** The rights add up: with one more right exactly those are let in who were let in before or are
      let in by that right alone. */
  lemma RightsAddUp(p: Privileges, a: Account, right: Right)
    ensures var (p', one) := (p.(mode := Set(p.mode, right, true)), p.(mode := Set(NoMode, right, true)));
            && (Readable(p', a) <==> Readable(p, a) || Readable(one, a))
            && (Writable(p', a) <==> Writable(p, a) || Writable(one, a))
            && (Visible(p', a) <==> Visible(p, a) || Visible(one, a))
    ensures !Readable(p.(mode := NoMode), a) && !Writable(p.(mode := NoMode), a) && !Visible(p.(mode := NoMode), a)
  {
  }

  // ---- The mode as the number in the boards table ----

  const OWNER_WRITE: bv32 := 2 << 6
  const OWNER_READ: bv32 := 4 << 6
  const GROUP_WRITE: bv32 := 2 << 3
  const GROUP_READ: bv32 := 4 << 3
  const EVERYONE_WRITE: bv32 := 2
  const EVERYONE_READ: bv32 := 4

  predicate Has(mode: bv32, bit: bv32) {
    mode & bit != 0
  }

  /** The rights a stored number grants. */
  function ModeOf(mode: bv32): Mode {
    Mode(
      Has(mode, OWNER_READ), Has(mode, OWNER_WRITE),
      Has(mode, GROUP_READ), Has(mode, GROUP_WRITE),
      Has(mode, EVERYONE_READ), Has(mode, EVERYONE_WRITE))
  }

  function Bit(flag: bool, bit: bv32): bv32 {
    if flag then bit else 0
  }

  /** `wd_board_privileges_with_message`: each true flag of a board info message is or-ed into the
      number. */
  function NumberOf(m: Mode): bv32 {
    Bit(m.ownerRead, OWNER_READ) | Bit(m.ownerWrite, OWNER_WRITE)
    | Bit(m.groupRead, GROUP_READ) | Bit(m.groupWrite, GROUP_WRITE)
    | Bit(m.everyoneRead, EVERYONE_READ) | Bit(m.everyoneWrite, EVERYONE_WRITE)
  }

  /** Board info read back from the stored number is the board info that was set. */
  lemma BoardInfoRoundTrip(m: Mode)
    ensures ModeOf(NumberOf(m)) == m
  {
    assert NumberOf(m) & 0x1B6 == NumberOf(m);
  }

  lemma OrIsSum(a: bv32, b: bv32)
    requires a & b == 0
    ensures a | b == a + b
  {
  }

  /** The number is the octal mode of the file permissions it is modelled on: 4 to read and 2 to
      write, for the owner times 64, for the group times 8. */
  lemma NumberIsOctal(m: Mode)
    ensures NumberOf(m) == (if m.ownerRead then 256 else 0) + (if m.ownerWrite then 128 else 0)
                           + (if m.groupRead then 32 else 0) + (if m.groupWrite then 16 else 0)
                           + (if m.everyoneRead then 4 else 0) + (if m.everyoneWrite then 2 else 0)
  {
    var owner := Bit(m.ownerRead, OWNER_READ) | Bit(m.ownerWrite, OWNER_WRITE);
    var group := owner | Bit(m.groupRead, GROUP_READ);
    var both := group | Bit(m.groupWrite, GROUP_WRITE);
    var all := both | Bit(m.everyoneRead, EVERYONE_READ);
    OrIsSum(Bit(m.ownerRead, OWNER_READ), Bit(m.ownerWrite, OWNER_WRITE));
    OrIsSum(owner, Bit(m.groupRead, GROUP_READ));
    OrIsSum(group, Bit(m.groupWrite, GROUP_WRITE));
    OrIsSum(both, Bit(m.everyoneRead, EVERYONE_READ));
    OrIsSum(all, Bit(m.everyoneWrite, EVERYONE_WRITE));
  }

  /** Of a stored number only the six bits matter, and they are kept. */
  lemma OnlySixBitsMatter(mode: bv32)
    ensures mode & 0x1B6 == NumberOf(ModeOf(mode))
    ensures ModeOf(mode) == ModeOf(mode & 0x1B6)
  {
  }
}
