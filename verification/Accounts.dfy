/** The users and groups tables, the privileges that accounts have with their groups overlaid, and
    the requests that change them. */
module Accounts {
  import opened Text

  /** A privilege field is a boolean, or a limit of which 0 means no limit. */
  datatype Kind = Flag | Limit

  /** The privilege fields of the field table. */
  type Fields = map<string, Kind>

  type Values = map<string, nat>

  const RAISE_PRIVILEGES := "wired.account.account.raise_account_privileges"
  const CREATE_USERS := "wired.account.account.create_users"
  const EDIT_USERS := "wired.account.account.edit_users"
  const DELETE_USERS := "wired.account.account.delete_users"
  const CREATE_GROUPS := "wired.account.account.create_groups"
  const EDIT_GROUPS := "wired.account.account.edit_groups"

  /** Separates the names in a user's list of groups. */
  const SEPARATOR: char := 28 as char

  /** A row of the users or groups table. A group's row has no group of its own. */
  datatype Account = Account(group: string, groups: Option<string>, values: Values)

  const NewAccount := Account("", None, map[])

  datatype Directory = Directory(users: map<string, Account>, groups: map<string, Account>)

  // ---- Privileges ----

  function Value(values: Values, field: string): nat {
    if field in values then values[field] else 0
  }

  predicate Holds(values: Values, field: string) {
    Value(values, field) != 0
  }

  /** `wd_account_override_privileges`: a field that is missing or zero takes the group's value. */
  function Overlay(fields: Fields, own: Values, group: Values): Values {
    map f | f in own.Keys + (group.Keys * fields.Keys) ::
      if f in fields && Value(own, f) == 0 && f in group then group[f] else Value(own, f)
  }

  /** `wd_accounts_read_user_and_group`. */
  function Effective(fields: Fields, groups: map<string, Account>, a: Account): Values {
    if a.group != "" && a.group in groups then Overlay(fields, a.values, groups[a.group].values) else a.values
  }

  /** One field of `wd_account_verify_privileges_for_user`. */
  predicate Permits(kind: Kind, editor: nat, new': nat) {
    match kind
    case Limit => !(editor > 0 && (new' > editor || new' == 0))
    case Flag => !(editor == 0 && new' != 0)
  }

  predicate Verified(fields: Fields, editor: Values, new': Values) {
    Holds(editor, RAISE_PRIVILEGES) || forall f | f in fields :: Permits(fields[f], Value(editor, f), Value(new', f))
  }

  /** The order of privileges: no limit tops every limit. */
  predicate AtMost(kind: Kind, x: nat, y: nat) {
    match kind
    case Limit => y == 0 || (x != 0 && x <= y)
    case Flag => x == 0 || y != 0
  }

  ghost predicate Within(fields: Fields, values: Values, bound: Values) {
    forall f | f in fields :: AtMost(fields[f], Value(values, f), Value(bound, f))
  }

  // ---- Requests ----

  /** What an account message carries; an absent name, group or list of groups is left as it was. */
  datatype Change = Change(newName: Option<string>, group: Option<string>, groups: Option<seq<string>>, values: Values)

  function Updated(a: Account, c: Change): Account {
    Account(
      if c.group.Some? then c.group.value else a.group,
      if c.groups.Some? then Some(Join(c.groups.value, SEPARATOR)) else a.groups,
      c.values)
  }

  /** Group messages have no field for a group. */
  function GroupUpdated(a: Account, c: Change): Account {
    a.(values := c.values)
  }

  datatype ErrorCode = PermissionDenied | AccountExists | AccountNotFound | InvalidMessage

  datatype Verdict = Refused(code: ErrorCode) | Accepted(dir: Directory)

  function CreateUser(fields: Fields, dir: Directory, editor: Values, name: string, c: Change): Verdict {
    var a := Updated(NewAccount, c);
    if !Holds(editor, CREATE_USERS) then Refused(PermissionDenied)
    else if name in dir.users then Refused(AccountExists)
    else if name == "" then Refused(InvalidMessage)
    else if !Verified(fields, editor, Effective(fields, dir.groups, a)) then Refused(PermissionDenied)
    else Accepted(dir.(users := dir.users[name := a]))
  }

  function CreateGroup(fields: Fields, dir: Directory, editor: Values, name: string, c: Change): Verdict {
    var g := GroupUpdated(NewAccount, c);
    if !Holds(editor, CREATE_GROUPS) then Refused(PermissionDenied)
    else if name in dir.groups then Refused(AccountExists)
    else if name == "" then Refused(InvalidMessage)
    else if !Verified(fields, editor, Effective(fields, dir.groups, g)) then Refused(PermissionDenied)
    else Accepted(dir.(groups := dir.groups[name := g]))
  }

  /** The name after an edit. */
  function NameAfter(name: string, c: Change): string {
    if c.newName.Some? && c.newName.value != "" then c.newName.value else name
  }

  predicate Taken(accounts: map<string, Account>, name: string, c: Change) {
    c.newName.Some? && c.newName.value != name && c.newName.value in accounts
  }

  function EditUser(fields: Fields, dir: Directory, editor: Values, name: string, c: Change): Verdict {
    if !Holds(editor, EDIT_USERS) then Refused(PermissionDenied)
    else if Taken(dir.users, name, c) then Refused(AccountExists)
    else if name !in dir.users then Refused(AccountNotFound)
    else
      var a := Updated(dir.users[name], c);
      if !Verified(fields, editor, Effective(fields, dir.groups, a)) then Refused(PermissionDenied)
      else Accepted(dir.(users := (dir.users - {name})[NameAfter(name, c) := a]))
  }

  function IndexIn(names: seq<string>, name: string): (r: Option<nat>)
    ensures r.Some? ==> r.value < |names| && names[r.value] == name && name !in names[..r.value]
    ensures r.None? ==> name !in names
  {
    if names == [] then None
    else if names[0] == name then Some(0)
    else
      var r := IndexIn(names[1..], name);
      if r.Some? then Some(r.value + 1) else None
  }

  /** One user's list of groups after a group was renamed: its first occurrence is replaced. */
  function RenamedText(text: string, old': string, new': string): string {
    var names := Split(text, SEPARATOR);
    match IndexIn(names, old')
    case None => text
    case Some(i) => Join(names[i := new'], SEPARATOR)
  }

  function RenamedMember(a: Account, old': string, new': string): Account {
    a.(group := if a.group == old' then new' else a.group,
       groups := if a.groups.Some? then Some(RenamedText(a.groups.value, old', new')) else None)
  }

  /** `wd_accounts_rename_group`. */
  function RenamedMembers(users: map<string, Account>, old': string, new': string): map<string, Account> {
    map u | u in users :: RenamedMember(users[u], old', new')
  }

  function EditGroup(fields: Fields, dir: Directory, editor: Values, name: string, c: Change): Verdict {
    if !Holds(editor, EDIT_GROUPS) then Refused(PermissionDenied)
    else if Taken(dir.groups, name, c) then Refused(AccountExists)
    else if name !in dir.groups then Refused(AccountNotFound)
    else
      var g := GroupUpdated(dir.groups[name], c);
      if !Verified(fields, editor, Effective(fields, dir.groups, g)) then Refused(PermissionDenied)
      else
        var name' := NameAfter(name, c);
        Accepted(Directory(
          if name' != name then RenamedMembers(dir.users, name, name') else dir.users,
          (dir.groups - {name})[name' := g]))
  }

  // ---- Runs ----

  /** A logged-in user acts with the privileges read at its login or at the last reload. */
  datatype State = State(dir: Directory, sessions: map<nat, Values>)

  datatype Step =
    | CreatingUser(uid: nat, name: string, change: Change)
    | CreatingGroup(uid: nat, name: string, change: Change)
    | EditingUser(uid: nat, name: string, change: Change)
    | EditingGroup(uid: nat, name: string, change: Change)
    | DeletingUser(uid: nat, name: string)
    | Loading(uid: nat, name: string)
    | Leaving(uid: nat)

  function Decide(fields: Fields, dir: Directory, editor: Values, step: Step): Verdict {
    match step
    case CreatingUser(_, name, c) => CreateUser(fields, dir, editor, name, c)
    case CreatingGroup(_, name, c) => CreateGroup(fields, dir, editor, name, c)
    case EditingUser(_, name, c) => EditUser(fields, dir, editor, name, c)
    case EditingGroup(_, name, c) => EditGroup(fields, dir, editor, name, c)
    case DeletingUser(_, name) =>
      if !Holds(editor, DELETE_USERS) then Refused(PermissionDenied)
      else if name !in dir.users then Refused(AccountNotFound)
      else Accepted(dir.(users := dir.users - {name}))
    case Loading(_, _) => Accepted(dir)
    case Leaving(_) => Accepted(dir)
  }

  function Next(fields: Fields, st: State, step: Step): State {
    match step
    case Loading(uid, name) =>
      if name in st.dir.users
      then st.(sessions := st.sessions[uid := Effective(fields, st.dir.groups, st.dir.users[name])]) else st
    case Leaving(uid) => st.(sessions := st.sessions - {uid})
    case _ =>
      if step.uid !in st.sessions then st
      else
        (match Decide(fields, st.dir, st.sessions[step.uid], step)
         case Refused(_) => st
         case Accepted(dir) => st.(dir := dir))
  }

  function Run(fields: Fields, st: State, steps: seq<Step>): State {
    if steps == [] then st else Next(fields, Run(fields, st, steps[..|steps| - 1]), steps[|steps| - 1])
  }

  lemma RunMore(fields: Fields, st: State, steps: seq<Step>, step: Step)
    ensures Run(fields, st, steps + [step]) == Next(fields, Run(fields, st, steps), step)
  {
    assert (steps + [step])[..|steps|] == steps;
  }

  // ---- No run raises the highest privileges ----

  ghost predicate DirectoryWithin(fields: Fields, dir: Directory, bound: Values) {
    && (forall u | u in dir.users :: Within(fields, Effective(fields, dir.groups, dir.users[u]), bound))
    && (forall g | g in dir.groups :: Within(fields, dir.groups[g].values, bound))
  }

  /** Every account, with its group overlaid, and every session is within the bound. */
  ghost predicate StateWithin(fields: Fields, st: State, bound: Values) {
    && DirectoryWithin(fields, st.dir, bound)
    && (forall id | id in st.sessions :: Within(fields, st.sessions[id], bound))
  }

  /** The check accepts exactly the accounts that are, field by field, at most the editor. */
  lemma VerifiedIsWithin(fields: Fields, editor: Values, new': Values)
    ensures Verified(fields, editor, new') <==> Holds(editor, RAISE_PRIVILEGES) || Within(fields, new', editor)
  {
    forall f | f in fields
      ensures Permits(fields[f], Value(editor, f), Value(new', f)) <==>
                AtMost(fields[f], Value(new', f), Value(editor, f))
    {
    }
  }

  /** A field of an account: its own value unless that is missing or zero, or else its group's. */
  lemma EffectiveField(fields: Fields, groups: map<string, Account>, a: Account, f: string)
    ensures var x := Value(Effective(fields, groups, a), f);
            if f in fields && Value(a.values, f) == 0 && a.group != "" && a.group in groups
            then x == Value(groups[a.group].values, f)
            else x == Value(a.values, f)
  {
  }

  /** After a change to the row of group `name`, every field of every account is what it was or at
      most the group's new value. */
  lemma MemberField(fields: Fields, groups: map<string, Account>, groups': map<string, Account>, a: Account,
                    a': Account, name: string, f: string)
    requires f in fields && name in groups' && a'.values == a.values
    requires a'.group != name && a'.group != "" ==>
               a'.group == a.group && (a.group in groups <==> a.group in groups')
               && (a.group in groups ==> groups'[a.group] == groups[a.group])
    requires a'.group == "" ==> a.group == ""
    ensures var x := Value(Effective(fields, groups', a'), f);
            x == Value(Effective(fields, groups, a), f) || AtMost(fields[f], x, Value(groups'[name].values, f))
  {
    EffectiveField(fields, groups, a, f);
    EffectiveField(fields, groups', a', f);
  }

  /** What an accepted request may do to one field of one user. */
  ghost predicate Kept(fields: Fields, dir: Directory, dir': Directory, editor: Values, u: string, f: string)
    requires f in fields && u in dir'.users
  {
    var x := Value(Effective(fields, dir'.groups, dir'.users[u]), f);
    || AtMost(fields[f], x, Value(editor, f))
    || (u in dir.users && AtMost(fields[f], x, Value(Effective(fields, dir.groups, dir.users[u]), f)))
  }

  /** The groups table has no column for a group's group. */
  ghost predicate Proper(dir: Directory) {
    forall g | g in dir.groups :: dir.groups[g].group == ""
  }

  lemma GroupEditKeeps(fields: Fields, dir: Directory, editor: Values, name: string, c: Change, u: string, f: string)
    requires Proper(dir) && EditGroup(fields, dir, editor, name, c).Accepted? && !Holds(editor, RAISE_PRIVILEGES)
    requires u in dir.users && f in fields
    ensures Kept(fields, dir, EditGroup(fields, dir, editor, name, c).dir, editor, u, f)
  {
    var dir' := EditGroup(fields, dir, editor, name, c).dir;
    VerifiedIsWithin(fields, editor, c.values);
    MemberField(fields, dir.groups, dir'.groups, dir.users[u], dir'.users[u], NameAfter(name, c), f);
  }

  lemma GroupCreationKeeps(fields: Fields, dir: Directory, editor: Values, name: string, c: Change, u: string,
                           f: string)
    requires CreateGroup(fields, dir, editor, name, c).Accepted? && !Holds(editor, RAISE_PRIVILEGES)
    requires u in dir.users && f in fields
    ensures Kept(fields, dir, CreateGroup(fields, dir, editor, name, c).dir, editor, u, f)
  {
    var dir' := CreateGroup(fields, dir, editor, name, c).dir;
    VerifiedIsWithin(fields, editor, c.values);
    MemberField(fields, dir.groups, dir'.groups, dir.users[u], dir'.users[u], name, f);
  }

  lemma UserWriteKeeps(fields: Fields, dir: Directory, dir': Directory, editor: Values, name: string, a: Account,
                       u: string, f: string)
    requires Verified(fields, editor, Effective(fields, dir.groups, a)) && !Holds(editor, RAISE_PRIVILEGES)
    requires dir'.groups == dir.groups && u in dir'.users && f in fields
    requires if u == name then dir'.users[u] == a else u in dir.users && dir'.users[u] == dir.users[u]
    ensures Kept(fields, dir, dir', editor, u, f)
  {
    VerifiedIsWithin(fields, editor, Effective(fields, dir.groups, a));
  }

  /** An accepted request of an editor who may not raise privileges leaves every field of every
      account within what it was before or within what the editor has. */
  lemma AcceptedStaysWithinEditor(fields: Fields, dir: Directory, editor: Values, step: Step, u: string, f: string)
    requires Proper(dir) && Decide(fields, dir, editor, step).Accepted? && !Holds(editor, RAISE_PRIVILEGES)
    requires u in Decide(fields, dir, editor, step).dir.users && f in fields
    ensures Kept(fields, dir, Decide(fields, dir, editor, step).dir, editor, u, f)
  {
    var dir' := Decide(fields, dir, editor, step).dir;
    if step.EditingGroup? {
      GroupEditKeeps(fields, dir, editor, step.name, step.change, u, f);
    } else if step.CreatingGroup? {
      GroupCreationKeeps(fields, dir, editor, step.name, step.change, u, f);
    } else if step.EditingUser? {
      UserWriteKeeps(fields, dir, dir', editor, NameAfter(step.name, step.change),
                     Updated(dir.users[step.name], step.change), u, f);
    } else if step.CreatingUser? {
      UserWriteKeeps(fields, dir, dir', editor, step.name, Updated(NewAccount, step.change), u, f);
    }
  }

  lemma AcceptedGroups(fields: Fields, dir: Directory, editor: Values, step: Step, g: string)
    requires Proper(dir) && Decide(fields, dir, editor, step).Accepted? && !Holds(editor, RAISE_PRIVILEGES)
    requires g in Decide(fields, dir, editor, step).dir.groups
    ensures var dir' := Decide(fields, dir, editor, step).dir;
            && Proper(dir')
            && (Within(fields, dir'.groups[g].values, editor) || (g in dir.groups && dir'.groups[g] == dir.groups[g]))
  {
    if step.EditingGroup? || step.CreatingGroup? {
      VerifiedIsWithin(fields, editor, step.change.values);
    }
  }

  lemma AcceptedStaysWithinBound(fields: Fields, dir: Directory, editor: Values, step: Step, bound: Values)
    requires Proper(dir) && Decide(fields, dir, editor, step).Accepted? && !Holds(editor, RAISE_PRIVILEGES)
    requires DirectoryWithin(fields, dir, bound) && Within(fields, editor, bound)
    ensures var dir' := Decide(fields, dir, editor, step).dir; Proper(dir') && DirectoryWithin(fields, dir', bound)
  {
    var dir' := Decide(fields, dir, editor, step).dir;
    forall u | u in dir'.users ensures Within(fields, Effective(fields, dir'.groups, dir'.users[u]), bound) {
      forall f | f in fields
        ensures AtMost(fields[f], Value(Effective(fields, dir'.groups, dir'.users[u]), f), Value(bound, f))
      {
        AcceptedStaysWithinEditor(fields, dir, editor, step, u, f);
      }
    }
    forall g | g in dir'.groups ensures Within(fields, dir'.groups[g].values, bound) && dir'.groups[g].group == "" {
      AcceptedGroups(fields, dir, editor, step, g);
    }
  }

  lemma StepStaysWithinBound(fields: Fields, st: State, step: Step, bound: Values)
    requires RAISE_PRIVILEGES in fields && fields[RAISE_PRIVILEGES] == Flag && !Holds(bound, RAISE_PRIVILEGES)
    requires Proper(st.dir) && StateWithin(fields, st, bound)
    ensures var st' := Next(fields, st, step); Proper(st'.dir) && StateWithin(fields, st', bound)
  {
    if !step.Loading? && !step.Leaving? && step.uid in st.sessions {
      var editor := st.sessions[step.uid];
      assert AtMost(Flag, Value(editor, RAISE_PRIVILEGES), Value(bound, RAISE_PRIVILEGES));
      if Decide(fields, st.dir, editor, step).Accepted? {
        AcceptedStaysWithinBound(fields, st.dir, editor, step, bound);
      }
    }
  }

  /** If nobody may raise privileges, then whatever bound the effective privileges are within,
      field by field, they stay within it in every run. */
  lemma {:induction false} PrivilegesNeverGrow(fields: Fields, st: State, steps: seq<Step>, bound: Values)
    requires RAISE_PRIVILEGES in fields && fields[RAISE_PRIVILEGES] == Flag && !Holds(bound, RAISE_PRIVILEGES)
    requires Proper(st.dir) && StateWithin(fields, st, bound)
    ensures var st' := Run(fields, st, steps); Proper(st'.dir) && StateWithin(fields, st', bound)
    decreases |steps|
  {
    if steps != [] {
      var front := steps[..|steps| - 1];
      PrivilegesNeverGrow(fields, st, front, bound);
      StepStaysWithinBound(fields, Run(fields, st, front), steps[|steps| - 1], bound);
    }
  }
}
