/** What each account request does: from whom it is accepted, what the users and groups tables hold
    afterwards, row by row, and what privileges a session acts with. */
module AccountEffects {
  import opened Text
  import opened Accounts
  import GroupRename

  /** The field stands in the row and is not zero. */
  predicate Granted(values: Values, field: string) {
    field in values && values[field] != 0
  }

  /** A field that is missing counts as zero. */
  predicate Reads(values: Values, field: string, x: nat) {
    if field in values then x == values[field] else x == 0
  }

  /** Nobody grants more than he has, unless he may raise privileges. */
  ghost predicate MayGrant(fields: Fields, editor: Values, groups: map<string, Account>, group: string,
                           values: Values)
  {
    || Granted(editor, RAISE_PRIVILEGES)
    || Within(fields, Effective(fields, groups, Account(group, None, values)), editor)
  }

  /** The row holds what was sent, and what it held before where nothing was sent. */
  predicate Carries(row: Account, before: Account, c: Change) {
    && row.values == c.values
    && row.group == (if c.group.Some? then c.group.value else before.group)
    && (c.groups.None? ==> row.groups == before.groups)
    && (c.groups.Some? ==>
          && row.groups.Some?
          && (c.groups.value != [] && (forall g | g in c.groups.value :: SEPARATOR !in g) ==>
                Split(row.groups.value, SEPARATOR) == c.groups.value))
  }

  predicate SameRows(rows: map<string, Account>, rows': map<string, Account>, changed: set<string>) {
    && rows.Keys - changed == rows'.Keys - changed
    && forall u | u in rows && u in rows' && u !in changed :: rows'[u] == rows[u]
  }

  /** The new name of a renamed account; an empty name renames nothing. */
  predicate IsNameAfter(name': string, name: string, c: Change) {
    if c.newName.None? || c.newName.value == "" then name' == name else name' == c.newName.value
  }

  predicate NameFree(rows: map<string, Account>, name: string, c: Change) {
    c.newName.Some? && c.newName.value in rows ==> c.newName.value == name
  }

  lemma GrantAlike(fields: Fields, editor: Values, groups: map<string, Account>, a: Account)
    ensures Verified(fields, editor, Effective(fields, groups, a)) <==>
              MayGrant(fields, editor, groups, a.group, a.values)
  {
    VerifiedIsWithin(fields, editor, Effective(fields, groups, a));
  }

  lemma UpdatedCarries(a: Account, c: Change)
    ensures Carries(Updated(a, c), a, c)
  {
    if c.groups.Some? && c.groups.value != [] && (forall g | g in c.groups.value :: SEPARATOR !in g) {
      SplitJoin(c.groups.value, SEPARATOR);
    }
  }

  /** The new user stands under the name that was sent, with the group, the list of groups and the
      values that were sent, if the name is new and not empty and the editor may grant that much. */
  lemma CreateUserEffect(fields: Fields, st: State, uid: nat, name: string, c: Change)
    requires uid in st.sessions
    ensures var (st', editor) := (Next(fields, st, CreatingUser(uid, name, c)), st.sessions[uid]);
            var group := if c.group.Some? then c.group.value else "";
            if && Granted(editor, CREATE_USERS) && name !in st.dir.users && name != ""
               && MayGrant(fields, editor, st.dir.groups, group, c.values)
            then && name in st'.dir.users && Carries(st'.dir.users[name], NewAccount, c)
                 && SameRows(st.dir.users, st'.dir.users, {name})
                 && st'.dir.groups == st.dir.groups && st'.sessions == st.sessions
            else st' == st
  {
    UpdatedCarries(NewAccount, c);
    GrantAlike(fields, st.sessions[uid], st.dir.groups, Updated(NewAccount, c));
  }

  /** The edited user stands under the new name and no longer under the old one, with what was sent
      or else what was there before. */
  lemma EditUserEffect(fields: Fields, st: State, uid: nat, name: string, name': string, c: Change)
    requires uid in st.sessions && IsNameAfter(name', name, c)
    ensures var (st', editor) := (Next(fields, st, EditingUser(uid, name, c)), st.sessions[uid]);
            var users := st.dir.users;
            if && Granted(editor, EDIT_USERS) && name in users && NameFree(users, name, c)
               && MayGrant(fields, editor, st.dir.groups,
                           if c.group.Some? then c.group.value else users[name].group, c.values)
            then && name' in st'.dir.users && Carries(st'.dir.users[name'], users[name], c)
                 && (name' != name ==> name !in st'.dir.users)
                 && SameRows(users, st'.dir.users, {name, name'})
                 && st'.dir.groups == st.dir.groups && st'.sessions == st.sessions
            else st' == st
  {
    if name in st.dir.users {
      UpdatedCarries(st.dir.users[name], c);
      GrantAlike(fields, st.sessions[uid], st.dir.groups, Updated(st.dir.users[name], c));
    }
  }

  lemma CreateGroupEffect(fields: Fields, st: State, uid: nat, name: string, c: Change)
    requires uid in st.sessions
    ensures var (st', editor) := (Next(fields, st, CreatingGroup(uid, name, c)), st.sessions[uid]);
            if && Granted(editor, CREATE_GROUPS) && name !in st.dir.groups && name != ""
               && MayGrant(fields, editor, st.dir.groups, "", c.values)
            then && name in st'.dir.groups && st'.dir.groups[name] == Account("", None, c.values)
                 && SameRows(st.dir.groups, st'.dir.groups, {name})
                 && st'.dir.users == st.dir.users && st'.sessions == st.sessions
            else st' == st
  {
    GrantAlike(fields, st.sessions[uid], st.dir.groups, GroupUpdated(NewAccount, c));
  }

  /** A user after the rename of a group: the primary group and the first occurrence in the list of
      groups have the new name. */
  predicate Follows(u: Account, u': Account, old': string, new': string) {
    && u'.values == u.values
    && u'.group == (if u.group == old' then new' else u.group)
    && u'.groups.Some? == u.groups.Some?
    && (u.groups.Some? && SEPARATOR !in new' ==>
          Split(u'.groups.value, SEPARATOR)
          == GroupRename.FirstReplaced(Split(u.groups.value, SEPARATOR), old', new'))
  }

  lemma MemberFollows(u: Account, old': string, new': string)
    ensures Follows(u, RenamedMember(u, old', new'), old', new')
  {
    if u.groups.Some? && SEPARATOR !in new' { GroupRename.RenamedListRead(u.groups.value, old', new'); }
  }

  /** The edited group stands under its new name, and under no old one, with the values that were
      sent; and if the name changed, all users follow it. */
  lemma EditGroupEffect(fields: Fields, st: State, uid: nat, name: string, name': string, c: Change)
    requires uid in st.sessions && IsNameAfter(name', name, c) && Proper(st.dir)
    ensures var (st', editor) := (Next(fields, st, EditingGroup(uid, name, c)), st.sessions[uid]);
            var groups := st.dir.groups;
            if && Granted(editor, EDIT_GROUPS) && name in groups && NameFree(groups, name, c)
               && MayGrant(fields, editor, groups, "", c.values)
            then && name' in st'.dir.groups && st'.dir.groups[name'] == groups[name].(values := c.values)
                 && (name' != name ==> name !in st'.dir.groups)
                 && SameRows(groups, st'.dir.groups, {name, name'})
                 && st'.dir.users.Keys == st.dir.users.Keys
                 && (forall u | u in st.dir.users ::
                       if name' == name then st'.dir.users[u] == st.dir.users[u]
                       else Follows(st.dir.users[u], st'.dir.users[u], name, name'))
                 && st'.sessions == st.sessions
            else st' == st
  {
    if name in st.dir.groups {
      GrantAlike(fields, st.sessions[uid], st.dir.groups, GroupUpdated(st.dir.groups[name], c));
      forall u | u in st.dir.users
        ensures Follows(st.dir.users[u], RenamedMember(st.dir.users[u], name, name'), name, name')
      {
        MemberFollows(st.dir.users[u], name, name');
      }
    }
  }

  lemma DeleteUserEffect(fields: Fields, st: State, uid: nat, name: string)
    requires uid in st.sessions
    ensures var st' := Next(fields, st, DeletingUser(uid, name));
            && st'.dir.groups == st.dir.groups && st'.sessions == st.sessions
            && st'.dir.users
               == if Granted(st.sessions[uid], DELETE_USERS) then st.dir.users - {name} else st.dir.users
  {
    if name !in st.dir.users { assert st.dir.users - {name} == st.dir.users; }
  }

  /** A login or a reload: field by field, the session acts with the account's own value, or with its
      group's where its own is missing or zero. */
  lemma LoadingEffect(fields: Fields, st: State, uid: nat, name: string, f: string, x: nat)
    requires name in st.dir.users
    ensures var (st', a) := (Next(fields, st, Loading(uid, name)), st.dir.users[name]);
            && st'.dir == st.dir && uid in st'.sessions && st'.sessions - {uid} == st.sessions - {uid}
            && (Reads(st'.sessions[uid], f, x) <==>
                  if f in fields && !Granted(a.values, f) && a.group != "" && a.group in st.dir.groups
                  then Reads(st.dir.groups[a.group].values, f, x) else Reads(a.values, f, x))
  {
    EffectiveField(fields, st.dir.groups, st.dir.users[name], f);
  }

  /** Without such an account, or from somebody who is not logged in, nothing changes; and who leaves
      takes nobody along. */
  lemma NothingElse(fields: Fields, st: State, step: Step)
    ensures step.Loading? && step.name !in st.dir.users ==> Next(fields, st, step) == st
    ensures !step.Loading? && !step.Leaving? && step.uid !in st.sessions ==> Next(fields, st, step) == st
    ensures step.Leaving? ==>
              Next(fields, st, step).dir == st.dir && Next(fields, st, step).sessions == st.sessions - {step.uid}
  {
  }
}
