/** The account functions as the server runs them: loops over the field table that overlay and
    check privileges, and statements and loops that update the users and groups tables in place. */
module AccountServer {
  import opened Text
  import opened Accounts

  function Filled(values: Values, group: Values, field: string): Values {
    if Value(values, field) == 0 && field in group then values[field := group[field]] else values
  }

  lemma OverlayOne(fields: Fields, todo: set<string>, own: Values, group: Values, field: string)
    requires field in todo && todo <= fields.Keys
    ensures Overlay(fields - (todo - {field}), own, group) == Filled(Overlay(fields - todo, own, group), group, field)
  {
  }

  lemma OverlayEnds(fields: Fields, own: Values, group: Values)
    ensures Overlay(fields - fields.Keys, own, group) == own
    ensures Overlay(fields - {}, own, group) == Overlay(fields, own, group)
  {
    assert fields - {} == fields;
  }

  /** An account read from the database or from a message. */
  class Record {
    var values: Values

    constructor (values: Values)
      ensures this.values == values
    {
      this.values := values;
    }

    /** One round of the loop. */
    method Fill(field: string, group: Values)
      modifies this
      ensures values == Filled(old(values), group, field)
    {
      if field !in values {
        if field in group {
          values := values[field := group[field]];
        }
      } else if values[field] == 0 {
        if field in group {
          values := values[field := group[field]];
        }
      }
    }

    method Override(fields: Fields, group: Values)
      modifies this
      ensures values == Overlay(fields, old(values), group)
    {
      var todo := fields.Keys;
      OverlayEnds(fields, values, group);
      while todo != {}
        invariant todo <= fields.Keys
        invariant values == Overlay(fields - todo, old(values), group)
        decreases |todo|
      {
        var field :| field in todo;
        OverlayOne(fields, todo, old(values), group, field);
        Fill(field, group);
        todo := todo - {field};
      }
      OverlayEnds(fields, old(values), group);
    }

    /** `wd_account_verify_privileges_for_user`, after the overlay. */
    method MayBeGrantedBy(fields: Fields, editor: Values) returns (ok: bool)
      ensures ok <==> Verified(fields, editor, values)
    {
      if Holds(editor, RAISE_PRIVILEGES) {
        return true;
      }
      var todo := fields.Keys;
      while todo != {}
        invariant todo <= fields.Keys
        invariant forall f | f in fields && f !in todo :: Permits(fields[f], Value(editor, f), Value(values, f))
        decreases |todo|
      {
        var field :| field in todo;
        var theirs, asked := Value(editor, field), Value(values, field);
        if fields[field].Limit? {
          if theirs > 0 && (asked > theirs || asked == 0) {
            return false;
          }
        } else if theirs == 0 && asked != 0 {
          return false;
        }
        todo := todo - {field};
      }
      ok := true;
    }
  }

  function PrimaryRenamed(a: Account, from: string, to: string): Account {
    a.(group := if a.group == from then to else a.group)
  }

  /** Split the text, replace the first occurrence, and join again. */
  method RenameInText(text: string, from: string, to: string) returns (renamed: string)
    ensures renamed == RenamedText(text, from, to)
  {
    var names := Split(text, SEPARATOR);
    var i := 0;
    while i < |names| && names[i] != from
      invariant 0 <= i <= |names| && from !in names[..i]
    {
      i := i + 1;
    }
    FoundAt(names, from, i);
    renamed := if i < |names| then Join(names[i := to], SEPARATOR) else text;
  }

  lemma {:induction false} FoundAt(names: seq<string>, name: string, i: nat)
    requires i <= |names| && name !in names[..i]
    requires i < |names| ==> names[i] == name
    ensures IndexIn(names, name) == if i < |names| then Some(i) else None
  {
    if i > 0 {
      assert names[0] in names[..i];
      assert forall n | n in names[1..][..i - 1] :: n in names[..i];
      FoundAt(names[1..], name, i - 1);
    }
  }

  function ListRenamed(a: Account, from: string, to: string): Account {
    a.(groups := if a.groups.Some? then Some(RenamedText(a.groups.value, from, to)) else None)
  }

  method RenameInRow(row: Account, from: string, to: string) returns (renamed: Account)
    ensures renamed == ListRenamed(row, from, to)
  {
    renamed := row;
    if row.groups.Some? {
      var text := RenameInText(row.groups.value, from, to);
      renamed := row.(groups := Some(text));
    }
  }

  /** The users table while the lists of the users in `todo` are not updated yet. */
  function HalfRenamed(users: map<string, Account>, todo: set<string>, from: string, to: string): map<string, Account> {
    map u | u in users ::
      if u in todo then PrimaryRenamed(users[u], from, to)
        else ListRenamed(PrimaryRenamed(users[u], from, to), from, to)
  }

  lemma HalfRenamedOne(users: map<string, Account>, todo: set<string>, u: string, from: string, to: string)
    requires u in todo && todo <= users.Keys
    ensures var half := HalfRenamed(users, todo, from, to);
            HalfRenamed(users, todo - {u}, from, to) == half[u := ListRenamed(half[u], from, to)]
  {
  }

  lemma HalfRenamedAll(users: map<string, Account>, from: string, to: string)
    ensures HalfRenamed(users, {}, from, to) == RenamedMembers(users, from, to)
  {
  }

  class Store {
    const fields: Fields
    var users: map<string, Account>
    var groups: map<string, Account>
    /** The privileges that the logged-in users act with. */
    var sessions: map<nat, Values>

    constructor (fields: Fields, dir: Directory)
      ensures this.fields == fields && View() == State(dir, map[])
    {
      this.fields, users, groups, sessions := fields, dir.users, dir.groups, map[];
    }

    ghost function View(): State
      reads this
    {
      State(Directory(users, groups), sessions)
    }

    method ReadWithGroup(a: Account) returns (record: Record)
      ensures fresh(record) && record.values == Effective(fields, groups, a)
    {
      record := new Record(a.values);
      if a.group != "" && a.group in groups {
        record.Override(fields, groups[a.group].values);
      }
    }

    method MayGrant(uid: nat, a: Account) returns (ok: bool)
      requires uid in sessions
      ensures ok <==> Verified(fields, sessions[uid], Effective(fields, groups, a))
    {
      var record := ReadWithGroup(a);
      ok := record.MayBeGrantedBy(fields, sessions[uid]);
    }

    method CreateUser(uid: nat, name: string, c: Change) returns (ok: bool)
      requires uid in sessions
      modifies this
      ensures View() == Next(fields, old(View()), CreatingUser(uid, name, c))
      ensures ok <==> Decide(fields, old(View()).dir, old(sessions[uid]), CreatingUser(uid, name, c)).Accepted?
    {
      if !Holds(sessions[uid], CREATE_USERS) || name in users || name == "" {
        return false;
      }
      var a := Updated(NewAccount, c);
      ok := MayGrant(uid, a);
      if ok {
        users := users[name := a];
      }
    }

    method CreateGroup(uid: nat, name: string, c: Change) returns (ok: bool)
      requires uid in sessions
      modifies this
      ensures View() == Next(fields, old(View()), CreatingGroup(uid, name, c))
      ensures ok <==> Decide(fields, old(View()).dir, old(sessions[uid]), CreatingGroup(uid, name, c)).Accepted?
    {
      if !Holds(sessions[uid], CREATE_GROUPS) || name in groups || name == "" {
        return false;
      }
      var g := GroupUpdated(NewAccount, c);
      ok := MayGrant(uid, g);
      if ok {
        groups := groups[name := g];
      }
    }

    method EditUser(uid: nat, name: string, c: Change) returns (ok: bool)
      requires uid in sessions
      modifies this
      ensures View() == Next(fields, old(View()), EditingUser(uid, name, c))
      ensures ok <==> Decide(fields, old(View()).dir, old(sessions[uid]), EditingUser(uid, name, c)).Accepted?
    {
      if !Holds(sessions[uid], EDIT_USERS) || Taken(users, name, c) || name !in users {
        return false;
      }
      var a := Updated(users[name], c);
      ok := MayGrant(uid, a);
      if ok {
        users := (users - {name})[NameAfter(name, c) := a];
      }
    }

    /** `wd_accounts_rename_group`: one statement for the primary groups, then one update for each
        user whose list of groups has the name. */
    method RenameMembers(from: string, to: string)
      modifies this`users
      ensures users == RenamedMembers(old(users), from, to)
    {
      ghost var before := users;
      users := map u | u in users :: PrimaryRenamed(users[u], from, to);
      var todo := users.Keys;
      while todo != {}
        invariant todo <= before.Keys && users == HalfRenamed(before, todo, from, to)
        decreases |todo|
      {
        var u :| u in todo;
        HalfRenamedOne(before, todo, u, from, to);
        var row := RenameInRow(users[u], from, to);
        users := users[u := row];
        todo := todo - {u};
      }
      HalfRenamedAll(before, from, to);
    }

    method EditGroup(uid: nat, name: string, c: Change) returns (ok: bool)
      requires uid in sessions
      modifies this
      ensures View() == Next(fields, old(View()), EditingGroup(uid, name, c))
      ensures ok <==> Decide(fields, old(View()).dir, old(sessions[uid]), EditingGroup(uid, name, c)).Accepted?
    {
      if !Holds(sessions[uid], EDIT_GROUPS) || Taken(groups, name, c) || name !in groups {
        return false;
      }
      var g := GroupUpdated(groups[name], c);
      ok := MayGrant(uid, g);
      if ok {
        groups := (groups - {name})[NameAfter(name, c) := g];
        if NameAfter(name, c) != name {
          RenameMembers(name, NameAfter(name, c));
        }
      }
    }

    /** A login or a reload reads the account anew. */
    method Load(uid: nat, name: string)
      modifies this
      ensures View() == Next(fields, old(View()), Loading(uid, name))
    {
      if name in users {
        var record := ReadWithGroup(users[name]);
        sessions := sessions[uid := record.values];
      }
    }
  }
}
