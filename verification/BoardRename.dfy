/** Renaming a board together with every board whose name starts with its name:
    `wd_boards_rename_board`, which stages the matching rows and then updates them one by one. */
module BoardRename {
  import opened Text
  import opened Collation
  import opened Rights
  import opened BoardTables

  // ---- The SQL pattern match and the name rewriting ----

  function Lower(c: char): char {
    if 'A' <= c <= 'Z' then ((c as int) + 32) as char else c
  }

  /** SQLite's LIKE: ASCII case-insensitive, `%` any run, `_` any one character. */
  predicate Like(pattern: string, s: string)
    decreases |pattern| + |s|
  {
    if pattern == "" then s == ""
    else if pattern[0] == '%' then
      Like(pattern[1..], s) || (s != "" && Like(pattern, s[1..]))
    else
      && s != ""
      && (pattern[0] == '_' || Lower(pattern[0]) == Lower(s[0]))
      && Like(pattern[1..], s[1..])
  }

  /** `wi_string_range_of_string`: the first occurrence; an empty string has none. */
  function IndexOf(s: string, sub: string): (r: Option<nat>)
    ensures r.Some? ==> r.value + |sub| <= |s| && sub <= s[r.value..]
  {
    if s == "" then None
    else if sub <= s then Some(0)
    else
      var r := IndexOf(s[1..], sub);
      if r.Some? then Some(r.value + 1) else None
  }

  function Replaced(s: string, old': string, new': string): string
    requires IndexOf(s, old').Some?
  {
    var i := IndexOf(s, old').value;
    s[..i] + new' + s[i + |old'|..]
  }

  // ---- The procedure, row by row ----

  /** A failed statement ends the procedure where it stands: nothing is rolled back. */
  datatype Outcome = Done(tables: Tables) | Failed(tables: Tables)

  predicate Staged(name: string, old': string, new': string) {
    name != new' && IndexOf(name, old').Some?
  }

  /** The staged array: the selected rows, without the parent board. */
  function Stage(rows: seq<string>, old': string, new': string): (staged: seq<string>)
    ensures forall b :: b in staged <==> b in rows && Staged(b, old', new')
  {
    if rows == [] then []
    else
      var row := rows[|rows| - 1];
      var rest := Stage(rows[..|rows| - 1], old', new');
      assert rows == rows[..|rows| - 1] + [row];
      if Staged(row, old', new') then rest + [row] else rest
  }

  /** `SELECT board FROM boards WHERE board LIKE 'old%' ORDER BY board`. */
  function Matching(t: Tables, old': string): seq<string> {
    Sorted(set b | b in t.boards && Like(old' + "%", b))
  }

  function RenameRows(t: Tables, staged: seq<string>, old': string, new': string): Outcome
    requires forall b | b in staged :: IndexOf(b, old').Some?
    decreases |staged|
  {
    if staged == [] then Done(t)
    else
      var from := staged[0];
      var to := Replaced(from, old', new');
      match RekeyBoard(t, from, to)
      case None => Failed(t)
      case Some(t1) => RenameRows(RetargetThreads(t1, from, to), staged[1..], old', new')
  }

  function Rename(t: Tables, old': string, new': string): Outcome {
    match RekeyBoard(t, old', new')
    case None => Failed(t)
    case Some(t1) =>
      match RenameRows(t1, Stage(Matching(t1, old'), old', new'), old', new')
      case Failed(t2) => Failed(t2)
      case Done(t2) => Done(RetargetThreads(t2, old', new'))
  }

  // ---- What a rename does to every name ----

  /** The rows that the statement selects and that contain the old name, without the board itself. */
  function Selected(t: Tables, old': string): (names: set<string>)
    ensures forall b | b in names :: b in t.boards && b != old' && IndexOf(b, old').Some?
  {
    set b | b in t.boards && b != old' && Like(old' + "%", b) && IndexOf(b, old').Some?
  }

  /** Where a rename is to take a board: the old name to the new one, and in the selected rows its
      first occurrence. */
  function NewName(t: Tables, b: string, old': string, new': string): string {
    if b == old' then new' else if b in Selected(t, old') then Replaced(b, old', new') else b
  }

  /** The rewritten name of a selected row is free when its turn comes: it is unused, or it is the
      old name, or it belongs to a row that is rewritten earlier; and no earlier row has taken it. */
  ghost predicate FreeInTurn(t: Tables, b: string, old': string, new': string)
    requires IndexOf(b, old').Some?
  {
    var to := Replaced(b, old', new');
    && (to !in t.boards || to == old' || (to in Selected(t, old') && Less(to, b)))
    && forall c | c in Selected(t, old') && Less(c, b) :: Replaced(c, old', new') != to
  }

  ghost predicate AllFreeInTurn(t: Tables, old': string, new': string) {
    forall b | b in Selected(t, old') :: FreeInTurn(t, b, old', new')
  }

  /** A row that takes the old name has no thread, which the last statement would carry on. */
  ghost predicate NothingCarriedOn(t: Tables, old': string, new': string) {
    forall b | b in Selected(t, old') && Replaced(b, old', new') == old' :: ThreadsOn(t, b) == {}
  }

  ghost predicate SafeRename(t: Tables, old': string, new': string) {
    AllFreeInTurn(t, old', new') && NothingCarriedOn(t, old', new')
  }

  ghost predicate BoardsRenamed(t: Tables, boards': map<string, Privileges>, old': string, new': string) {
    && (forall b | b in t.boards :: NewName(t, b, old', new') in boards'
                                    && boards'[NewName(t, b, old', new')] == t.boards[b])
    && (forall k | k in boards' :: exists b :: b in t.boards && k == NewName(t, b, old', new'))
    && (forall b, b' | b in t.boards && b' in t.boards && b != b' ::
         NewName(t, b, old', new') != NewName(t, b', old', new'))
  }

  ghost predicate ThreadsRenamed(t: Tables, threads': map<Uuid, Thread>, old': string, new': string) {
    && threads'.Keys == t.threads.Keys
    && (forall id | id in t.threads ::
          threads'[id] == t.threads[id].(board := NewName(t, t.threads[id].board, old', new')))
  }

  /** Every board has its new name and its old rights, no two boards have become one, every thread
      is on its board's new name, and nothing else has changed. */
  ghost predicate Renamed(t: Tables, t': Tables, old': string, new': string) {
    BoardsRenamed(t, t'.boards, old', new') && ThreadsRenamed(t, t'.threads, old', new') && t'.posts == t.posts
  }

  // ---- What it should do: one simultaneous prefix substitution ----

  function Subst(name: string, old': string, new': string): string {
    if old' <= name then new' + name[|old'|..] else name
  }

  ghost predicate BoardsSubstituted(t: Tables, boards': map<string, Privileges>, old': string, new': string) {
    && (forall b | b in t.boards :: Subst(b, old', new') in boards'
                                    && boards'[Subst(b, old', new')] == t.boards[b])
    && (forall k | k in boards' :: exists b :: b in t.boards && k == Subst(b, old', new'))
    && (forall b, b' | b in t.boards && b' in t.boards && b != b' :: Subst(b, old', new') != Subst(b', old', new'))
  }

  ghost predicate ThreadsSubstituted(t: Tables, threads': map<Uuid, Thread>, old': string, new': string) {
    && threads'.Keys == t.threads.Keys
    && (forall id | id in t.threads ::
          threads'[id] == t.threads[id].(board := Subst(t.threads[id].board, old', new')))
  }

  /** The same as `Renamed`, with the prefix substitution for the new names. */
  ghost predicate Substituted(t: Tables, t': Tables, old': string, new': string) {
    && BoardsSubstituted(t, t'.boards, old', new')
    && ThreadsSubstituted(t, t'.threads, old', new')
    && t'.posts == t.posts
  }

  /** Every selected row really starts with the old name. */
  ghost predicate MatchesArePrefixes(t: Tables, old': string) {
    forall b | b in Selected(t, old') :: old' <= b
  }

  // ---- LIKE against prefixes ----

  /** Letters are compared without regard to case, and nothing else is. */
  lemma LowerLetters(c: char)
    ensures 'A' <= c <= 'Z' ==> Lower(c) == ('a' as int + (c as int - 'A' as int)) as char
    ensures !('A' <= c <= 'Z') ==> Lower(c) == c
  {
  }

  /** One character of a pattern: `%` matches everything, `_` any one character, and any other itself. */
  lemma LikeOne(c: char, s: string)
    ensures c == '_' ==> (Like([c], s) <==> |s| == 1)
    ensures c != '_' && c != '%' ==> (Like([c], s) <==> |s| == 1 && Lower(s[0]) == Lower(c))
    ensures c == '%' ==> Like([c], s)
  {
    if c == '%' { LikeAnything(s); }
  }

  /** A pattern matches what its two parts match one after the other. */
  lemma {:induction false} LikeConcat(p: string, q: string, s: string)
    ensures Like(p + q, s) <==> exists i :: 0 <= i <= |s| && Like(p, s[..i]) && Like(q, s[i..])
    decreases |p| + |s|
  {
    if p == "" {
      assert p + q == q && s[0..] == s;
      assert forall i | 0 <= i <= |s| :: Like(p, s[..i]) <==> i == 0;
    } else {
      assert (p + q)[1..] == p[1..] + q;
      if p[0] == '%' {
        LikeConcat(p[1..], q, s);
        if s != "" { LikeConcat(p, q, s[1..]); }
        LikeSplit(p, q, s);
      } else if s != "" {
        LikeConcat(p[1..], q, s[1..]);
        if i :| 0 <= i <= |s[1..]| && Like(p[1..], s[1..][..i]) && Like(q, s[1..][i..]) {
          assert s[..i + 1][1..] == s[1..][..i] && s[i + 1..] == s[1..][i..];
        }
        if i :| 0 <= i <= |s| && Like(p, s[..i]) && Like(q, s[i..]) {
          assert s[..i][1..] == s[1..][..i - 1] && s[i..] == s[1..][i - 1..];
        }
      }
    }
  }

  /** The step for a `%`: it ends here, or takes one more character. */
  lemma LikeSplit(p: string, q: string, s: string)
    requires p != "" && p[0] == '%'
    ensures (exists i :: 0 <= i <= |s| && Like(p, s[..i]) && Like(q, s[i..])) <==>
            || (exists i :: 0 <= i <= |s| && Like(p[1..], s[..i]) && Like(q, s[i..]))
            || (s != "" && exists i :: 0 <= i <= |s[1..]| && Like(p, s[1..][..i]) && Like(q, s[1..][i..]))
  {
    if i :| 0 <= i <= |s| && Like(p, s[..i]) && Like(q, s[i..]) {
      if !Like(p[1..], s[..i]) {
        assert s[..i][1..] == s[1..][..i - 1] && s[i..] == s[1..][i - 1..];
      }
    }
    if s != "" {
      if i :| 0 <= i <= |s[1..]| && Like(p, s[1..][..i]) && Like(q, s[1..][i..]) {
        assert s[..i + 1][1..] == s[1..][..i] && s[i + 1..] == s[1..][i..];
      }
    }
  }

  /** The first occurrence, if there is any, is replaced. */
  lemma {:induction false} FirstOccurrence(s: string, sub: string)
    ensures IndexOf(s, sub).Some? ==> forall j | 0 <= j < IndexOf(s, sub).value :: !(sub <= s[j..])
    ensures IndexOf(s, sub).None? ==> forall j | 0 <= j < |s| :: !(sub <= s[j..])
  {
    if s != "" && !(sub <= s) {
      FirstOccurrence(s[1..], sub);
      assert forall j | 1 <= j < |s| :: s[j..] == s[1..][j - 1..];
    }
  }

  lemma ReplacedFirst(front: string, rest: string, old': string, new': string)
    requires old' != "" && forall j | 0 <= j < |front| :: !(old' <= (front + old' + rest)[j..])
    ensures var s := front + old' + rest;
            IndexOf(s, old') == Some(|front|) && Replaced(s, old', new') == front + new' + rest
  {
    var s := front + old' + rest;
    FirstOccurrence(s, old');
    assert s[|front|..] == old' + rest;
    assert old' <= s[|front|..];
    var i := IndexOf(s, old').value;
    assert i == |front|;
    assert s[..i] == front && s[i + |old'|..] == rest;
  }

  lemma {:induction false} LikeAnything(s: string)
    ensures Like("%", s)
    decreases |s|
  {
    if s != "" { LikeAnything(s[1..]); }
  }

  lemma {:induction false} LikePrefix(old': string, s: string)
    requires old' <= s
    ensures Like(old' + "%", s)
    decreases |old'| + |s|
  {
    var p := old' + "%";
    if old' == "" {
      LikeAnything(s);
      assert p == "%";
    } else {
      assert p[1..] == old'[1..] + "%";
      LikePrefix(old'[1..], s[1..]);
      if old'[0] == '%' {
        LikeSkip(p, s);
      }
    }
  }

  /** A `%` may swallow the character in front of a match of what follows it. */
  lemma LikeSkip(p: string, s: string)
    requires p != "" && p[0] == '%' && s != "" && Like(p[1..], s[1..])
    ensures Like(p, s)
  {
    assert Like(p, s[1..]);
  }

  /** The same letters up to ASCII case. */
  predicate CaseEqual(a: string, b: string) {
    |a| == |b| && forall i | 0 <= i < |a| :: Lower(a[i]) == Lower(b[i])
  }

  lemma CaseEqualCons(a: string, b: string)
    requires a != "" && b != ""
    ensures CaseEqual(a, b) <==> Lower(a[0]) == Lower(b[0]) && CaseEqual(a[1..], b[1..])
  {
    assert |a| == |b| ==> forall i | 1 <= i < |a| :: a[i] == a[1..][i - 1] && b[i] == b[1..][i - 1];
  }

  /** The pattern of a name without wildcards matches exactly the strings that start with the name
      up to ASCII case. */
  lemma {:induction false} LikeWithoutWildcards(old': string, s: string)
    requires '%' !in old' && '_' !in old'
    ensures Like(old' + "%", s) <==> |old'| <= |s| && CaseEqual(old', s[..|old'|])
  {
    var p := old' + "%";
    if old' == "" {
      LikeAnything(s);
      assert p == "%";
    } else {
      assert p[0] == old'[0] && p[0] in old' && p[1..] == old'[1..] + "%";
      if s != "" {
        LikeWithoutWildcards(old'[1..], s[1..]);
        if |old'| <= |s| {
          CaseEqualCons(old', s[..|old'|]);
          assert s[..|old'|][1..] == s[1..][..|old'| - 1];
        }
      }
    }
  }

  /** Without wildcards in the old name and without a name that matches it only by ignoring
      case, the selected rows are exactly the names that start with it. */
  lemma PlainNamesMatchByPrefix(t: Tables, old': string)
    requires '%' !in old' && '_' !in old'
    requires forall b | b in t.boards && |old'| <= |b| && CaseEqual(old', b[..|old'|]) :: old' <= b
    ensures MatchesArePrefixes(t, old')
    ensures forall b :: b in Selected(t, old') <==> b in t.boards && Extends(b, old')
  {
    forall b | b in Selected(t, old') ensures old' <= b {
      LikeWithoutWildcards(old', b);
    }
    PrefixesAreSelected(t, old');
  }

  lemma PrefixOrSame(b: string, old': string)
    requires old' <= b
    ensures b == old' || Extends(b, old')
  {
    if |b| == |old'| { assert b[..|old'|] == b; }
  }

  /** Every row below the old name is selected; no other if the selection goes by prefix. */
  lemma PrefixesAreSelected(t: Tables, old': string)
    ensures forall b | b in t.boards && Extends(b, old') :: b in Selected(t, old')
    ensures MatchesArePrefixes(t, old') ==> forall b :: b in Selected(t, old') <==> b in t.boards && Extends(b, old')
  {
    forall b | b in t.boards && Extends(b, old') ensures b in Selected(t, old') {
      LikePrefix(old', b);
      PrefixReplaced(b, old', "");
    }
    forall b | b in Selected(t, old') && old' <= b ensures Extends(b, old') {
      PrefixOrSame(b, old');
    }
  }

  lemma PrefixReplaced(b: string, old': string, new': string)
    requires Extends(b, old')
    ensures IndexOf(b, old') == Some(0) && Replaced(b, old', new') == Subst(b, old', new')
  {
    assert b[..0] == "";
    assert "" + new' + b[|old'|..] == new' + b[|old'|..];
  }

  // ---- The staged rows ----

  lemma {:induction false} StageAscending(rows: seq<string>, old': string, new': string)
    requires Ascending(rows)
    ensures Ascending(Stage(rows, old', new'))
  {
    if rows != [] {
      var front := rows[..|rows| - 1];
      StageAscending(front, old', new');
      var s := Stage(rows, old', new');
      var rest := Stage(front, old', new');
      forall i, j | 0 <= i < j < |s| ensures Less(s[i], s[j]) {
        if j == |rest| {
          assert s[i] in rest;
          var k :| 0 <= k < |front| && front[k] == s[i];
          assert rows[k] == s[i];
        }
      }
    }
  }

  lemma ReplacedMoves(b: string, old': string, new': string)
    requires IndexOf(b, old').Some? && old' != new'
    ensures Replaced(b, old', new') != b && (b != old' ==> Replaced(b, old', new') != new')
  {
    var i := IndexOf(b, old').value;
    var to := Replaced(b, old', new');
    assert b[i..i + |old'|] == old';
    assert to[i..i + |new'|] == new';
    if |b| == |old'| { assert b[0..|b|] == b; }
  }

  /** The rows still to come, in their order, after those in `done`. */
  ghost predicate Remaining(t: Tables, done: set<string>, rest: seq<string>, old': string) {
    && Ascending(rest) && done <= Selected(t, old')
    && (forall b :: b in rest <==> b in Selected(t, old') && b !in done)
    && (forall d, b | d in done && b in rest :: Less(d, b))
  }

  /** The last statement, after a loop that came to its end. */
  function Concluded(o: Outcome, old': string, new': string): Outcome {
    match o
    case Failed(t) => Failed(t)
    case Done(t) => Done(RetargetThreads(t, old', new'))
  }

  /** The procedure as the board's own row, the staged rows, and the board's own threads. */
  lemma StartOfRename(t: Tables, old': string, new': string) returns (t1: Tables, staged: seq<string>)
    requires old' in t.boards && new' !in t.boards
    ensures RekeyBoard(t, old', new') == Some(t1) && Remaining(t, {}, staged, old')
    ensures forall b | b in staged :: IndexOf(b, old').Some?
    ensures Rename(t, old', new') == Concluded(RenameRows(t1, staged, old', new'), old', new')
  {
    t1 := RekeyBoard(t, old', new').value;
    var rows := Matching(t1, old');
    staged := Stage(rows, old', new');
    StageAscending(rows, old', new');
    forall b ensures b in staged <==> b in Selected(t, old') {
      assert b in rows <==> b in t1.boards && Like(old' + "%", b);
      assert t1.boards.Keys == t.boards.Keys - {old'} + {new'};
    }
  }

  lemma RemainingTail(t: Tables, done: set<string>, rest: seq<string>, old': string)
    requires Remaining(t, done, rest, old') && rest != []
    ensures Remaining(t, done + {rest[0]}, rest[1..], old')
  {
    Irreflexive(rest[0]);
    forall b | b in rest[1..] ensures Less(rest[0], b) && b in rest {
      var i :| 0 <= i < |rest[1..]| && rest[1..][i] == b;
      assert rest[i + 1] == b;
    }
    forall b | b in rest && b != rest[0] ensures b in rest[1..] {
      var i :| 0 <= i < |rest| && rest[i] == b;
      assert rest[1..][i - 1] == b;
    }
  }

  /** The selected rows that come before `b`. */
  function Before(t: Tables, b: string, old': string): set<string> {
    set c | c in Selected(t, old') && Less(c, b)
  }

  lemma DoneIsBefore(t: Tables, done: set<string>, rest: seq<string>, old': string)
    requires Remaining(t, done, rest, old') && rest != []
    ensures done == Before(t, rest[0], old') && rest[0] in Selected(t, old') && rest[0] !in done
  {
    forall c | c in Selected(t, old') && Less(c, rest[0]) ensures c in done {
      if c !in done {
        var i :| 0 <= i < |rest| && rest[i] == c;
        if i == 0 { Irreflexive(c); } else { Asymmetric(rest[0], c); }
      }
    }
  }

  // ---- The loop, in step with the new names ----

  /** Where a board stands once the boards in `done` have been rewritten. */
  function Loc(t: Tables, b: string, done: set<string>, old': string, new': string): string {
    if b in done then NewName(t, b, old', new') else b
  }

  ghost predicate BoardsInStep(t: Tables, cur: map<string, Privileges>, done: set<string>, old': string, new': string) {
    && (forall b | b in t.boards :: Loc(t, b, done, old', new') in cur
                                    && cur[Loc(t, b, done, old', new')] == t.boards[b])
    && (forall k | k in cur :: exists b :: b in t.boards && k == Loc(t, b, done, old', new'))
    && (forall b, b' | b in t.boards && b' in t.boards && b != b' ::
          Loc(t, b, done, old', new') != Loc(t, b', done, old', new'))
  }

  ghost predicate ThreadsInStep(t: Tables, cur: map<Uuid, Thread>, done: set<string>, old': string, new': string) {
    && cur.Keys == t.threads.Keys
    && (forall id | id in t.threads ::
          cur[id] == t.threads[id].(board := Loc(t, t.threads[id].board, done, old', new')))
  }

  /** What holds while the loop works through the staged rows: the board's own row and the rows in
      `done` have been rewritten; the board's own threads wait for the last statement. */
  ghost predicate InStep(t: Tables, cur: Tables, done: set<string>, old': string, new': string) {
    && done <= Selected(t, old')
    && BoardsInStep(t, cur.boards, done + {old'}, old', new')
    && ThreadsInStep(t, cur.threads, done, old', new')
    && cur.posts == t.posts
  }

  function Rewrite(cur: Tables, b: string, to: string): Tables
    requires RekeyBoard(cur, b, to).Some?
  {
    RetargetThreads(RekeyBoard(cur, b, to).value, b, to)
  }

  /** A row takes its new name, which is free. */
  lemma BoardMoves(t: Tables, cur: map<string, Privileges>, done: set<string>, b: string, old': string, new': string)
    requires BoardsInStep(t, cur, done, old', new') && b in t.boards && b !in done
    requires NewName(t, b, old', new') !in cur
    ensures b in cur && BoardsInStep(t, (cur - {b})[NewName(t, b, old', new') := cur[b]], done + {b}, old', new')
  {
    var to := NewName(t, b, old', new');
    var after := (cur - {b})[to := cur[b]];
    assert Loc(t, b, done, old', new') == b && Loc(t, b, done + {b}, old', new') == to;
    forall x | x in t.boards && x != b
      ensures Loc(t, x, done + {b}, old', new') == Loc(t, x, done, old', new') != b
    {
    }
    forall k | k in after ensures exists x :: x in t.boards && k == Loc(t, x, done + {b}, old', new') {
      if k != to {
        var x :| x in t.boards && k == Loc(t, x, done, old', new');
        assert k == Loc(t, x, done + {b}, old', new');
      }
    }
  }

  /** The threads of a row follow it. */
  lemma ThreadsMove(t: Tables, cur: Tables, done: set<string>, b: string, old': string, new': string)
    requires BoardsInStep(t, cur.boards, done + {old'}, old', new') && ThreadsInStep(t, cur.threads, done, old', new')
    requires b in t.boards && b != old' && b !in done && done <= Selected(t, old')
    ensures ThreadsInStep(t, RetargetThreads(cur, b, NewName(t, b, old', new')).threads, done + {b}, old', new')
  {
    var after := RetargetThreads(cur, b, NewName(t, b, old', new')).threads;
    forall id | id in t.threads
      ensures after[id] == t.threads[id].(board := Loc(t, t.threads[id].board, done + {b}, old', new'))
    {
      var z := t.threads[id].board;
      assert cur.threads[id] == t.threads[id].(board := Loc(t, z, done, old', new'));
      if z != b { NobodyElseThere(t, cur.boards, done, z, b, old', new'); }
    }
  }

  lemma NobodyElseThere(t: Tables, cur: map<string, Privileges>, done: set<string>, z: string, b: string,
                        old': string, new': string)
    requires BoardsInStep(t, cur, done + {old'}, old', new') && done <= Selected(t, old')
    requires b in t.boards && b != old' && b !in done && z != b
    ensures Loc(t, z, done, old', new') != b && Loc(t, z, done + {b}, old', new') == Loc(t, z, done, old', new')
  {
    assert Loc(t, b, done + {old'}, old', new') == b;
    if z in t.boards {
      assert Loc(t, z, done + {old'}, old', new') != b;
    }
  }

  lemma RewriteFields(cur: Tables, b: string, to: string)
    requires b in cur.boards && b != to && to !in cur.boards
    ensures RekeyBoard(cur, b, to).Some?
    ensures Rewrite(cur, b, to).boards == (cur.boards - {b})[to := cur.boards[b]]
    ensures Rewrite(cur, b, to).threads == RetargetThreads(cur, b, to).threads
    ensures Rewrite(cur, b, to).posts == cur.posts
  {
  }

  lemma RewriteInStep(t: Tables, cur: Tables, done: set<string>, b: string, old': string, new': string)
    requires InStep(t, cur, done, old', new') && b in Selected(t, old') && b !in done && old' != new'
    requires Replaced(b, old', new') !in cur.boards
    ensures RekeyBoard(cur, b, Replaced(b, old', new')).Some?
    ensures InStep(t, Rewrite(cur, b, Replaced(b, old', new')), done + {b}, old', new')
  {
    assert done + {old'} + {b} == done + {b} + {old'};
    ReplacedMoves(b, old', new');
    BoardMoves(t, cur.boards, done + {old'}, b, old', new');
    ThreadsMove(t, cur, done, b, old', new');
    RewriteFields(cur, b, Replaced(b, old', new'));
  }

  lemma ParentInStep(t: Tables, old': string, new': string)
    requires old' in t.boards && new' !in t.boards
    ensures InStep(t, RekeyBoard(t, old', new').value, {}, old', new')
  {
    assert BoardsInStep(t, t.boards, {}, old', new') by {
      forall k | k in t.boards ensures exists b :: b in t.boards && k == Loc(t, b, {}, old', new') {
        assert k == Loc(t, k, {}, old', new');
      }
    }
    BoardMoves(t, t.boards, {}, old', old', new');
    assert {} + {old'} == {old'};
  }

  lemma TakenMeansNotFree(t: Tables, cur: map<string, Privileges>, b: string, old': string, new': string)
    requires BoardsInStep(t, cur, Before(t, b, old') + {old'}, old', new') && b in Selected(t, old') && old' != new'
    ensures Replaced(b, old', new') in cur ==> !FreeInTurn(t, b, old', new')
  {
    var to, done := Replaced(b, old', new'), Before(t, b, old') + {old'};
    ReplacedMoves(b, old', new');
    if to in cur {
      var x :| x in t.boards && to == Loc(t, x, done, old', new');
      assert x in Before(t, b, old') ==> Replaced(x, old', new') == to;
    }
  }

  lemma NotFreeMeansTaken(t: Tables, cur: map<string, Privileges>, b: string, old': string, new': string)
    requires BoardsInStep(t, cur, Before(t, b, old') + {old'}, old', new') && b in Selected(t, old')
    ensures !FreeInTurn(t, b, old', new') ==> Replaced(b, old', new') in cur
  {
    var to, done := Replaced(b, old', new'), Before(t, b, old') + {old'};
    if to in t.boards && to !in done {
      assert Loc(t, to, done, old', new') == to;
    } else if c :| c in Selected(t, old') && Less(c, b) && Replaced(c, old', new') == to {
      assert Loc(t, c, done, old', new') == to;
    }
  }

  /** A row's new name is taken in the table exactly when it is not free in turn. */
  lemma TakenInTurn(t: Tables, cur: Tables, b: string, old': string, new': string)
    requires InStep(t, cur, Before(t, b, old'), old', new') && b in Selected(t, old') && old' != new'
    ensures Replaced(b, old', new') in cur.boards <==> !FreeInTurn(t, b, old', new')
  {
    TakenMeansNotFree(t, cur.boards, b, old', new');
    NotFreeMeansTaken(t, cur.boards, b, old', new');
  }

  /** Where the procedure stops: at the first row whose new name is not free in turn. */
  ghost predicate StopsAt(t: Tables, cur: Tables, b: string, old': string, new': string) {
    && b in Selected(t, old') && !FreeInTurn(t, b, old', new')
    && (forall c | c in Before(t, b, old') :: FreeInTurn(t, c, old', new'))
    && InStep(t, cur, Before(t, b, old'), old', new')
  }

  lemma RowTakesItsName(t: Tables, cur: Tables, done: set<string>, rest: seq<string>, old': string, new': string)
    requires InStep(t, cur, done, old', new') && Remaining(t, done, rest, old') && old' != new'
    requires rest != [] && IndexOf(rest[0], old').Some?
    ensures var (b, to) := (rest[0], Replaced(rest[0], old', new'));
            if FreeInTurn(t, b, old', new')
            then RekeyBoard(cur, b, to).Some? && InStep(t, Rewrite(cur, b, to), done + {b}, old', new')
            else RekeyBoard(cur, b, to).None? && done == Before(t, b, old') && b in Selected(t, old')
  {
    var b := rest[0];
    DoneIsBefore(t, done, rest, old');
    TakenInTurn(t, cur, b, old', new');
    ReplacedMoves(b, old', new');
    if FreeInTurn(t, b, old', new') {
      RewriteInStep(t, cur, done, b, old', new');
    } else {
      RowIsThere(t, cur, done, b, old', new');
    }
  }

  lemma RenameRowsStep(cur: Tables, rest: seq<string>, old': string, new': string)
    requires rest != [] && forall b | b in rest :: IndexOf(b, old').Some?
    ensures var to := Replaced(rest[0], old', new');
            RenameRows(cur, rest, old', new') ==
            if RekeyBoard(cur, rest[0], to).Some? then RenameRows(Rewrite(cur, rest[0], to), rest[1..], old', new')
            else Failed(cur)
  {
  }

  /** The loop ends with all rows in step, or stops in step at the first clash. */
  ghost predicate Foreseen(t: Tables, o: Outcome, old': string, new': string) {
    match o
    case Done(r) => AllFreeInTurn(t, old', new') && InStep(t, r, Selected(t, old'), old', new')
    case Failed(r) => exists b :: StopsAt(t, r, b, old', new')
  }

  lemma {:induction false} RowsOutcome(t: Tables, cur: Tables, done: set<string>, rest: seq<string>, old': string,
                                       new': string)
    requires InStep(t, cur, done, old', new') && Remaining(t, done, rest, old') && old' != new'
    requires forall b | b in rest :: IndexOf(b, old').Some?
    requires forall c | c in done :: FreeInTurn(t, c, old', new')
    ensures Foreseen(t, RenameRows(cur, rest, old', new'), old', new')
    decreases |rest|
  {
    if rest == [] {
      assert done == Selected(t, old');
    } else {
      var b := rest[0];
      RowTakesItsName(t, cur, done, rest, old', new');
      RenameRowsStep(cur, rest, old', new');
      if FreeInTurn(t, b, old', new') {
        RemainingTail(t, done, rest, old');
        RowsOutcome(t, Rewrite(cur, b, Replaced(b, old', new')), done + {b}, rest[1..], old', new');
      } else {
        assert StopsAt(t, cur, b, old', new');
      }
    }
  }

  lemma RowIsThere(t: Tables, cur: Tables, done: set<string>, b: string, old': string, new': string)
    requires InStep(t, cur, done, old', new') && b in t.boards && b != old' && b !in done
    ensures b in cur.boards
  {
    assert Loc(t, b, done + {old'}, old', new') == b;
  }

  /** The whole procedure. */
  lemma RenameOutcome(t: Tables, old': string, new': string) returns (o: Outcome)
    requires old' in t.boards && new' !in t.boards
    ensures Foreseen(t, o, old', new')
    ensures Rename(t, old', new') == if o.Done? then Done(RetargetThreads(o.tables, old', new')) else o
  {
    var t1, staged := StartOfRename(t, old', new');
    ParentInStep(t, old', new');
    RowsOutcome(t, t1, {}, staged, old', new');
    o := RenameRows(t1, staged, old', new');
  }

  // ---- The results ----

  /** A rename fails exactly when the rewritten name of some selected row is not free in turn. */
  lemma RenameFails(t: Tables, old': string, new': string)
    requires old' in t.boards && new' !in t.boards
    ensures Rename(t, old', new').Failed? <==> !AllFreeInTurn(t, old', new')
  {
    var o := RenameOutcome(t, old', new');
  }

  lemma FinishedBoards(t: Tables, r: Tables, old': string, new': string)
    requires BoardsInStep(t, r.boards, Selected(t, old') + {old'}, old', new')
    ensures BoardsRenamed(t, RetargetThreads(r, old', new').boards, old', new')
  {
    var done := Selected(t, old') + {old'};
    assert forall b | b in t.boards :: Loc(t, b, done, old', new') == NewName(t, b, old', new');
    forall k | k in r.boards ensures exists b :: b in t.boards && k == NewName(t, b, old', new') {
      var b :| b in t.boards && k == Loc(t, b, done, old', new');
      assert k == NewName(t, b, old', new');
    }
  }

  lemma FinishedThreads(t: Tables, r: Tables, old': string, new': string)
    requires ThreadsInStep(t, r.threads, Selected(t, old'), old', new') && old' != new' && r.posts == t.posts
    ensures ThreadsRenamed(t, RetargetThreads(r, old', new').threads, old', new') <==> NothingCarriedOn(t, old', new')
    ensures RetargetThreads(r, old', new').posts == t.posts
  {
    var after := RetargetThreads(r, old', new').threads;
    forall id | id in t.threads
      ensures after[id] == t.threads[id].(board := NewName(t, t.threads[id].board, old', new')) <==>
              !(t.threads[id].board in Selected(t, old') && Replaced(t.threads[id].board, old', new') == old')
    {
      assert r.threads[id] == t.threads[id].(board := Loc(t, t.threads[id].board, Selected(t, old'), old', new'));
    }
    forall b | b in Selected(t, old') && Replaced(b, old', new') == old' && ThreadsOn(t, b) != {}
      ensures !ThreadsRenamed(t, after, old', new')
    {
      var id :| id in ThreadsOn(t, b);
    }
    forall id | id in t.threads ensures id in ThreadsOn(t, t.threads[id].board) {}
  }

  lemma RenamedParts(t: Tables, t': Tables, old': string, new': string)
    requires BoardsRenamed(t, t'.boards, old', new') && t'.posts == t.posts
    ensures Renamed(t, t', old', new') <==> ThreadsRenamed(t, t'.threads, old', new')
  {
  }

  lemma DoneBoards(t: Tables, old': string, new': string)
    requires old' in t.boards && new' !in t.boards && Rename(t, old', new').Done?
    ensures BoardsRenamed(t, Rename(t, old', new').tables.boards, old', new')
  {
    var o := RenameOutcome(t, old', new');
    FinishedBoards(t, o.tables, old', new');
  }

  lemma DoneThreads(t: Tables, old': string, new': string)
    requires old' in t.boards && new' !in t.boards && Rename(t, old', new').Done?
    ensures var t' := Rename(t, old', new').tables;
            t'.posts == t.posts && (ThreadsRenamed(t, t'.threads, old', new') <==> NothingCarriedOn(t, old', new'))
  {
    var o := RenameOutcome(t, old', new');
    FinishedThreads(t, o.tables, old', new');
  }

  /** The staged two-phase procedure is one simultaneous renaming of the selected rows, with their
      threads, exactly when every new name is free in turn and no thread is carried on. */
  lemma RenameIsSimultaneous(t: Tables, old': string, new': string)
    requires old' in t.boards && new' !in t.boards
    ensures SafeRename(t, old', new') <==>
              Rename(t, old', new').Done? && Renamed(t, Rename(t, old', new').tables, old', new')
  {
    RenameFails(t, old', new');
    if Rename(t, old', new').Done? {
      DoneBoards(t, old', new');
      DoneThreads(t, old', new');
      RenamedParts(t, Rename(t, old', new').tables, old', new');
    }
  }

  /** The new names are the prefix substitution exactly when the selection goes by prefix. */
  lemma SelectionIsPrefix(t: Tables, old': string, new': string)
    requires old' != new'
    ensures MatchesArePrefixes(t, old') <==> forall b | b in t.boards ::
              NewName(t, b, old', new') == Subst(b, old', new')
  {
    PrefixesAreSelected(t, old');
    assert old'[|old'|..] == "";
    forall b | b in t.boards
      ensures NewName(t, b, old', new') == Subst(b, old', new') <==> (b in Selected(t, old') ==> old' <= b)
    {
      if b in Selected(t, old') { ReplacedMoves(b, old', new'); }
      if old' <= b { PrefixOrSame(b, old'); }
      if Extends(b, old') { PrefixReplaced(b, old', new'); }
    }
  }

  /** Every board goes, with its threads, where one simultaneous prefix substitution sends it,
      exactly when the selection goes by prefix, every new name is free in turn, and no thread is
      carried on. Given the first of these, the others decide about the resulting tables. */
  lemma RenameIsSubstitution(t: Tables, old': string, new': string)
    requires Integrity(t) && old' in t.boards && new' !in t.boards
    ensures MatchesArePrefixes(t, old') && SafeRename(t, old', new') <==>
            && Rename(t, old', new').Done? && Renamed(t, Rename(t, old', new').tables, old', new')
            && forall b | b in t.boards :: NewName(t, b, old', new') == Subst(b, old', new')
    ensures MatchesArePrefixes(t, old') ==>
              (SafeRename(t, old', new') <==>
                Rename(t, old', new').Done? && Substituted(t, Rename(t, old', new').tables, old', new'))
  {
    RenameIsSimultaneous(t, old', new');
    SelectionIsPrefix(t, old', new');
    if MatchesArePrefixes(t, old') {
      RenamedIsSubstituted(t, Rename(t, old', new').tables, old', new');
    }
  }

  lemma RenamedIsSubstituted(t: Tables, t': Tables, old': string, new': string)
    requires Integrity(t) && forall b | b in t.boards :: NewName(t, b, old', new') == Subst(b, old', new')
    ensures Renamed(t, t', old', new') <==> Substituted(t, t', old', new')
  {
    assert BoardsRenamed(t, t'.boards, old', new') <==> BoardsSubstituted(t, t'.boards, old', new') by {
      forall k | k in t'.boards
        ensures (exists b :: b in t.boards && k == NewName(t, b, old', new')) <==>
                (exists b :: b in t.boards && k == Subst(b, old', new'))
      {
        if b :| b in t.boards && k == NewName(t, b, old', new') { assert k == Subst(b, old', new'); }
        if b :| b in t.boards && k == Subst(b, old', new') { assert k == NewName(t, b, old', new'); }
      }
    }
  }

  // ---- Consequences for prefixes ----

  lemma SubstInjective(a: string, b: string, old': string, new': string)
    requires old' <= a && old' <= b && Subst(a, old', new') == Subst(b, old', new')
    ensures a == b
  {
    assert a == old' + a[|old'|..] && b == old' + b[|old'|..];
    assert a[|old'|..] == (new' + a[|old'|..])[|new'|..];
    assert b[|old'|..] == (new' + b[|old'|..])[|new'|..];
  }

  /** The new name of a board below the old one is unused, or the old name, or that of a board below
      the old one that is rewritten earlier. */
  ghost predicate SubstFreeInTurn(t: Tables, b: string, old': string, new': string) {
    var to := Subst(b, old', new');
    to !in t.boards || to == old' || (Extends(to, old') && Less(to, b))
  }

  lemma FreeBelow(t: Tables, b: string, old': string, new': string)
    requires MatchesArePrefixes(t, old') && b in t.boards && Extends(b, old')
    ensures b in Selected(t, old') && (FreeInTurn(t, b, old', new') <==> SubstFreeInTurn(t, b, old', new'))
  {
    PrefixesAreSelected(t, old');
    PrefixReplaced(b, old', new');
    Irreflexive(b);
    forall c | c in Selected(t, old') && Less(c, b) ensures Replaced(c, old', new') != Replaced(b, old', new') {
      PrefixReplaced(c, old', new');
      if Subst(c, old', new') == Subst(b, old', new') { SubstInjective(c, b, old', new'); }
    }
  }

  /** When the selection goes by prefix, a rename fails exactly when the new name of some board
      below the old one is taken when its turn comes. */
  lemma RenameFailsWhenTaken(t: Tables, old': string, new': string)
    requires old' in t.boards && new' !in t.boards && MatchesArePrefixes(t, old')
    ensures Rename(t, old', new').Failed? <==>
            exists b :: b in t.boards && Extends(b, old') && !SubstFreeInTurn(t, b, old', new')
  {
    RenameFails(t, old', new');
    PrefixesAreSelected(t, old');
    forall b | b in t.boards && Extends(b, old')
      ensures FreeInTurn(t, b, old', new') <==> SubstFreeInTurn(t, b, old', new')
    {
      FreeBelow(t, b, old', new');
    }
  }

  /** When no board's name starts with the new name, every new name is free. */
  lemma UnusedNewNameIsSafe(t: Tables, old': string, new': string)
    requires old' in t.boards && MatchesArePrefixes(t, old') && forall b | b in t.boards :: !(new' <= b)
    ensures SafeRename(t, old', new')
  {
    PrefixesAreSelected(t, old');
    forall b | b in Selected(t, old')
      ensures FreeInTurn(t, b, old', new') && Replaced(b, old', new') !in t.boards
    {
      FreeBelow(t, b, old', new');
      PrefixReplaced(b, old', new');
      assert (new' + b[|old'|..])[..|new'|] == new';
    }
  }

  /** The name as a path: the board itself, or below it. */
  function SubtreeSubst(name: string, old': string, new': string): string {
    if name == old' then new'
    else if old' + "/" <= name then new' + name[|old'|..]
    else name
  }

  /** The substitution is the rename of one subtree of paths exactly when no other board extends
      the old name without a separating slash. */
  lemma SubtreeRename(t: Tables, old': string, new': string)
    requires old' in t.boards && old' != new'
    ensures (forall b | b in t.boards :: Subst(b, old', new') == SubtreeSubst(b, old', new')) <==>
            (forall b | b in t.boards && Extends(b, old') :: b[|old'|] == '/')
  {
    forall b | b in t.boards && Extends(b, old')
      ensures Subst(b, old', new') == SubtreeSubst(b, old', new') <==> b[|old'|] == '/'
    {
      PrefixReplaced(b, old', new');
      ReplacedMoves(b, old', new');
      assert old' + "/" <= b <==> b[|old'|] == '/' by {
        if b[|old'|] == '/' { assert b[..|old'| + 1] == old' + "/"; }
      }
    }
    forall b | b in t.boards && !Extends(b, old') ensures Subst(b, old', new') == SubtreeSubst(b, old', new') {
      if old' <= b {
        PrefixOrSame(b, old');
        assert b[|old'|..] == "";
      } else {
        assert |b| > |old'| ==> b[..|old'| + 1][..|old'|] == b[..|old'|];
      }
    }
  }

  lemma {:induction false} ImageSize(xs: set<string>, ys: set<string>, old': string, new': string)
    requires forall x | x in xs :: Subst(x, old', new') in ys
    requires forall y | y in ys :: exists x :: x in xs && y == Subst(x, old', new')
    requires forall x, x' | x in xs && x' in xs && x != x' :: Subst(x, old', new') != Subst(x', old', new')
    ensures |xs| == |ys|
    decreases |xs|
  {
    if xs == {} {
      assert ys == {};
    } else {
      var x :| x in xs;
      ImageSize(xs - {x}, ys - {Subst(x, old', new')}, old', new');
    }
  }

  /** A substitution keeps the number of rows in every table, and every right. */
  lemma SubstitutionKeepsRows(t: Tables, t': Tables, old': string, new': string)
    requires Substituted(t, t', old', new')
    ensures |t'.boards| == |t.boards| && |t'.threads| == |t.threads| && |t'.posts| == |t.posts|
    ensures forall a: Account, b | b in t.boards ::
              Readable(t'.boards[Subst(b, old', new')], a) == Readable(t.boards[b], a)
              && Writable(t'.boards[Subst(b, old', new')], a) == Writable(t.boards[b], a)
  {
    ImageSize(t.boards.Keys, t'.boards.Keys, old', new');
    assert |t'.boards.Keys| == |t'.boards| && |t.boards.Keys| == |t.boards|;
    assert |t'.threads.Keys| == |t'.threads| && |t.threads.Keys| == |t.threads|;
  }

  // ---- References ----

  /** A rename that reports success leaves no dangling reference: no condition on the names. */
  lemma RenameKeepsIntegrity(t: Tables, old': string, new': string)
    requires Integrity(t) && old' in t.boards && new' !in t.boards
    requires Rename(t, old', new').Done?
    ensures Integrity(Rename(t, old', new').tables)
  {
    var o := RenameOutcome(t, old', new');
    FinishedReferences(t, o.tables, old', new');
  }

  lemma NewNamesExist(t: Tables, cur: map<string, Privileges>, old': string, new': string)
    requires BoardsInStep(t, cur, Selected(t, old') + {old'}, old', new')
    ensures forall b | b in t.boards :: NewName(t, b, old', new') in cur
  {
    forall b | b in t.boards ensures NewName(t, b, old', new') in cur {
      assert Loc(t, b, Selected(t, old') + {old'}, old', new') == NewName(t, b, old', new');
    }
  }

  lemma ThreadsLand(t: Tables, r: Tables, old': string, new': string)
    requires Integrity(t) && old' in t.boards && ThreadsInStep(t, r.threads, Selected(t, old'), old', new')
    requires (forall b | b in t.boards :: NewName(t, b, old', new') in r.boards) && r.posts == t.posts
    ensures Integrity(RetargetThreads(r, old', new'))
  {
    var t' := RetargetThreads(r, old', new');
    assert NewName(t, old', old', new') == new';
    forall id | id in t'.threads ensures t'.threads[id].board in t'.boards {
      var z := t.threads[id].board;
      assert r.threads[id] == t.threads[id].(board := Loc(t, z, Selected(t, old'), old', new'));
      assert z != old' ==> Loc(t, z, Selected(t, old'), old', new') == NewName(t, z, old', new');
    }
  }

  lemma FinishedReferences(t: Tables, r: Tables, old': string, new': string)
    requires Integrity(t) && old' in t.boards && InStep(t, r, Selected(t, old'), old', new')
    ensures Integrity(RetargetThreads(r, old', new'))
  {
    NewNamesExist(t, r.boards, old', new');
    ThreadsLand(t, r, old', new');
  }

  /** The old name exists where the procedure stopped exactly when an earlier row has taken it. */
  lemma OldNameTaken(t: Tables, r: Tables, stop: string, old': string, new': string)
    requires StopsAt(t, r, stop, old', new') && old' in t.boards && new' !in t.boards
    ensures old' in r.boards <==> exists b :: b in Before(t, stop, old') && Replaced(b, old', new') == old'
  {
    var done := Before(t, stop, old') + {old'};
    if old' in r.boards {
      var x :| x in t.boards && old' == Loc(t, x, done, old', new');
      assert x in Before(t, stop, old');
    }
    if b :| b in Before(t, stop, old') && Replaced(b, old', new') == old' {
      assert Loc(t, b, done, old', new') == old';
    }
  }

  lemma StoppedThread(t: Tables, r: Tables, done: set<string>, id: Uuid, old': string, new': string)
    requires InStep(t, r, done, old', new') && id in t.threads && t.threads[id].board in t.boards
    ensures r.threads[id].board in r.boards <==> t.threads[id].board != old' || old' in r.boards
  {
    var z := t.threads[id].board;
    assert r.threads[id].board == Loc(t, z, done, old', new');
    if z != old' { assert Loc(t, z, done + {old'}, old', new') == Loc(t, z, done, old', new'); }
  }

  lemma StoppedReferences(t: Tables, r: Tables, stop: string, old': string, new': string)
    requires Integrity(t) && StopsAt(t, r, stop, old', new') && old' in t.boards && new' !in t.boards
    ensures Integrity(r) <==> ThreadsOn(t, old') == {} || old' in r.boards
  {
    var done := Before(t, stop, old');
    forall id | id in t.threads
      ensures r.threads[id].board in r.boards <==> t.threads[id].board != old' || old' in r.boards
    {
      StoppedThread(t, r, done, id, old', new');
    }
    if ThreadsOn(t, old') != {} && old' !in r.boards {
      var id :| id in ThreadsOn(t, old');
      assert r.threads[id].board !in r.boards;
    }
    if ThreadsOn(t, old') == {} {
      assert forall id | id in t.threads :: t.threads[id].board == old' ==> id in ThreadsOn(t, old');
    }
  }

  /** Some row takes the old name before the turn of every row whose new name is not free. */
  ghost predicate OldNameSaved(t: Tables, old': string, new': string) {
    exists b :: b in Selected(t, old') && Replaced(b, old', new') == old'
                && forall c | c in Selected(t, old') && !FreeInTurn(t, c, old', new') :: Less(b, c)
  }

  /** The tables on which a rename of a board leaves threads without a board behind. */
  ghost predicate LosesThreads(t: Tables, old': string, new': string) {
    !AllFreeInTurn(t, old', new') && ThreadsOn(t, old') != {} && !OldNameSaved(t, old', new')
  }

  lemma FailureDangles(t: Tables, old': string, new': string)
    requires Integrity(t) && old' in t.boards && new' !in t.boards && Rename(t, old', new').Failed?
    ensures Integrity(Rename(t, old', new').tables) <==> ThreadsOn(t, old') == {} || OldNameSaved(t, old', new')
  {
    var o := RenameOutcome(t, old', new');
    var r := o.tables;
    var stop :| StopsAt(t, r, stop, old', new');
    OldNameTaken(t, r, stop, old', new');
    StoppedReferences(t, r, stop, old', new');
    forall b, c | b in Before(t, stop, old') && c in Selected(t, old') && !FreeInTurn(t, c, old', new')
      ensures Less(b, c)
    {
      Total(stop, c);
      if Less(stop, c) { Transitive(b, stop, c); }
    }
  }

  /** A rename that fails half-way is not rolled back: the board's own row has moved but its own
      threads have not. It is harmless exactly when there are none, or when another row has taken
      the old name before every row that clashes. */
  lemma FailedRenameDangles(t: Tables, old': string, new': string)
    requires Integrity(t) && old' in t.boards && new' !in t.boards
    ensures Integrity(Rename(t, old', new').tables) <==> !LosesThreads(t, old', new')
  {
    RenameFails(t, old', new');
    if Rename(t, old', new').Failed? {
      FailureDangles(t, old', new');
    } else {
      RenameKeepsIntegrity(t, old', new');
    }
  }

  const Example := Tables(map["a" := NoRights, "a/x" := NoRights, "b/x" := NoRights], map["t" := Thread("a", "", "")],
                          map[])

  lemma ExampleSelection()
    ensures Selected(Example, "a") == {"a/x"} && Replaced("a/x", "a", "b") == "b/x"
    ensures !FreeInTurn(Example, "a/x", "a", "b")
  {
    PlainNamesMatchByPrefix(Example, "a");
    assert Extends("a/x", "a");
    PrefixReplaced("a/x", "a", "b");
  }

  /** A concrete rename that fails: "a" has a sub-board whose new name is taken, and a thread. */
  lemma FailedRenameExample()
    ensures Integrity(Example) && Rename(Example, "a", "b").Failed? && !Integrity(Rename(Example, "a", "b").tables)
  {
    ExampleSelection();
    RenameFails(Example, "a", "b");
    assert "t" in ThreadsOn(Example, "a");
    FailedRenameDangles(Example, "a", "b");
  }
}
