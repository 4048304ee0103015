/** File paths and drop box permissions. */
module Files {
  import opened Text

  // ---- Which paths a client may name ----

  predicate Contains(s: string, sub: string) {
    exists i | 0 <= i <= |s| :: sub <= s[i..]
  }

  /** `wd_files_path_is_valid`. */
  predicate PathIsValid(path: string) {
    !("." <= path) && !Contains(path, "/..") && !Contains(path, "../")
  }

  predicate EndsIn(s: string, suffix: string) {
    |suffix| <= |s| && s[|s| - |suffix|..] == suffix
  }

  /** Some component but the first starts with two dots. */
  predicate LaterDots(parts: seq<string>) {
    exists i | 1 <= i < |parts| :: ".." <= parts[i]
  }

  /** Some component but the last ends in two dots. */
  predicate EarlierDots(parts: seq<string>) {
    exists i | 0 <= i < |parts| - 1 :: EndsIn(parts[i], "..")
  }

  /** `wd_files_real_path`. */
  function RealPath(files: string, account: string, path: string): string {
    if account != "" then files + "/" + account + "/" + path else files + "/" + path
  }

  /** Where a path leads if `.` and `..` are followed name by name, from an empty stack. */
  function Lexical(parts: seq<string>): seq<string> {
    if parts == [] then []
    else
      var front, c := Lexical(parts[..|parts| - 1]), parts[|parts| - 1];
      if c == "" || c == "." then front
      else if c == ".." then (if front == [] then [] else front[..|front| - 1])
      else front + [c]
  }

  lemma ContainsShift(c: char, s: string, sub: string)
    ensures Contains([c] + s, sub) <==> Contains(s, sub) || sub <= [c] + s
  {
    var t := [c] + s;
    if sub <= t { assert t[0..] == t; }
    if Contains(s, sub) {
      var i :| 0 <= i <= |s| && sub <= s[i..];
      assert t[i + 1..] == s[i..];
    }
    if Contains(t, sub) {
      var i :| 0 <= i <= |t| && sub <= t[i..];
      if i == 0 {
        assert t[0..] == t;
      } else {
        assert t[i..] == s[i - 1..];
      }
    }
  }

  /** The text of a path up to its first slash is its first component. */
  lemma {:induction false} SplitHead(s: string)
    ensures var parts := Split(s, '/');
            if |parts| == 1 then s == parts[0]
            else |parts[0]| < |s| && s[..|parts[0]|] == parts[0] && s[|parts[0]|] == '/'
  {
    if s != "" {
      SplitHead(s[1..]);
      var rest := Split(s[1..], '/');
      if s[0] != '/' {
        assert s == [s[0]] + s[1..];
        assert |rest| > 1 ==> s[..|rest[0]| + 1] == [s[0]] + s[1..][..|rest[0]|];
      }
    }
  }

  lemma StartsInFirst(s: string, dots: string)
    requires '/' !in dots
    ensures dots <= s <==> dots <= Split(s, '/')[0]
  {
    SplitHead(s);
    var first := Split(s, '/')[0];
    assert forall k | 0 <= k < |dots| :: dots[k] in dots;
  }

  lemma LaterDotsInFront(rest: seq<string>)
    requires rest != []
    ensures LaterDots([""] + rest) <==> LaterDots(rest) || ".." <= rest[0]
  {
    var parts := [""] + rest;
    assert forall i | 1 <= i < |parts| :: parts[i] == rest[i - 1];
    if LaterDots(rest) {
      var i :| 1 <= i < |rest| && ".." <= rest[i];
      assert parts[i + 1] == rest[i];
    }
    if ".." <= rest[0] { assert parts[1] == rest[0]; }
  }

  lemma LaterDotsLonger(first: string, rest: seq<string>)
    requires rest != []
    ensures LaterDots([first] + rest[1..]) <==> LaterDots(rest)
  {
    assert forall i | 1 <= i < |rest| :: ([first] + rest[1..])[i] == rest[i];
  }

  lemma LaterDotsShift(c: char, s: string)
    ensures LaterDots(Split([c] + s, '/')) <==> LaterDots(Split(s, '/')) || (c == '/' && ".." <= s)
  {
    assert ([c] + s)[1..] == s;
    if c == '/' {
      StartsInFirst(s, "..");
      LaterDotsInFront(Split(s, '/'));
    } else {
      LaterDotsLonger([c] + Split(s, '/')[0], Split(s, '/'));
    }
  }

  lemma {:induction false} SlashDots(s: string)
    ensures Contains(s, "/..") <==> LaterDots(Split(s, '/'))
  {
    if s != "" {
      SlashDots(s[1..]);
      assert s == [s[0]] + s[1..];
      ContainsShift(s[0], s[1..], "/..");
      LaterDotsShift(s[0], s[1..]);
      assert "/.." <= s <==> s[0] == '/' && ".." <= s[1..];
    }
  }

  lemma DotsSlashStart(c: char, s: string)
    requires c != '/'
    ensures "../" <= [c] + s <==> |Split(s, '/')| > 1 && [c] + Split(s, '/')[0] == ".."
  {
    SplitHead(s);
    var first := Split(s, '/')[0];
    var t := [c] + s;
    if "../" <= t {
      assert t[0] == '.' && t[1] == '.' && t[2] == '/';
      assert s[0] == '.' && s[1] == '/';
      assert forall k | 0 <= k < |first| :: first[k] == s[k] && first[k] in first;
      assert |first| == 1;
    }
    if |Split(s, '/')| > 1 && [c] + first == ".." {
      assert c == ([c] + first)[0] == '.' && first == ([c] + first)[1..] == ".";
      assert s[0] == s[..1][0] == '.';
    }
  }

  /** A new empty component in front, or a longer first component. */
  lemma EarlierDotsInFront(rest: seq<string>)
    requires rest != []
    ensures EarlierDots([""] + rest) <==> EarlierDots(rest)
  {
    var parts := [""] + rest;
    assert !EndsIn(parts[0], "..");
    assert forall i | 1 <= i < |parts| :: parts[i] == rest[i - 1];
    if EarlierDots(rest) {
      var i :| 0 <= i < |rest| - 1 && EndsIn(rest[i], "..");
      assert parts[i + 1] == rest[i];
    }
  }

  lemma EarlierDotsLonger(c: char, rest: seq<string>)
    requires rest != []
    ensures EarlierDots([[c] + rest[0]] + rest[1..]) <==>
              EarlierDots(rest) || (|rest| > 1 && [c] + rest[0] == "..")
  {
    var parts := [[c] + rest[0]] + rest[1..];
    assert forall i | 1 <= i < |parts| :: parts[i] == rest[i];
    EndsShift(c, rest[0]);
    if EarlierDots(rest) {
      var i :| 0 <= i < |rest| - 1 && EndsIn(rest[i], "..");
      assert EndsIn(parts[i], "..");
    }
    if |rest| > 1 && [c] + rest[0] == ".." {
      assert EndsIn(parts[0], "..");
    }
  }

  lemma EarlierDotsShift(c: char, s: string)
    ensures EarlierDots(Split([c] + s, '/')) <==> EarlierDots(Split(s, '/')) || "../" <= [c] + s
  {
    assert ([c] + s)[1..] == s;
    if c == '/' {
      EarlierDotsInFront(Split(s, '/'));
    } else {
      DotsSlashStart(c, s);
      EarlierDotsLonger(c, Split(s, '/'));
    }
  }

  lemma EndsShift(c: char, s: string)
    ensures EndsIn([c] + s, "..") <==> EndsIn(s, "..") || [c] + s == ".."
  {
    var t := [c] + s;
    if |s| >= 2 { assert t[|t| - 2..] == s[|s| - 2..]; }
  }

  lemma {:induction false} DotsSlash(s: string)
    ensures Contains(s, "../") <==> EarlierDots(Split(s, '/'))
  {
    if s != "" {
      DotsSlash(s[1..]);
      assert s == [s[0]] + s[1..];
      ContainsShift(s[0], s[1..], "../");
      EarlierDotsShift(s[0], s[1..]);
    }
  }

  /** A path is accepted exactly when its first component does not start with a dot, no later
      component starts with two dots, and no earlier component ends in two dots. */
  lemma ValidPaths(path: string)
    ensures var parts := Split(path, '/');
            PathIsValid(path) <==> !("." <= parts[0]) && !LaterDots(parts) && !EarlierDots(parts)
  {
    SlashDots(path);
    DotsSlash(path);
    StartsInFirst(path, ".");
  }

  lemma ValidPathsDoNotRise(path: string)
    requires PathIsValid(path)
    ensures ".." !in Split(path, '/')
  {
    ValidPaths(path);
    var parts := Split(path, '/');
    forall i | 0 <= i < |parts| ensures parts[i] != ".." {
      assert i > 0 ==> !(".." <= parts[i]);
    }
  }

  // ---- The account root is never left ----

  function Grown(c: char, rest: seq<string>): seq<string>
    requires rest != []
  {
    if c == '/' then [""] + rest else [[c] + rest[0]] + rest[1..]
  }

  lemma GrownAppend(c: char, rest: seq<string>, more: seq<string>)
    requires rest != []
    ensures Grown(c, rest + more) == Grown(c, rest) + more
  {
    assert (rest + more)[1..] == rest[1..] + more;
  }

  lemma SplitGrows(s: string, u: string)
    requires s != "" && s[1..] == u
    ensures Split(s, '/') == Grown(s[0], Split(u, '/'))
  {
  }

  lemma {:induction false} SplitAppend(s: string, t: string)
    ensures Split(s + "/" + t, '/') == Split(s, '/') + Split(t, '/')
  {
    var u := s + "/" + t;
    if s == "" {
      SplitGrows(u, t);
    } else {
      SplitGrows(u, s[1..] + "/" + t);
      SplitAppend(s[1..], t);
      SplitGrows(s, s[1..]);
      GrownAppend(s[0], Split(s[1..], '/'), Split(t, '/'));
    }
  }

  lemma {:induction false} OnlyDown(parts: seq<string>, more: seq<string>)
    requires ".." !in more
    ensures Lexical(parts) <= Lexical(parts + more)
    decreases |more|
  {
    if more == [] {
      assert parts + more == parts;
    } else {
      var front := more[..|more| - 1];
      assert (parts + more)[..|parts + more| - 1] == parts + front;
      assert ".." !in front && more[|more| - 1] != "..";
      OnlyDown(parts, front);
    }
  }

  /** What is reached after any number of the components of an accepted path, taken below the
      files root and the account's root, is below the account's root; and below the files root too
      if the account's root does not name a parent directory. */
  lemma NeverAboveTheRoot(files: string, account: string, path: string, k: nat)
    requires PathIsValid(path)
    requires var root := if account != "" then files + "/" + account else files;
             |Split(root, '/')| <= k <= |Split(RealPath(files, account, path), '/')|
    ensures var root := if account != "" then files + "/" + account else files;
            var reached := Lexical(Split(RealPath(files, account, path), '/')[..k]);
            && Lexical(Split(root, '/')) <= reached
            && (".." !in Split(account, '/') ==> Lexical(Split(files, '/')) <= reached)
  {
    var root := if account != "" then files + "/" + account else files;
    assert RealPath(files, account, path) == root + "/" + path;
    SplitAppend(root, path);
    ValidPathsDoNotRise(path);
    var below := Split(path, '/')[..k - |Split(root, '/')|];
    assert ".." !in below;
    assert Split(RealPath(files, account, path), '/')[..k] == Split(root, '/') + below;
    OnlyDown(Split(root, '/'), below);
    if account != "" && ".." !in Split(account, '/') {
      SplitAppend(files, account);
      OnlyDown(Split(files, '/'), Split(account, '/'));
    }
  }

  /** The names on a path that lead somewhere. */
  function NamesOf(parts: seq<string>): seq<string> {
    if parts == [] then []
    else
      var front, c := NamesOf(parts[..|parts| - 1]), parts[|parts| - 1];
      if c == "" || c == "." then front else front + [c]
  }

  lemma {:induction false} StraightDown(parts: seq<string>, more: seq<string>)
    requires ".." !in more
    ensures Lexical(parts + more) == Lexical(parts) + NamesOf(more)
    decreases |more|
  {
    if more == [] {
      assert parts + more == parts;
    } else {
      var front := more[..|more| - 1];
      assert (parts + more)[..|parts + more| - 1] == parts + front;
      assert ".." !in front && more[|more| - 1] != "..";
      StraightDown(parts, front);
    }
  }

  /** An accepted path leads from the account's root, below the files root, down its names. */
  lemma RealPathLeads(files: string, account: string, path: string)
    requires PathIsValid(path)
    ensures Lexical(Split(RealPath(files, account, path), '/'))
            == Lexical(Split(files, '/') + (if account != "" then Split(account, '/') else []))
               + NamesOf(Split(path, '/'))
  {
    var root := if account != "" then files + "/" + account else files;
    SplitAppend(root, path);
    ValidPathsDoNotRise(path);
    StraightDown(Split(root, '/'), Split(path, '/'));
    if account != "" {
      SplitAppend(files, account);
    } else {
      assert Split(files, '/') + [] == Split(files, '/');
    }
  }

  // ---- Drop boxes on a path ----

  function Below(root: string, components: seq<string>): string {
    if components == [] then root
    else AppendComponent(Below(root, components[..|components| - 1]), components[|components| - 1])
  }

  /** The directories on the way down are the root with one more name each. */
  lemma {:induction false} BelowIsJoined(root: string, components: seq<string>)
    requires components != [] && root != "" && root[|root| - 1] != '/'
    requires forall c | c in components :: c != "" && '/' !in c
    ensures Below(root, components) == root + "/" + Join(components, '/')
    decreases |components|
  {
    var front, c := components[..|components| - 1], components[|components| - 1];
    assert c in components && forall x | x in front :: x in components;
    assert components == front + [c];
    if front != [] {
      BelowIsJoined(root, front);
      OneMore(root, front, c);
    } else {
      AppendPlain(root, c);
    }
  }

  lemma OneMore(root: string, front: seq<string>, c: string)
    requires front != [] && c != "" && '/' !in c && forall x | x in front :: x != "" && '/' !in x
    ensures AppendComponent(root + "/" + Join(front, '/'), c) == root + "/" + Join(front + [c], '/')
  {
    var path := root + "/" + Join(front, '/');
    JoinEnds(front);
    JoinSnoc(front, c, '/');
    assert path[|path| - 1] == Join(front, '/')[|Join(front, '/')| - 1];
    AppendPlain(path, c);
    assert path + "/" + c == root + "/" + (Join(front, '/') + "/" + c);
  }

  lemma {:induction false} JoinEnds(parts: seq<string>)
    requires parts != [] && forall c | c in parts :: c != "" && '/' !in c
    ensures Join(parts, '/') != "" && Join(parts, '/')[|Join(parts, '/')| - 1] != '/'
    decreases |parts|
  {
    assert parts[0] in parts;
    if |parts| == 1 {
      assert parts[0][|parts[0]| - 1] in parts[0];
    } else {
      assert forall x | x in parts[1..] :: x in parts;
      JoinEnds(parts[1..]);
    }
  }

  /** `wd_files_drop_box_path_in_path`: the first drop box on the way down. */
  method DropBoxPathInPath(root: string, components: seq<string>, isDropBox: string -> bool)
    returns (box: Option<string>)
    ensures match box
            case Some(path) => exists k ::
              1 <= k <= |components| && path == Below(root, components[..k]) && isDropBox(path)
                                 && forall j | 1 <= j < k :: !isDropBox(Below(root, components[..j]))
            case None => forall k | 1 <= k <= |components| :: !isDropBox(Below(root, components[..k]))
  {
    var path := root;
    for i := 0 to |components|
      invariant path == Below(root, components[..i])
      invariant forall j | 1 <= j <= i :: !isDropBox(Below(root, components[..j]))
    {
      assert components[..i + 1][..i] == components[..i];
      path := AppendComponent(path, components[i]);
      if isDropBox(path) {
        return Some(path);
      }
    }
    box := None;
  }
}
