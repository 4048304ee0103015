/** The string primitives of libwired that the server's tables and files rely on:
    splitting at a separator character, joining with it, prefixes. */
module Text {

  datatype Option<+T> = None | Some(value: T)

  /** True iff `prefix` is a proper prefix of `s`. */
  predicate Extends(s: string, prefix: string) {
    prefix <= s && |prefix| < |s|
  }

  /** `wi_string_components_separated_by_string` for a one-character separator:
      an empty string has one empty component. */
  function Split(s: string, sep: char): (parts: seq<string>)
    ensures |parts| >= 1
    ensures forall p | p in parts :: sep !in p
  {
    if s == "" then [""]
    else
      var rest := Split(s[1..], sep);
      if s[0] == sep then [""] + rest else [[s[0]] + rest[0]] + rest[1..]
  }

  /** `wi_array_components_joined_by_string`. */
  function Join(parts: seq<string>, sep: char): string {
    if parts == [] then ""
    else if |parts| == 1 then parts[0]
    else parts[0] + [sep] + Join(parts[1..], sep)
  }

  lemma {:induction false} SplitFirst(head: string, tail: string, sep: char)
    requires sep !in head
    ensures Split(head + [sep] + tail, sep) == [head] + Split(tail, sep)
  {
    var s := head + [sep] + tail;
    if head == "" {
      assert s[1..] == tail;
    } else {
      assert s[1..] == head[1..] + [sep] + tail;
      SplitFirst(head[1..], tail, sep);
      assert [head[0]] + head[1..] == head;
    }
  }

  lemma {:induction false} SplitWhole(s: string, sep: char)
    requires sep !in s
    ensures Split(s, sep) == [s]
  {
    if s != "" {
      SplitWhole(s[1..], sep);
      assert [s[0]] + s[1..] == s;
    }
  }

  /** Splitting undoes joining, for a non-empty list of separator-free parts. */
  lemma {:induction false} SplitJoin(parts: seq<string>, sep: char)
    requires parts != []
    requires forall p | p in parts :: sep !in p
    ensures Split(Join(parts, sep), sep) == parts
  {
    if |parts| == 1 {
      SplitWhole(parts[0], sep);
    } else {
      SplitJoin(parts[1..], sep);
      SplitFirst(parts[0], Join(parts[1..], sep), sep);
    }
  }

  /** `wi_string_by_appending_path_component`. */
  function AppendComponent(path: string, component: string): string {
    if path == "" then component
    else if path[|path| - 1] == '/' then
      (if component != "" && component[0] == '/' then path[..|path| - 1] else path) + component
    else if component != "/" then path + "/" + component
    else path
  }

  lemma AppendPlain(path: string, component: string)
    requires component != "" && '/' !in component
    ensures AppendComponent(path, component) ==
            if path == "" || path[|path| - 1] == '/' then path + component else path + "/" + component
  {
    assert component[0] in component;
  }

  /** A slash at the end of the path and one at the start of the component become one, and a lone
      slash adds nothing. */
  lemma AppendSlash(path: string, component: string)
    ensures AppendComponent(path + "/", "/" + component) == path + "/" + component
    ensures path != "" ==> AppendComponent(path, "/") == path
  {
    assert (path + "/")[..|path|] == path;
    assert path + ("/" + component) == path + "/" + component;
    if path != "" && path[|path| - 1] == '/' { assert path[..|path| - 1] + "/" == path; }
  }

  lemma {:induction false} JoinSnoc(parts: seq<string>, part: string, sep: char)
    requires parts != []
    ensures Join(parts + [part], sep) == Join(parts, sep) + [sep] + part
  {
    if |parts| == 1 {
      assert (parts + [part])[1..] == [part];
    } else {
      JoinSnoc(parts[1..], part, sep);
      assert (parts + [part])[1..] == parts[1..] + [part];
    }
  }
}

/** SQLite's BINARY collation on text, which `ORDER BY board` uses. */
module Collation {

  predicate Less(a: string, b: string) {
    |b| > 0 && (|a| == 0 || a[0] < b[0] || (a[0] == b[0] && Less(a[1..], b[1..])))
  }

  /** One text comes before another if it is a proper prefix of it, or has the smaller character where
      they differ first. */
  lemma {:induction false} LessIsLexicographic(a: string, b: string)
    ensures Less(a, b) <==>
            exists k :: 0 <= k <= |a| && k < |b| && a[..k] == b[..k] && (k == |a| || a[k] < b[k])
  {
    forall k | 0 < k <= |a| && k <= |b| && a[..k] == b[..k] ensures a[0] == b[0] {
      assert a[..k][0] == a[0] && b[..k][0] == b[0];
    }
    if |a| > 0 && |b| > 0 && a[0] == b[0] {
      LessIsLexicographic(a[1..], b[1..]);
      if Less(a[1..], b[1..]) {
        var a', b' := a[1..], b[1..];
        var k :| 0 <= k <= |a'| && k < |b'| && a'[..k] == b'[..k] && (k == |a'| || a'[k] < b'[k]);
        assert a[..k + 1] == [a[0]] + a[1..][..k] && b[..k + 1] == [b[0]] + b[1..][..k];
      }
      if k :| 0 <= k <= |a| && k < |b| && a[..k] == b[..k] && (k == |a| || a[k] < b[k]) {
        assert a[1..][..k - 1] == a[..k][1..] && b[1..][..k - 1] == b[..k][1..];
      }
    } else if |b| > 0 {
      assert a[..0] == b[..0];
    }
  }

  lemma {:induction false} Irreflexive(a: string)
    ensures !Less(a, a)
  {
    if |a| > 0 { Irreflexive(a[1..]); }
  }

  lemma {:induction false} Transitive(a: string, b: string, c: string)
    requires Less(a, b) && Less(b, c)
    ensures Less(a, c)
  {
    if |a| > 0 && a[0] == b[0] && b[0] == c[0] {
      Transitive(a[1..], b[1..], c[1..]);
    }
  }

  lemma {:induction false} Total(a: string, b: string)
    ensures a == b || Less(a, b) || Less(b, a)
  {
    if |a| > 0 && |b| > 0 && a[0] == b[0] {
      Total(a[1..], b[1..]);
      assert a == [a[0]] + a[1..] && b == [b[0]] + b[1..];
    }
  }

  lemma Asymmetric(a: string, b: string)
    requires Less(a, b)
    ensures !Less(b, a)
  {
    if Less(b, a) {
      Transitive(a, b, a);
      Irreflexive(a);
    }
  }

  predicate Least(m: string, keys: set<string>) {
    m in keys && forall k | k in keys && k != m :: Less(m, k)
  }

  lemma {:induction false} LeastExists(keys: set<string>) returns (m: string)
    requires keys != {}
    ensures Least(m, keys)
    decreases |keys|
  {
    var k :| k in keys;
    var rest := keys - {k};
    if rest == {} {
      m := k;
      assert keys == {k};
    } else {
      var m0 := LeastExists(rest);
      Total(m0, k);
      if Less(k, m0) {
        m := k;
        forall x | x in keys && x != k ensures Less(k, x) {
          assert x in rest;
          if x != m0 { Transitive(k, m0, x); }
        }
      } else {
        m := m0;
        forall x | x in keys && x != m0 ensures Less(m0, x) {
          assert x == k || x in rest;
        }
      }
    }
  }

  ghost predicate Ascending(s: seq<string>) {
    forall i, j | 0 <= i < j < |s| :: Less(s[i], s[j])
  }

  lemma LeastUnique(m: string, m': string, keys: set<string>)
    requires Least(m, keys) && Least(m', keys)
    ensures m == m'
  {
    if m != m' { Asymmetric(m, m'); }
  }

  lemma LeastIsDetermined(keys: set<string>)
    requires keys != {}
    ensures exists m :: m in keys && Least(m, keys)
    ensures forall m, m' :: Least(m, keys) && Least(m', keys) ==> m == m'
  {
    var m := LeastExists(keys);
    forall m, m' | Least(m, keys) && Least(m', keys) ensures m == m' {
      LeastUnique(m, m', keys);
    }
  }

  /** The rows of a `SELECT … ORDER BY`: every key once, in ascending order. */
  function Sorted(keys: set<string>): (s: seq<string>)
    ensures Ascending(s)
    ensures forall k :: k in s <==> k in keys
    ensures |s| == |keys|
    decreases |keys|
  {
    if keys == {} then []
    else
      LeastIsDetermined(keys);
      var m :| m in keys && Least(m, keys);
      var tail := Sorted(keys - {m});
      AscendingCons(m, tail);
      [m] + tail
  }

  lemma AscendingCons(m: string, tail: seq<string>)
    requires Ascending(tail)
    requires forall k | k in tail :: Less(m, k)
    ensures Ascending([m] + tail)
  {
    var s := [m] + tail;
    forall i, j | 0 <= i < j < |s| ensures Less(s[i], s[j]) {
      if i == 0 { assert tail[j - 1] in tail; }
    }
  }
}
