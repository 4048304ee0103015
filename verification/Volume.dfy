/** A file system as the indexer meets it: a finite graph of nodes in which symbolic links and
    Finder aliases can close cycles. */
module Volume {
  import opened Text

  datatype Node = Node(dev: int, ino: int)

  /** The components of an absolute path. */
  type Path = seq<string>

  /** One name in a directory. `node` is None when `lstat` fails on it; `alias` is the path that a
      Finder alias file resolves to. */
  datatype Entry = Entry(name: string, hidden: bool, alias: Option<Path>, node: Option<Node>)

  datatype Info =
    | File(size: nat, fork: nat)
    | Dir(entries: seq<Entry>, dropBox: bool)
    | Link(length: nat)

  /** `links` tells where the symbolic links lead that lead somewhere. */
  datatype Volume = Volume(nodes: map<Node, Info>, links: map<Node, Node>, root: Node)

  predicate IsName(c: string) {
    c != "" && '/' !in c
  }

  predicate Names(p: Path) {
    forall c | c in p :: IsName(c)
  }

  predicate EntryOk(v: Volume, e: Entry) {
    && IsName(e.name)
    && (e.node.Some? ==> e.node.value in v.nodes)
    && (e.alias.Some? ==> Names(e.alias.value) && (e.node.Some? ==> v.nodes[e.node.value].File?))
  }

  ghost predicate DirOk(v: Volume, entries: seq<Entry>) {
    && (forall i | 0 <= i < |entries| :: EntryOk(v, entries[i]))
    && (forall i, j | 0 <= i < j < |entries| :: entries[i].name != entries[j].name)
  }

  /** Names are distinct within a directory, an alias is a file, and a link ends at a node that is
      not a link itself. */
  ghost predicate WellFormed(v: Volume) {
    && v.root in v.nodes
    && (forall n | n in v.nodes && v.nodes[n].Dir? :: DirOk(v, v.nodes[n].entries))
    && (forall n | n in v.links :: v.links[n] in v.nodes && !v.nodes[v.links[n]].Link?)
  }

  function Find(entries: seq<Entry>, name: string): (r: Option<Entry>)
    ensures r.Some? ==> r.value in entries && r.value.name == name
  {
    if entries == [] then None
    else if entries[0].name == name then Some(entries[0])
    else Find(entries[1..], name)
  }

  lemma {:induction false} FindEntry(entries: seq<Entry>, k: nat)
    requires k < |entries|
    requires forall i, j | 0 <= i < j < |entries| :: entries[i].name != entries[j].name
    ensures Find(entries, entries[k].name) == Some(entries[k])
  {
    if k > 0 {
      assert entries[0].name != entries[k].name;
      FindEntry(entries[1..], k - 1);
    }
  }

  /** `stat` falls back on `lstat` for a link that leads nowhere. */
  function Followed(v: Volume, n: Node): (r: Node)
    requires WellFormed(v)
    ensures n in v.nodes ==> r in v.nodes
  {
    if n in v.links then v.links[n] else n
  }

  predicate IsDir(v: Volume, n: Node)
    requires n in v.nodes
  {
    v.nodes[n].Dir?
  }

  predicate IsDropBox(v: Volume, n: Node)
    requires n in v.nodes
  {
    v.nodes[n].Dir? && v.nodes[n].dropBox
  }

  /** The directory entry a path ends in; links are followed in the components before the last. */
  function EntryAt(v: Volume, dir: Path, name: string): (r: Option<Entry>)
    requires WellFormed(v)
    ensures r.Some? ==> EntryOk(v, r.value)
    decreases |dir|, 1
  {
    match LStat(v, dir)
    case None => None
    case Some(n) =>
      var d := Followed(v, n);
      if IsDir(v, d) then
        var r := Find(v.nodes[d].entries, name);
        assert DirOk(v, v.nodes[d].entries);
        r
      else None
  }

  function LStat(v: Volume, p: Path): (r: Option<Node>)
    requires WellFormed(v)
    ensures r.Some? ==> r.value in v.nodes
    decreases |p|, 0
  {
    if p == [] then Some(v.root)
    else
      match EntryAt(v, p[..|p| - 1], p[|p| - 1])
      case None => None
      case Some(e) => e.node
  }

  // ---- Resolving aliases ----

  /** One component of `wi_mutable_string_resolve_aliases_in_path`. */
  function Hop(v: Volume, dir: Path, name: string): Path
    requires WellFormed(v)
  {
    match EntryAt(v, dir, name)
    case Some(Entry(_, _, Some(target), _)) => target
    case _ => dir + [name]
  }

  /** `wi_string_by_resolving_aliases_in_path`, from `base` on. */
  function Resolved(v: Volume, base: Path, p: Path): Path
    requires WellFormed(v)
    decreases |p|
  {
    if p == [] then base else Hop(v, Resolved(v, base, p[..|p| - 1]), p[|p| - 1])
  }

  lemma {:induction false} ResolvedAppend(v: Volume, base: Path, p: Path, q: Path)
    requires WellFormed(v)
    ensures Resolved(v, base, p + q) == Resolved(v, Resolved(v, base, p), q)
    decreases |q|
  {
    if q == [] {
      assert p + q == p;
    } else {
      var front := q[..|q| - 1];
      assert (p + q)[..|p + q| - 1] == p + front;
      ResolvedAppend(v, base, p, front);
    }
  }

  /** What an entry stands for: the target of an alias, or else the entry itself. */
  function Lands(v: Volume, e: Entry): (r: Option<Node>)
    requires WellFormed(v) && EntryOk(v, e)
    ensures r.Some? ==> r.value in v.nodes
  {
    match e.alias
    case Some(target) => LStat(v, target)
    case None => e.node
  }

  /** Entries whose names start with a dot, or that the Finder hides, are not shown. */
  predicate Shown(e: Entry) {
    e.name != "" && e.name[0] != '.' && !e.hidden
  }

  /** The real path of a path whose every component is a shown entry. */
  function Browsed(v: Volume, base: Path, p: Path): Option<Path>
    requires WellFormed(v)
    decreases |p|
  {
    if p == [] then Some(base)
    else
      match Browsed(v, base, p[..|p| - 1])
      case None => None
      case Some(dir) =>
        var e := EntryAt(v, dir, p[|p| - 1]);
        if e.Some? && Shown(e.value) then Some(Hop(v, dir, p[|p| - 1])) else None
  }

  lemma {:induction false} BrowsedIsResolved(v: Volume, base: Path, p: Path)
    requires WellFormed(v) && Browsed(v, base, p).Some?
    ensures Browsed(v, base, p).value == Resolved(v, base, p)
    decreases |p|
  {
    if p != [] {
      BrowsedIsResolved(v, base, p[..|p| - 1]);
    }
  }

  // ---- What a lookup finds ----

  /** The node that `stat` sees. */
  predicate Stats(v: Volume, n: Node, d: Node) {
    if n in v.links then d == v.links[n] else d == n
  }

  lemma {:induction false} FindNothing(entries: seq<Entry>, name: string)
    requires Find(entries, name).None?
    ensures forall i | 0 <= i < |entries| :: entries[i].name != name
  {
    if entries != [] {
      FindNothing(entries[1..], name);
      forall i | 0 < i < |entries| ensures entries[i].name != name {
        assert entries[i] == entries[1..][i - 1];
      }
    }
  }

  /** A name is found exactly if the path before it leads to a directory, or to a link to one, and
      that has an entry of the name. An alias file leads to its target, and any other entry to what
      stands under its name. */
  lemma LookedUp(v: Volume, dir: Path, name: string, d: Node, i: nat)
    requires WellFormed(v) && LStat(v, dir).Some? && Stats(v, LStat(v, dir).value, d)
    requires v.nodes[d].Dir? && i < |v.nodes[d].entries| && v.nodes[d].entries[i].name == name
    ensures var e := v.nodes[d].entries[i];
            && EntryAt(v, dir, name) == Some(e) && LStat(v, dir + [name]) == e.node
            && Hop(v, dir, name) == (if e.alias.Some? then e.alias.value else dir + [name])
            && Lands(v, e) == LStat(v, Hop(v, dir, name))
    ensures LStat(v, []) == Some(v.root)
  {
    assert DirOk(v, v.nodes[d].entries);
    FindEntry(v.nodes[d].entries, i);
    assert (dir + [name])[..|dir|] == dir;
  }

  lemma NotFound(v: Volume, dir: Path, name: string)
    requires WellFormed(v) && EntryAt(v, dir, name).None?
    ensures LStat(v, dir + [name]).None? && Hop(v, dir, name) == dir + [name]
    ensures forall d, i | LStat(v, dir).Some? && Stats(v, LStat(v, dir).value, d) && v.nodes[d].Dir? ::
              0 <= i < |v.nodes[d].entries| ==> v.nodes[d].entries[i].name != name
  {
    assert (dir + [name])[..|dir|] == dir;
    if LStat(v, dir).Some? && IsDir(v, Followed(v, LStat(v, dir).value)) {
      FindNothing(v.nodes[Followed(v, LStat(v, dir).value)].entries, name);
    }
  }

  /** A path is browsed further by one name exactly if that is found, does not start with a dot, and is
      not hidden. */
  lemma BrowsedFurther(v: Volume, base: Path, p: Path, name: string)
    requires WellFormed(v) && Browsed(v, base, p).Some? && name != ""
    ensures var (dir, r) := (Browsed(v, base, p).value, Browsed(v, base, p + [name]));
            var e := EntryAt(v, dir, name);
            if e.Some? && name[0] != '.' && !e.value.hidden then r == Some(Hop(v, dir, name)) else r.None?
  {
    assert (p + [name])[..|p|] == p;
    var e := EntryAt(v, Browsed(v, base, p).value, name);
    if e.Some? { EntryName(v, Browsed(v, base, p).value, name); }
  }

  lemma EntryName(v: Volume, dir: Path, name: string)
    requires WellFormed(v) && EntryAt(v, dir, name).Some?
    ensures EntryAt(v, dir, name).value.name == name
  {
  }

  // ---- Paths as text ----

  function Flat(p: Path): string {
    if p == [] then "" else Flat(p[..|p| - 1]) + "/" + p[|p| - 1]
  }

  function Render(p: Path): string {
    if p == [] then "/" else Flat(p)
  }

  lemma {:induction false} FlatAppend(p: Path, q: Path)
    ensures Flat(p + q) == Flat(p) + Flat(q)
    decreases |q|
  {
    if q == [] {
      assert p + q == p;
    } else {
      var front := q[..|q| - 1];
      assert (p + q)[..|p + q| - 1] == p + front;
      FlatAppend(p, front);
    }
  }

  lemma {:induction false} FlatEnds(p: Path)
    requires Names(p) && p != []
    ensures Flat(p) != "" && Flat(p)[0] == '/' && Flat(p)[|Flat(p)| - 1] != '/' && |Flat(p)| > 1 && Flat(p)[1] != '/'
    decreases |p|
  {
    var c := p[|p| - 1];
    assert IsName(c);
    assert c[0] in c && c[|c| - 1] in c;
    if |p| > 1 {
      assert forall x | x in p[..|p| - 1] :: x in p;
      FlatEnds(p[..|p| - 1]);
    } else {
      assert p[..0] == [];
    }
  }

  /** The path of a directory's entry, as `fts_read` builds it. */
  function ChildText(dir: string, name: string): string {
    (if dir != "" && dir[|dir| - 1] == '/' then dir[..|dir| - 1] else dir) + "/" + name
  }

  lemma ChildRendered(p: Path, name: string)
    requires Names(p)
    ensures ChildText(Render(p), name) == Render(p + [name]) == Flat(p + [name])
  {
    assert (p + [name])[..|p|] == p;
    if p != [] { FlatEnds(p); }
  }

  /** `wi_string_last_path_component`, for a path that does not end in a slash. */
  function LastComponent(path: string): string {
    if path == "" || path[|path| - 1] == '/' then ""
    else LastComponent(path[..|path| - 1]) + [path[|path| - 1]]
  }

  lemma {:induction false} LastOfJoined(dir: string, name: string)
    requires '/' !in name
    ensures LastComponent(dir + "/" + name) == name
    decreases |name|
  {
    var path := dir + "/" + name;
    if name != "" {
      var front := name[..|name| - 1];
      assert path[..|path| - 1] == dir + "/" + front;
      assert name[|name| - 1] in name;
      LastOfJoined(dir, front);
      assert name == front + [name[|name| - 1]];
    }
  }
}
