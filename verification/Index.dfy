/** The file index: a recursive walk of the shared files that follows aliases, writes one row for
    each inode, and keeps running totals. */
module Index {
  import opened Text
  import opened Volume

  const MAX_LEVEL: nat := 20

  const NO_NODES: set<Node> := {}

  datatype Row = Row(name: string, virtualPath: string, realPath: string, alias: bool)

  /** What a row stands for: a path below the shared files, where it leads, and the node there. */
  datatype Trail = Trail(virtual: Path, place: Path, node: Node)

  datatype Counts = Counts(files: nat, directories: nat, size: nat)

  predicate ThroughAlias(v: Volume, base: Path, p: Path)
    requires WellFormed(v) && p != []
  {
    match Browsed(v, base, p[..|p| - 1])
    case None => false
    case Some(dir) =>
      var e := EntryAt(v, dir, p[|p| - 1]);
      e.Some? && e.value.alias.Some?
  }

  /** The row's virtual path is made of shown entries, and leads to its real path and its node. */
  predicate Traced(v: Volume, base: Path, row: Row, t: Trail)
    requires WellFormed(v)
  {
    && t.virtual != [] && Names(t.virtual)
    && row.virtualPath == Flat(t.virtual)
    && row.realPath == Render(t.place)
    && row.name == t.virtual[|t.virtual| - 1]
    && row.alias == ThroughAlias(v, base, t.virtual)
    && Browsed(v, base, t.virtual) == Some(t.place)
    && LStat(v, t.place) == Some(t.node)
  }

  function SizeOf(v: Volume, n: Node): nat {
    if n !in v.nodes then 0
    else
      match v.nodes[n]
      case File(size, fork) => size + fork
      case Link(length) => length
      case Dir(_, _) => 0
  }

  function Tally(v: Volume, trails: seq<Trail>): Counts
    requires WellFormed(v)
  {
    if trails == [] then Counts(0, 0, 0)
    else Counted(v, Tally(v, trails[..|trails| - 1]), trails[|trails| - 1].node)
  }

  function Counted(v: Volume, c: Counts, n: Node): Counts
    requires WellFormed(v)
  {
    var sb := Followed(v, n);
    if sb in v.nodes && IsDir(v, sb) then c.(directories := c.directories + 1)
    else c.(files := c.files + 1, size := c.size + SizeOf(v, sb))
  }

  // ---- What the walk covers ----

  /** A path of shown entries, with aliases followed, leads from the shared files to `d`. */
  ghost predicate Walkable(v: Volume, files: Path, d: Node)
    requires WellFormed(v)
  {
    exists p :: Browsed(v, files, p).Some? && DirAt(v, Browsed(v, files, p).value) == Some(d)
  }

  /** No `lstat` fails on a shown entry of a directory that can be walked to, or on what an alias
      there resolves to. */
  ghost predicate AllLand(v: Volume, files: Path)
    requires WellFormed(v)
  {
    forall d, k | Walkable(v, files, d) && d in v.nodes && 0 <= k < Width(v, d) :: EntryKnown(v, d, k)
  }

  ghost predicate EntryKnown(v: Volume, d: Node, k: nat)
    requires WellFormed(v) && d in v.nodes && k < Width(v, d)
  {
    assert DirOk(v, v.nodes[d].entries);
    Shown(v.nodes[d].entries[k]) ==> Lands(v, v.nodes[d].entries[k]).Some?
  }

  // ---- Cycles ----

  /** The entry `e` of directory `d` is shown, is no alias, and is `n`. */
  predicate Holds(v: Volume, d: Node, e: Entry, n: Node) {
    d in v.nodes && IsDir(v, d) && e in v.nodes[d].entries && Shown(e) && e.alias.None? && e.node == Some(n)
  }

  /** Descent without aliases from `a` to `d`, through entries whose nodes are `via` and have rows. */
  ghost predicate Descends(v: Volume, visited: set<Node>, a: Node, via: seq<Node>, d: Node)
    requires WellFormed(v)
    decreases |via|
  {
    if via == [] then a == d
    else
      && via[0] in visited && (exists e :: Holds(v, a, e, via[0]))
      && Descends(v, visited, Followed(v, via[0]), via[1..], d)
  }

  ghost predicate Leads(v: Volume, visited: set<Node>, a: Node, d: Node)
    requires WellFormed(v)
  {
    exists via :: Descends(v, visited, a, via, d)
  }

  ghost predicate AllLead(v: Volume, visited: set<Node>, ancestors: set<Node>, d: Node)
    requires WellFormed(v)
  {
    forall a | a in ancestors :: Leads(v, visited, a, d)
  }

  /** The entry of directory `d` that is `n` closes a cycle: descent through entries that have rows
      goes from the directory that `n` is or links to back to `d`. */
  ghost predicate Closes(v: Volume, visited: set<Node>, d: Node, n: Node)
    requires WellFormed(v)
  {
    (exists e :: Holds(v, d, e, n)) && Leads(v, visited, Followed(v, n), d)
  }

  lemma {:induction false} DescendsMore(v: Volume, visited: set<Node>, a: Node, via: seq<Node>, d: Node, e: Entry,
                                        n: Node)
    requires WellFormed(v) && Descends(v, visited, a, via, d) && Holds(v, d, e, n) && n in visited
    ensures Descends(v, visited, a, via + [n], Followed(v, n))
    decreases |via|
  {
    if via == [] {
      assert (via + [n])[1..] == [];
    } else {
      DescendsMore(v, visited, Followed(v, via[0]), via[1..], d, e, n);
      assert (via + [n])[1..] == via[1..] + [n];
    }
  }

  lemma {:induction false} DescendsGrows(v: Volume, visited: set<Node>, visited': set<Node>, a: Node, via: seq<Node>,
                                         d: Node)
    requires WellFormed(v) && visited <= visited' && Descends(v, visited, a, via, d)
    ensures Descends(v, visited', a, via, d)
    decreases |via|
  {
    if via != [] { DescendsGrows(v, visited, visited', Followed(v, via[0]), via[1..], d); }
  }

  lemma LeadsGrows(v: Volume, visited: set<Node>, visited': set<Node>, a: Node, d: Node)
    requires WellFormed(v) && visited <= visited' && Leads(v, visited, a, d)
    ensures Leads(v, visited', a, d)
  {
    var via :| Descends(v, visited, a, via, d);
    DescendsGrows(v, visited, visited', a, via, d);
  }

  lemma AllLeadGrows(v: Volume, visited: set<Node>, visited': set<Node>, ancestors: set<Node>, d: Node)
    requires WellFormed(v) && visited <= visited' && AllLead(v, visited, ancestors, d)
    ensures AllLead(v, visited', ancestors, d)
  {
    forall a | a in ancestors ensures Leads(v, visited', a, d) {
      LeadsGrows(v, visited, visited', a, d);
    }
  }

  lemma LeadsItself(v: Volume, visited: set<Node>, d: Node)
    requires WellFormed(v)
    ensures AllLead(v, visited, {d}, d)
  {
    assert Descends(v, visited, d, [], d);
  }

  /** Going down into an entry, all directories on the way down still lead to where the walk is. */
  lemma AllLeadOn(v: Volume, visited: set<Node>, ancestors: set<Node>, d: Node, e: Entry, n: Node)
    requires WellFormed(v) && AllLead(v, visited, ancestors, d) && Holds(v, d, e, n) && n in visited
    ensures AllLead(v, visited, ancestors + {Followed(v, n)}, Followed(v, n))
  {
    forall a | a in ancestors ensures Leads(v, visited, a, Followed(v, n)) {
      var via :| Descends(v, visited, a, via, d);
      DescendsMore(v, visited, a, via, d, e, n);
    }
    LeadsItself(v, visited, Followed(v, n));
  }

  /** The node of the entry of `d` has a row, or the entry closes a cycle in the directories being
      walked. */
  ghost predicate Met(v: Volume, visited: set<Node>, entered: set<Node>, d: Node, e: Entry)
    requires WellFormed(v) && EntryOk(v, e)
  {
    var n := Lands(v, e);
    && n.Some?
    && (n.value in visited || (Followed(v, n.value) in entered && Closes(v, visited, d, n.value)))
  }

  lemma MetGrows(v: Volume, visited: set<Node>, entered: set<Node>, visited': set<Node>, entered': set<Node>,
                 d: Node, e: Entry)
    requires WellFormed(v) && EntryOk(v, e) && visited <= visited' && entered <= entered'
    requires Met(v, visited, entered, d, e)
    ensures Met(v, visited', entered', d, e)
  {
    var n := Lands(v, e).value;
    if n !in visited { LeadsGrows(v, visited, visited', Followed(v, n), d); }
  }

  ghost predicate Covered(v: Volume, visited: set<Node>, entered: set<Node>, d: Node, upTo: nat)
    requires WellFormed(v)
  {
    && d in v.nodes && IsDir(v, d) && upTo <= |v.nodes[d].entries|
    && forall i | 0 <= i < upTo :: Shown(v.nodes[d].entries[i]) ==>
         Met(v, visited, entered, d, v.nodes[d].entries[i])
  }

  function Width(v: Volume, d: Node): nat {
    if d in v.nodes && v.nodes[d].Dir? then |v.nodes[d].entries| else 0
  }

  predicate Opens(v: Volume, n: Node)
    requires WellFormed(v) && n in v.nodes
  {
    IsDir(v, Followed(v, n)) && !IsDropBox(v, Followed(v, n))
  }

  /** Every indexed directory that is no drop box was entered, and every entered directory outside
      `gray` has been walked to its end. */
  ghost predicate Closure(v: Volume, visited: set<Node>, entered: set<Node>, gray: set<Node>)
    requires WellFormed(v) && visited <= v.nodes.Keys
  {
    && (forall n | n in visited :: Opens(v, n) ==> Followed(v, n) in entered)
    && (forall d | d in entered && d !in gray :: Covered(v, visited, entered, d, Width(v, d)))
  }

  /** Visible descent and alias hops from a directory, never through a drop box; the last step is an
      entry of `last` and leads to `n`. */
  ghost predicate Reaches(v: Volume, d: Node, steps: seq<Entry>, last: Node, n: Node)
    requires WellFormed(v) && d in v.nodes
    decreases |steps|
  {
    && steps != [] && IsDir(v, d) && steps[0] in v.nodes[d].entries && Shown(steps[0])
    && EntryOk(v, steps[0])
    && var to := Lands(v, steps[0]);
       to.Some? && if |steps| == 1 then last == d && n == to.value
                   else Opens(v, to.value) && Reaches(v, Followed(v, to.value), steps[1..], last, n)
  }

  lemma {:induction false} ClosureCovers(v: Volume, visited: set<Node>, entered: set<Node>, d: Node,
                                         steps: seq<Entry>, last: Node, n: Node)
    requires WellFormed(v) && visited <= v.nodes.Keys && Closure(v, visited, entered, {})
    requires d in v.nodes && d in entered && Reaches(v, d, steps, last, n)
    ensures n in v.nodes && (n in visited || (Followed(v, n) in entered && Closes(v, visited, last, n)))
    decreases |steps|
  {
    var i :| 0 <= i < |v.nodes[d].entries| && v.nodes[d].entries[i] == steps[0];
    assert Covered(v, visited, entered, d, Width(v, d));
    assert Met(v, visited, entered, d, steps[0]);
    if |steps| > 1 {
      ClosureCovers(v, visited, entered, Followed(v, Lands(v, steps[0]).value), steps[1..], last, n);
    }
  }

  lemma CoveredGrows(v: Volume, visited: set<Node>, entered: set<Node>, visited': set<Node>, entered': set<Node>,
                     d: Node, upTo: nat)
    requires WellFormed(v) && visited <= visited' && entered <= entered'
    requires Covered(v, visited, entered, d, upTo)
    ensures Covered(v, visited', entered', d, upTo)
  {
    forall i | 0 <= i < upTo && Shown(v.nodes[d].entries[i])
      ensures Met(v, visited', entered', d, v.nodes[d].entries[i])
    {
      assert Met(v, visited, entered, d, v.nodes[d].entries[i]);
      MetGrows(v, visited, entered, visited', entered', d, v.nodes[d].entries[i]);
    }
  }

  lemma CoveredNext(v: Volume, visited: set<Node>, entered: set<Node>, visited': set<Node>, entered': set<Node>,
                    d: Node, k: nat)
    requires WellFormed(v) && visited <= visited' && entered <= entered'
    requires Covered(v, visited, entered, d, k) && k < Width(v, d) && EntryOk(v, v.nodes[d].entries[k])
    requires Shown(v.nodes[d].entries[k]) ==> Met(v, visited', entered', d, v.nodes[d].entries[k])
    ensures Covered(v, visited', entered', d, k + 1)
  {
    CoveredGrows(v, visited, entered, visited', entered', d, k);
  }

  lemma ClosureGrows(v: Volume, visited: set<Node>, entered: set<Node>, visited': set<Node>, entered': set<Node>,
                     gray: set<Node>)
    requires WellFormed(v) && visited <= visited' <= v.nodes.Keys && entered <= entered'
    requires Closure(v, visited, entered, gray)
    requires forall n | n in visited' && n !in visited :: Opens(v, n) ==> Followed(v, n) in entered'
    ensures Closure(v, visited', entered', gray + (entered' - entered))
  {
    forall d | d in entered' && d !in gray + (entered' - entered)
      ensures Covered(v, visited', entered', d, Width(v, d))
    {
      CoveredGrows(v, visited, entered, visited', entered', d, Width(v, d));
    }
  }

  // ---- Straight descents ----

  /** The walk goes on below an entry on path `w`: it is a directory, and if it is a drop box then its
      row, which it has by then, stands under another path. */
  ghost predicate Passable(v: Volume, trails: seq<Trail>, n: Node, w: Path)
    requires WellFormed(v) && n in v.nodes
  {
    && IsDir(v, Followed(v, n))
    && (IsDropBox(v, Followed(v, n)) ==> forall j | 0 <= j < |trails| :: trails[j].virtual != w)
  }

  /** A visible descent from `d`, on path `p`, without aliases, that does not come back to a directory
      it has been in, or to one in `seen`. */
  ghost predicate Straight(v: Volume, trails: seq<Trail>, seen: set<Node>, d: Node, p: Path, via: seq<Entry>)
    requires WellFormed(v)
    decreases |via|
  {
    && via != [] && via[0].node.Some? && via[0].node.value in v.nodes
    && (var (n, w) := (via[0].node.value, p + [via[0].name]);
        && Holds(v, d, via[0], n) && Followed(v, n) !in seen
        && (|via| > 1 ==>
              && Passable(v, trails, n, w)
              && Straight(v, trails, seen + {Followed(v, n)}, Followed(v, n), w, via[1..])))
  }

  predicate Reached(visited: set<Node>, e: Entry) {
    e.node.Some? && e.node.value in visited
  }

  /** Whatever a straight descent from `d` ends at has a row. */
  ghost predicate Swept(v: Volume, visited: set<Node>, trails: seq<Trail>, seen: set<Node>, d: Node, p: Path)
    requires WellFormed(v)
  {
    forall via | Straight(v, trails, seen, d, p, via) :: Reached(visited, via[|via| - 1])
  }

  /** The same, for the descents that begin with one entry. */
  ghost predicate EntrySwept(v: Volume, visited: set<Node>, trails: seq<Trail>, seen: set<Node>, p: Path, e: Entry)
    requires WellFormed(v) && EntryOk(v, e)
  {
    Shown(e) && e.alias.None? && e.node.Some? && Followed(v, e.node.value) !in seen ==>
      var (n, w) := (e.node.value, p + [e.name]);
      && n in visited
      && (Passable(v, trails, n, w) ==>
            Swept(v, visited, trails, seen + {Followed(v, n)}, Followed(v, n), w))
  }

  ghost predicate SweptUpTo(v: Volume, visited: set<Node>, trails: seq<Trail>, seen: set<Node>, d: Node, p: Path,
                            k: nat)
    requires WellFormed(v) && d in v.nodes && k <= Width(v, d)
  {
    forall i | 0 <= i < k ::
      EntryOk(v, v.nodes[d].entries[i]) && EntrySwept(v, visited, trails, seen, p, v.nodes[d].entries[i])
  }

  /** With more trails fewer drop boxes can be passed. */
  lemma {:induction false} StraightBefore(v: Volume, trails: seq<Trail>, trails': seq<Trail>, seen: set<Node>,
                                          d: Node, p: Path, via: seq<Entry>)
    requires WellFormed(v) && trails <= trails' && Straight(v, trails', seen, d, p, via)
    ensures Straight(v, trails, seen, d, p, via)
    decreases |via|
  {
    if |via| > 1 {
      var n, w := via[0].node.value, p + [via[0].name];
      PassableBefore(v, trails, trails', n, w);
      StraightBefore(v, trails, trails', seen + {Followed(v, n)}, Followed(v, n), w, via[1..]);
    }
  }

  lemma PassableBefore(v: Volume, trails: seq<Trail>, trails': seq<Trail>, n: Node, w: Path)
    requires WellFormed(v) && n in v.nodes && trails <= trails' && Passable(v, trails', n, w)
    ensures Passable(v, trails, n, w)
  {
    assert forall j | 0 <= j < |trails| :: trails[j] == trails'[j];
  }

  lemma EntrySweptGrows(v: Volume, visited: set<Node>, visited': set<Node>, trails: seq<Trail>, trails': seq<Trail>,
                        seen: set<Node>, p: Path, e: Entry)
    requires WellFormed(v) && EntryOk(v, e) && visited <= visited' && trails <= trails'
    requires EntrySwept(v, visited, trails, seen, p, e)
    ensures EntrySwept(v, visited', trails', seen, p, e)
  {
    if e.node.Some? && Passable(v, trails', e.node.value, p + [e.name]) {
      var n, w := e.node.value, p + [e.name];
      PassableBefore(v, trails, trails', n, w);
      forall via | Straight(v, trails', seen + {Followed(v, n)}, Followed(v, n), w, via)
        ensures Straight(v, trails, seen + {Followed(v, n)}, Followed(v, n), w, via)
      {
        StraightBefore(v, trails, trails', seen + {Followed(v, n)}, Followed(v, n), w, via);
      }
    }
  }

  lemma SweptGrows(v: Volume, visited: set<Node>, visited': set<Node>, trails: seq<Trail>, trails': seq<Trail>,
                   seen: set<Node>, d: Node, p: Path, k: nat)
    requires WellFormed(v) && d in v.nodes && k <= Width(v, d) && visited <= visited' && trails <= trails'
    requires SweptUpTo(v, visited, trails, seen, d, p, k)
    ensures SweptUpTo(v, visited', trails', seen, d, p, k)
  {
    forall i | 0 <= i < k
      ensures EntryOk(v, v.nodes[d].entries[i]) && EntrySwept(v, visited', trails', seen, p, v.nodes[d].entries[i])
    {
      EntrySweptGrows(v, visited, visited', trails, trails', seen, p, v.nodes[d].entries[i]);
    }
  }

  lemma SweptAll(v: Volume, visited: set<Node>, trails: seq<Trail>, seen: set<Node>, d: Node, p: Path)
    requires WellFormed(v) && d in v.nodes && IsDir(v, d)
    requires SweptUpTo(v, visited, trails, seen, d, p, Width(v, d))
    ensures Swept(v, visited, trails, seen, d, p)
  {
    forall via | Straight(v, trails, seen, d, p, via) ensures Reached(visited, via[|via| - 1]) {
      var i :| 0 <= i < |v.nodes[d].entries| && v.nodes[d].entries[i] == via[0];
      assert EntrySwept(v, visited, trails, seen, p, via[0]);
      if |via| > 1 {
        assert via[1..][|via[1..]| - 1] == via[|via| - 1];
      }
    }
  }

  // ---- The walk ----

  function Nodes(trails: seq<Trail>): set<Node> {
    if trails == [] then {} else Nodes(trails[..|trails| - 1]) + {trails[|trails| - 1].node}
  }

  // ---- Drop boxes ----

  function Parent(p: Path): Path {
    if p == [] then [] else p[..|p| - 1]
  }

  /** What a path of shown entries leads to. */
  function Landing(v: Volume, files: Path, p: Path): Option<Node>
    requires WellFormed(v)
  {
    match Browsed(v, files, p)
    case None => None
    case Some(place) => LStat(v, place)
  }

  predicate LeadsToBox(v: Volume, files: Path, p: Path)
    requires WellFormed(v)
  {
    Landing(v, files, p).Some? && Landing(v, files, p).value in v.nodes
    && IsDropBox(v, Followed(v, Landing(v, files, p).value))
  }

  /** If the path leads to a drop box, then not through an alias at its end, and one of the trails
      reached the same node on another path. */
  ghost predicate BoxKnown(v: Volume, files: Path, trails: seq<Trail>, p: Path)
    requires WellFormed(v) && p != []
  {
    LeadsToBox(v, files, p) ==>
      && !ThroughAlias(v, files, p)
      && exists j :: 0 <= j < |trails| && Landing(v, files, p) == Some(trails[j].node) && trails[j].virtual != p
  }

  /** The same for the path and all paths on the way to it. */
  ghost predicate BoxesKnown(v: Volume, files: Path, trails: seq<Trail>, p: Path)
    requires WellFormed(v)
  {
    forall k {:trigger BoxKnown(v, files, trails, p[..k])} | 0 < k <= |p| :: BoxKnown(v, files, trails, p[..k])
  }

  lemma BoxesKnownMore(v: Volume, files: Path, trails: seq<Trail>, p: Path, c: string)
    requires WellFormed(v) && BoxesKnown(v, files, trails, p) && BoxKnown(v, files, trails, p + [c])
    ensures BoxesKnown(v, files, trails, p + [c])
  {
    forall k | 0 < k <= |p| + 1 ensures BoxKnown(v, files, trails, (p + [c])[..k]) {
      if k <= |p| { assert (p + [c])[..k] == p[..k]; } else { assert (p + [c])[..k] == p + [c]; }
    }
  }

  lemma BoxKnownGrows(v: Volume, files: Path, trails: seq<Trail>, trails': seq<Trail>, p: Path)
    requires WellFormed(v) && p != [] && trails <= trails' && BoxKnown(v, files, trails, p)
    ensures BoxKnown(v, files, trails', p)
  {
    if LeadsToBox(v, files, p) {
      var j :| 0 <= j < |trails| && Landing(v, files, p) == Some(trails[j].node) && trails[j].virtual != p;
      assert trails'[j] == trails[j];
    }
  }

  lemma BoxesKnownGrow(v: Volume, files: Path, trails: seq<Trail>, trails': seq<Trail>, p: Path)
    requires WellFormed(v) && trails <= trails' && BoxesKnown(v, files, trails, p)
    ensures BoxesKnown(v, files, trails', p)
  {
    forall k | 0 < k <= |p| ensures BoxKnown(v, files, trails', p[..k]) {
      BoxKnownGrows(v, files, trails, trails', p[..k]);
    }
  }

  /** How many aliases were followed on a path. */
  function Hops(v: Volume, files: Path, p: Path): nat
    requires WellFormed(v)
    decreases |p|
  {
    if p == [] then 0
    else Hops(v, files, p[..|p| - 1]) + if ThroughAlias(v, files, p) then 1 else 0
  }

  /** One row goes through a drop box only if an earlier row has reached the same node on another path,
      and never through the target of an alias to a drop box. */
  ghost predicate BoxesOf(v: Volume, files: Path, earlier: seq<Trail>, t: Trail)
    requires WellFormed(v)
  {
    forall k {:trigger BoxKnown(v, files, earlier, t.virtual[..k])} | 0 < k < |t.virtual| ::
      BoxKnown(v, files, earlier, t.virtual[..k])
  }

  ghost predicate BoxesStayShut(v: Volume, files: Path, trails: seq<Trail>)
    requires WellFormed(v)
  {
    forall i | 0 <= i < |trails| :: BoxesOf(v, files, trails[..i], trails[i])
  }

  lemma ParentBoxes(v: Volume, files: Path, earlier: seq<Trail>, t: Trail)
    requires WellFormed(v) && BoxesKnown(v, files, earlier, Parent(t.virtual))
    ensures BoxesOf(v, files, earlier, t)
  {
    forall k | 0 < k < |t.virtual| ensures BoxKnown(v, files, earlier, t.virtual[..k]) {
      assert Parent(t.virtual)[..k] == t.virtual[..k];
    }
  }

  /** No row is reached through as many aliases as there are levels. */
  ghost predicate FewHops(v: Volume, files: Path, trails: seq<Trail>)
    requires WellFormed(v)
  {
    forall i | 0 <= i < |trails| :: Hops(v, files, Parent(trails[i].virtual)) < MAX_LEVEL
  }

  /** Both, trail by trail. */
  ghost predicate BoxesShut(v: Volume, files: Path, trails: seq<Trail>)
    requires WellFormed(v)
  {
    trails != [] ==>
      && BoxesShut(v, files, trails[..|trails| - 1])
      && BoxesOf(v, files, trails[..|trails| - 1], trails[|trails| - 1])
      && Hops(v, files, Parent(trails[|trails| - 1].virtual)) < MAX_LEVEL
  }

  lemma BoxesShutMore(v: Volume, files: Path, trails: seq<Trail>, t: Trail)
    requires WellFormed(v) && BoxesShut(v, files, trails) && BoxesKnown(v, files, trails, Parent(t.virtual))
    requires Hops(v, files, Parent(t.virtual)) < MAX_LEVEL
    ensures BoxesShut(v, files, trails + [t])
  {
    ParentBoxes(v, files, trails, t);
    assert (trails + [t])[..|trails|] == trails;
  }

  lemma {:induction false} EachBoxShut(v: Volume, files: Path, trails: seq<Trail>, i: nat)
    requires WellFormed(v) && BoxesShut(v, files, trails) && i < |trails|
    ensures BoxesOf(v, files, trails[..i], trails[i]) && Hops(v, files, Parent(trails[i].virtual)) < MAX_LEVEL
    decreases |trails|
  {
    if i < |trails| - 1 {
      EachBoxShut(v, files, trails[..|trails| - 1], i);
      assert trails[..|trails| - 1][..i] == trails[..i];
    }
  }

  lemma AllBoxesShut(v: Volume, files: Path, trails: seq<Trail>)
    requires WellFormed(v) && BoxesShut(v, files, trails)
    ensures BoxesStayShut(v, files, trails) && FewHops(v, files, trails)
  {
    forall i | 0 <= i < |trails|
      ensures BoxesOf(v, files, trails[..i], trails[i]) && Hops(v, files, Parent(trails[i].virtual)) < MAX_LEVEL
    {
      EachBoxShut(v, files, trails, i);
    }
  }

  /** No trail lies at `w` or below it. */
  ghost predicate Untouched(trails: seq<Trail>, w: Path) {
    forall i | 0 <= i < |trails| :: !(w <= trails[i].virtual)
  }

  /** No trail lies below `p`. */
  ghost predicate NothingBelow(trails: seq<Trail>, p: Path) {
    forall i | 0 <= i < |trails| :: !(p < trails[i].virtual)
  }

  /** Trails were added, all of them at `w` or below it. */
  ghost predicate Grew(trails: seq<Trail>, trails': seq<Trail>, w: Path) {
    trails <= trails' && forall i | |trails| <= i < |trails'| :: w <= trails'[i].virtual
  }

  /** Trails were added, all of them below `p`. */
  ghost predicate GrewBelow(trails: seq<Trail>, trails': seq<Trail>, p: Path) {
    trails <= trails' && forall i | |trails| <= i < |trails'| :: p < trails'[i].virtual
  }

  lemma NameOnPath(p: Path, c: string, q: Path)
    requires p + [c] <= q
    ensures p < q && q[|p|] == c
  {
    assert q[..|p|] == (p + [c])[..|p|] == p;
    assert q[|p|] == (p + [c])[|p|];
  }

  lemma NamesUntouched(trails: seq<Trail>, p: Path, c: string)
    requires NothingBelow(trails, p)
    ensures Untouched(trails, p + [c])
  {
    forall i | 0 <= i < |trails| ensures !(p + [c] <= trails[i].virtual) {
      if p + [c] <= trails[i].virtual { NameOnPath(p, c, trails[i].virtual); }
    }
  }

  lemma StillUntouched(trails: seq<Trail>, trails': seq<Trail>, p: Path, c: string, c': string)
    requires Untouched(trails, p + [c']) && Grew(trails, trails', p + [c]) && c != c'
    ensures Untouched(trails', p + [c'])
  {
    forall i | 0 <= i < |trails'| ensures !(p + [c'] <= trails'[i].virtual) {
      if i < |trails| {
        assert trails'[i] == trails[i];
      } else {
        NameOnPath(p, c, trails'[i].virtual);
        if p + [c'] <= trails'[i].virtual { NameOnPath(p, c', trails'[i].virtual); }
      }
    }
  }

  lemma GrewOn(trails: seq<Trail>, trails1: seq<Trail>, trails2: seq<Trail>, p: Path, c: string)
    requires GrewBelow(trails, trails1, p) && Grew(trails1, trails2, p + [c])
    ensures GrewBelow(trails, trails2, p)
  {
    forall i | |trails| <= i < |trails2| ensures p < trails2[i].virtual {
      if i < |trails1| {
        assert trails2[i] == trails1[i];
      } else {
        NameOnPath(p, c, trails2[i].virtual);
      }
    }
  }

  lemma NewTrail(trails: seq<Trail>, t: Trail, w: Path)
    requires Untouched(trails, w) && t.virtual == w
    ensures Grew(trails, trails + [t], w) && NothingBelow(trails + [t], w)
  {
  }

  lemma GrewThrough(trails: seq<Trail>, trails1: seq<Trail>, trails2: seq<Trail>, w: Path)
    requires Grew(trails, trails1, w) && GrewBelow(trails1, trails2, w)
    ensures Grew(trails, trails2, w)
  {
    forall i | |trails| <= i < |trails2| ensures w <= trails2[i].virtual {
      if i < |trails1| { assert trails2[i] == trails1[i]; }
    }
  }

  /** Every row is traced by its trail, and no two trails end at the same node. */
  ghost predicate Chronicle(v: Volume, base: Path, rows: seq<Row>, trails: seq<Trail>)
    requires WellFormed(v)
    decreases |rows|
  {
    && |trails| == |rows|
    && (rows != [] ==>
          var (front, fronts) := (rows[..|rows| - 1], trails[..|rows| - 1]);
          && Traced(v, base, rows[|rows| - 1], trails[|rows| - 1])
          && trails[|rows| - 1].node !in Nodes(fronts)
          && Chronicle(v, base, front, fronts))
  }

  lemma {:induction false} ChronicleEach(v: Volume, base: Path, rows: seq<Row>, trails: seq<Trail>, i: nat)
    requires WellFormed(v) && Chronicle(v, base, rows, trails) && i < |rows|
    ensures Traced(v, base, rows[i], trails[i])
    decreases |rows|
  {
    if i < |rows| - 1 {
      ChronicleEach(v, base, rows[..|rows| - 1], trails[..|rows| - 1], i);
    }
  }

  lemma {:induction false} TrailHasNode(trails: seq<Trail>, i: nat)
    requires i < |trails|
    ensures trails[i].node in Nodes(trails)
    decreases |trails|
  {
    if i < |trails| - 1 {
      TrailHasNode(trails[..|trails| - 1], i);
    }
  }

  lemma {:induction false} ChronicleDistinct(v: Volume, base: Path, rows: seq<Row>, trails: seq<Trail>, i: nat, j: nat)
    requires WellFormed(v) && Chronicle(v, base, rows, trails) && i < j < |rows|
    ensures trails[i].node != trails[j].node
    decreases |rows|
  {
    if j < |rows| - 1 {
      ChronicleDistinct(v, base, rows[..|rows| - 1], trails[..|rows| - 1], i, j);
    } else {
      TrailHasNode(trails[..|rows| - 1], i);
    }
  }

  lemma {:induction false} NodesCount(v: Volume, base: Path, rows: seq<Row>, trails: seq<Trail>)
    requires WellFormed(v) && Chronicle(v, base, rows, trails)
    ensures |Nodes(trails)| == |rows|
    decreases |rows|
  {
    if rows != [] {
      NodesCount(v, base, rows[..|rows| - 1], trails[..|rows| - 1]);
    }
  }

  lemma {:induction false} NodeHasTrail(trails: seq<Trail>, n: Node) returns (i: nat)
    requires n in Nodes(trails)
    ensures i < |trails| && trails[i].node == n
    decreases |trails|
  {
    if n == trails[|trails| - 1].node {
      i := |trails| - 1;
    } else {
      i := NodeHasTrail(trails[..|trails| - 1], n);
    }
  }

  /** What the walk has written down so far. */
  datatype Ledger = Ledger(rows: seq<Row>, trails: seq<Trail>, visited: set<Node>, counts: Counts)

  const BlankLedger := Ledger([], [], NO_NODES, Counts(0, 0, 0))

  ghost predicate Kept(v: Volume, base: Path, l: Ledger) {
    && WellFormed(v) && Names(base)
    && Chronicle(v, base, l.rows, l.trails) && BoxesShut(v, base, l.trails)
    && l.visited == Nodes(l.trails)
    && l.counts == Tally(v, l.trails)
  }

  /** Stands for the intent to look into a closed ledger. */
  datatype Look = Look

  predicate Looked(look: Look) {
    look == Look
  }

  /** `Kept`, for callers that carry the ledger along without looking into it. */
  ghost predicate Closed(v: Volume, base: Path, l: Ledger) {
    forall look {:trigger Looked(look)} | Looked(look) :: Kept(v, base, l)
  }

  lemma Opened(v: Volume, base: Path, l: Ledger)
    requires Closed(v, base, l)
    ensures Kept(v, base, l)
  {
    assert Looked(Look);
  }

  function Entered(v: Volume, l: Ledger, row: Row, t: Trail): Ledger
    requires WellFormed(v)
  {
    Ledger(l.rows + [row], l.trails + [t], l.visited + {t.node}, Counted(v, l.counts, t.node))
  }

  lemma ChronicleMore(v: Volume, base: Path, rows: seq<Row>, trails: seq<Trail>, row: Row, t: Trail)
    requires WellFormed(v) && Chronicle(v, base, rows, trails) && t.node !in Nodes(trails) && Traced(v, base, row, t)
    ensures Chronicle(v, base, rows + [row], trails + [t])
  {
    assert (rows + [row])[..|rows|] == rows && (trails + [t])[..|rows|] == trails;
  }

  lemma NodesMore(v: Volume, trails: seq<Trail>, t: Trail)
    requires WellFormed(v)
    ensures Nodes(trails + [t]) == Nodes(trails) + {t.node}
    ensures Tally(v, trails + [t]) == Counted(v, Tally(v, trails), t.node)
  {
    assert (trails + [t])[..|trails|] == trails;
  }

  lemma EnteredKept(v: Volume, base: Path, l: Ledger, row: Row, t: Trail)
    requires Kept(v, base, l) && t.node !in l.visited
    requires Traced(v, base, row, t) && BoxesKnown(v, base, l.trails, Parent(t.virtual))
    requires Hops(v, base, Parent(t.virtual)) < MAX_LEVEL
    ensures Kept(v, base, Entered(v, l, row, t))
  {
    ChronicleMore(v, base, l.rows, l.trails, row, t);
    BoxesShutMore(v, base, l.trails, t);
    NodesMore(v, l.trails, t);
  }

  // ---- What the rows say ----

  /** A row's virtual path, looked up from the configured path of the shared files with aliases
      resolved at every component, gives the row's real path. */
  lemma RowsResolve(v: Volume, shared: Path, files: Path, row: Row, t: Trail)
    requires WellFormed(v) && files == Resolved(v, [], shared) && Traced(v, files, row, t)
    ensures Render(Resolved(v, [], shared + t.virtual)) == row.realPath
    ensures LStat(v, Resolved(v, [], shared + t.virtual)) == Some(t.node)
  {
    BrowsedIsResolved(v, files, t.virtual);
    ResolvedAppend(v, [], shared, t.virtual);
  }

  lemma {:induction false} TallyCountsRows(v: Volume, trails: seq<Trail>)
    requires WellFormed(v)
    ensures var c := Tally(v, trails); c.files + c.directories == |trails|
    decreases |trails|
  {
    if trails != [] {
      TallyCountsRows(v, trails[..|trails| - 1]);
    }
  }

  /** The rows are traced one by one, and each visited node has exactly one of them. */
  ghost predicate OneRowEach(v: Volume, files: Path, rows: seq<Row>, trails: seq<Trail>, visited: set<Node>)
    requires WellFormed(v)
  {
    && |trails| == |rows|
    && (forall i | 0 <= i < |rows| :: Traced(v, files, rows[i], trails[i]))
    && (forall i, j | 0 <= i < j < |rows| :: trails[i].node != trails[j].node)
    && (forall n :: n in visited <==> exists i :: 0 <= i < |rows| && trails[i].node == n)
  }

  lemma RowsOnce(v: Volume, files: Path, rows: seq<Row>, trails: seq<Trail>)
    requires WellFormed(v) && Chronicle(v, files, rows, trails)
    ensures OneRowEach(v, files, rows, trails, Nodes(trails))
  {
    forall i | 0 <= i < |rows| ensures Traced(v, files, rows[i], trails[i]) && trails[i].node in Nodes(trails) {
      ChronicleEach(v, files, rows, trails, i);
      TrailHasNode(trails, i);
    }
    forall i, j | 0 <= i < j < |rows| ensures trails[i].node != trails[j].node {
      ChronicleDistinct(v, files, rows, trails, i, j);
    }
    forall n | n in Nodes(trails) ensures exists i :: 0 <= i < |rows| && trails[i].node == n {
      var i := NodeHasTrail(trails, n);
    }
  }

  /** The directory is the root of the shared files, or an entry that is it or links to it has a row. */
  ghost predicate Known(v: Volume, files: Path, visited: set<Node>, d: Node)
    requires WellFormed(v)
  {
    DirAt(v, files) == Some(d) || exists m :: m in visited && Followed(v, m) == d
  }

  ghost predicate Backed(v: Volume, files: Path, visited: set<Node>, entered: set<Node>)
    requires WellFormed(v)
  {
    forall d | d in entered :: Known(v, files, visited, d)
  }

  /** Whatever can be reached from the shared files has a row; the only exception is an entry that
      closes a cycle of entries with rows, and what it leads to is the root of the shared files or has
      a row under another entry. */
  ghost predicate CoversAll(v: Volume, files: Path, visited: set<Node>)
    requires WellFormed(v)
  {
    forall d, steps, last, n :: DirAt(v, files) == Some(d) && Reaches(v, d, steps, last, n) ==>
      n in visited || (Closes(v, visited, last, n) && Known(v, files, visited, Followed(v, n)))
  }

  /** Whatever a straight descent from the directory at `path` ends at has a row. */
  ghost predicate CoversStraight(v: Volume, path: Path, visited: set<Node>, trails: seq<Trail>, p: Path)
    requires WellFormed(v)
  {
    match DirAt(v, path)
    case None => true
    case Some(d) => Swept(v, visited, trails, {d}, d, p)
  }

  // ---- What the coverage and the drop boxes mean in terms of nodes and entries ----

  /** The walk of a path begins exactly if the path leads to a directory or to a link to one. */
  lemma DirectoryAt(v: Volume, path: Path, d: Node)
    requires WellFormed(v)
    ensures DirAt(v, path) == Some(d) <==>
              LStat(v, path).Some? && Stats(v, LStat(v, path).value, d) && v.nodes[d].Dir?
  {
  }

  /** Every visible entry of the directory of shared files has a row, unless it is an alias, leads
      nowhere, or is that directory again. */
  lemma TopLevelHasRows(v: Volume, files: Path, visited: set<Node>, trails: seq<Trail>, d: Node, i: nat, n: Node,
                        sb: Node)
    requires WellFormed(v) && CoversStraight(v, files, visited, trails, [])
    requires LStat(v, files).Some? && Stats(v, LStat(v, files).value, d)
    requires v.nodes[d].Dir? && i < |v.nodes[d].entries|
    requires var e := v.nodes[d].entries[i];
             e.name[0] != '.' && !e.hidden && e.alias.None? && e.node == Some(n) && Stats(v, n, sb) && sb != d
    ensures n in visited
  {
    var e := v.nodes[d].entries[i];
    DirectoryAt(v, files, d);
    assert Holds(v, d, e, n);
    assert Straight(v, trails, {d}, d, [], [e]);
  }

  /** A path leads to a drop box exactly if its last node is a directory that is one, or links to one. */
  lemma BoxAt(v: Volume, files: Path, p: Path, n: Node, d: Node)
    requires WellFormed(v) && Browsed(v, files, p).Some? && LStat(v, Browsed(v, files, p).value) == Some(n)
    requires Stats(v, n, d)
    ensures Landing(v, files, p) == Some(n)
    ensures LeadsToBox(v, files, p) <==> v.nodes[d].Dir? && v.nodes[d].dropBox
  {
  }

  /** A row that lies in a drop box stands there because an earlier row has the box under another path:
      what lies in a box with only one way in has no row. */
  lemma BoxHasAnotherRow(v: Volume, files: Path, rows: seq<Row>, trails: seq<Trail>, visited: set<Node>, p: Path,
                         i: nat)
    returns (j: nat)
    requires WellFormed(v) && OneRowEach(v, files, rows, trails, visited) && BoxesStayShut(v, files, trails)
    requires i < |trails| && p != [] && p < trails[i].virtual && LeadsToBox(v, files, p)
    ensures j < i && trails[j].virtual != p && !ThroughAlias(v, files, p)
    ensures Landing(v, files, trails[j].virtual) == Landing(v, files, p) == Some(trails[j].node)
  {
    assert p == trails[i].virtual[..|p|];
    assert BoxesOf(v, files, trails[..i], trails[i]) && BoxKnown(v, files, trails[..i], p);
    j :| 0 <= j < i && Landing(v, files, p) == Some(trails[..i][j].node) && trails[..i][j].virtual != p;
    assert Traced(v, files, rows[j], trails[j]);
  }

  // ---- An example ----

  const ROOT := Node(1, 1)
  const NOTE := Node(1, 2)
  const BOX := Node(1, 3)
  const SECRET := Node(1, 4)

  const TOP := [Entry("n", false, None, Some(NOTE)), Entry("a", false, Some(["n"]), Some(Node(1, 5))),
                Entry("b", false, None, Some(BOX))]

  const INSIDE := [Entry("s", false, None, Some(SECRET))]

  /** Shared files with a file, an alias to it, and a drop box with a file. */
  predicate IsSample(v: Volume) {
    && v.root == ROOT && v.links == map[]
    && v.nodes.Keys == {ROOT, NOTE, BOX, SECRET, Node(1, 5)}
    && v.nodes[ROOT] == Dir(TOP, false) && v.nodes[BOX] == Dir(INSIDE, true)
    && v.nodes[NOTE].File? && v.nodes[SECRET].File? && v.nodes[Node(1, 5)].File?
  }

  lemma SampleWellFormed(v: Volume)
    requires IsSample(v)
    ensures WellFormed(v)
  {
    assert DirOk(v, TOP) && DirOk(v, INSIDE);
  }

  lemma FoundIn(entries: seq<Entry>, c: string, k: nat)
    requires k < |entries| && c == entries[k].name
    requires forall i, j | 0 <= i < j < |entries| :: entries[i].name != entries[j].name
    ensures Find(entries, c) == Some(entries[k])
  {
    FindEntry(entries, k);
  }

  lemma SampleTop(v: Volume, c: string)
    requires IsSample(v) && WellFormed(v)
    ensures LStat(v, []) == Some(ROOT)
    ensures EntryAt(v, [], c) ==
              if c == "n" then Some(TOP[0]) else if c == "a" then Some(TOP[1])
              else if c == "b" then Some(TOP[2]) else None
  {
    if c == "n" { FoundIn(TOP, c, 0); }
    if c == "a" { FoundIn(TOP, c, 1); }
    if c == "b" { FoundIn(TOP, c, 2); }
  }

  lemma SampleBelow(v: Volume, c: string)
    requires IsSample(v) && WellFormed(v)
    ensures LStat(v, ["n"]) == Some(NOTE) && LStat(v, ["b"]) == Some(BOX)
    ensures EntryAt(v, ["n"], c).None?
    ensures EntryAt(v, ["b"], c) == if c == "s" then Some(INSIDE[0]) else None
  {
    SampleTop(v, "n");
    SampleTop(v, "b");
    if c == "s" { FoundIn(INSIDE, c, 0); }
  }

  lemma SampleSecret(v: Volume, c: string)
    requires IsSample(v) && WellFormed(v)
    ensures LStat(v, ["b", "s"]) == Some(SECRET) && EntryAt(v, ["b", "s"], c).None?
  {
    SampleBelow(v, "s");
    assert ["b", "s"][..1] == ["b"];
  }

  /** Everything that can be seen in the sample. */
  lemma {:induction false} SampleBrowsed(v: Volume, p: Path)
    requires IsSample(v) && WellFormed(v) && Browsed(v, [], p).Some?
    ensures var place := Browsed(v, [], p).value;
            || (p == place == []) || (p == ["n"] && place == p) || (p == ["a"] && place == ["n"])
            || (p == place == ["b"]) || (p == place == ["b", "s"])
    decreases |p|
  {
    if p != [] {
      var front, c := p[..|p| - 1], p[|p| - 1];
      assert p == front + [c];
      SampleBrowsed(v, front);
      SampleTop(v, c);
      SampleBelow(v, c);
      SampleSecret(v, c);
    }
  }

  lemma SampleCovered(v: Volume, visited: set<Node>, trails: seq<Trail>)
    requires IsSample(v) && WellFormed(v) && CoversStraight(v, [], visited, trails, [])
    ensures NOTE in visited && BOX in visited
  {
    SampleTop(v, "n");
    TopLevelHasRows(v, [], visited, trails, ROOT, 0, NOTE, NOTE);
    TopLevelHasRows(v, [], visited, trails, ROOT, 2, BOX, BOX);
  }

  lemma SampleTrail(v: Volume, rows: seq<Row>, trails: seq<Trail>, visited: set<Node>, i: nat)
    requires IsSample(v) && WellFormed(v) && OneRowEach(v, [], rows, trails, visited)
    requires BoxesStayShut(v, [], trails) && i < |trails|
    ensures trails[i].node == NOTE || trails[i].node == BOX
  {
    SampleBelow(v, "s");
    assert Traced(v, [], rows[i], trails[i]);
    SampleBrowsed(v, trails[i].virtual);
    if trails[i].virtual == ["b", "s"] {
      SampleTop(v, "b");
      assert Browsed(v, [], ["b"]) == Some(["b"]);
      BoxAt(v, [], ["b"], BOX, BOX);
      assert ["b"] < trails[i].virtual;
      var j := BoxHasAnotherRow(v, [], rows, trails, visited, ["b"], i);
      SampleBrowsed(v, trails[j].virtual);
    }
  }

  lemma SampleNode(v: Volume, rows: seq<Row>, trails: seq<Trail>, visited: set<Node>, n: Node)
    requires IsSample(v) && WellFormed(v) && OneRowEach(v, [], rows, trails, visited)
    requires BoxesStayShut(v, [], trails) && n in visited
    ensures n == NOTE || n == BOX
  {
    var i :| 0 <= i < |rows| && trails[i].node == n;
    SampleTrail(v, rows, trails, visited, i);
  }

  /** The file has a row, through its name or the alias, and so has the drop box, but not what lies in
      it. */
  lemma SampleIndexed(v: Volume, rows: seq<Row>, trails: seq<Trail>, visited: set<Node>)
    requires IsSample(v) && WellFormed(v) && OneRowEach(v, [], rows, trails, visited)
    requires CoversStraight(v, [], visited, trails, []) && BoxesStayShut(v, [], trails)
    ensures visited == {NOTE, BOX}
  {
    SampleCovered(v, visited, trails);
    forall n | n in visited ensures n in {NOTE, BOX} {
      SampleNode(v, rows, trails, visited, n);
    }
  }

  /** What one more row adds to the totals: a directory counts as such, a file with its data and its
      resource fork, a link that leads nowhere with its own length, and any other link as its target. */
  lemma TallyRow(v: Volume, trails: seq<Trail>, t: Trail)
    requires WellFormed(v) && t.node in v.nodes
    ensures var (c, c') := (Tally(v, trails), Tally(v, trails + [t]));
            match v.nodes[if t.node in v.links then v.links[t.node] else t.node]
            case Dir(_, _) => c' == Counts(c.files, c.directories + 1, c.size)
            case File(size, fork) => c' == Counts(c.files + 1, c.directories, c.size + size + fork)
            case Link(length) => c' == Counts(c.files + 1, c.directories, c.size + length)
  {
    NodesMore(v, trails, t);
  }

  // ---- The position of the walk ----

  /** A directory below the path that is being enumerated, with the text the walk builds on. */
  datatype Position = Position(base: Path, rel: Path, text: string, prefix: Option<string>, skip: nat)

  function Start(path: Path, text: string, prefix: Option<string>): Position {
    Position(path, [], text, prefix, if |text| == 1 then 0 else |text|)
  }

  function Down(pos: Position, name: string): Position {
    pos.(rel := pos.rel + [name], text := ChildText(pos.text, name))
  }

  function VirtualPath(prefix: Option<string>, filepath: string, skip: nat): string
    requires skip <= |filepath|
  {
    if prefix.Some? then prefix.value + filepath[skip..] else filepath[skip..]
  }

  function NewPrefix(prefix: Option<string>, filepath: string, skip: nat): string
    requires skip < |filepath|
  {
    if prefix.Some? then AppendComponent(prefix.value, filepath[skip + 1..]) else filepath[skip..]
  }

  /** The prefix is the text of the path below the shared files that led to the enumerated path. */
  predicate PrefixOf(prefix: Option<string>, pv: Path) {
    && Names(pv)
    && match prefix
       case None => pv == []
       case Some(text) => pv != [] && text == Flat(pv)
  }

  function DirAt(v: Volume, path: Path): (r: Option<Node>)
    requires WellFormed(v)
    ensures r.Some? ==> r.value in v.nodes && IsDir(v, r.value)
  {
    match LStat(v, path)
    case None => None
    case Some(n) => if IsDir(v, Followed(v, n)) then Some(Followed(v, n)) else None
  }

  ghost predicate Spelled(pos: Position, pv: Path) {
    && Names(pos.base) && Names(pos.rel) && PrefixOf(pos.prefix, pv)
    && pos.text == Render(pos.base + pos.rel)
    && pos.skip == |Flat(pos.base)|
  }

  /** The walk stands in directory `d`, and its path below the shared files resolves to there. */
  ghost predicate Standing(v: Volume, files: Path, pos: Position, pv: Path, d: Node)
    requires WellFormed(v)
  {
    && Spelled(pos, pv)
    && Browsed(v, files, pv + pos.rel) == Some(pos.base + pos.rel)
    && DirAt(v, pos.base + pos.rel) == Some(d)
  }

  lemma Joined(p: Path, c: string)
    requires Names(p) && IsName(c)
    ensures (p + [c])[..|p + [c]| - 1] == p && (p + [c])[|p + [c]| - 1] == c && Names(p + [c])
  {
  }

  lemma Pasted(prefix: Option<string>, pv: Path, head: string, tail: string)
    requires PrefixOf(prefix, pv) && |tail| > 1 && tail[0] == '/' && tail[1] != '/'
    ensures VirtualPath(prefix, head + tail, |head|) == Flat(pv) + tail
    ensures NewPrefix(prefix, head + tail, |head|) == Flat(pv) + tail
  {
    assert (head + tail)[|head|..] == tail && (head + tail)[|head| + 1..] == tail[1..];
    assert tail == "/" + tail[1..];
    if pv != [] {
      FlatEnds(pv);
      assert tail[1..] != "/";
      assert Flat(pv) + tail == Flat(pv) + "/" + tail[1..];
    }
  }

  lemma BelowText(pos: Position, pv: Path, c: string) returns (tail: string)
    requires Spelled(pos, pv) && IsName(c)
    ensures |tail| > 1 && tail[0] == '/' && tail[1] != '/'
    ensures ChildText(pos.text, c) == Flat(pos.base + pos.rel + [c]) == Flat(pos.base) + tail
    ensures Flat(pv + pos.rel + [c]) == Flat(pv) + tail
  {
    var below := pos.rel + [c];
    tail := Flat(below);
    ChildRendered(pos.base + pos.rel, c);
    assert pos.base + pos.rel + [c] == pos.base + below;
    assert pv + pos.rel + [c] == pv + below;
    FlatAppend(pos.base, below);
    FlatAppend(pv, below);
    Joined(pos.rel, c);
    FlatEnds(below);
  }

  /** The virtual path and the next prefix, computed by cutting and pasting text, are the text of
      the entry's path below the shared files. */
  lemma PathText(pos: Position, pv: Path, c: string)
    requires Spelled(pos, pv) && IsName(c)
    ensures var filepath := ChildText(pos.text, c);
            && filepath == Flat(pos.base + pos.rel + [c]) && pos.skip < |filepath|
            && VirtualPath(pos.prefix, filepath, pos.skip) == Flat(pv + pos.rel + [c])
            && NewPrefix(pos.prefix, filepath, pos.skip) == Flat(pv + pos.rel + [c])
            && LastComponent(Flat(pv + pos.rel + [c])) == c
  {
    var tail := BelowText(pos, pv, c);
    Pasted(pos.prefix, pv, Flat(pos.base), tail);
    Joined(pv + pos.rel, c);
    LastOfJoined(Flat(pv + pos.rel), c);
  }

  /** Where an entry leads, and the text of that path. */
  function PlaceOf(pos: Position, e: Entry): Path {
    if e.alias.Some? then e.alias.value else pos.base + pos.rel + [e.name]
  }

  lemma EntryFound(v: Volume, dir: Path, d: Node, k: nat)
    requires WellFormed(v) && DirAt(v, dir) == Some(d) && k < Width(v, d)
    ensures EntryOk(v, v.nodes[d].entries[k])
    ensures EntryAt(v, dir, v.nodes[d].entries[k].name) == Some(v.nodes[d].entries[k])
  {
    assert DirOk(v, v.nodes[d].entries);
    FindEntry(v.nodes[d].entries, k);
  }

  lemma EntryLands(v: Volume, files: Path, pos: Position, pv: Path, d: Node, k: nat)
    requires WellFormed(v) && Standing(v, files, pos, pv, d) && k < Width(v, d)
    ensures var e := v.nodes[d].entries[k];
            && EntryOk(v, e) && LStat(v, PlaceOf(pos, e)) == Lands(v, e)
            && Names(PlaceOf(pos, e))
            && (Shown(e) ==> Browsed(v, files, pv + pos.rel + [e.name]) == Some(PlaceOf(pos, e)))
            && (e.alias.Some? ==> ThroughAlias(v, files, pv + pos.rel + [e.name]))
            && (e.alias.None? ==> !ThroughAlias(v, files, pv + pos.rel + [e.name]))
  {
    var dir, e := pos.base + pos.rel, v.nodes[d].entries[k];
    EntryFound(v, dir, d, k);
    Joined(dir, e.name);
    Joined(pv + pos.rel, e.name);
  }

  lemma PlaceLands(v: Volume, files: Path, pos: Position, pv: Path, d: Node, k: nat)
    requires WellFormed(v) && Standing(v, files, pos, pv, d) && k < Width(v, d)
    ensures var e := v.nodes[d].entries[k];
            EntryOk(v, e) && LStat(v, PlaceOf(pos, e)) == Lands(v, e)
  {
    EntryLands(v, files, pos, pv, d, k);
  }

  /** The row for an entry: texts as the walk cuts and pastes them. */
  function RowOf(pos: Position, e: Entry): Row
    requires pos.skip <= |ChildText(pos.text, e.name)|
  {
    var filepath := ChildText(pos.text, e.name);
    var virtualpath := VirtualPath(pos.prefix, filepath, pos.skip);
    var resolvedpath := if e.alias.Some? then Render(e.alias.value) else filepath;
    Row(LastComponent(virtualpath), virtualpath, resolvedpath, e.alias.Some?)
  }

  function TrailOf(pos: Position, pv: Path, e: Entry, n: Node): Trail {
    Trail(pv + pos.rel + [e.name], PlaceOf(pos, e), n)
  }

  lemma EntryTraced(v: Volume, files: Path, pos: Position, pv: Path, d: Node, k: nat)
    requires WellFormed(v) && Standing(v, files, pos, pv, d) && k < Width(v, d)
    requires Shown(v.nodes[d].entries[k]) && EntryOk(v, v.nodes[d].entries[k])
    requires Lands(v, v.nodes[d].entries[k]).Some?
    ensures var e := v.nodes[d].entries[k];
            && pos.skip < |ChildText(pos.text, e.name)|
            && Traced(v, files, RowOf(pos, e), TrailOf(pos, pv, e, Lands(v, e).value))
  {
    var e := v.nodes[d].entries[k];
    PathText(pos, pv, e.name);
    EntryLands(v, files, pos, pv, d, k);
    Joined(pv + pos.rel, e.name);
  }

  /** A new entry's row can be written. */
  lemma EntryKept(v: Volume, files: Path, l: Ledger, pos: Position, pv: Path, d: Node, k: nat)
    requires Kept(v, files, l) && Standing(v, files, pos, pv, d) && k < Width(v, d)
    requires Shown(v.nodes[d].entries[k]) && EntryOk(v, v.nodes[d].entries[k])
    requires var n := Lands(v, v.nodes[d].entries[k]); n.Some? && n.value !in l.visited
    requires BoxesKnown(v, files, l.trails, pv + pos.rel) && Hops(v, files, pv + pos.rel) < MAX_LEVEL
    ensures var e := v.nodes[d].entries[k];
            && pos.skip < |ChildText(pos.text, e.name)|
            && NewPrefix(pos.prefix, ChildText(pos.text, e.name), pos.skip) == Flat(pv + pos.rel + [e.name])
            && Kept(v, files, Entered(v, l, RowOf(pos, e), TrailOf(pos, pv, e, Lands(v, e).value)))
  {
    var e := v.nodes[d].entries[k];
    EntryTraced(v, files, pos, pv, d, k);
    PathText(pos, pv, e.name);
    Joined(pv + pos.rel, e.name);
    EnteredKept(v, files, l, RowOf(pos, e), TrailOf(pos, pv, e, Lands(v, e).value));
  }

  lemma DownStanding(v: Volume, files: Path, pos: Position, pv: Path, d: Node, k: nat)
    requires WellFormed(v) && Standing(v, files, pos, pv, d) && k < Width(v, d)
    requires var e := v.nodes[d].entries[k];
             Shown(e) && e.alias.None? && e.node.Some? && e.node.value in v.nodes && IsDir(v, Followed(v, e.node.value))
    ensures var e := v.nodes[d].entries[k];
            && Standing(v, files, Down(pos, e.name), pv, Followed(v, e.node.value))
            && pv + Down(pos, e.name).rel == pv + pos.rel + [e.name]
  {
    var e := v.nodes[d].entries[k];
    EntryLands(v, files, pos, pv, d, k);
    ChildRendered(pos.base + pos.rel, e.name);
    Joined(pos.rel, e.name);
    assert pos.base + pos.rel + [e.name] == pos.base + (pos.rel + [e.name]);
    assert pv + pos.rel + [e.name] == pv + (pos.rel + [e.name]);
  }

  lemma DownHops(v: Volume, files: Path, pos: Position, pv: Path, d: Node, k: nat)
    requires WellFormed(v) && Standing(v, files, pos, pv, d) && k < Width(v, d)
    requires v.nodes[d].entries[k].alias.None?
    ensures Hops(v, files, pv + pos.rel + [v.nodes[d].entries[k].name]) == Hops(v, files, pv + pos.rel)
  {
    EntryLands(v, files, pos, pv, d, k);
    Joined(pv + pos.rel, v.nodes[d].entries[k].name);
  }

  lemma AliasStart(v: Volume, files: Path, pos: Position, pv: Path, d: Node, k: nat)
    requires WellFormed(v) && Standing(v, files, pos, pv, d) && k < Width(v, d)
    requires var e := v.nodes[d].entries[k];
             Shown(e) && e.alias.Some? && EntryOk(v, e) && Lands(v, e).Some? && IsDir(v, Followed(v, Lands(v, e).value))
    ensures var e := v.nodes[d].entries[k];
            var pv' := pv + pos.rel + [e.name];
            && Names(e.alias.value) && PrefixOf(Some(Flat(pv')), pv')
            && Browsed(v, files, pv') == Some(e.alias.value)
            && DirAt(v, e.alias.value) == Some(Followed(v, Lands(v, e).value))
  {
    EntryLands(v, files, pos, pv, d, k);
    Joined(pv + pos.rel, v.nodes[d].entries[k].name);
  }

  lemma StartStanding(v: Volume, files: Path, path: Path, prefix: Option<string>, pv: Path, d: Node)
    requires WellFormed(v) && Names(path) && PrefixOf(prefix, pv)
    requires Browsed(v, files, pv) == Some(path) && DirAt(v, path) == Some(d)
    ensures Standing(v, files, Start(path, Render(path), prefix), pv, d)
    ensures pv + Start(path, Render(path), prefix).rel == pv
  {
    assert path + [] == path && pv + [] == pv;
    if path != [] { FlatEnds(path); }
  }

  lemma Grows(part: set<Node>, n: Node)
    requires n !in part
    ensures |part + {n}| == |part| + 1
  {
  }

  lemma NoFewer(part: set<Node>, all: set<Node>)
    requires part <= all
    ensures |part| <= |all|
  {
    assert part + (all - part) == all;
  }

  lemma Shrinks(all: set<Node>, part: set<Node>, n: Node)
    requires n in all && n !in part
    ensures all - (part + {n}) < all - part
  {
    assert n in all - part && n !in all - (part + {n});
  }

  class Indexer {
    const volume: Volume
    /** The root of the shared files, with its aliases resolved. */
    const files: Path
    /** No `lstat` is going to fail. */
    ghost const sound: bool
    /** The inodes met so far, device by device. */
    var visited: set<Node>
    var rows: seq<Row>
    var fileCount: nat
    var directoryCount: nat
    var size: nat
    var level: nat
    /** The level cap was hit. */
    var tooDeep: bool
    /** Nothing was left out so far. */
    ghost var complete: bool
    ghost var book: Ledger
    ghost var entered: set<Node>

    constructor (volume: Volume, files: Path)
      requires WellFormed(volume) && Names(files)
      ensures Valid() && this.volume == volume && this.files == files && sound == AllLand(volume, files)
      ensures rows == [] && level == 0 && !tooDeep && complete && visited == entered == {}
    {
      this.volume, this.files := volume, files;
      rows, level, tooDeep := [], 0, false;
      fileCount, directoryCount, size := 0, 0, 0;
      book, visited, entered, complete, sound := BlankLedger, {}, {}, true, AllLand(volume, files);
    }

    ghost predicate Valid()
      reads `rows, `visited, `fileCount, `directoryCount, `size, `tooDeep, `complete, `book, `entered
    {
      Closed(volume, files, book) && Tied() && Backed(volume, files, visited, entered)
    }

    /** The fields say what the ledger says. */
    ghost predicate Tied()
      reads `rows, `visited, `fileCount, `directoryCount, `size, `tooDeep, `complete, `book
    {
      && WellFormed(volume)
      && rows == book.rows && visited == book.visited
      && Counts(fileCount, directoryCount, size) == book.counts
      && visited <= volume.nodes.Keys
      && (sound ==> AllLand(volume, files) && (complete || tooDeep))
      && (tooDeep ==> |visited| >= MAX_LEVEL)
    }

    ghost predicate Closing(gray: set<Node>)
      reads `rows, `visited, `fileCount, `directoryCount, `size, `tooDeep, `complete, `book, `entered
      requires Valid()
    {
      complete ==> Closure(volume, visited, entered, gray)
    }

    /** Mark a node as visited, write its row, and count it. */
    method Record(n: Node, row: Row, ghost t: Trail, ghost next: Ledger)
      requires Tied() && n in volume.nodes && n !in visited && t.node == n
      requires next == Entered(volume, book, row, t)
      modifies this`visited, this`rows, this`fileCount, this`directoryCount, this`size, this`book
      ensures Tied() && visited == old(visited) + {n} && book == next
    {
      Grows(visited, n);
      Count(n);
      rows, visited, book := rows + [row], visited + {n}, next;
    }

    method Count(n: Node)
      requires WellFormed(volume) && n in volume.nodes
      modifies this`fileCount, this`directoryCount, this`size
      ensures Counts(fileCount, directoryCount, size)
           == Counted(volume, Counts(old(fileCount), old(directoryCount), old(size)), n)
    {
      var sb := Followed(volume, n);
      if IsDir(volume, sb) {
        directoryCount := directoryCount + 1;
      } else {
        fileCount, size := fileCount + 1, size + SizeOf(volume, sb);
      }
    }

    method Reset()
      requires WellFormed(volume) && Names(files) && (sound ==> AllLand(volume, files))
      modifies this
      ensures Valid() && level == 0 && complete && StartsAt(files, Render(files), None, [], {})
    {
      visited, rows, level, tooDeep := {}, [], 0, false;
      fileCount, directoryCount, size := 0, 0, 0;
      book, complete := BlankLedger, true;
      entered := if DirAt(volume, files).Some? then {DirAt(volume, files).value} else {};
    }

    /** `wd_index_thread`: throw the old index away and walk the shared files. */
    method Rebuild()
      requires WellFormed(volume) && Names(files) && (sound ==> AllLand(volume, files))
      modifies this
      ensures book.rows == rows && OneRowEach(volume, files, rows, book.trails, visited)
      ensures fileCount + directoryCount == |rows| == |visited|
      ensures Counts(fileCount, directoryCount, size) == Tally(volume, book.trails)
      ensures tooDeep ==> |rows| >= MAX_LEVEL
      ensures sound && !tooDeep ==> CoversAll(volume, files, visited)
      ensures CoversStraight(volume, files, visited, book.trails, [])
      ensures BoxesStayShut(volume, files, book.trails) && FewHops(volume, files, book.trails)
    {
      Reset();
      IndexPath(files, Render(files), None, [], {});
      Summary();
      if complete {
        Coverage();
      }
    }

    /** The path from the shared files to where the walk stands or starts. */
    ghost predicate StartsAt(path: Path, text: string, prefix: Option<string>, pv: Path, gray: set<Node>)
      reads `level, `rows, `visited, `fileCount, `directoryCount, `size, `tooDeep, `complete, `book, `entered
      requires Valid()
    {
      && Names(path) && text == Render(path) && PrefixOf(prefix, pv)
      && Browsed(volume, files, pv) == Some(path)
      && NothingBelow(book.trails, pv) && BoxesKnown(volume, files, book.trails, pv)
      && Hops(volume, files, pv) == level
      && match DirAt(volume, path)
         case None => Closing(gray)
         case Some(d) => d in entered && Closing(gray + {d})
    }

    /** The walk stands at the end of the path, with one level for itself and one for each alias. */
    ghost predicate OnWay(p: Path)
      reads `book, `level
      requires WellFormed(volume)
    {
      BoxesKnown(volume, files, book.trails, p) && Hops(volume, files, p) + 1 == level <= MAX_LEVEL
    }

    /** `wd_index_index_path`. */
    method IndexPath(path: Path, text: string, prefix: Option<string>, ghost pv: Path, ghost gray: set<Node>)
      requires Valid() && StartsAt(path, text, prefix, pv, gray) && level <= |visited|
      modifies this
      ensures Valid() && Closing(gray) && level == old(level)
      ensures old(visited) <= visited
      ensures old(entered) <= entered && (complete ==> old(complete))
      ensures old(level) < MAX_LEVEL ==> CoversStraight(volume, path, visited, book.trails, pv)
      ensures GrewBelow(old(book.trails), book.trails, pv)
      decreases volume.nodes.Keys - visited, volume.nodes.Keys, 0
    {
      if level >= MAX_LEVEL {
        tooDeep, complete := true, false;
        return;
      }
      match DirAt(volume, path)
      case None =>
      case Some(d) => IndexDirectory(path, text, prefix, d, pv, gray);
    }

    method IndexDirectory(path: Path, text: string, prefix: Option<string>, d: Node, ghost pv: Path,
                          ghost gray: set<Node>)
      requires Valid() && level <= |visited| && DirAt(volume, path) == Some(d)
      requires Names(path) && text == Render(path) && PrefixOf(prefix, pv) && Browsed(volume, files, pv) == Some(path)
      requires d in entered && Closing(gray + {d})
      requires NothingBelow(book.trails, pv) && BoxesKnown(volume, files, book.trails, pv)
      requires Hops(volume, files, pv) == level < MAX_LEVEL
      modifies this
      ensures Valid() && Closing(gray) && level == old(level)
      ensures old(visited) <= visited
      ensures old(entered) <= entered && (complete ==> old(complete))
      ensures Swept(volume, visited, book.trails, {d}, d, pv) && GrewBelow(old(book.trails), book.trails, pv)
      decreases volume.nodes.Keys - visited, volume.nodes.Keys - {d}, 4
    {
      StartStanding(volume, files, path, prefix, pv, d);
      LeadsItself(volume, visited, d);
      Deeper(gray + {d});
      Enumerate(Start(path, text, prefix), d, {d}, pv, gray);
      Back(gray);
    }

    method Deeper(ghost gray: set<Node>)
      requires Valid() && Closing(gray)
      modifies `level
      ensures Valid() && Closing(gray) && level == old(level) + 1
    {
      level := level + 1;
    }

    method Back(ghost gray: set<Node>)
      requires Valid() && Closing(gray) && level > 0
      modifies `level
      ensures Valid() && Closing(gray) && level == old(level) - 1
    {
      level := level - 1;
    }

    /** The first `k` entries have been returned. */
    ghost predicate Done(d: Node, k: nat, ancestors: set<Node>, p: Path)
      reads `rows, `visited, `fileCount, `directoryCount, `size, `tooDeep, `complete, `book, `entered
      requires Valid() && d in volume.nodes && k <= Width(volume, d)
    {
      && (complete ==> Covered(volume, visited, entered, d, k))
      && SweptUpTo(volume, visited, book.trails, ancestors, d, p, k)
    }

    lemma Passed(d: Node, k: nat, ancestors: set<Node>, p: Path, was: set<Node>, entered0: set<Node>,
                 trails: seq<Trail>)
      requires trails <= book.trails
      requires Valid() && k < Width(volume, d) && was <= visited && entered0 <= entered
      requires complete ==> Covered(volume, was, entered0, d, k)
      requires SweptUpTo(volume, was, trails, ancestors, d, p, k) && AllLead(volume, was, ancestors, d)
      requires EntryOk(volume, volume.nodes[d].entries[k])
      requires var e := volume.nodes[d].entries[k];
               && (complete && Shown(e) ==> Met(volume, visited, entered, d, e))
               && EntrySwept(volume, visited, book.trails, ancestors, p, e)
      ensures Done(d, k + 1, ancestors, p) && AllLead(volume, visited, ancestors, d)
    {
      if complete {
        CoveredNext(volume, was, entered0, visited, entered, d, k);
      }
      SweptGrows(volume, was, visited, trails, book.trails, ancestors, d, p, k);
      AllLeadGrows(volume, was, visited, ancestors, d);
    }

    /** No trail lies at or below the entries from the `k`th on, and drop boxes on the way are known. */
    ghost predicate Ahead(d: Node, k: nat, p: Path)
      reads `book, `level
      requires WellFormed(volume) && d in volume.nodes && k <= Width(volume, d)
    {
      && OnWay(p)
      && forall i | k <= i < Width(volume, d) :: Untouched(book.trails, p + [volume.nodes[d].entries[i].name])
    }

    lemma StillAhead(d: Node, k: nat, p: Path, was: seq<Trail>)
      requires WellFormed(volume) && d in volume.nodes && k < Width(volume, d)
      requires BoxesKnown(volume, files, was, p) && Hops(volume, files, p) + 1 == level <= MAX_LEVEL
      requires forall i | k <= i < Width(volume, d) :: Untouched(was, p + [volume.nodes[d].entries[i].name])
      requires Grew(was, book.trails, p + [volume.nodes[d].entries[k].name])
      ensures Ahead(d, k + 1, p)
    {
      BoxesKnownGrow(volume, files, was, book.trails, p);
      assert DirOk(volume, volume.nodes[d].entries);
      forall i | k + 1 <= i < Width(volume, d)
        ensures Untouched(book.trails, p + [volume.nodes[d].entries[i].name])
      {
        StillUntouched(was, book.trails, p, volume.nodes[d].entries[k].name, volume.nodes[d].entries[i].name);
      }
    }

    /** The enumeration of one directory, and of the directories below it. */
    method Enumerate(pos: Position, d: Node, ancestors: set<Node>, ghost pv: Path, ghost gray: set<Node>)
      requires level <= |visited| + 1
      requires Valid() && Standing(volume, files, pos, pv, d)
      requires d in ancestors && ancestors <= entered && ancestors <= volume.nodes.Keys && Closing(gray + {d})
      requires AllLead(volume, visited, ancestors, d)
      requires NothingBelow(book.trails, pv + pos.rel) && OnWay(pv + pos.rel)
      modifies this
      ensures Valid() && Closing(gray) && level == old(level)
      ensures old(visited) <= visited
      ensures old(entered) <= entered && (complete ==> old(complete))
      ensures Swept(volume, visited, book.trails, ancestors, d, pv + pos.rel)
      ensures GrewBelow(old(book.trails), book.trails, pv + pos.rel)
      decreases volume.nodes.Keys - visited, volume.nodes.Keys - ancestors, 3
    {
      assert Ahead(d, 0, pv + pos.rel) by {
        forall i | 0 <= i < Width(volume, d) {
          NamesUntouched(book.trails, pv + pos.rel, volume.nodes[d].entries[i].name);
        }
      }
      for k := 0 to |volume.nodes[d].entries|
        invariant Valid() && Closing(gray + {d}) && level == old(level)
        invariant old(visited) <= visited
        invariant old(entered) <= entered && (complete ==> old(complete))
        invariant AllLead(volume, visited, ancestors, d)
        invariant Done(d, k, ancestors, pv + pos.rel)
        invariant Ahead(d, k, pv + pos.rel) && GrewBelow(old(book.trails), book.trails, pv + pos.rel)
      {
        ghost var visited0, entered0, trails0 := visited, entered, book.trails;
        NoFewer(old(visited), visited);
        Visit(pos, d, k, ancestors, pv, gray + {d});
        Passed(d, k, ancestors, pv + pos.rel, visited0, entered0, trails0);
        StillAhead(d, k, pv + pos.rel, trails0);
        GrewOn(old(book.trails), trails0, book.trails, pv + pos.rel, volume.nodes[d].entries[k].name);
      }
      SweptAll(volume, visited, book.trails, ancestors, d, pv + pos.rel);
    }

    /** One entry as the enumerator returns it. */
    method Visit(pos: Position, d: Node, k: nat, ancestors: set<Node>, ghost pv: Path, ghost gray: set<Node>)
      requires level <= |visited| + 1
      requires Valid() && Standing(volume, files, pos, pv, d) && k < Width(volume, d)
      requires ancestors <= entered && ancestors <= volume.nodes.Keys && Closing(gray)
      requires AllLead(volume, visited, ancestors, d)
      requires OnWay(pv + pos.rel)
      requires Untouched(book.trails, pv + pos.rel + [volume.nodes[d].entries[k].name])
      modifies this
      ensures Valid() && Closing(gray) && level == old(level)
      ensures old(visited) <= visited
      ensures old(entered) <= entered && (complete ==> old(complete))
      ensures Grew(old(book.trails), book.trails, pv + pos.rel + [volume.nodes[d].entries[k].name])
      ensures EntryOk(volume, volume.nodes[d].entries[k])
      ensures var e := volume.nodes[d].entries[k];
              && (complete && Shown(e) ==> Met(volume, visited, entered, d, e))
              && EntrySwept(volume, visited, book.trails, ancestors, pv + pos.rel, e)
      decreases volume.nodes.Keys - visited, volume.nodes.Keys - ancestors, 2
    {
      var e := volume.nodes[d].entries[k];
      PlaceLands(volume, files, pos, pv, d, k);
      if e.name[0] == '.' {
        return;
      }
      if e.alias.None? && e.node.Some? && Followed(volume, e.node.value) in ancestors {
        CycleMet(d, k, ancestors, pv + pos.rel);
        return;
      }
      if e.hidden {
        return;
      }
      var found := LStat(volume, PlaceOf(pos, e));
      if found.None? {
        Lose(pos, pv, d, k);
        return;
      }
      GoOn(pos, d, k, found.value, ancestors, pv, gray);
    }

    /** A shown entry that leads somewhere and closes no cycle. */
    method GoOn(pos: Position, d: Node, k: nat, n: Node, ancestors: set<Node>, ghost pv: Path, ghost gray: set<Node>)
      requires level <= |visited| + 1
      requires Valid() && Standing(volume, files, pos, pv, d) && k < Width(volume, d)
      requires ancestors <= entered && ancestors <= volume.nodes.Keys && Closing(gray)
      requires AllLead(volume, visited, ancestors, d)
      requires var e := volume.nodes[d].entries[k];
               && EntryOk(volume, e) && Shown(e) && Lands(volume, e) == Some(n)
               && (e.alias.None? ==> Followed(volume, n) !in ancestors)
      requires OnWay(pv + pos.rel)
      requires Untouched(book.trails, pv + pos.rel + [volume.nodes[d].entries[k].name])
      modifies this
      ensures Valid() && Closing(gray) && level == old(level)
      ensures old(visited) <= visited
      ensures old(entered) <= entered && (complete ==> old(complete))
      ensures n in visited
      ensures EntrySwept(volume, visited, book.trails, ancestors, pv + pos.rel, volume.nodes[d].entries[k])
      ensures Grew(old(book.trails), book.trails, pv + pos.rel + [volume.nodes[d].entries[k].name])
      decreases volume.nodes.Keys - visited, volume.nodes.Keys - ancestors, 1
    {
      ghost var before, trails0 := visited, book.trails;
      var descend := Meet(pos, d, k, n, pv, gray);
      if descend {
        Shrinks(volume.nodes.Keys, ancestors, Followed(volume, n));
        AllLeadGrows(volume, before, visited, ancestors, d);
        AllLeadOn(volume, visited, ancestors, d, volume.nodes[d].entries[k], n);
        ghost var met := book.trails;
        NoFewer(before, visited);
        Descend(pos, d, k, n, ancestors + {Followed(volume, n)}, pv, gray);
        GrewThrough(trails0, met, book.trails, pv + pos.rel + [volume.nodes[d].entries[k].name]);
      }
    }

    lemma CycleMet(d: Node, k: nat, ancestors: set<Node>, p: Path)
      requires Valid() && ancestors <= entered && AllLead(volume, visited, ancestors, d) && k < Width(volume, d)
      requires var e := volume.nodes[d].entries[k];
               EntryOk(volume, e) && e.alias.None? && e.node.Some? && Followed(volume, e.node.value) in ancestors
      ensures var e := volume.nodes[d].entries[k];
              && (Shown(e) ==> Met(volume, visited, entered, d, e))
              && EntrySwept(volume, visited, book.trails, ancestors, p, e)
    {
      var e := volume.nodes[d].entries[k];
      if Shown(e) { assert Holds(volume, d, e, e.node.value); }
    }

    /** An `lstat` failed. */
    ghost method Lose(pos: Position, pv: Path, d: Node, k: nat)
      requires Valid() && Standing(volume, files, pos, pv, d)
      requires d in volume.nodes && k < Width(volume, d) && !EntryKnown(volume, d, k)
      modifies this`complete
      ensures Valid() && !complete
    {
      assert Walkable(volume, files, d);
      complete := false;
    }

    /** Go on with the entries below an entry. */
    method Descend(pos: Position, d: Node, k: nat, n: Node, ancestors: set<Node>, ghost pv: Path, ghost gray: set<Node>)
      requires level <= |visited| + 1
      requires Valid() && Standing(volume, files, pos, pv, d) && k < Width(volume, d)
      requires var e := volume.nodes[d].entries[k];
               Shown(e) && e.alias.None? && e.node == Some(n)
      requires n in volume.nodes && IsDir(volume, Followed(volume, n)) && Followed(volume, n) in ancestors
      requires AllLead(volume, visited, ancestors, Followed(volume, n))
      requires var w := pv + pos.rel + [volume.nodes[d].entries[k].name];
               NothingBelow(book.trails, w) && BoxesKnown(volume, files, book.trails, w)
      requires Hops(volume, files, pv + pos.rel) + 1 == level <= MAX_LEVEL
      requires ancestors <= entered && ancestors <= volume.nodes.Keys && Closing(gray + {Followed(volume, n)})
      modifies this
      ensures Valid() && Closing(gray) && level == old(level)
      ensures old(visited) <= visited
      ensures old(entered) <= entered && (complete ==> old(complete))
      ensures var w := pv + pos.rel + [volume.nodes[d].entries[k].name];
              Swept(volume, visited, book.trails, ancestors, Followed(volume, n), w)
      ensures GrewBelow(old(book.trails), book.trails, pv + pos.rel + [volume.nodes[d].entries[k].name])
      decreases volume.nodes.Keys - visited, volume.nodes.Keys - ancestors, 4
    {
      DownStanding(volume, files, pos, pv, d, k);
      DownHops(volume, files, pos, pv, d, k);
      Enumerate(Down(pos, volume.nodes[d].entries[k].name), Followed(volume, n), ancestors, pv, gray);
    }

    /** The entry leads to `n`: write a row if `n` is new, walk an alias's directory, and say
        whether the enumeration goes on below the entry. */
    method Meet(pos: Position, d: Node, k: nat, n: Node, ghost pv: Path, ghost gray: set<Node>) returns (descend: bool)
      requires level <= |visited| + 1
      requires Valid() && Standing(volume, files, pos, pv, d) && k < Width(volume, d) && Closing(gray)
      requires EntryOk(volume, volume.nodes[d].entries[k]) && Shown(volume.nodes[d].entries[k])
      requires Lands(volume, volume.nodes[d].entries[k]) == Some(n)
      requires OnWay(pv + pos.rel)
      requires Untouched(book.trails, pv + pos.rel + [volume.nodes[d].entries[k].name])
      modifies this
      ensures Valid() && level == old(level)
      ensures old(visited) <= visited
      ensures old(entered) <= entered && (complete ==> old(complete))
      ensures n in visited && n in volume.nodes
      ensures descend ==> volume.nodes[d].entries[k].alias.None? && IsDir(volume, Followed(volume, n))
      ensures var e := volume.nodes[d].entries[k];
              e.alias.None? && Passable(volume, book.trails, n, pv + pos.rel + [e.name]) ==> descend
      ensures var w := pv + pos.rel + [volume.nodes[d].entries[k].name];
              && Grew(old(book.trails), book.trails, w)
              && (descend ==> NothingBelow(book.trails, w) && BoxesKnown(volume, files, book.trails, w))
      ensures if descend then Followed(volume, n) in entered && Closing(gray + {Followed(volume, n)}) else Closing(gray)
      decreases volume.nodes.Keys - visited, NO_NODES, 0
    {
      var e := volume.nodes[d].entries[k];
      var sb := Followed(volume, n);
      descend := e.alias.None? && IsDir(volume, sb);
      if n !in visited {
        Shrinks(volume.nodes.Keys, visited, n);
        MeetNew(pos, d, k, n, pv, gray);
        descend := descend && !IsDropBox(volume, sb);
      } else if descend {
        BoxMet(pos, d, k, n, pv);
        Enter(n, gray);
      }
    }

    /** The same, for a new `n`; nothing is walked below a drop box. */
    method MeetNew(pos: Position, d: Node, k: nat, n: Node, ghost pv: Path, ghost gray: set<Node>)
      requires level <= |visited| + 1
      requires Valid() && Standing(volume, files, pos, pv, d) && k < Width(volume, d) && Closing(gray)
      requires EntryOk(volume, volume.nodes[d].entries[k]) && Shown(volume.nodes[d].entries[k])
      requires Lands(volume, volume.nodes[d].entries[k]) == Some(n) && n !in visited
      requires OnWay(pv + pos.rel)
      requires Untouched(book.trails, pv + pos.rel + [volume.nodes[d].entries[k].name])
      modifies this
      ensures Valid() && level == old(level)
      ensures old(visited) <= visited
      ensures old(entered) <= entered && (complete ==> old(complete))
      ensures n in visited && n in volume.nodes
      ensures if volume.nodes[d].entries[k].alias.None? && Opens(volume, n)
              then Followed(volume, n) in entered && Closing(gray + {Followed(volume, n)}) else Closing(gray)
      ensures var w := pv + pos.rel + [volume.nodes[d].entries[k].name];
              && Grew(old(book.trails), book.trails, w)
              && |old(book.trails)| < |book.trails| && book.trails[|old(book.trails)|].virtual == w
              && (volume.nodes[d].entries[k].alias.None? && !IsDropBox(volume, Followed(volume, n)) ==>
                    NothingBelow(book.trails, w) && BoxesKnown(volume, files, book.trails, w))
      decreases volume.nodes.Keys - visited - {n}, volume.nodes.Keys, 2
    {
      var e := volume.nodes[d].entries[k];
      ghost var w, trails0 := pv + pos.rel + [e.name], book.trails;
      var prefix := Admit(pos, d, k, n, pv, gray);
      NewTrail(trails0, TrailOf(pos, pv, e, n), w);
      BoxesKnownGrow(volume, files, trails0, book.trails, pv + pos.rel);
      if !IsDropBox(volume, Followed(volume, n)) {
        NoBox(pos, d, k, n, pv);
        if e.alias.Some? && IsDir(volume, Followed(volume, n)) {
          ghost var met := book.trails;
          FollowAlias(pos, d, k, n, prefix, pv, gray);
          GrewThrough(trails0, met, book.trails, w);
        }
      }
    }

    /** The entry leads to no drop box. */
    lemma NoBox(pos: Position, d: Node, k: nat, n: Node, pv: Path)
      requires Valid() && Standing(volume, files, pos, pv, d) && k < Width(volume, d)
      requires EntryOk(volume, volume.nodes[d].entries[k]) && Shown(volume.nodes[d].entries[k])
      requires Lands(volume, volume.nodes[d].entries[k]) == Some(n) && !IsDropBox(volume, Followed(volume, n))
      requires OnWay(pv + pos.rel)
      ensures BoxesKnown(volume, files, book.trails, pv + pos.rel + [volume.nodes[d].entries[k].name])
    {
      EntryLands(volume, files, pos, pv, d, k);
      BoxesKnownMore(volume, files, book.trails, pv + pos.rel, volume.nodes[d].entries[k].name);
    }

    /** The entry leads to a node that has a row already. */
    lemma BoxMet(pos: Position, d: Node, k: nat, n: Node, pv: Path)
      requires Valid() && Standing(volume, files, pos, pv, d) && k < Width(volume, d) && n in visited
      requires EntryOk(volume, volume.nodes[d].entries[k]) && Shown(volume.nodes[d].entries[k])
      requires Lands(volume, volume.nodes[d].entries[k]) == Some(n) && volume.nodes[d].entries[k].alias.None?
      requires OnWay(pv + pos.rel)
      requires Untouched(book.trails, pv + pos.rel + [volume.nodes[d].entries[k].name])
      ensures var w := pv + pos.rel + [volume.nodes[d].entries[k].name];
              NothingBelow(book.trails, w) && BoxesKnown(volume, files, book.trails, w)
    {
      EntryLands(volume, files, pos, pv, d, k);
      Opened(volume, files, book);
      var j := NodeHasTrail(book.trails, n);
      BoxesKnownMore(volume, files, book.trails, pv + pos.rel, volume.nodes[d].entries[k].name);
    }

    /** Walk the directory that an alias leads to. */
    method FollowAlias(pos: Position, d: Node, k: nat, n: Node, prefix: string, ghost pv: Path, ghost gray: set<Node>)
      requires level <= |visited|
      requires Valid() && Standing(volume, files, pos, pv, d) && k < Width(volume, d)
      requires var e := volume.nodes[d].entries[k];
               && EntryOk(volume, e) && Shown(e) && e.alias.Some? && Lands(volume, e) == Some(n)
               && prefix == Flat(pv + pos.rel + [e.name])
      requires n in volume.nodes && IsDir(volume, Followed(volume, n))
      requires Followed(volume, n) in entered && Closing(gray + {Followed(volume, n)})
      requires var w := pv + pos.rel + [volume.nodes[d].entries[k].name];
               NothingBelow(book.trails, w) && BoxesKnown(volume, files, book.trails, w) && OnWay(pv + pos.rel)
      modifies this
      ensures Valid() && Closing(gray) && level == old(level)
      ensures old(visited) <= visited
      ensures old(entered) <= entered && (complete ==> old(complete))
      ensures GrewBelow(old(book.trails), book.trails, pv + pos.rel + [volume.nodes[d].entries[k].name])
      decreases volume.nodes.Keys - visited, volume.nodes.Keys, 1
    {
      var e := volume.nodes[d].entries[k];
      AliasStart(volume, files, pos, pv, d, k);
      IndexPath(e.alias.value, Render(e.alias.value), Some(prefix), pv + pos.rel + [e.name], gray);
    }

    /** From here on the directory of `n` is one of those that are being walked. */
    ghost method Enter(n: Node, gray: set<Node>)
      requires Valid() && n in visited && Closing(gray)
      modifies this`entered
      ensures Valid() && entered == old(entered) + {Followed(volume, n)} && Closing(gray + {Followed(volume, n)})
    {
      entered := entered + {Followed(volume, n)};
      if complete {
        ClosureGrows(volume, visited, old(entered), visited, entered, gray);
      }
    }

    /** Write the row of an entry that leads to a new node. */
    method Write(pos: Position, d: Node, k: nat, ghost pv: Path) returns (prefix: string)
      requires Valid() && Standing(volume, files, pos, pv, d) && k < Width(volume, d)
      requires EntryOk(volume, volume.nodes[d].entries[k]) && Shown(volume.nodes[d].entries[k])
      requires var n := Lands(volume, volume.nodes[d].entries[k]); n.Some? && n.value !in visited
      requires OnWay(pv + pos.rel)
      modifies this`visited, this`rows, this`fileCount, this`directoryCount, this`size, this`book
      ensures Valid() && visited == old(visited) + {Lands(volume, volume.nodes[d].entries[k]).value}
      ensures prefix == Flat(pv + pos.rel + [volume.nodes[d].entries[k].name])
      ensures var e := volume.nodes[d].entries[k];
              book.trails == old(book.trails) + [TrailOf(pos, pv, e, Lands(volume, e).value)]
    {
      Opened(volume, files, book);
      var e := volume.nodes[d].entries[k];
      EntryKept(volume, files, book, pos, pv, d, k);
      prefix := NewPrefix(pos.prefix, ChildText(pos.text, e.name), pos.skip);
      var n := Lands(volume, e).value;
      ghost var t := TrailOf(pos, pv, e, n);
      Record(n, RowOf(pos, e), t, Entered(volume, book, RowOf(pos, e), t));
    }

    method Admit(pos: Position, d: Node, k: nat, n: Node, ghost pv: Path, ghost gray: set<Node>)
      returns (prefix: string)
      requires Valid() && Standing(volume, files, pos, pv, d) && k < Width(volume, d) && Closing(gray)
      requires EntryOk(volume, volume.nodes[d].entries[k]) && Shown(volume.nodes[d].entries[k])
      requires Lands(volume, volume.nodes[d].entries[k]) == Some(n) && n !in visited
      requires OnWay(pv + pos.rel)
      modifies this`visited, this`rows, this`fileCount, this`directoryCount, this`size, this`book, this`entered
      ensures Valid() && visited == old(visited) + {n} && |visited| == |old(visited)| + 1
      ensures n in volume.nodes && if Opens(volume, n)
              then entered == old(entered) + {Followed(volume, n)} && Closing(gray + {Followed(volume, n)})
              else entered == old(entered) && Closing(gray)
      ensures prefix == Flat(pv + pos.rel + [volume.nodes[d].entries[k].name])
      ensures var e := volume.nodes[d].entries[k];
              book.trails == old(book.trails) + [TrailOf(pos, pv, e, Lands(volume, e).value)]
    {
      ghost var was := visited;
      prefix := Write(pos, d, k, pv);
      Grows(was, n);
      Settle(n, was, gray);
    }

    lemma Summary()
      requires Valid()
      ensures OneRowEach(volume, files, rows, book.trails, visited)
      ensures book.rows == rows && fileCount + directoryCount == |rows| == |visited|
      ensures Counts(fileCount, directoryCount, size) == Tally(volume, book.trails)
      ensures tooDeep ==> |rows| >= MAX_LEVEL
      ensures BoxesStayShut(volume, files, book.trails) && FewHops(volume, files, book.trails)
    {
      Opened(volume, files, book);
      AllBoxesShut(volume, files, book.trails);
      TallyCountsRows(volume, book.trails);
      NodesCount(volume, files, rows, book.trails);
      RowsOnce(volume, files, rows, book.trails);
    }

    lemma Coverage()
      requires Valid() && Closure(volume, visited, entered, {})
      requires forall d :: DirAt(volume, files) == Some(d) ==> d in entered
      ensures CoversAll(volume, files, visited)
    {
      forall d, steps, last, n | DirAt(volume, files) == Some(d) && Reaches(volume, d, steps, last, n)
        ensures n in visited || (Closes(volume, visited, last, n) && Known(volume, files, visited, Followed(volume, n)))
      {
        ClosureCovers(volume, visited, entered, d, steps, last, n);
      }
    }

    ghost method Settle(n: Node, was: set<Node>, gray: set<Node>)
      requires Valid() && n in volume.nodes && visited == was + {n}
      requires complete ==> Closure(volume, was, entered, gray)
      modifies this`entered
      ensures Valid()
      ensures if Opens(volume, n)
              then entered == old(entered) + {Followed(volume, n)} && Closing(gray + {Followed(volume, n)})
              else entered == old(entered) && Closing(gray)
    {
      if Opens(volume, n) {
        entered := entered + {Followed(volume, n)};
      }
      if complete {
        ClosureGrows(volume, was, old(entered), visited, entered, gray);
      }
    }
  }
}
