/** The depth-capped search of a process tree for live descendants. */
module ProcessTree {
  import opened Base

  const MAX_DEPTH: nat := 4

  // One readable process: its state letter, if its stat is readable, and the children of all its threads.
  datatype Process = Process(stat: Option<char>, children: seq<nat>)

  /** The readable processes by pid; children may name pids that are gone. */
  type Table = map<nat, Process>

  function Children(t: Table, pid: nat): seq<nat>
  {
    if pid in t then t[pid].children else []
  }

  /** Neither a zombie nor dead. */
  predicate Live(t: Table, pid: nat)
  {
    pid in t && t[pid].stat.Some? && t[pid].stat.value != 'Z' && t[pid].stat.value != 'X'
  }

  // ---- what the search is about ----

  /** A readable process whose state letter is there and neither Z nor X. */
  predicate Runs(t: Table, pid: nat)
  {
    pid in t && t[pid].stat.Some? && t[pid].stat.value !in {'Z', 'X'}
  }

  predicate Link(t: Table, w: seq<nat>, i: nat)
    requires i + 1 < |w|
  {
    w[i] in t && w[i + 1] in t[w[i]].children
  }

  /** A walk from the root along child links. */
  predicate IsWalk(t: Table, root: nat, w: seq<nat>)
  {
    && w != [] && w[0] == root
    && forall i :: 0 <= i < |w| - 1 ==> Link(t, w, i)
  }

  /** A live process other than the root, reached over the given number of links or fewer. */
  ghost predicate Witnesses(t: Table, root: nat, links: nat, w: seq<nat>)
  {
    && IsWalk(t, root, w) && 1 < |w| <= links + 1
    && w[|w| - 1] != root && Runs(t, w[|w| - 1])
  }

  ghost predicate LiveWithin(t: Table, root: nat, links: nat)
  {
    exists w :: Witnesses(t, root, links, w)
  }

  /** Every process has at most one parent, and the root has none. */
  ghost predicate IsForest(t: Table, root: nat)
  {
    && (forall p :: p in t ==> root !in t[p].children)
    && (forall p, q, c :: p in t && q in t && c in t[p].children && c in t[q].children ==> p == q)
  }

  /** What the search tests is what it is about: zombies, dead and unreadable processes are not live. */
  lemma LiveIs(t: Table)
    ensures forall v :: Live(t, v) <==> Runs(t, v)
    ensures forall p, c :: c in Children(t, p) <==> p in t && c in t[p].children
  {
  }

  // ---- what the search maintains ----

  // The progress of a search: how deep each visited process was found, and whose children are all visited.
  datatype Progress = Progress(depthOf: map<nat, nat>, expanded: set<nat>)

  ghost predicate ReachedBy(t: Table, root: nat, w: seq<nat>, v: nat, depth: nat)
  {
    IsWalk(t, root, w) && |w| == depth + 1 && w[depth] == v
  }

  ghost predicate Reached(t: Table, root: nat, v: nat, depth: nat)
  {
    exists w :: ReachedBy(t, root, w, v, depth)
  }

  ghost predicate FoundFrom(t: Table, g: Progress, p: nat, v: nat)
  {
    p in g.depthOf && v in g.depthOf && v in Children(t, p) && g.depthOf[v] == g.depthOf[p] + 1
  }

  ghost predicate OnStack(stack: seq<(nat, nat)>, v: nat, depth: nat)
  {
    (v, depth) in stack
  }

  ghost predicate VisitedOk(t: Table, root: nat, g: Progress, v: nat)
    requires v in g.depthOf
  {
    && Reached(t, root, v, g.depthOf[v])
    && (v != root ==> !Live(t, v) && exists p :: FoundFrom(t, g, p, v))
  }

  /** Every visited process shallow enough is expanded, on the stack, or being expanded. */
  ghost predicate Pending(g: Progress, stack: seq<(nat, nat)>, current: Option<nat>, v: nat)
    requires v in g.depthOf
  {
    v in g.expanded || OnStack(stack, v, g.depthOf[v]) || current == Some(v)
  }

  ghost predicate AllVisitedOk(t: Table, root: nat, g: Progress)
  {
    forall v :: v in g.depthOf ==> VisitedOk(t, root, g, v)
  }

  ghost predicate AllPending(g: Progress, stack: seq<(nat, nat)>, current: Option<nat>)
  {
    forall v :: v in g.depthOf && g.depthOf[v] <= MAX_DEPTH ==> Pending(g, stack, current, v)
  }

  ghost predicate EntryOk(g: Progress, entry: (nat, nat))
  {
    entry.0 in g.depthOf && g.depthOf[entry.0] == entry.1 && entry.1 <= MAX_DEPTH
  }

  ghost predicate StackOk(g: Progress, stack: seq<(nat, nat)>)
  {
    forall i :: 0 <= i < |stack| ==> EntryOk(g, stack[i])
  }

  ghost predicate ExpandedOk(t: Table, g: Progress)
  {
    forall p, c :: p in g.expanded && c in Children(t, p) ==> c in g.depthOf
  }

  ghost predicate Searching(t: Table, root: nat, g: Progress, stack: seq<(nat, nat)>, current: Option<nat>)
  {
    && root in g.depthOf && g.depthOf[root] == 0
    && AllVisitedOk(t, root, g) && AllPending(g, stack, current) && StackOk(g, stack) && ExpandedOk(t, g)
  }

  ghost function Universe(t: Table, root: nat): set<nat>
  {
    {root} + set p, c | p in t.Keys && c in t[p].children :: c
  }

  lemma InUniverse(t: Table, root: nat)
    ensures root in Universe(t, root)
    ensures forall p, c :: c in Children(t, p) ==> c in Universe(t, root)
  {
  }

  lemma WalkExtends(t: Table, root: nat, v: nat, depth: nat, c: nat)
    requires Reached(t, root, v, depth) && c in Children(t, v)
    ensures Reached(t, root, c, depth + 1)
    ensures depth <= MAX_DEPTH && c != root && Live(t, c) ==> LiveWithin(t, root, 5)
  {
    var w :| ReachedBy(t, root, w, v, depth);
    var longer := w + [c];
    forall i | 0 <= i < |longer| - 1 ensures Link(t, longer, i) {
      if i < depth {
        assert Link(t, w, i);
      }
    }
    assert ReachedBy(t, root, longer, c, depth + 1);
    if depth <= MAX_DEPTH && c != root && Live(t, c) {
      assert Witnesses(t, root, 5, longer);
    }
  }

  lemma VisitedStays(t: Table, root: nat, g: Progress, h: Progress, v: nat)
    requires v in g.depthOf && VisitedOk(t, root, g, v)
    requires forall u :: u in g.depthOf ==> u in h.depthOf && h.depthOf[u] == g.depthOf[u]
    ensures VisitedOk(t, root, h, v)
  {
    hide Reached;
    if v != root {
      var p :| FoundFrom(t, g, p, v);
      assert FoundFrom(t, h, p, v);
    }
  }

  lemma PendingStays(g: Progress, stack: seq<(nat, nat)>, current: nat, c: nat, depth: nat, v: nat)
    requires c !in g.depthOf && v in g.depthOf && Pending(g, stack, Some(current), v)
    ensures var h := g.(depthOf := g.depthOf[c := depth]);
            Pending(h, stack + [(c, depth)], Some(current), v) && Pending(h, stack, Some(current), v)
    ensures Pending(g.(depthOf := g.depthOf[c := depth]), stack + [(c, depth)], Some(current), c)
  {
    assert (stack + [(c, depth)])[|stack|] == (c, depth);
  }

  lemma VisitKeepsVisited(t: Table, root: nat, g: Progress, current: nat, c: nat)
    requires AllVisitedOk(t, root, g) && current in g.depthOf
    requires c in Children(t, current) && c !in g.depthOf && !Live(t, c)
    ensures AllVisitedOk(t, root, g.(depthOf := g.depthOf[c := g.depthOf[current] + 1]))
  {
    hide VisitedOk, Live;
    var h := g.(depthOf := g.depthOf[c := g.depthOf[current] + 1]);
    forall v | v in h.depthOf ensures VisitedOk(t, root, h, v) {
      if v == c {
        NewlyVisited(t, root, g, current, c);
      } else {
        VisitedStays(t, root, g, h, v);
      }
    }
  }

  lemma VisitKeepsPending(g: Progress, stack: seq<(nat, nat)>, current: nat, c: nat)
    requires AllPending(g, stack, Some(current)) && current in g.depthOf && g.depthOf[current] <= MAX_DEPTH
    requires c !in g.depthOf
    ensures var depth := g.depthOf[current];
            AllPending(g.(depthOf := g.depthOf[c := depth + 1]),
                       if depth < MAX_DEPTH then stack + [(c, depth + 1)] else stack, Some(current))
  {
    hide Pending;
    var depth := g.depthOf[current];
    var h := g.(depthOf := g.depthOf[c := depth + 1]);
    var grown := if depth < MAX_DEPTH then stack + [(c, depth + 1)] else stack;
    forall v | v in h.depthOf && h.depthOf[v] <= MAX_DEPTH ensures Pending(h, grown, Some(current), v) {
      PendingStays(g, stack, current, c, depth + 1, if v == c then current else v);
    }
  }

  /** Visiting one more child of the process being expanded keeps the search on course. */
  lemma VisitKeeps(t: Table, root: nat, g: Progress, stack: seq<(nat, nat)>, current: nat, c: nat)
    requires Searching(t, root, g, stack, Some(current))
    requires current in g.depthOf && g.depthOf[current] <= MAX_DEPTH
    requires c in Children(t, current) && c !in g.depthOf && !Live(t, c)
    ensures var depth := g.depthOf[current];
            Searching(t, root, g.(depthOf := g.depthOf[c := depth + 1]),
                      if depth < MAX_DEPTH then stack + [(c, depth + 1)] else stack, Some(current))
  {
    hide AllVisitedOk, AllPending;
    VisitKeepsVisited(t, root, g, current, c);
    VisitKeepsPending(g, stack, current, c);
  }

  lemma NewlyVisited(t: Table, root: nat, g: Progress, current: nat, c: nat)
    requires current in g.depthOf && VisitedOk(t, root, g, current)
    requires c in Children(t, current) && c !in g.depthOf && !Live(t, c)
    ensures VisitedOk(t, root, g.(depthOf := g.depthOf[c := g.depthOf[current] + 1]), c)
  {
    hide LiveWithin, Reached, Live;
    WalkExtends(t, root, current, g.depthOf[current], c);
    assert FoundFrom(t, g.(depthOf := g.depthOf[c := g.depthOf[current] + 1]), current, c);
  }

  /** On a forest the depth at which a process was found is its distance from the root. */
  lemma DryChild(t: Table, root: nat, g: Progress, v: nat, c: nat)
    requires Searching(t, root, g, [], None) && IsForest(t, root)
    requires v in g.depthOf && g.depthOf[v] <= MAX_DEPTH && c in Children(t, v)
    ensures c in g.depthOf && g.depthOf[c] == g.depthOf[v] + 1
  {
    hide Reached, Live;
    assert Pending(g, [], None, v);
    assert VisitedOk(t, root, g, c);
    var p :| FoundFrom(t, g, p, c);
  }

  /** A search that has run dry on a forest has visited every process within its reach. */
  lemma {:induction false} DrySearch(t: Table, root: nat, g: Progress, w: seq<nat>, i: nat)
    requires Searching(t, root, g, [], None) && IsForest(t, root)
    requires IsWalk(t, root, w) && i < |w| && i <= MAX_DEPTH + 1
    ensures w[i] in g.depthOf && g.depthOf[w[i]] == i
  {
    hide IsForest, VisitedOk, Pending;
    if i == 0 {
    } else {
      DrySearch(t, root, g, w, i - 1);
      assert Link(t, w, i - 1);
      DryChild(t, root, g, w[i - 1], w[i]);
    }
  }

  lemma VisitedIsDead(t: Table, root: nat, g: Progress, v: nat)
    requires Searching(t, root, g, [], None) && v in g.depthOf && v != root
    ensures !Live(t, v)
  {
    assert VisitedOk(t, root, g, v);
  }

  lemma DryForest(t: Table, root: nat, g: Progress, w: seq<nat>)
    requires Searching(t, root, g, [], None) && IsForest(t, root)
    ensures !Witnesses(t, root, 5, w)
  {
    hide Searching, IsForest, Live;
    LiveIs(t);
    if IsWalk(t, root, w) && 1 < |w| <= MAX_DEPTH + 2 && w[|w| - 1] != root {
      DrySearch(t, root, g, w, |w| - 1);
      VisitedIsDead(t, root, g, w[|w| - 1]);
    }
  }

  lemma DryChildren(t: Table, root: nat, g: Progress, w: seq<nat>)
    requires Searching(t, root, g, [], None)
    ensures !Witnesses(t, root, 1, w)
  {
    hide VisitedOk, Live;
    LiveIs(t);
    if IsWalk(t, root, w) && |w| == 2 && w[1] != root {
      assert Link(t, w, 0);
      assert Pending(g, [], None, root);
      VisitedIsDead(t, root, g, w[1]);
    }
  }

  lemma DryMeansNotWithin(t: Table, root: nat, g: Progress)
    requires Searching(t, root, g, [], None)
    ensures IsForest(t, root) ==> !LiveWithin(t, root, 5)
    ensures !LiveWithin(t, root, 1)
  {
    hide Searching, Witnesses, IsForest;
    if LiveWithin(t, root, 1) {
      var w :| Witnesses(t, root, 1, w);
      DryChildren(t, root, g, w);
    }
    if IsForest(t, root) && LiveWithin(t, root, 5) {
      var w :| Witnesses(t, root, 5, w);
      DryForest(t, root, g, w);
    }
  }

  /**
   * Whether a process has a live descendant. A yes is always right and at most five links away; a no
   * is right for the root's own children on every table, and for all five links on a forest.
   */
  method HasLiveChildProcesses(t: Table, root: nat) returns (r: bool)
    ensures r ==> LiveWithin(t, root, 5)
    ensures IsForest(t, root) ==> (r <==> LiveWithin(t, root, 5))
    ensures LiveWithin(t, root, 1) ==> r
  {
    hide Searching, Reached, LiveWithin, IsForest, Universe, Live;
    var stack: seq<(nat, nat)> := [(root, 0)];
    var visited := {root};
    ghost var g := StartSearch(t, root);
    InUniverse(t, root);
    while stack != []
      invariant visited == g.depthOf.Keys && visited <= Universe(t, root)
      invariant Searching(t, root, g, stack, None)
      decreases Universe(t, root) - visited, |stack|
    {
      var (current, depth) := stack[|stack| - 1];
      ghost var popped := stack;
      stack := stack[..|stack| - 1];
      PopKeeps(t, root, g, popped);
      var children := Children(t, current);
      ghost var before, rest := visited, stack;
      var k := 0;
      while k < |children|
        invariant k <= |children|
        invariant visited == g.depthOf.Keys && before <= visited <= Universe(t, root)
        invariant visited == before ==> stack == rest
        invariant Searching(t, root, g, stack, Some(current))
        invariant current in g.depthOf && g.depthOf[current] == depth
        invariant forall i :: 0 <= i < k ==> children[i] in visited
      {
        var child := children[k];
        k := k + 1;
        if child in visited {
          continue;
        }
        if Live(t, child) {
          WalkExtends(t, root, current, depth, child);
          return true;
        }
        VisitKeeps(t, root, g, stack, current, child);
        InUniverse(t, root);
        visited := visited + {child};
        g := g.(depthOf := g.depthOf[child := depth + 1]);
        if depth < MAX_DEPTH {
          stack := stack + [(child, depth + 1)];
        }
      }
      g := ExpandKeeps(t, root, g, stack, current);
    }
    DryMeansNotWithin(t, root, g);
    return false;
  }

  lemma StartSearch(t: Table, root: nat) returns (g: Progress)
    ensures g == Progress(map[root := 0], {})
    ensures Searching(t, root, g, [(root, 0)], None)
  {
    g := Progress(map[root := 0], {});
    assert ReachedBy(t, root, [root], root, 0);
    assert [(root, 0)][0] == (root, 0);
  }

  lemma PopPending(g: Progress, stack: seq<(nat, nat)>, v: nat)
    requires stack != [] && v in g.depthOf && Pending(g, stack, None, v)
    ensures Pending(g, stack[..|stack| - 1], Some(stack[|stack| - 1].0), v)
  {
    var last, entry := |stack| - 1, (v, g.depthOf[v]);
    if v !in g.expanded && stack[last].0 != v {
      var i :| 0 <= i < |stack| && stack[i] == entry;
      assert stack[..last][i] == entry;
    }
  }

  lemma PopKeeps(t: Table, root: nat, g: Progress, stack: seq<(nat, nat)>)
    requires stack != [] && Searching(t, root, g, stack, None)
    ensures var (current, depth) := stack[|stack| - 1];
            && current in g.depthOf && g.depthOf[current] == depth && depth <= MAX_DEPTH
            && Reached(t, root, current, depth)
    ensures Searching(t, root, g, stack[..|stack| - 1], Some(stack[|stack| - 1].0))
  {
    hide Pending, Reached, ExpandedOk;
    var last := |stack| - 1;
    assert EntryOk(g, stack[last]);
    assert VisitedOk(t, root, g, stack[last].0);
    forall i | 0 <= i < last ensures EntryOk(g, stack[..last][i]) {
      assert EntryOk(g, stack[i]);
    }
    forall v | v in g.depthOf && g.depthOf[v] <= MAX_DEPTH
      ensures Pending(g, stack[..last], Some(stack[last].0), v)
    {
      PopPending(g, stack, v);
    }
  }

  lemma ExpandKeeps(t: Table, root: nat, g: Progress, stack: seq<(nat, nat)>, current: nat) returns (h: Progress)
    requires Searching(t, root, g, stack, Some(current))
    requires forall c :: c in Children(t, current) ==> c in g.depthOf
    ensures h == g.(expanded := g.expanded + {current})
    ensures Searching(t, root, h, stack, None)
  {
    h := g.(expanded := g.expanded + {current});
    forall v | v in h.depthOf ensures VisitedOk(t, root, h, v) {
      VisitedStays(t, root, g, h, v);
    }
    forall v | v in h.depthOf && h.depthOf[v] <= MAX_DEPTH ensures Pending(h, stack, None, v) {
      assert Pending(g, stack, Some(current), v);
    }
  }

  /** Only live processes have children: what the kernel leaves of a dead one is reparented. */
  ghost predicate DeadAreChildless(t: Table, root: nat)
  {
    forall p :: p != root && p in t && t[p].children != [] ==> Runs(t, p)
  }

  /**
   * Where the dead are childless the depth cap loses nothing, on any table without a loop back to the
   * root: a live descendant at any distance shows as a live child.
   */
  lemma CapLosesNothing(t: Table, root: nat, links: nat)
    requires DeadAreChildless(t, root) && forall p :: p in t ==> root !in t[p].children
    ensures LiveWithin(t, root, links) ==> LiveWithin(t, root, 1)
  {
    if w :| Witnesses(t, root, links, w) {
      assert Link(t, w, 0);
      if |w| > 2 {
        assert Link(t, w, 1);
      }
      assert Link(t, w[..2], 0);
      assert Witnesses(t, root, 1, w[..2]);
    }
  }
}
