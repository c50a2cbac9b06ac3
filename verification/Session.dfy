/** The structure a stored conversation tree must have before it replaces a live one
    (agent/session.go, agent/tree/tree.go): a search from the root over a node table that can hold
    anything, cycles included. */
module Session {

  type Id = string

  /** A decoded tree: each node's parent, the listed children, branch tips and checkpoints. Listed
      children need not be nodes, and a node need not be listed. */
  datatype Table = Table(parent: map<Id, Id>, listed: map<Id, seq<Id>>, root: Id, branches: map<string, Id>, active: string, checkpoints: map<string, Id>)

  datatype Verdict = Accepted | RootMissing | RootHasParent | WrongParent(child: Id) | ReachableTwice(child: Id) | NoActiveBranch | LooseTip | LooseCheckpoint

  /** The listed IDs that are nodes. */
  function Present(t: Table, ids: seq<Id>): seq<Id> {
    if ids == [] then [] else
      var n := |ids| - 1;
      Present(t, ids[..n]) + (if ids[n] in t.parent then [ids[n]] else [])
  }

  function Children(t: Table, id: Id): (kids: seq<Id>)
    ensures forall k | k in kids :: k in t.parent
  {
    PresentAreNodes(t, if id in t.listed then t.listed[id] else []);
    Present(t, if id in t.listed then t.listed[id] else [])
  }

  lemma {:induction false} PresentAreNodes(t: Table, ids: seq<Id>)
    ensures forall k :: k in Present(t, ids) <==> k in ids && k in t.parent
  {
    if ids != [] {
      var n := |ids| - 1;
      PresentAreNodes(t, ids[..n]);
      assert ids == ids[..n] + [ids[n]];
    }
  }

  // ---- what a sound table is ----

  /** A way down from the root. */
  ghost predicate IsPath(t: Table, path: seq<Id>) {
    && path != [] && path[0] == t.root
    && forall k | 0 < k < |path| :: path[k] in Children(t, path[k - 1])
  }

  ghost predicate Reachable(t: Table, id: Id) {
    exists path :: IsPath(t, path) && path[|path| - 1] == id
  }

  ghost predicate NoneTwice(ids: seq<Id>) {
    forall i, j | 0 <= i < j < |ids| :: ids[i] != ids[j]
  }

  /** The children of a node are listed once each, name it as their parent, and are not the root. */
  ghost predicate Ordered(t: Table, id: Id) {
    && NoneTwice(Children(t, id))
    && forall c | c in Children(t, id) :: t.parent[c] == id && c != t.root
  }

  ghost predicate Sound(t: Table) {
    && t.root in t.parent && t.parent[t.root] == ""
    && forall id | Reachable(t, id) :: Ordered(t, id)
  }

  ghost predicate Rooted(t: Table) {
    && t.active in t.branches
    && (forall b | b in t.branches :: Reachable(t, t.branches[b]))
    && (forall c | c in t.checkpoints :: Reachable(t, t.checkpoints[c]))
  }

  lemma RootIsReachable(t: Table)
    ensures Reachable(t, t.root)
  {
    assert IsPath(t, [t.root]);
  }

  lemma ChildIsReachable(t: Table, id: Id, c: Id)
    requires Reachable(t, id) && c in Children(t, id)
    ensures Reachable(t, c)
  {
    var path :| IsPath(t, path) && path[|path| - 1] == id;
    var longer := path + [c];
    assert IsPath(t, longer) && longer[|longer| - 1] == c;
  }

  lemma ReachableIsNode(t: Table, id: Id)
    requires Reachable(t, id) && t.root in t.parent
    ensures id in t.parent
  {
    var path :| IsPath(t, path) && path[|path| - 1] == id;
    if |path| > 1 {
      assert path[|path| - 1] in Children(t, path[|path| - 2]);
    }
  }

  /** A set that holds the root and the children of its members holds all that is reachable. */
  lemma {:induction false} ClosedHoldsAll(t: Table, closed: set<Id>, path: seq<Id>)
    requires t.root in closed && forall id, c | id in closed && c in Children(t, id) :: c in closed
    requires IsPath(t, path)
    ensures path[|path| - 1] in closed
  {
    if |path| > 1 {
      var n := |path| - 1;
      assert IsPath(t, path[..n]);
      ClosedHoldsAll(t, closed, path[..n]);
      assert path[n] in Children(t, path[..n][n - 1]);
    }
  }

  // ---- what follows from it ----

  /** In a sound table no node is reachable in two ways, */
  lemma {:induction false} OneWay(t: Table, p: seq<Id>, q: seq<Id>)
    requires Sound(t) && IsPath(t, p) && IsPath(t, q) && p[|p| - 1] == q[|q| - 1]
    ensures p == q
    decreases |p|
  {
    if |p| == 1 {
      if |q| > 1 {
        ParentOnPath(t, q, |q| - 1);
      }
    } else {
      ParentOnPath(t, p, |p| - 1);
      if |q| > 1 {
        ParentOnPath(t, q, |q| - 1);
        assert IsPath(t, p[..|p| - 1]) && IsPath(t, q[..|q| - 1]);
        OneWay(t, p[..|p| - 1], q[..|q| - 1]);
        assert p == p[..|p| - 1] + [p[|p| - 1]] && q == q[..|q| - 1] + [q[|q| - 1]];
      }
    }
  }

  /** and its parents, from node to node, are the way back to the root. */
  lemma ParentOnPath(t: Table, path: seq<Id>, k: nat)
    requires Sound(t) && IsPath(t, path) && 0 < k < |path|
    ensures path[k] in t.parent && t.parent[path[k]] == path[k - 1] && path[k] != t.root
  {
    assert IsPath(t, path[..k]) && path[..k][k - 1] == path[k - 1];
    assert Reachable(t, path[k - 1]);
    assert path[k] in Children(t, path[k - 1]);
  }

  // ---- the search ----

  function Elements<T>(s: seq<T>): set<T> {
    set x | x in s
  }

  /** Halfway through a search: `done` are the nodes whose children were looked at. */
  ghost predicate Searched(t: Table, reached: set<Id>, done: set<Id>, queue: seq<Id>) {
    && reached == done + Elements(queue) && done !! Elements(queue) && NoneTwice(queue)
    && t.root in reached
    && (forall x | x in reached :: x in t.parent && Reachable(t, x))
    && (forall d | d in done :: Ordered(t, d) && forall c | c in Children(t, d) :: c in reached)
    && (forall x | x in reached :: x == t.root || (t.parent[x] in done && x in Children(t, t.parent[x])))
  }

  /** While the children of `id`, which has left the queue, are looked at one by one. */
  ghost predicate Scanned(t: Table, reached: set<Id>, done: set<Id>, queue: seq<Id>, id: Id, j: nat)
    requires j <= |Children(t, id)|
  {
    && reached == done + {id} + Elements(queue) && done + {id} !! Elements(queue) && id !in done && NoneTwice(queue)
    && t.root in reached
    && (forall x | x in reached :: x in t.parent && Reachable(t, x))
    && (forall d | d in done :: Ordered(t, d) && forall c | c in Children(t, d) :: c in reached)
    && (forall x | x in reached :: x == t.root || (t.parent[x] in done && x in Children(t, t.parent[x])) || x in Children(t, id)[..j])
    && NoneTwice(Children(t, id)[..j])
    && (forall c | c in Children(t, id)[..j] :: c in reached && t.parent[c] == id && c != t.root)
  }

  lemma StartScan(t: Table, reached: set<Id>, done: set<Id>, queue: seq<Id>)
    requires Searched(t, reached, done, queue) && queue != []
    ensures Scanned(t, reached, done, queue[1..], queue[0], 0)
  {
    assert queue == [queue[0]] + queue[1..];
    assert queue[0] in Elements(queue);
  }

  lemma ScanOne(t: Table, reached: set<Id>, done: set<Id>, queue: seq<Id>, id: Id, j: nat)
    requires j < |Children(t, id)| && Scanned(t, reached, done, queue, id, j)
    requires Children(t, id)[j] !in reached && t.parent[Children(t, id)[j]] == id
    ensures Scanned(t, reached + {Children(t, id)[j]}, done, queue + [Children(t, id)[j]], id, j + 1)
  {
    hide Children, Ordered, Reachable;
    var c, kids := Children(t, id)[j], Children(t, id);
    assert kids[..j + 1] == kids[..j] + [c] && c in kids;
    ChildIsReachable(t, id, c);
    assert Elements(queue + [c]) == Elements(queue) + {c};
    assert forall x | x in queue :: x in Elements(queue);
    assert NoneTwice(queue + [c]);
    assert NoneTwice(kids[..j + 1]);
    hide NoneTwice, Elements;
  }

  lemma EndScan(t: Table, reached: set<Id>, done: set<Id>, queue: seq<Id>, id: Id)
    requires Scanned(t, reached, done, queue, id, |Children(t, id)|)
    ensures Searched(t, reached, done + {id}, queue)
  {
    hide Children;
    var kids := Children(t, id);
    assert kids[..|kids|] == kids;
  }

  /** A child that was reached before is listed twice under its parent, or is the root. */
  lemma ReachedBefore(t: Table, reached: set<Id>, done: set<Id>, queue: seq<Id>, id: Id, j: nat)
    requires j < |Children(t, id)| && Scanned(t, reached, done, queue, id, j)
    requires Children(t, id)[j] in reached && t.parent[Children(t, id)[j]] == id
    ensures !Ordered(t, id)
  {
    hide Children;
    var c, kids := Children(t, id)[j], Children(t, id);
    assert c in kids;
    if c in kids[..j] {
      var i :| 0 <= i < j && kids[..j][i] == c;
      assert kids[i] == kids[j];
    }
  }

  lemma SearchedAll(t: Table, reached: set<Id>, done: set<Id>)
    requires Searched(t, reached, done, []) && t.parent[t.root] == ""
    ensures Sound(t) && forall id :: Reachable(t, id) <==> id in reached
  {
    hide Children, Ordered;
    forall id | Reachable(t, id)
      ensures id in reached
    {
      var path :| IsPath(t, path) && path[|path| - 1] == id;
      ClosedHoldsAll(t, reached, path);
    }
  }

  /** Accepts exactly the sound tables whose tips and checkpoints hang off the root, and ends on every
      table: a node is queued once. */
  method ValidateLoadedTree(t: Table) returns (v: Verdict)
    ensures v.Accepted? <==> Sound(t) && Rooted(t)
    ensures v.RootMissing? <==> t.root !in t.parent
    ensures v.WrongParent? || v.ReachableTwice? ==> v.child in t.parent && !Sound(t)
    ensures v.NoActiveBranch? || v.LooseTip? || v.LooseCheckpoint? ==> Sound(t)
  {
    hide Ordered, Scanned, Searched, Children;
    if t.root !in t.parent {
      return RootMissing;
    }
    if t.parent[t.root] != "" {
      return RootHasParent;
    }
    var reached, queue := {t.root}, [t.root];
    ghost var done: set<Id> := {};
    StartSearch(t);
    while |queue| > 0
      invariant Searched(t, reached, done, queue) && done <= t.parent.Keys
      decreases |t.parent.Keys - done|
    {
      ghost var before := t.parent.Keys - done;
      StartScan(t, reached, done, queue);
      var id := queue[0];
      ScannedIsNode(t, reached, done, queue[1..], id, 0);
      v, reached, queue := ScanChildren(t, reached, done, queue[1..], id);
      if !v.Accepted? {
        return;
      }
      assert t.parent.Keys - (done + {id}) < before by {
        assert id in before && id !in t.parent.Keys - (done + {id});
      }
      done := done + {id};
    }
    assert queue == [];
    SearchedAll(t, reached, done);
    v := CheckRooted(t, reached);
  }

  /** Queues the children of a node, unless one names another parent or was reached before. */
  method ScanChildren(t: Table, reached: set<Id>, ghost done: set<Id>, queue: seq<Id>, id: Id) returns (v: Verdict, reached': set<Id>, queue': seq<Id>)
    requires Scanned(t, reached, done, queue, id, 0)
    ensures v.Accepted? || v.WrongParent? || v.ReachableTwice?
    ensures v.Accepted? ==> Searched(t, reached', done + {id}, queue')
    ensures !v.Accepted? ==> v.child in t.parent && !Sound(t)
  {
    hide Ordered, Scanned, Searched, Children, Reachable;
    reached', queue' := reached, queue;
    var kids := Children(t, id);
    var j := 0;
    while j < |kids|
      invariant j <= |kids| && Scanned(t, reached', done, queue', id, j)
    {
      var c := kids[j];
      assert c in kids;
      ScannedIsNode(t, reached', done, queue', id, j);
      if t.parent[c] != id {
        WrongIsUnsound(t, id, c);
        return WrongParent(c), reached', queue';
      }
      if c in reached' {
        ReachedBefore(t, reached', done, queue', id, j);
        return ReachableTwice(c), reached', queue';
      }
      ScanOne(t, reached', done, queue', id, j);
      reached', queue' := reached' + {c}, queue' + [c];
      j := j + 1;
    }
    EndScan(t, reached', done, queue', id);
    v := Accepted;
  }

  lemma StartSearch(t: Table)
    requires t.root in t.parent
    ensures Searched(t, {t.root}, {}, [t.root])
  {
    RootIsReachable(t);
    assert Elements([t.root]) == {t.root};
  }

  lemma ScannedIsNode(t: Table, reached: set<Id>, done: set<Id>, queue: seq<Id>, id: Id, j: nat)
    requires j <= |Children(t, id)| && Scanned(t, reached, done, queue, id, j)
    ensures id in t.parent && id !in done && Reachable(t, id)
  {}

  lemma WrongIsUnsound(t: Table, id: Id, c: Id)
    requires c in Children(t, id) && t.parent[c] != id
    ensures !Ordered(t, id)
  {}

  /** The tips and checkpoints, once the reachable nodes are known. */
  method CheckRooted(t: Table, reached: set<Id>) returns (v: Verdict)
    requires forall id :: Reachable(t, id) <==> id in reached
    ensures v in {Accepted, NoActiveBranch, LooseTip, LooseCheckpoint}
    ensures v.Accepted? <==> Rooted(t)
  {
    hide Reachable;
    if t.active !in t.branches {
      return NoActiveBranch;
    }
    var rest := t.branches.Keys;
    while rest != {}
      invariant rest <= t.branches.Keys && forall b | b in t.branches && b !in rest :: t.branches[b] in reached
      decreases |rest|
    {
      var b :| b in rest;
      if t.branches[b] !in reached {
        return LooseTip;
      }
      rest := rest - {b};
    }
    rest := t.checkpoints.Keys;
    while rest != {}
      invariant rest <= t.checkpoints.Keys && forall c | c in t.checkpoints && c !in rest :: t.checkpoints[c] in reached
      decreases |rest|
    {
      var c :| c in rest;
      if t.checkpoints[c] !in reached {
        return LooseCheckpoint;
      }
      rest := rest - {c};
    }
    v := Accepted;
  }

  // ---- walking up ----

  /** The part of a way down that a walk up from its end sees: it stops at an empty ID, which a table
      can hold. */
  ghost function Seen(path: seq<Id>): seq<Id> {
    if path == [] || path[|path| - 1] == "" then [] else Seen(path[..|path| - 1]) + [path[|path| - 1]]
  }

  lemma {:induction false} SeenFrom(path: seq<Id>, k: nat)
    requires k <= |path| && (k == 0 || path[k - 1] == "") && forall i | k <= i < |path| :: path[i] != ""
    ensures Seen(path) == path[k..]
  {
    var n := |path| - 1;
    if k <= n {
      SeenFrom(path[..n], k);
      assert path[k..] == path[..n][k..] + [path[n]];
    }
  }

  /** The walk up the parents ends, and finds the one way down from the root, as far up as the nearest
      empty ID; all of it, unless the table has a node without an ID. */
  method Path(t: Table, id: Id) returns (path: seq<Id>)
    requires Sound(t) && Reachable(t, id)
    ensures forall way | IsPath(t, way) && way[|way| - 1] == id :: path == Seen(way)
    ensures "" !in t.parent ==> IsPath(t, path) && path[|path| - 1] == id
  {
    ghost var way :| IsPath(t, way) && way[|way| - 1] == id;
    var up: seq<Id>, current := [], id;
    ghost var k := |way|;
    while current != ""
      invariant 0 <= k <= |way| && current == (if k == 0 then "" else way[k - 1])
      invariant |up| == |way| - k && forall i | 0 <= i < |up| :: up[i] == way[|way| - 1 - i] && up[i] != ""
      decreases k
    {
      ReachableOnPath(t, way, k - 1);
      if k > 1 {
        ParentOnPath(t, way, k - 1);
      }
      up := up + [current];
      current := t.parent[current];
      k := k - 1;
    }
    path := Reversed(up);
    assert path == way[k..];
    forall i | k <= i < |way|
      ensures way[i] != ""
    {
      assert up[|way| - 1 - i] == way[i];
    }
    SeenFrom(way, k);
    if k > 0 {
      ReachableOnPath(t, way, k - 1);
    }
    forall other | IsPath(t, other) && other[|other| - 1] == id
      ensures other == way
    {
      OneWay(t, other, way);
    }
  }

  lemma ReachableOnPath(t: Table, path: seq<Id>, k: nat)
    requires Sound(t) && IsPath(t, path) && k < |path|
    ensures path[k] in t.parent && (k == 0 ==> t.parent[path[k]] == "")
  {
    assert IsPath(t, path[..k + 1]) && path[..k + 1][k] == path[k];
    ReachableIsNode(t, path[k]);
  }

  /** Turns the walk around in place, end by end. */
  method Reversed(s: seq<Id>) returns (r: seq<Id>)
    ensures |r| == |s| && forall i | 0 <= i < |s| :: r[i] == s[|s| - 1 - i]
  {
    r := s;
    var i, j := 0, |s| - 1;
    while i < j
      invariant 0 <= i <= |s| && i + j == |s| - 1 && |r| == |s|
      invariant forall k | i <= k <= j :: r[k] == s[k]
      invariant forall k | 0 <= k < i :: r[k] == s[|s| - 1 - k]
      invariant forall k | j < k < |s| :: r[k] == s[|s| - 1 - k]
    {
      var a, b := r[i], r[j];
      r := r[i := b];
      r := r[j := a];
      i, j := i + 1, j - 1;
    }
  }
}
