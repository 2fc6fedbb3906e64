/** The intrusive tree: nodes linked by parent, first-child and sibling pointers, where the
    first child's `prev` names the last child of its parent.

    The heap is related to an ordered forest.  Every node sits in one sibling chain; a chain hangs
    either under a parent node or at the top level.
 */
module IntrusiveTree {
  import opened Sequences

  /** Where a sibling chain hangs.  Top-level chains (siblings without a parent) are numbered. */
  datatype Site = Under(parent: TreeNode) | Top(id: nat)

  /** An ordered forest: the site of every node, the chain of every site, the depth of every node,
      and a bound on the numbers of the top-level chains in use. */
  datatype Forest = Forest(site: map<TreeNode, Site>, chain: map<Site, seq<TreeNode>>,
                           depth: map<TreeNode, nat>, tops: nat)

  ghost predicate SiteOk(f: Forest, k: Site) {
    match k
    case Under(p) => p in f.site
    case Top(id) => id < f.tops
  }

  /** Depth is the length of the path to the top, so no node lies on a cycle of parents. */
  ghost predicate DepthOk(f: Forest, n: TreeNode)
    requires n in f.site
  {
    && n in f.depth
    && match f.site[n]
       case Under(p) => p in f.depth && f.depth[n] == f.depth[p] + 1
       case Top(_) => f.depth[n] == 0
  }

  /** Chain `q` lists exactly the nodes at site `q`, each once. */
  ghost predicate ChainOk(f: Forest, q: Site)
    requires q in f.chain
  {
    && SiteOk(f, q)
    && NoDup(f.chain[q])
    && (forall n | n in f.chain[q] :: n in f.site && f.site[n] == q)
    && (forall n | n in f.site && f.site[n] == q :: n in f.chain[q])
  }

  ghost predicate NodeOk(f: Forest, n: TreeNode)
    requires n in f.site
  {
    f.site[n] in f.chain && Under(n) in f.chain && SiteOk(f, f.site[n]) && DepthOk(f, n)
  }

  /** A well-formed ordered forest: the chains partition the nodes, and there is no cycle. */
  ghost predicate Valid(f: Forest) {
    && f.depth.Keys == f.site.Keys
    && (forall n {:trigger NodeOk(f, n)} | n in f.site :: NodeOk(f, n))
    && (forall q {:trigger ChainOk(f, q)} | q in f.chain :: ChainOk(f, q))
  }

  /** The node and all its ancestors. */
  ghost function Ancestors(f: Forest, n: TreeNode): set<TreeNode>
    requires Valid(f) && n in f.site
    decreases f.depth[n]
  {
    assert NodeOk(f, n);
    match f.site[n]
    case Under(p) => {n} + Ancestors(f, p)
    case Top(_) => {n}
  }

  /** The parentless node above `n`. */
  ghost function Root(f: Forest, n: TreeNode): (r: TreeNode)
    requires Valid(f) && n in f.site
    ensures r in f.site && f.site[r].Top? && r in Ancestors(f, n)
    decreases f.depth[n]
  {
    assert NodeOk(f, n);
    match f.site[n]
    case Under(p) => Root(f, p)
    case Top(_) => n
  }

  ghost function IndexOf(c: seq<TreeNode>, x: TreeNode): (i: nat)
    requires x in c
    ensures i < |c| && c[i] == x
  {
    if c[0] == x then 0 else 1 + IndexOf(c[1..], x)
  }

  ghost function Without(c: seq<TreeNode>, x: TreeNode): (r: seq<TreeNode>)
    requires x in c
    ensures |r| == |c| - 1
    ensures forall n :: n in r ==> n in c
  {
    var i := IndexOf(c, x);
    c[..i] + c[i + 1..]
  }

  lemma {:induction false} DepthInSubtree(f: Forest, x: TreeNode, n: TreeNode)
    requires Valid(f) && n in f.site && x in Ancestors(f, n)
    ensures x in f.site && f.depth[x] <= f.depth[n] && (f.depth[x] == f.depth[n] ==> x == n)
    decreases f.depth[n]
  {
    assert NodeOk(f, n);
    if n != x {
      DepthInSubtree(f, x, f.site[n].parent);
    }
  }

  /** The depth of `n` once the subtree of `x` has moved so that `x` itself has depth `d`. */
  ghost function NewDepth(f: Forest, x: TreeNode, d: nat, n: TreeNode): nat
    requires Valid(f) && x in f.site && n in f.site
  {
    assert NodeOk(f, n) && NodeOk(f, x);
    if x in Ancestors(f, n) then (DepthInSubtree(f, x, n); f.depth[n] - f.depth[x] + d) else f.depth[n]
  }

  ghost function Redepth(f: Forest, x: TreeNode, d: nat): (m: map<TreeNode, nat>)
    requires Valid(f) && x in f.site
  {
    map n | n in f.site :: NewDepth(f, x, d, n)
  }

  ghost function DepthAt(f: Forest, k: Site): nat
    requires Valid(f) && SiteOk(f, k)
  {
    match k
    case Under(p) => assert NodeOk(f, p); f.depth[p] + 1
    case Top(_) => 0
  }

  /** The ordered-forest operation: take `x` with its subtree out of its chain and put it at the
      back or the front of the chain at `k`. */
  ghost function Moved(f: Forest, x: TreeNode, k: Site, atBack: bool): (r: Forest)
    requires Valid(f) && x in f.site && k in f.chain
  {
    assert NodeOk(f, x) && ChainOk(f, f.site[x]) && ChainOk(f, k);
    var cut := f.chain[f.site[x] := Without(f.chain[f.site[x]], x)];
    Forest(f.site[x := k], cut[k := if atBack then cut[k] + [x] else [x] + cut[k]], Redepth(f, x, DepthAt(f, k)),
        f.tops)
  }

  /** The same forest with one more, empty, top-level chain. */
  ghost function WithTop(f: Forest): Forest {
    f.(chain := f.chain[Top(f.tops) := []], tops := f.tops + 1)
  }

  lemma WithTopValid(f: Forest)
    requires Valid(f)
    ensures Valid(WithTop(f))
  {
    var g := WithTop(f);
    assert !SiteOk(f, Top(f.tops));
    assert Top(f.tops) in f.chain ==> ChainOk(f, Top(f.tops));
    forall n | n in g.site ensures NodeOk(g, n) { assert NodeOk(f, n); }
    forall q | q in g.chain ensures ChainOk(g, q) {
      assert q in f.chain ==> ChainOk(f, q);
      assert forall n | n in f.site :: NodeOk(f, n);
    }
  }

  ghost function Detached(f: Forest, x: TreeNode): (r: Forest)
    requires Valid(f) && x in f.site
  {
    WithTopValid(f);
    Moved(WithTop(f), x, Top(f.tops), true)
  }

  lemma WithoutFacts(c: seq<TreeNode>, x: TreeNode)
    requires NoDup(c) && x in c
    ensures NoDup(Without(c, x)) && x !in Without(c, x)
    ensures forall n | n in c && n != x :: n in Without(c, x)
  {
    var i := IndexOf(c, x);
    forall n | n in c && n != x ensures n in Without(c, x) {
      var j :| 0 <= j < |c| && c[j] == n;
      assert n == Without(c, x)[if j < i then j else j - 1];
    }
  }

  lemma MovedDepth(f: Forest, x: TreeNode, k: Site, atBack: bool, n: TreeNode)
    requires Valid(f) && x in f.site && k in f.chain && n in f.site
    requires k.Under? ==> k.parent in f.site && x !in Ancestors(f, k.parent)
    ensures DepthOk(Moved(f, x, k, atBack), n)
  {
    assert NodeOk(f, n) && ChainOk(f, k);
    if n != x && f.site[n].Under? {
      assert x in Ancestors(f, n) <==> x in Ancestors(f, f.site[n].parent);
      assert NodeOk(f, f.site[n].parent);
    } else if n == x {
      assert x in Ancestors(f, x);
      assert k.Under? ==> NodeOk(f, k.parent);
    }
  }

  lemma MovedChain(f: Forest, x: TreeNode, k: Site, atBack: bool, q: Site)
    requires Valid(f) && x in f.site && k in f.chain && q in f.chain
    ensures q in Moved(f, x, k, atBack).chain && ChainOk(Moved(f, x, k, atBack), q)
  {
    var g, home := Moved(f, x, k, atBack), f.site[x];
    assert NodeOk(f, x) && ChainOk(f, home) && ChainOk(f, q);
    WithoutFacts(f.chain[home], x);
    var rest := if q == home then Without(f.chain[q], x) else f.chain[q];
    assert x !in rest && NoDup(rest);
    assert g.chain[q] == if q != k then rest else if atBack then rest + [x] else [x] + rest;
  }

  /** Moving a subtree keeps the forest well formed, provided the destination is not inside it. */
  lemma MovedValid(f: Forest, x: TreeNode, k: Site, atBack: bool)
    requires Valid(f) && x in f.site && k in f.chain
    requires k.Under? ==> k.parent in f.site && x !in Ancestors(f, k.parent)
    ensures Valid(Moved(f, x, k, atBack))
  {
    var g := Moved(f, x, k, atBack);
    forall q | q in g.chain ensures ChainOk(g, q) {
      assert NodeOk(f, x) && ChainOk(f, k);
      MovedChain(f, x, k, atBack, q);
    }
    forall n | n in g.site ensures NodeOk(g, n) {
      assert NodeOk(f, n) && ChainOk(f, k);
      MovedDepth(f, x, k, atBack, n);
    }
  }

  /** What a move does to the line of ancestors: inside the moved subtree the part below `x` is
      kept and the part above `x` is exchanged; every other node keeps its line. */
  lemma {:induction false} MovedAncestors(f: Forest, x: TreeNode, k: Site, atBack: bool, n: TreeNode)
    requires Valid(f) && x in f.site && k in f.chain && n in f.site
    requires k.Under? ==> k.parent in f.site && x !in Ancestors(f, k.parent)
    ensures Valid(Moved(f, x, k, atBack))
    ensures Ancestors(Moved(f, x, k, atBack), n) ==
            if x !in Ancestors(f, n) then Ancestors(f, n)
            else Ancestors(f, n) - Ancestors(f, x) + {x} + (if k.Under? then Ancestors(f, k.parent) else {})
    decreases f.depth[n]
  {
    var g := Moved(f, x, k, atBack);
    MovedValid(f, x, k, atBack);
    assert NodeOk(f, n) && NodeOk(f, x);
    if n == x {
      if k.Under? {
        var m := k.parent;
        AncestorsKept(f, x, k, atBack, m);
      }
    } else if f.site[n].Under? {
      MovedAncestors(f, x, k, atBack, f.site[n].parent);
      if x in Ancestors(f, n) {
        DepthInSubtree(f, x, n);
        if n in Ancestors(f, x) { DepthInSubtree(f, n, x); }
      }
    }
  }

  lemma {:induction false} AncestorsKept(f: Forest, x: TreeNode, k: Site, atBack: bool, n: TreeNode)
    requires Valid(f) && x in f.site && k in f.chain && n in f.site && x !in Ancestors(f, n)
    requires Valid(Moved(f, x, k, atBack))
    ensures Ancestors(Moved(f, x, k, atBack), n) == Ancestors(f, n)
    ensures Root(Moved(f, x, k, atBack), n) == Root(f, n)
    decreases f.depth[n]
  {
    assert NodeOk(f, n) && NodeOk(f, x);
    if f.site[n].Under? {
      AncestorsKept(f, x, k, atBack, f.site[n].parent);
    }
  }

  /** After a move the whole moved subtree is under the destination's root; other roots stay. */
  lemma {:induction false} MovedRoot(f: Forest, x: TreeNode, k: Site, atBack: bool, n: TreeNode)
    requires Valid(f) && x in f.site && k in f.chain && n in f.site
    requires k.Under? ==> k.parent in f.site && x !in Ancestors(f, k.parent)
    ensures Valid(Moved(f, x, k, atBack))
    ensures Root(Moved(f, x, k, atBack), n) ==
            if x !in Ancestors(f, n) then Root(f, n) else if k.Under? then Root(f, k.parent) else x
    decreases f.depth[n]
  {
    MovedValid(f, x, k, atBack);
    assert NodeOk(f, n) && NodeOk(f, x);
    if x !in Ancestors(f, n) {
      AncestorsKept(f, x, k, atBack, n);
    } else if n != x {
      MovedRoot(f, x, k, atBack, f.site[n].parent);
    } else if k.Under? {
      AncestorsKept(f, x, k, atBack, k.parent);
    }
  }

  ghost function First(c: seq<TreeNode>): TreeNode? {
    if c == [] then null else c[0]
  }

  /** The sibling and parent pointers of the node at position `i` of chain `c` hung at `k`. */
  ghost predicate LinkedAt(k: Site, c: seq<TreeNode>, i: nat)
    requires i < |c|
    reads c[i]
  {
    && c[i].next == (if i + 1 < |c| then c[i + 1] else null)
    && c[i].prev == (if 0 < i then c[i - 1] else if k.Under? then c[|c| - 1] else null)
    && c[i].parent == (if k.Under? then k.parent else null)
  }

  ghost predicate ChainLinked(k: Site, c: seq<TreeNode>)
    reads c
  {
    forall i | 0 <= i < |c| :: LinkedAt(k, c, i)
  }

  ghost predicate ChildLinked(f: Forest, p: TreeNode)
    requires Under(p) in f.chain
    reads p
  {
    p.child == First(f.chain[Under(p)])
  }

  /** The pointers in the heap spell out the forest. */
  ghost predicate Linked(f: Forest)
    requires Valid(f)
    reads f.site.Keys
  {
    && (forall q {:trigger ChainOk(f, q)} | q in f.chain :: ChainOk(f, q) && ChainLinked(q, f.chain[q]))
    && (forall p {:trigger NodeOk(f, p)} | p in f.site :: NodeOk(f, p) && ChildLinked(f, p))
  }

  class TreeNode {
    var parent: TreeNode?
    var child: TreeNode?
    var next: TreeNode?
    var prev: TreeNode?

    constructor ()
      ensures parent == null && child == null && next == null && prev == null
    {
      parent, child, next, prev := null, null, null, null;
    }

    /** The pointer surgery of `DetachSubTree`, seen from the one chain it changes. */
    method Unhook(ghost k: Site, ghost c: seq<TreeNode>, ghost i: nat)
      requires NoDup(c) && i < |c| && c[i] == this && ChainLinked(k, c)
      requires k.Under? ==> k.parent.child == c[0]
      modifies (set n | n in c)`next, (set n | n in c)`prev, `parent
      modifies (if k.Under? then {k.parent} else {})`child
      ensures ChainLinked(k, c[..i] + c[i + 1..])
      ensures next == null && prev == null && parent == null
      ensures k.Under? ==> k.parent.child == First(c[..i] + c[i + 1..])
    {
      assert LinkedAt(k, c, i) && LinkedAt(k, c, 0) && LinkedAt(k, c, |c| - 1);
      assert i + 1 < |c| ==> LinkedAt(k, c, i + 1);
      assert 0 < i ==> LinkedAt(k, c, i - 1);
      var iter := parent;
      if iter == null || iter.child != this {
        iter := prev;
        if iter != null {
          iter.next := next;
        }
        iter := next;
        if iter == null {
          if parent != null {
            parent.child.prev := prev;
          }
        } else {
          iter.prev := prev;
          next := null;
        }
      } else {
        iter.child := next;
        iter := next;
        if iter != null {
          iter.prev := prev;
          next := null;
        }
      }
      prev := null;
      parent := null;
      ghost var d := c[..i] + c[i + 1..];
      forall j | 0 <= j < |d| ensures LinkedAt(k, d, j) {
        assert old(LinkedAt(k, c, if j < i then j else j + 1));
      }
    }

    /** Takes this node out of the chain at `s.k`, to be the chain at `s.t` by itself. */
    method UnhookFrom(ghost s: Surgery)
      requires Loose(s, this) && Linked(s.f)
      modifies s.f.site.Keys
      ensures Confined(s.f, s.k, s.t) && Repaired(s.g, s.k) && Repaired(s.g, s.t)
    {
      ghost var k := s.k;
      assert NodeOk(s.f, this) && ChainOk(s.f, k);
      assert k.Under? ==> NodeOk(s.f, k.parent);
      ghost var c, i := s.f.chain[k], IndexOf(s.f.chain[k], this);
      assert s.g.chain[k] == c[..i] + c[i + 1..];
      hide Valid, Without, IndexOf;
      Unhook(k, c, i);
      assert Repaired(s.g, k);
      assert Repaired(s.g, s.t);
    }

    /** Cuts this node's subtree out of the forest. */
    method DetachSubTree(ghost f: Forest) returns (ghost g: Forest)
      requires Valid(f) && this in f.site && Linked(f)
      modifies f.site.Keys
      ensures g == Detached(f, this) && Valid(g) && Linked(g)
    {
      g := Detached(f, this);
      DetachedFacts(f, this);
      hide Valid, Detached;
      ghost var s := Surgery(f, g, f.site[this], Top(f.tops));
      UnhookFrom(s);
      Relinked(s);
    }

    /** The linking part of `PushBackChild`: `x` joins this node's children `d` as the last. */
    method HookLastChild(x: TreeNode, ghost d: seq<TreeNode>)
      requires NoDup(d) && x !in d && ChainLinked(Under(this), d) && child == First(d) && x.next == null
      modifies `child, (set n | n in d)`next, (set n | n in d)`prev, x`prev, x`parent
      ensures ChainLinked(Under(this), d + [x]) && child == First(d + [x])
    {
      if child == null {
        child := x;
        x.parent := this;
        x.prev := x;
        return;
      }
      assert LinkedAt(Under(this), d, 0) && LinkedAt(Under(this), d, |d| - 1);
      var end := child.prev;
      end.next := x;
      x.prev := end;
      x.parent := end.parent;
      child.prev := x;
      forall j | 0 <= j < |d + [x]| ensures LinkedAt(Under(this), d + [x], j) {
        assert j < |d| ==> old(LinkedAt(Under(this), d, j));
      }
    }

    /** The linking part of `PushFrontChild`. */
    method HookFirstChild(x: TreeNode, ghost d: seq<TreeNode>)
      requires NoDup(d) && x !in d && ChainLinked(Under(this), d) && child == First(d) && x.next == null
      modifies `child, (set n | n in d)`prev, x`next, x`prev, x`parent
      ensures ChainLinked(Under(this), [x] + d) && child == First([x] + d)
    {
      if child == null {
        child := x;
        x.parent := this;
        x.prev := x;
        return;
      }
      assert LinkedAt(Under(this), d, 0);
      x.next := child;
      x.prev := child.prev;
      child.prev := x;
      child := x;
      x.parent := this;
      forall j | 0 <= j < |[x] + d| ensures LinkedAt(Under(this), [x] + d, j) {
        assert 0 < j ==> old(LinkedAt(Under(this), d, j - 1));
      }
    }

    /** The linking part of `PushBackSibling`: `x` joins the chain `d` this node is in as the last. */
    method HookLastSibling(x: TreeNode, ghost k: Site, ghost d: seq<TreeNode>, ghost i: nat)
      requires NoDup(d) && x !in d && ChainLinked(k, d) && i < |d| && d[i] == this && x.next == null
      requires k.Under? ==> k.parent.child == First(d)
      modifies (set n | n in d)`next, (set n | n in d)`prev, x`prev, x`parent
      ensures ChainLinked(k, d + [x])
    {
      assert LinkedAt(k, d, i) && LinkedAt(k, d, 0) && LinkedAt(k, d, |d| - 1);
      var end;
      if parent != null && parent.child != null {
        end := parent.child.prev;
        parent.child.prev := x;
      } else {
        end := this;
        ghost var j := i;
        while end.next != null
          invariant i <= j < |d| && d[j] == end
          decreases |d| - j
        {
          assert LinkedAt(k, d, j);
          end, j := end.next, j + 1;
        }
        assert LinkedAt(k, d, j);
      }
      end.next := x;
      x.prev := end;
      x.parent := end.parent;
      forall j | 0 <= j < |d + [x]| ensures LinkedAt(k, d + [x], j) {
        assert j < |d| ==> old(LinkedAt(k, d, j));
      }
    }

    method AttachLastChild(x: TreeNode, ghost s: Surgery)
      requires Ready(s, x, true) && Linked(s.f) && this in s.f.site && s.k == Under(this)
      modifies s.f.site.Keys
      ensures Linked(s.g)
    {
      ghost var k, t := s.k, s.t;
      assert ChainOk(s.f, k) && ChainOk(s.f, t) && LinkedAt(t, s.f.chain[t], 0) && NodeOk(s.f, this);
      HookLastChild(x, s.f.chain[k]);
      Relinked(s);
    }

    method AttachFirstChild(x: TreeNode, ghost s: Surgery)
      requires Ready(s, x, false) && Linked(s.f) && this in s.f.site && s.k == Under(this)
      modifies s.f.site.Keys
      ensures Linked(s.g)
    {
      ghost var k, t := s.k, s.t;
      assert ChainOk(s.f, k) && ChainOk(s.f, t) && LinkedAt(t, s.f.chain[t], 0) && NodeOk(s.f, this);
      HookFirstChild(x, s.f.chain[k]);
      Relinked(s);
    }

    method AttachLastSibling(x: TreeNode, ghost s: Surgery)
      requires Ready(s, x, true) && Linked(s.f) && this in s.f.site && s.k == s.f.site[this]
      modifies s.f.site.Keys
      ensures Linked(s.g)
    {
      ghost var k, t := s.k, s.t;
      assert ChainOk(s.f, k) && ChainOk(s.f, t) && LinkedAt(t, s.f.chain[t], 0);
      assert k.Under? ==> NodeOk(s.f, k.parent);
      HookLastSibling(x, k, s.f.chain[k], IndexOf(s.f.chain[k], this));
      Relinked(s);
    }

    /** Makes `x`, with its subtree, the last child of this node. */
    method PushBackChild(x: TreeNode, ghost f: Forest) returns (ghost g: Forest)
      requires Valid(f) && Linked(f) && this in f.site && x in f.site && x !in Ancestors(f, this)
      modifies f.site.Keys
      ensures g == WithLastChild(f, this, x) && Valid(g) && Linked(g)
    {
      assert NodeOk(f, this);
      ghost var h := x.DetachSubTree(f);
      g := PushedFacts(f, x, Under(this), true);
      AttachLastChild(x, Surgery(h, g, Under(this), Top(f.tops)));
    }

    /** Makes `x`, with its subtree, the first child of this node. */
    method PushFrontChild(x: TreeNode, ghost f: Forest) returns (ghost g: Forest)
      requires Valid(f) && Linked(f) && this in f.site && x in f.site && x !in Ancestors(f, this)
      modifies f.site.Keys
      ensures g == WithFirstChild(f, this, x) && Valid(g) && Linked(g)
    {
      assert NodeOk(f, this);
      ghost var h := x.DetachSubTree(f);
      g := PushedFacts(f, x, Under(this), false);
      AttachFirstChild(x, Surgery(h, g, Under(this), Top(f.tops)));
    }

    /** Makes `x`, with its subtree, the last sibling of this node. */
    method PushBackSibling(x: TreeNode, ghost f: Forest) returns (ghost g: Forest)
      requires Valid(f) && Linked(f) && this in f.site && x in f.site && x !in Ancestors(f, this)
      modifies f.site.Keys
      ensures g == WithLastSibling(f, this, x) && Valid(g) && Linked(g)
    {
      SiblingFacts(f, this, x);
      ghost var h := x.DetachSubTree(f);
      g := PushedFacts(f, x, f.site[this], true);
      AttachLastSibling(x, Surgery(h, g, f.site[this], Top(f.tops)));
    }

    method FindRoot(ghost f: Forest) returns (root: TreeNode)
      requires Valid(f) && Linked(f) && this in f.site
      ensures root == Root(f, this)
    {
      root := this;
      assert NodeOk(f, root) && ChainOk(f, f.site[root])
             && LinkedAt(f.site[root], f.chain[f.site[root]], IndexOf(f.chain[f.site[root]], root));
      while root.parent != null
        invariant root in f.site && Root(f, root) == Root(f, this)
        invariant root.parent == match f.site[root] case Under(p) => p case Top(_) => null
        decreases f.depth[root]
      {
        assert NodeOk(f, root);
        root := root.parent;
        assert NodeOk(f, root) && ChainOk(f, f.site[root])
               && LinkedAt(f.site[root], f.chain[f.site[root]], IndexOf(f.chain[f.site[root]], root));
      }
    }
  }

  lemma SiblingFacts(f: Forest, y: TreeNode, x: TreeNode)
    requires Valid(f) && y in f.site && x in f.site && x !in Ancestors(f, y)
    ensures f.site[y] in f.chain && x != y
    ensures f.site[y].Under? ==> f.site[y].parent in f.site && x !in Ancestors(f, f.site[y].parent)
    ensures y in Detached(f, x).site && Detached(f, x).site[y] == f.site[y]
  {
    assert NodeOk(f, y);
    DetachedFacts(f, x);
  }

  ghost function WithLastChild(f: Forest, p: TreeNode, x: TreeNode): Forest
    requires Valid(f) && x in f.site && p in f.site
  {
    assert NodeOk(f, p);
    Pushed(f, x, Under(p), true)
  }

  ghost function WithFirstChild(f: Forest, p: TreeNode, x: TreeNode): Forest
    requires Valid(f) && x in f.site && p in f.site
  {
    assert NodeOk(f, p);
    Pushed(f, x, Under(p), false)
  }

  ghost function WithLastSibling(f: Forest, y: TreeNode, x: TreeNode): Forest
    requires Valid(f) && x in f.site && y in f.site
  {
    assert NodeOk(f, y);
    Pushed(f, x, f.site[y], true)
  }

  lemma {:induction false} WithTopAncestors(f: Forest, n: TreeNode)
    requires Valid(f) && n in f.site
    ensures Valid(WithTop(f)) && Ancestors(WithTop(f), n) == Ancestors(f, n) && Root(WithTop(f), n) == Root(f, n)
    decreases f.depth[n]
  {
    WithTopValid(f);
    assert NodeOk(f, n);
    if f.site[n].Under? {
      WithTopAncestors(f, f.site[n].parent);
    }
  }

  /** Detach `x`, then put it at one end of the chain at `k`. */
  ghost function Pushed(f: Forest, x: TreeNode, k: Site, atBack: bool): (g: Forest)
    requires Valid(f) && x in f.site && k in f.chain
  {
    DetachedFacts(f, x);
    Moved(Detached(f, x), x, k, atBack)
  }

  /** The sites and chains after a push. */
  lemma PushedShape(f: Forest, x: TreeNode, k: Site, atBack: bool)
    requires Valid(f) && x in f.site && k in f.chain
    ensures var g, h, t := Pushed(f, x, k, atBack), Detached(f, x), Top(f.tops);
            && t in h.chain && k in h.chain && h.chain[t] == [x]
            && g.site == f.site[x := k] && g.site.Keys == f.site.Keys
            && g.chain == h.chain[t := []][k := if atBack then h.chain[k] + [x] else [x] + h.chain[k]]
  {
    DetachedFacts(f, x);
    var h, t := Detached(f, x), Top(f.tops);
    assert NodeOk(h, x) && ChainOk(h, t) && t != k;
    hide Valid, Detached;
    assert Without([x], x) == [];
  }

  lemma PushedValid(f: Forest, x: TreeNode, k: Site, atBack: bool)
    requires Valid(f) && x in f.site && k in f.chain
    requires k.Under? ==> k.parent in f.site && x !in Ancestors(f, k.parent)
    ensures Valid(Pushed(f, x, k, atBack))
  {
    DetachedFacts(f, x);
    var h, t := Detached(f, x), Top(f.tops);
    if k.Under? {
      WithTopValid(f);
      WithTopAncestors(f, k.parent);
      AncestorsKept(WithTop(f), x, t, true, k.parent);
    }
    hide Valid;
    MovedValid(h, x, k, atBack);
  }

  lemma PushedFacts(f: Forest, x: TreeNode, k: Site, atBack: bool) returns (g: Forest)
    requires Valid(f) && x in f.site && k in f.chain
    requires k.Under? ==> k.parent in f.site && x !in Ancestors(f, k.parent)
    ensures g == Pushed(f, x, k, atBack) && Valid(g)
    ensures Ready(Surgery(Detached(f, x), g, k, Top(f.tops)), x, atBack)
  {
    hide Detached, Pushed, Moved;
    g := Pushed(f, x, k, atBack);
    DetachedFacts(f, x);
    PushedShape(f, x, k, atBack);
    PushedValid(f, x, k, atBack);
    assert ChainOk(Detached(f, x), k);
    hide Valid;
    ReadyToJoin(Surgery(Detached(f, x), g, k, Top(f.tops)), x, atBack);
  }

  lemma ReadyToJoin(s: Surgery, x: TreeNode, atBack: bool)
    requires Valid(s.f) && Valid(s.g) && s.g.site.Keys == s.f.site.Keys && s.t.Top? && s.k != s.t
    requires s.k in s.f.chain && s.t in s.f.chain && s.f.chain[s.t] == [x] && x !in s.f.chain[s.k]
    requires s.g.chain == s.f.chain[s.t := []][s.k := if atBack then s.f.chain[s.k] + [x] else [x] + s.f.chain[s.k]]
    ensures Ready(s, x, atBack)
  {
    hide Valid;
  }

  lemma DetachedFacts(f: Forest, x: TreeNode)
    requires Valid(f) && x in f.site
    ensures var g, k, t := Detached(f, x), f.site[x], Top(f.tops);
            && Valid(g)
            && t !in f.chain && k in f.chain && x in f.chain[k]
            && g.site == f.site[x := t] && g.site.Keys == f.site.Keys
            && g.chain == f.chain[k := Without(f.chain[k], x)][t := [x]]
            && k in g.chain && t in g.chain && g.chain[k] == Without(f.chain[k], x) && g.chain[t] == [x]
  {
    var k, t := f.site[x], Top(f.tops);
    assert NodeOk(f, x) && ChainOk(f, k);
    assert t in f.chain ==> ChainOk(f, t);
    WithTopValid(f);
    MovedValid(WithTop(f), x, t, true);
    assert [] + [x] == [x];
  }

  /** All pointers are as they were, but for those of the chains at `k` and `t`. */
  twostate predicate Confined(f: Forest, k: Site, t: Site)
    reads f.site.Keys
  {
    && (forall n | n in f.site && n !in ChainAt(f, k) && n !in ChainAt(f, t) ::
          n.next == old(n.next) && n.prev == old(n.prev) && n.parent == old(n.parent))
    && (forall p | p in f.site && Under(p) != k :: p.child == old(p.child))
  }

  ghost function ChainAt(f: Forest, k: Site): seq<TreeNode> {
    if k in f.chain then f.chain[k] else []
  }

  /** The chain at `k`, and the first-child pointer to it, are as `g` says. */
  ghost predicate Repaired(g: Forest, k: Site)
    requires k in g.chain
    reads g.chain[k], if k.Under? then {k.parent} else {}
  {
    ChainLinked(k, g.chain[k]) && (k.Under? ==> k.parent.child == First(g.chain[k]))
  }

  /** Pointer surgery that turns forest `f` into `g` and touches only the chains at `k` and `t`. */
  datatype Surgery = Surgery(f: Forest, g: Forest, k: Site, t: Site)

  ghost predicate OnlyTwoChains(s: Surgery) {
    && s.g.site.Keys == s.f.site.Keys && s.k in s.g.chain && s.t in s.g.chain && s.t.Top?
    && forall q | q in s.g.chain && q != s.k && q != s.t :: q in s.f.chain && s.g.chain[q] == s.f.chain[q]
  }

  /** `x` is in the chain at `k` in `f`, and `g` has it as a chain of its own, new at `t`. */
  ghost predicate Loose(s: Surgery, x: TreeNode) {
    && Valid(s.f) && Valid(s.g) && OnlyTwoChains(s) && x in s.f.site && s.f.site[x] == s.k && s.t !in s.f.chain
    && s.k in s.f.chain && x in s.f.chain[s.k] && s.g.chain[s.k] == Without(s.f.chain[s.k], x) && s.g.chain[s.t] == [x]
  }

  /** `x` is a chain of its own in `f`, and `g` has it at one end of the chain at `k` instead. */
  ghost predicate Ready(s: Surgery, x: TreeNode, atBack: bool) {
    && Valid(s.f) && Valid(s.g) && OnlyTwoChains(s) && s.k in s.f.chain && s.t in s.f.chain
    && s.k != s.t && s.f.chain[s.t] == [x] && x !in s.f.chain[s.k]
    && s.g.chain[s.t] == [] && s.g.chain[s.k] == if atBack then s.f.chain[s.k] + [x] else [x] + s.f.chain[s.k]
  }

  /** Surgery confined to two chains re-establishes the pointers of the whole forest. */
  twostate lemma Relinked(s: Surgery)
    requires Valid(s.f) && Valid(s.g) && old(Linked(s.f)) && OnlyTwoChains(s)
    requires Confined(s.f, s.k, s.t) && Repaired(s.g, s.k) && Repaired(s.g, s.t)
    ensures Linked(s.g)
  {
    var f, g := s.f, s.g;
    forall q | q in g.chain ensures ChainOk(g, q) && ChainLinked(q, g.chain[q]) {
      if q != s.k && q != s.t {
        assert ChainOk(f, q);
        forall i | 0 <= i < |g.chain[q]| ensures LinkedAt(q, g.chain[q], i) {
          assert g.chain[q][i] in f.chain[q];
          assert s.k in f.chain ==> ChainOk(f, s.k);
          assert s.t in f.chain ==> ChainOk(f, s.t);
          assert old(LinkedAt(q, f.chain[q], i));
        }
      }
    }
    forall p | p in g.site ensures NodeOk(g, p) && ChildLinked(g, p) {
      assert NodeOk(f, p) && old(ChildLinked(f, p));
    }
  }

  /** What a push does to the sibling orders, stated against the forest before it: the chain `x`
      leaves loses just `x`, the chain it joins gains it at one end, every other chain is as it was
      -- in particular every chain inside the moved subtree. */
  lemma PushedOrders(f: Forest, x: TreeNode, k: Site, atBack: bool, q: Site)
    requires Valid(f) && x in f.site && k in f.chain && q in f.chain
    requires k.Under? ==> k.parent in f.site && x !in Ancestors(f, k.parent)
    ensures var g := Pushed(f, x, k, atBack);
            && Valid(g) && q in g.chain && g.site == f.site[x := k]
            && f.site[x] in f.chain && x in f.chain[f.site[x]]
            && var rest := if q == f.site[x] then Without(f.chain[q], x) else f.chain[q];
               g.chain[q] == if q != k then rest else if atBack then rest + [x] else [x] + rest
  {
    hide Moved, Detached, Pushed, Valid;
    PushedValid(f, x, k, atBack);
    PushedShape(f, x, k, atBack);
    DetachedFacts(f, x);
  }

  /** Where the three pushes put the subtree: last or first among the children of `p`, last in the chain
      of `p`. */
  lemma PushesPlace(f: Forest, p: TreeNode, x: TreeNode)
    requires Valid(f) && x in f.site && p in f.site && x !in Ancestors(f, p)
    ensures f.site[p] in f.chain && Under(p) in f.chain && f.site[x] in f.chain && x in f.chain[f.site[x]]
    ensures var k := Under(p);
            var rest := if f.site[x] == k then Without(f.chain[k], x) else f.chain[k];
            && k in WithLastChild(f, p, x).chain && k in WithFirstChild(f, p, x).chain
            && WithLastChild(f, p, x).chain[k] == rest + [x] && WithFirstChild(f, p, x).chain[k] == [x] + rest
            && WithLastChild(f, p, x).site == f.site[x := k] && WithFirstChild(f, p, x).site == f.site[x := k]
    ensures var k := f.site[p];
            var rest := if f.site[x] == k then Without(f.chain[k], x) else f.chain[k];
            && k in WithLastSibling(f, p, x).chain && WithLastSibling(f, p, x).chain[k] == rest + [x]
            && WithLastSibling(f, p, x).site == f.site[x := k]
  {
    hide Pushed, Valid, Moved, Detached, Without;
    SiblingFacts(f, p, x);
    assert NodeOk(f, p) && NodeOk(f, x) && ChainOk(f, f.site[x]) by { NodeChain(f, p); NodeChain(f, x); }
    PushedOrders(f, x, Under(p), true, Under(p));
    PushedOrders(f, x, Under(p), false, Under(p));
    PushedOrders(f, x, f.site[p], true, f.site[p]);
  }

  lemma NodeChain(f: Forest, n: TreeNode)
    requires Valid(f) && n in f.site
    ensures NodeOk(f, n) && ChainOk(f, f.site[n])
  {
  }

  /** After a push the whole moved subtree is under the root of the destination, and every other
      node is under the root it had. */
  lemma PushedRoots(f: Forest, x: TreeNode, k: Site, atBack: bool, n: TreeNode)
    requires Valid(f) && x in f.site && k in f.chain && n in f.site
    requires k.Under? ==> k.parent in f.site && x !in Ancestors(f, k.parent)
    ensures var g := Pushed(f, x, k, atBack);
            && Valid(g) && n in g.site
            && Root(g, n) == if x !in Ancestors(f, n) then Root(f, n) else if k.Under? then Root(f, k.parent) else x
  {
    var g := PushedFacts(f, x, k, atBack);
    var w, h, t := WithTop(f), Detached(f, x), Top(f.tops);
    DetachedFacts(f, x);
    WithTopAncestors(f, n);
    WithTopAncestors(f, x);
    MovedAncestors(w, x, t, true, n);
    MovedRoot(w, x, t, true, n);
    assert NodeOk(f, x);
    assert x in Ancestors(f, n) <==> x in Ancestors(h, n);
    if k.Under? {
      WithTopAncestors(f, k.parent);
      AncestorsKept(w, x, t, true, k.parent);
    }
    MovedRoot(h, x, k, atBack, n);
  }

  /** The forest with one more node that has no relatives. */
  ghost function Adopted(f: Forest, n: TreeNode): Forest
    requires n !in f.site
  {
    Forest(f.site[n := Top(f.tops)], f.chain[Top(f.tops) := [n]][Under(n) := []], f.depth[n := 0], f.tops + 1)
  }

  /** A newly constructed node can be added to any forest, so every forest can be built up. */
  lemma AdoptedLinked(f: Forest, n: TreeNode)
    requires Valid(f) && Linked(f) && n !in f.site
    requires n.parent == null && n.child == null && n.next == null && n.prev == null
    ensures Valid(Adopted(f, n)) && Linked(Adopted(f, n))
  {
    AdoptedValid(f, n);
    var g := Adopted(f, n);
    assert Under(n) in f.chain ==> ChainOk(f, Under(n));
    forall m | m in g.site ensures NodeOk(g, m) && ChildLinked(g, m) {
      if m != n { assert NodeOk(f, m) && ChildLinked(f, m); }
    }
    forall q | q in g.chain ensures ChainOk(g, q) && ChainLinked(q, g.chain[q]) {
      if q in f.chain { assert ChainOk(f, q) && ChainLinked(q, f.chain[q]); }
    }
  }

  lemma AdoptedValid(f: Forest, n: TreeNode)
    requires Valid(f) && n !in f.site
    ensures Valid(Adopted(f, n))
    ensures forall q | q in f.chain :: q in Adopted(f, n).chain && Adopted(f, n).chain[q] == f.chain[q]
  {
    var g, t := Adopted(f, n), Top(f.tops);
    assert t in f.chain ==> ChainOk(f, t);
    assert Under(n) in f.chain ==> ChainOk(f, Under(n));
    forall m | m in g.site ensures NodeOk(g, m) {
      if m != n { assert NodeOk(f, m); }
    }
    forall q | q in g.chain ensures ChainOk(g, q) {
      AdoptedChain(f, n, q);
    }
  }

  lemma AdoptedChain(f: Forest, n: TreeNode, q: Site)
    requires Valid(f) && n !in f.site && q in Adopted(f, n).chain
    ensures ChainOk(Adopted(f, n), q)
  {
    var g, t := Adopted(f, n), Top(f.tops);
    assert t in f.chain ==> ChainOk(f, t);
    assert Under(n) in f.chain ==> ChainOk(f, Under(n));
    if q in f.chain {
      assert ChainOk(f, q);
    } else {
      forall m | m in g.site && g.site[m] == q ensures m in g.chain[q] {
        assert m in f.site ==> NodeOk(f, m);
      }
    }
  }
}
