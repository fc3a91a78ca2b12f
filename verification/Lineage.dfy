/** Reading a turn tree back in pre-order (`_lineage_order` in workbench/conversation_store.py). */
module Lineage {
  import opened Outcomes
  import opened ConversationModels
  import opened Sequences
  import StableSort

  // -- what the answer should be -----------------------------------------

  datatype Tree = Node(turn: Turn, kids: seq<Tree>)

  function PreOrder(trees: seq<Tree>): seq<Turn>
  {
    if trees == [] then [] else [trees[0].turn] + PreOrder(trees[0].kids) + PreOrder(trees[1..])
  }

  function Roots(trees: seq<Tree>): seq<Turn>
  {
    if trees == [] then [] else [trees[0].turn] + Roots(trees[1..])
  }

  function Size(trees: seq<Tree>): nat
  {
    if trees == [] then 0 else 1 + Size(trees[0].kids) + Size(trees[1..])
  }

  function SiblingKey(t: Turn): int { t.lineage.sibling }

  /** The turns directly under `parent`, in stored order. */
  function Under(turns: seq<Turn>, parent: Option<Id>): seq<Turn>
  {
    if turns == [] then []
    else if turns[|turns| - 1].lineage.parent == parent then
      Under(turns[..|turns| - 1], parent) + [turns[|turns| - 1]]
    else Under(turns[..|turns| - 1], parent)
  }

  /** The turns directly under `parent`, by ascending sibling index. */
  function Kids(turns: seq<Turn>, parent: Option<Id>): seq<Turn>
  {
    StableSort.Sort(Under(turns, parent), SiblingKey, StableSort.IntLess)
  }

  /** Every node of the forest has exactly its own children, in sibling order. */
  ghost predicate Complete(turns: seq<Turn>, trees: seq<Tree>)
  {
    trees == [] ||
    (&& Roots(trees[0].kids) == Kids(turns, Some(trees[0].turn.id))
     && Complete(turns, trees[0].kids) && Complete(turns, trees[1..]))
  }

  /** The forest of the turns that hang off `parent`. */
  ghost predicate IsForest(turns: seq<Turn>, parent: Option<Id>, trees: seq<Tree>)
  {
    Roots(trees) == Kids(turns, parent) && Complete(turns, trees)
  }

  ghost predicate UniqueIds(turns: seq<Turn>)
  {
    forall i, j :: 0 <= i < j < |turns| ==> turns[i].id != turns[j].id
  }

  /** `t` is `n` steps below a null-parent turn of `turns`. */
  ghost predicate Descends(turns: seq<Turn>, t: Turn, n: nat)
    decreases n
  {
    if n == 0 then t.lineage.parent.None?
    else exists p :: p in turns && t.lineage.parent == Some(p.id) && Descends(turns, p, n - 1)
  }

  ghost predicate Reachable(turns: seq<Turn>, t: Turn)
  {
    exists n: nat :: Descends(turns, t, n)
  }

  ghost predicate AllReachable(turns: seq<Turn>)
  {
    forall t | t in turns :: Reachable(turns, t)
  }

  // -- the children of one parent ----------------------------------------

  lemma {:induction false} UnderMembers(turns: seq<Turn>, parent: Option<Id>)
    ensures forall t :: t in Under(turns, parent) <==> t in turns && t.lineage.parent == parent
    ensures UniqueIds(turns) ==> UniqueIds(Under(turns, parent))
  {
    if turns != [] {
      var front := turns[..|turns| - 1];
      UnderMembers(front, parent);
      assert turns == front + [turns[|turns| - 1]];
      if UniqueIds(turns) && turns[|turns| - 1].lineage.parent == parent {
        var u := Under(front, parent);
        forall i | 0 <= i < |u| ensures u[i].id != turns[|turns| - 1].id {
          assert u[i] in front;
        }
      }
    }
  }

  lemma UniqueById(turns: seq<Turn>, a: Turn, b: Turn)
    requires UniqueIds(turns) && a in turns && b in turns && a.id == b.id
    ensures a == b
  { }

  lemma DistinctIfUnique(s: seq<Turn>)
    requires UniqueIds(s)
    ensures NoRepeats(s)
  { }

  lemma SameElementsUnique(a: seq<Turn>, b: seq<Turn>)
    requires multiset(a) == multiset(b) && UniqueIds(a)
    ensures UniqueIds(b)
  {
    forall i, j | 0 <= i < j < |b| ensures b[i].id != b[j].id {
      assert b[i] in multiset(b) && b[j] in multiset(b);
      assert b[i] in a && b[j] in a;
      if b[i] == b[j] { Twice(b, i, j); DistinctIfUnique(a); Multiplicity(a, b[i]); }
      else if b[i].id == b[j].id { UniqueById(a, b[i], b[j]); }
    }
  }

  lemma {:induction false} KidsMembers(turns: seq<Turn>, parent: Option<Id>)
    ensures forall t :: t in Kids(turns, parent) <==> t in turns && t.lineage.parent == parent
    ensures StableSort.Ascending(Kids(turns, parent), SiblingKey, StableSort.IntLess)
    ensures UniqueIds(turns) ==> UniqueIds(Kids(turns, parent))
  {
    var u := Under(turns, parent);
    UnderMembers(turns, parent);
    StableSort.SortIsStable(u, SiblingKey, StableSort.IntLess);
    forall t ensures t in Kids(turns, parent) <==> t in u {
      assert t in multiset(Kids(turns, parent)) <==> t in multiset(u);
    }
    if UniqueIds(turns) { SameElementsUnique(u, Kids(turns, parent)); }
  }

  // -- the forest exists, even for rows with cycles or dangling parents ---

  ghost predicate Within(s: seq<Turn>, avail: set<Turn>)
  {
    forall t | t in s :: t in avail
  }

  ghost predicate Apart(a: seq<Turn>, b: seq<Turn>)
  {
    forall t | t in a :: t !in b
  }

  ghost predicate ParentIn(c: Turn, s: seq<Turn>)
  {
    exists p :: p in s && c.lineage.parent == Some(p.id)
  }

  /** Every element is one of `nodes` or hangs off another element. */
  ghost predicate Anchored(s: seq<Turn>, nodes: seq<Turn>)
  {
    forall c | c in s :: c in nodes || ParentIn(c, s)
  }

  /** Whatever hangs off an available turn is available, and is not a node. */
  ghost predicate Closed(turns: seq<Turn>, nodes: seq<Turn>, avail: set<Turn>)
  {
    && Within(nodes, avail)
    && (forall a | a in avail :: a in turns)
    && forall c | c in turns && (exists a :: a in avail && c.lineage.parent == Some(a.id)) :: c in avail && c !in nodes
  }

  lemma DistinctConcat(a: seq<Turn>, b: seq<Turn>)
    requires NoRepeats(a) && NoRepeats(b) && Apart(a, b)
    ensures NoRepeats(a + b)
  {
    forall i, j | 0 <= i < j < |a + b| ensures (a + b)[i] != (a + b)[j] {
      if i < |a| <= j { assert a[i] in a && b[j - |a|] in b; }
    }
  }

  lemma AnchoredConcat(a: seq<Turn>, b: seq<Turn>, nodesA: seq<Turn>, nodesB: seq<Turn>, nodes: seq<Turn>)
    requires Anchored(a, nodesA) && Anchored(b, nodesB)
    requires forall c | c in nodesA :: c in nodes || ParentIn(c, a + b)
    requires forall c | c in nodesB :: c in nodes || ParentIn(c, a + b)
    ensures Anchored(a + b, nodes)
  {
    forall c | c in a + b ensures c in nodes || ParentIn(c, a + b) {
      if c in a && c !in nodesA {
        var p :| p in a && c.lineage.parent == Some(p.id);
        assert p in a + b;
      } else if c in b && c !in nodesB {
        var p :| p in b && c.lineage.parent == Some(p.id);
        assert p in a + b;
      }
    }
  }

  /** The children of the first node, with every node taken away, are closed again. */
  lemma ClosedBelow(turns: seq<Turn>, nodes: seq<Turn>, avail: set<Turn>, below: set<Turn>)
    requires UniqueIds(turns) && nodes != [] && Closed(turns, nodes, avail)
    requires below == set t | t in avail && t !in nodes
    ensures Closed(turns, Kids(turns, Some(nodes[0].id)), below)
  {
    var n := nodes[0];
    assert n in nodes;
    KidsMembers(turns, Some(n.id));
    forall c | c in turns && exists a :: a in below && c.lineage.parent == Some(a.id)
      ensures c in below && c !in Kids(turns, Some(n.id))
    {
      var a :| a in below && c.lineage.parent == Some(a.id);
      if a.id == n.id { UniqueById(turns, a, n); }
    }
  }

  /** What hangs off a turn that is left was not used. */
  lemma NotUsed(turns: seq<Turn>, n: Turn, used: seq<Turn>, a: Turn, c: Turn)
    requires UniqueIds(turns) && Anchored(used, Kids(turns, Some(n.id)))
    requires n in turns && a in turns && (forall p | p in used :: p in turns)
    requires a != n && a !in used && c.lineage.parent == Some(a.id)
    ensures c !in used
  {
    KidsMembers(turns, Some(n.id));
    hide Kids;
    if c in used {
      if c in Kids(turns, Some(n.id)) {
        UniqueById(turns, a, n);
      } else {
        var p :| p in used && c.lineage.parent == Some(p.id);
        UniqueById(turns, a, p);
      }
    }
  }

  /** What is left once the first node and everything below it is used, is closed again. */
  lemma ClosedAfter(turns: seq<Turn>, nodes: seq<Turn>, avail: set<Turn>, used: seq<Turn>, left: set<Turn>)
    requires UniqueIds(turns) && nodes != [] && NoRepeats(nodes) && Closed(turns, nodes, avail)
    requires left == set t | t in avail && t != nodes[0] && t !in used
    requires Within(used, avail) && Apart(used, nodes) && Anchored(used, Kids(turns, Some(nodes[0].id)))
    ensures Closed(turns, nodes[1..], left)
  {
    hide Kids, Anchored, UniqueIds;
    var n, rest := nodes[0], nodes[1..];
    assert n in nodes;
    forall t | t in rest ensures t in left && t in nodes {
      var k :| 0 <= k < |rest| && rest[k] == t;
      assert nodes[k + 1] == t && t in nodes;
    }
    forall c | c in turns && exists a :: a in left && c.lineage.parent == Some(a.id)
      ensures c in left && c !in rest
    {
      var a :| a in left && c.lineage.parent == Some(a.id);
      assert c in avail && c !in nodes;
      NotUsed(turns, n, used, a, c);
    }
  }

  lemma {:induction false} Grow(turns: seq<Turn>, nodes: seq<Turn>, avail: set<Turn>)
    returns (trees: seq<Tree>)
    requires UniqueIds(turns) && NoRepeats(nodes) && Closed(turns, nodes, avail)
    ensures Roots(trees) == nodes && Complete(turns, trees)
    ensures NoRepeats(PreOrder(trees)) && Within(PreOrder(trees), avail) && Anchored(PreOrder(trees), nodes)
    decreases avail
  {
    if nodes == [] {
      trees := [];
    } else {
      var n, rest := nodes[0], nodes[1..];
      assert n in nodes && n in avail;
      var kids := Kids(turns, Some(n.id));
      KidsMembers(turns, Some(n.id));
      var below := set t | t in avail && t !in nodes;
      ClosedBelow(turns, nodes, avail, below);
      DistinctIfUnique(kids);
      var kidTrees := Grow(turns, kids, below);
      var used := PreOrder(kidTrees);
      var left := set t | t in avail && t != n && t !in used;
      ClosedAfter(turns, nodes, avail, used, left);
      var restTrees := Grow(turns, rest, left);
      trees := Join(turns, nodes, avail, kidTrees, restTrees, left);
    }
  }

  lemma JoinedForest(turns: seq<Turn>, n: Turn, kidTrees: seq<Tree>, restTrees: seq<Tree>)
    requires Roots(kidTrees) == Kids(turns, Some(n.id)) && Complete(turns, kidTrees) && Complete(turns, restTrees)
    ensures var trees := [Node(n, kidTrees)] + restTrees;
            && Roots(trees) == [n] + Roots(restTrees) && Complete(turns, trees)
            && PreOrder(trees) == ([n] + PreOrder(kidTrees)) + PreOrder(restTrees)
  {
    hide Kids;
    var trees := [Node(n, kidTrees)] + restTrees;
    assert trees[0] == Node(n, kidTrees) && trees[1..] == restTrees;
  }

  lemma JoinedAnchors(turns: seq<Turn>, nodes: seq<Turn>, used: seq<Turn>, others: seq<Turn>)
    requires nodes != [] && Anchored(used, Kids(turns, Some(nodes[0].id))) && Anchored(others, nodes[1..])
    ensures Anchored(([nodes[0]] + used) + others, nodes)
  {
    var n := nodes[0];
    KidsMembers(turns, Some(n.id));
    hide Kids;
    assert n in nodes && n in [n] + used && n in ([n] + used) + others;
    AnchoredConcat([n], used, [n], Kids(turns, Some(n.id)), [n]);
    AnchoredConcat([n] + used, others, [n], nodes[1..], nodes);
  }

  lemma Join(turns: seq<Turn>, nodes: seq<Turn>, avail: set<Turn>, kidTrees: seq<Tree>, restTrees: seq<Tree>, left: set<Turn>)
    returns (trees: seq<Tree>)
    requires nodes != [] && nodes[0] in avail
    requires Roots(kidTrees) == Kids(turns, Some(nodes[0].id)) && Complete(turns, kidTrees)
    requires Roots(restTrees) == nodes[1..] && Complete(turns, restTrees)
    requires NoRepeats(PreOrder(kidTrees)) && NoRepeats(PreOrder(restTrees))
    requires Within(PreOrder(kidTrees), set t | t in avail && t !in nodes)
    requires left == set t | t in avail && t != nodes[0] && t !in PreOrder(kidTrees)
    requires Within(PreOrder(restTrees), left)
    requires Anchored(PreOrder(kidTrees), Kids(turns, Some(nodes[0].id))) && Anchored(PreOrder(restTrees), nodes[1..])
    ensures Roots(trees) == nodes && Complete(turns, trees)
    ensures NoRepeats(PreOrder(trees)) && Within(PreOrder(trees), avail) && Anchored(PreOrder(trees), nodes)
  {
    hide Kids, Complete, PreOrder, Roots, Anchored, NoRepeats;
    var n, used, others := nodes[0], PreOrder(kidTrees), PreOrder(restTrees);
    trees := [Node(n, kidTrees)] + restTrees;
    JoinedForest(turns, n, kidTrees, restTrees);
    JoinedAnchors(turns, nodes, used, others);
    OneOnly(n);
    DistinctConcat([n], used);
    DistinctConcat([n] + used, others);
  }

  lemma OneOnly(t: Turn)
    ensures NoRepeats([t])
  { }

  // -- its elements are exactly the reachable turns -----------------------

  lemma {:induction false} RootsInPreOrder(trees: seq<Tree>, t: Turn)
    requires t in Roots(trees)
    ensures t in PreOrder(trees)
  {
    if t != trees[0].turn { RootsInPreOrder(trees[1..], t); }
  }

  lemma {:induction false} KidsInPreOrder(turns: seq<Turn>, trees: seq<Tree>, p: Turn, c: Turn)
    requires Complete(turns, trees) && p in PreOrder(trees)
    requires c in turns && c.lineage.parent == Some(p.id)
    ensures c in PreOrder(trees)
  {
    if p == trees[0].turn {
      KidsMembers(turns, Some(p.id));
      RootsInPreOrder(trees[0].kids, c);
    } else if p in PreOrder(trees[0].kids) {
      KidsInPreOrder(turns, trees[0].kids, p, c);
    } else {
      KidsInPreOrder(turns, trees[1..], p, c);
    }
  }

  lemma {:induction false} ReachableInPreOrder(turns: seq<Turn>, trees: seq<Tree>, t: Turn, n: nat)
    requires IsForest(turns, None, trees) && t in turns && Descends(turns, t, n)
    ensures t in PreOrder(trees)
    decreases n
  {
    if n == 0 {
      KidsMembers(turns, None);
      RootsInPreOrder(trees, t);
    } else {
      var p :| p in turns && t.lineage.parent == Some(p.id) && Descends(turns, p, n - 1);
      ReachableInPreOrder(turns, trees, p, n - 1);
      KidsInPreOrder(turns, trees, p, t);
    }
  }

  lemma {:induction false} PreOrderReachable(turns: seq<Turn>, trees: seq<Tree>, t: Turn)
    requires Complete(turns, trees) && t in PreOrder(trees)
    requires forall r :: r in Roots(trees) ==> r in turns && Reachable(turns, r)
    ensures t in turns && Reachable(turns, t)
  {
    var r := trees[0].turn;
    assert r in Roots(trees);
    if t == r {
    } else if t in PreOrder(trees[0].kids) {
      KidsMembers(turns, Some(r.id));
      var n: nat :| Descends(turns, r, n);
      forall k | k in Roots(trees[0].kids) ensures k in turns && Reachable(turns, k) {
        assert Descends(turns, k, n + 1);
      }
      PreOrderReachable(turns, trees[0].kids, t);
    } else {
      forall k | k in Roots(trees[1..]) ensures k in turns && Reachable(turns, k) { assert k in Roots(trees); }
      PreOrderReachable(turns, trees[1..], t);
    }
  }

  /** With unique ids the forest below the roots exists, repeats no turn, and
      holds exactly the turns that are reachable from a null-parent turn. */
  lemma {:induction false} ForestOfReachable(turns: seq<Turn>) returns (trees: seq<Tree>)
    requires UniqueIds(turns)
    ensures IsForest(turns, None, trees) && NoRepeats(PreOrder(trees))
    ensures forall t :: t in PreOrder(trees) <==> t in turns && Reachable(turns, t)
  {
    var roots := Kids(turns, None);
    KidsMembers(turns, None);
    DistinctIfUnique(roots);
    trees := Grow(turns, roots, set t | t in turns);
    forall r | r in roots ensures r in turns && Reachable(turns, r) {
      assert Descends(turns, r, 0);
    }
    forall t ensures t in PreOrder(trees) <==> t in turns && Reachable(turns, t) {
      if t in PreOrder(trees) { PreOrderReachable(turns, trees, t); }
      if t in turns && Reachable(turns, t) {
        var n: nat :| Descends(turns, t, n);
        ReachableInPreOrder(turns, trees, t, n);
      }
    }
  }

  /** There is only one such forest, so "its pre-order" is well defined. */
  lemma {:induction false} ForestUnique(turns: seq<Turn>, a: seq<Tree>, b: seq<Tree>)
    requires Roots(a) == Roots(b) && Complete(turns, a) && Complete(turns, b)
    ensures a == b
  {
    if a == [] || b == [] {
    } else {
      assert a[0].turn == Roots(a)[0] == Roots(b)[0] == b[0].turn;
      ForestUnique(turns, a[0].kids, b[0].kids);
      assert Roots(a)[1..] == Roots(a[1..]) && Roots(b)[1..] == Roots(b[1..]);
      ForestUnique(turns, a[1..], b[1..]);
      assert a == [a[0]] + a[1..] && b == [b[0]] + b[1..];
    }
  }

  /** A selection without repeats is everything exactly when it is as long as everything. */
  lemma LongEnoughIsAll(turns: seq<Turn>, some: seq<Turn>)
    requires UniqueIds(turns) && NoRepeats(some) && forall t | t in some :: t in turns
    ensures |some| <= |turns|
    ensures |some| == |turns| <==> forall t | t in turns :: t in some
    ensures |some| == |turns| ==> multiset(some) == multiset(turns)
  {
    DistinctIfUnique(turns);
    ContainedIn(some, turns);
  }

  lemma ForestVerdict(turns: seq<Turn>) returns (trees: seq<Tree>)
    requires UniqueIds(turns)
    ensures IsForest(turns, None, trees)
    ensures |PreOrder(trees)| == |turns| <==> AllReachable(turns)
    ensures |PreOrder(trees)| == |turns| ==> multiset(PreOrder(trees)) == multiset(turns)
  {
    trees := ForestOfReachable(turns);
    LongEnoughIsAll(turns, PreOrder(trees));
  }

  lemma ForestExists(turns: seq<Turn>)
    requires UniqueIds(turns)
    ensures exists trees :: IsForest(turns, None, trees)
  {
    var trees := ForestVerdict(turns);
  }

  /** The reachable turns in pre-order: the pre-order of the one forest of `turns`. */
  ghost function InOrder(turns: seq<Turn>): (r: seq<Turn>)
    requires UniqueIds(turns)
    ensures exists trees :: IsForest(turns, None, trees) && r == PreOrder(trees)
  {
    ForestExists(turns);
    var trees :| IsForest(turns, None, trees);
    PreOrder(trees)
  }

  lemma ForestIsTheOne(turns: seq<Turn>, trees: seq<Tree>)
    requires UniqueIds(turns) && IsForest(turns, None, trees)
    ensures InOrder(turns) == PreOrder(trees)
  {
    var other :| IsForest(turns, None, other) && InOrder(turns) == PreOrder(other);
    ForestUnique(turns, trees, other);
  }

  // -- the loop ------------------------------------------------------------

  function Reverse(s: seq<Turn>): seq<Turn>
  {
    if s == [] then [] else Reverse(s[1..]) + [s[0]]
  }

  lemma {:induction false} ReverseAppend(s: seq<Turn>, x: seq<Turn>)
    ensures Reverse(s + x) == Reverse(x) + Reverse(s)
    ensures |Reverse(s)| == |s|
  {
    if s == [] {
      assert s + x == x;
    } else {
      ReverseAppend(s[1..], x);
      assert (s + x)[1..] == s[1..] + x;
      assert s == [s[0]] + s[1..];
    }
  }

  lemma {:induction false} ReverseReverse(s: seq<Turn>)
    ensures Reverse(Reverse(s)) == s
  {
    if s != [] {
      ReverseAppend(Reverse(s[1..]), [s[0]]);
      ReverseReverse(s[1..]);
      assert Reverse([s[0]]) == [s[0]];
      assert s == [s[0]] + s[1..];
    }
  }

  lemma {:induction false} ConcatRoots(a: seq<Tree>, b: seq<Tree>)
    ensures Roots(a + b) == Roots(a) + Roots(b)
  {
    if a == [] {
      assert a + b == b;
    } else {
      calc {
        Roots(a + b);
        { assert (a + b)[0] == a[0] && (a + b)[1..] == a[1..] + b; }
        [a[0].turn] + Roots(a[1..] + b);
        { ConcatRoots(a[1..], b); }
        [a[0].turn] + (Roots(a[1..]) + Roots(b));
        { Associate([a[0].turn], Roots(a[1..]), Roots(b)); }
        Roots(a) + Roots(b);
      }
    }
  }

  lemma {:induction false} ConcatSize(a: seq<Tree>, b: seq<Tree>)
    ensures Size(a + b) == Size(a) + Size(b)
  {
    if a == [] {
      assert a + b == b;
    } else {
      ConcatSize(a[1..], b);
      assert (a + b)[0] == a[0] && (a + b)[1..] == a[1..] + b;
    }
  }

  lemma {:induction false} ConcatComplete(turns: seq<Turn>, a: seq<Tree>, b: seq<Tree>)
    requires Complete(turns, a) && Complete(turns, b)
    ensures Complete(turns, a + b)
  {
    if a == [] {
      assert a + b == b;
    } else {
      ConcatComplete(turns, a[1..], b);
      assert (a + b)[1..] == a[1..] + b;
    }
  }

  lemma {:induction false} ConcatPreOrder(a: seq<Tree>, b: seq<Tree>)
    ensures PreOrder(a + b) == PreOrder(a) + PreOrder(b)
  {
    if a == [] {
      assert a + b == b;
    } else {
      var first := [a[0].turn] + PreOrder(a[0].kids);
      calc {
        PreOrder(a + b);
        { assert (a + b)[0] == a[0] && (a + b)[1..] == a[1..] + b; }
        first + PreOrder(a[1..] + b);
        { ConcatPreOrder(a[1..], b); }
        first + (PreOrder(a[1..]) + PreOrder(b));
        { Associate(first, PreOrder(a[1..]), PreOrder(b)); }
        PreOrder(a) + PreOrder(b);
      }
    }
  }

  /** Popping a node and pushing its children advances the pre-order by that node. */
  lemma Popped(turns: seq<Turn>, rest: seq<Turn>, node: Turn, pending: seq<Tree>) returns (pending': seq<Tree>)
    requires Roots(pending) == Reverse(rest + [node]) && Complete(turns, pending)
    ensures Roots(pending') == Reverse(rest + Reverse(Kids(turns, Some(node.id)))) && Complete(turns, pending')
    ensures PreOrder(pending) == [node] + PreOrder(pending')
    ensures Size(pending') < Size(pending)
  {
    var kids := Kids(turns, Some(node.id));
    assert Reverse(rest + [node]) == [node] + Reverse(rest) by {
      ReverseAppend(rest, [node]);
      assert Reverse([node]) == [node];
    }
    var below, later := pending[0].kids, pending[1..];
    assert pending[0].turn == Roots(pending)[0] == node;
    assert Roots(later) == Roots(pending)[1..] == Reverse(rest);
    pending' := below + later;
    assert Roots(pending') == Reverse(rest + Reverse(kids)) by {
      ReverseAppend(rest, Reverse(kids));
      ReverseReverse(kids);
      ConcatRoots(below, later);
    }
    ConcatComplete(turns, below, later);
    ConcatSize(below, later);
    ConcatPreOrder(below, later);
    assert PreOrder(pending) == [node] + (PreOrder(below) + PreOrder(later));
  }

  lemma PopStep(turns: seq<Turn>, stack: seq<Turn>, ordered: seq<Turn>, pending: seq<Tree>) returns (pending': seq<Tree>)
    requires stack != [] && Roots(pending) == Reverse(stack) && Complete(turns, pending)
    ensures var node, rest := stack[|stack| - 1], stack[..|stack| - 1];
            && Roots(pending') == Reverse(rest + Reverse(Kids(turns, Some(node.id))))
            && (ordered + [node]) + PreOrder(pending') == ordered + PreOrder(pending)
    ensures Complete(turns, pending') && Size(pending') < Size(pending)
  {
    hide Kids, Complete, PreOrder, Roots, Reverse, Size;
    var node, rest := stack[|stack| - 1], stack[..|stack| - 1];
    assert stack == rest + [node];
    pending' := Popped(turns, rest, node, pending);
    Associate(ordered, [node], PreOrder(pending'));
  }

  /** `children.setdefault(parent, []).append(turn)` over all turns. */
  method GroupByParent(turns: seq<Turn>) returns (children: map<Option<Id>, seq<Turn>>)
    ensures forall p :: p in children <==> Under(turns, p) != []
    ensures forall p | p in children :: children[p] == Under(turns, p)
  {
    children := map[];
    for i := 0 to |turns|
      invariant forall p :: p in children <==> Under(turns[..i], p) != []
      invariant forall p | p in children :: children[p] == Under(turns[..i], p)
    {
      var parent := turns[i].lineage.parent;
      assert turns[..i + 1][..i] == turns[..i];
      var group := if parent in children then children[parent] else [];
      children := children[parent := group + [turns[i]]];
    }
    assert turns[..|turns|] == turns;
  }

  method SortGroups(turns: seq<Turn>, groups: map<Option<Id>, seq<Turn>>)
    returns (children: map<Option<Id>, seq<Turn>>)
    requires forall p :: p in groups <==> Under(turns, p) != []
    requires forall p | p in groups :: groups[p] == Under(turns, p)
    ensures forall p :: ChildrenOf(children, p) == Kids(turns, p)
  {
    children := groups;
    var todo := groups.Keys;
    while todo != {}
      invariant todo <= groups.Keys && children.Keys == groups.Keys
      invariant forall p | p in todo :: children[p] == Under(turns, p)
      invariant forall p | p in groups.Keys - todo :: children[p] == Kids(turns, p)
      decreases todo
    {
      var p :| p in todo;
      children := children[p := StableSort.Sort(children[p], SiblingKey, StableSort.IntLess)];
      todo := todo - {p};
    }
  }

  /** `children.get(parent, [])` */
  function ChildrenOf(children: map<Option<Id>, seq<Turn>>, p: Option<Id>): seq<Turn>
  {
    if p in children then children[p] else []
  }

  /** The stack loop, from the roots on. */
  method Drain(turns: seq<Turn>, children: map<Option<Id>, seq<Turn>>, ghost forest: seq<Tree>)
    returns (ordered: seq<Turn>)
    requires forall p :: ChildrenOf(children, p) == Kids(turns, p)
    requires IsForest(turns, None, forest)
    ensures ordered == PreOrder(forest)
  {
    ordered := [];
    var stack := Reverse(ChildrenOf(children, None));
    ghost var pending := forest;
    ReverseReverse(Kids(turns, None));
    while stack != []
      invariant Roots(pending) == Reverse(stack) && Complete(turns, pending)
      invariant ordered + PreOrder(pending) == PreOrder(forest)
      decreases Size(pending)
    {
      var node := stack[|stack| - 1];
      pending := PopStep(turns, stack, ordered, pending);
      stack := stack[..|stack| - 1] + Reverse(ChildrenOf(children, Some(node.id)));
      ordered := ordered + [node];
    }
    assert pending == [];
  }

  /** `_lineage_order`: pop a turn, output it, push its children in reverse.
      It stops for every list of turns with unique ids, cycles and dangling
      parents included; it refuses exactly the lists with an unreachable turn,
      and otherwise returns all turns in pre-order. */
  method LineageOrder(turns: seq<Turn>) returns (r: Option<seq<Turn>>)
    requires UniqueIds(turns)
    ensures r == if AllReachable(turns) then Some(InOrder(turns)) else None
    ensures r.Some? ==> multiset(r.value) == multiset(turns)
  {
    var groups := GroupByParent(turns);
    var children := SortGroups(turns, groups);
    ghost var forest := ForestVerdict(turns);
    var ordered := Drain(turns, children, forest);
    if |ordered| != |turns| {
      return None;
    }
    ForestIsTheOne(turns, forest);
    return Some(ordered);
  }
}
