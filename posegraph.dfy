/**
 * World poses of the pose graph (`Workspace.compute_world_poses` in
 * workspace/workspace/workspace.py).
 *
 * Solids live in an arena and are named by their index (the code uses
 * `id(solid)`). A transform is any value `T` combined by a `compose`
 * operation with an identity `eye`: the 4x4 matrices of the code, or a word of
 * local transforms (see `RootPathWorld`).
 */
module PoseGraph {
  import opened Wrappers
  import Naming

  /** A solid: its parent, its children, and its local transform in the parent's frame. */
  datatype Node<T> = Node(parent: Option<nat>, children: seq<nat>, local: T)

  /**
   * What a component's `update_pose` does to the graph: the local transforms
   * it assigns, in order, and whether it then raises.
   */
  datatype Refresh<T> = Refresh(writes: seq<(nat, T)>, raises: bool)

  /** A component: its name, its assembly (solid name -> solid) and its optional `update_pose`. */
  datatype Component<T> = Component(name: string, assembly: seq<(string, nat)>, hook: Option<Refresh<T>>)

  /** The parent and children links agree, children lists have no repeats (the forest invariant). */
  ghost predicate Linked<T>(nodes: seq<Node<T>>) {
    && (forall v, j :: 0 <= v < |nodes| && 0 <= j < |nodes[v].children| ==>
          nodes[v].children[j] < |nodes| && nodes[nodes[v].children[j]].parent == Some(v))
    && (forall v, a, b :: 0 <= v < |nodes| && 0 <= a < b < |nodes[v].children| ==>
          nodes[v].children[a] != nodes[v].children[b])
    && (forall c :: 0 <= c < |nodes| && nodes[c].parent.Some? ==>
          nodes[c].parent.value < |nodes| && c in nodes[nodes[c].parent.value].children)
  }

  /** Every solid of every assembly, and every solid a hook writes, is a node of the arena. */
  ghost predicate IdsValid<T>(nodes: seq<Node<T>>, comps: seq<Component<T>>) {
    && (forall i, j :: 0 <= i < |comps| && 0 <= j < |comps[i].assembly| ==> comps[i].assembly[j].1 < |nodes|)
    && (forall i, w :: 0 <= i < |comps| && comps[i].hook.Some? && 0 <= w < |comps[i].hook.value.writes| ==>
          comps[i].hook.value.writes[w].0 < |nodes|)
  }

  // ---------------------------------------------------------------------------
  // Step 1: every component's update_pose, in order
  // ---------------------------------------------------------------------------

  function SetLocals<T>(nodes: seq<Node<T>>, writes: seq<(nat, T)>): (r: seq<Node<T>>)
    requires forall w :: 0 <= w < |writes| ==> writes[w].0 < |nodes|
    ensures |r| == |nodes|
    ensures forall v :: 0 <= v < |nodes| ==> r[v].parent == nodes[v].parent && r[v].children == nodes[v].children
  {
    if writes == [] then nodes
    else
      var ns := SetLocals(nodes, writes[..|writes| - 1]);
      var (v, t) := writes[|writes| - 1];
      ns[v := ns[v].(local := t)]
  }

  /** The graph after the hooks of `comps` ran in order, and whether none of them raised. */
  function RefreshAll<T>(nodes: seq<Node<T>>, comps: seq<Component<T>>): (r: (seq<Node<T>>, bool))
    requires IdsValid(nodes, comps)
    ensures |r.0| == |nodes|
    ensures forall v :: 0 <= v < |nodes| ==> r.0[v].parent == nodes[v].parent && r.0[v].children == nodes[v].children
  {
    if comps == [] then (nodes, true)
    else
      var rest := RefreshAll(nodes, comps[..|comps| - 1]);
      var last := comps[|comps| - 1];
      if !rest.1 || last.hook.None? then rest
      else (SetLocals(rest.0, last.hook.value.writes), !last.hook.value.raises)
  }

  /** Refreshing only moves solids: the forest structure is untouched. */
  lemma RefreshKeepsLinks<T>(nodes: seq<Node<T>>, comps: seq<Component<T>>)
    requires IdsValid(nodes, comps) && Linked(nodes)
    ensures Linked(RefreshAll(nodes, comps).0)
  {
  }

  /** A solid that no hook writes keeps its local transform. */
  lemma {:induction false} RefreshLeavesOthers<T>(nodes: seq<Node<T>>, comps: seq<Component<T>>, v: nat)
    requires IdsValid(nodes, comps) && v < |nodes|
    requires forall i, w :: 0 <= i < |comps| && comps[i].hook.Some? && 0 <= w < |comps[i].hook.value.writes| ==>
               comps[i].hook.value.writes[w].0 != v
    ensures RefreshAll(nodes, comps).0[v] == nodes[v]
  {
    if comps != [] {
      var init := comps[..|comps| - 1];
      RefreshLeavesOthers(nodes, init, v);
      var last := comps[|comps| - 1];
      if RefreshAll(nodes, init).1 && last.hook.Some? {
        SetLocalsLeavesOthers(RefreshAll(nodes, init).0, last.hook.value.writes, v);
      }
    }
  }

  lemma {:induction false} SetLocalsLeavesOthers<T>(nodes: seq<Node<T>>, writes: seq<(nat, T)>, v: nat)
    requires forall w :: 0 <= w < |writes| ==> writes[w].0 < |nodes|
    requires v < |nodes| && forall w :: 0 <= w < |writes| ==> writes[w].0 != v
    ensures SetLocals(nodes, writes)[v] == nodes[v]
  {
    if writes != [] {
      SetLocalsLeavesOthers(nodes, writes[..|writes| - 1], v);
    }
  }

  /** Of several writes to one solid, the last one is what the solid holds. */
  lemma {:induction false} SetLocalsLastWins<T>(nodes: seq<Node<T>>, writes: seq<(nat, T)>, w: nat)
    requires forall k :: 0 <= k < |writes| ==> writes[k].0 < |nodes|
    requires w < |writes| && forall k :: w < k < |writes| ==> writes[k].0 != writes[w].0
    ensures SetLocals(nodes, writes)[writes[w].0].local == writes[w].1
  {
    var n := |writes| - 1;
    if w < n {
      assert forall k :: 0 <= k < n ==> writes[..n][k] == writes[k];
      SetLocalsLastWins(nodes, writes[..n], w);
    }
  }

  /**
   * A solid written by hook `i`, when the hooks before it did not raise,
   * holds that hook's last write to it unless a later hook writes it again
   * (a hook's writes stand even when it then raises).
   */
  lemma {:induction false} RefreshWrittenHolds<T>(nodes: seq<Node<T>>, comps: seq<Component<T>>, i: nat, w: nat)
    requires IdsValid(nodes, comps) && i < |comps| && RefreshAll(nodes, comps[..i]).1
    requires comps[i].hook.Some? && w < |comps[i].hook.value.writes|
    requires var ws := comps[i].hook.value.writes;
             forall k :: w < k < |ws| ==> ws[k].0 != ws[w].0
    requires forall j, k :: i < j < |comps| && comps[j].hook.Some? && 0 <= k < |comps[j].hook.value.writes| ==>
               comps[j].hook.value.writes[k].0 != comps[i].hook.value.writes[w].0
    ensures RefreshAll(nodes, comps).0[comps[i].hook.value.writes[w].0].local == comps[i].hook.value.writes[w].1
  {
    var ws := comps[i].hook.value.writes;
    var init := comps[..|comps| - 1];
    var rest := RefreshAll(nodes, init);
    var last := comps[|comps| - 1];
    if i == |comps| - 1 {
      assert init == comps[..i];
      SetLocalsLastWins(rest.0, ws, w);
    } else {
      assert init[..i] == comps[..i];
      RefreshWrittenHolds(nodes, init, i, w);
      if rest.1 && last.hook.Some? {
        SetLocalsLeavesOthers(rest.0, last.hook.value.writes, ws[w].0);
      }
    }
  }

  /** `for comp in components.values(): if hasattr(comp, "update_pose"): comp.update_pose()` */
  method RefreshComponents<T>(nodes: seq<Node<T>>, comps: seq<Component<T>>) returns (ns: seq<Node<T>>, ok: bool)
    requires IdsValid(nodes, comps)
    ensures (ns, ok) == RefreshAll(nodes, comps)
  {
    ns, ok := nodes, true;
    var i := 0;
    while i < |comps|
      invariant 0 <= i <= |comps|
      invariant IdsValid(nodes, comps[..i])
      invariant (ns, true) == RefreshAll(nodes, comps[..i])
    {
      assert comps[..i + 1][..i] == comps[..i];
      if comps[i].hook.Some? {
        var h := comps[i].hook.value;
        ns := SetLocals(ns, h.writes);
        if h.raises {
          assert (ns, false) == RefreshAll(nodes, comps[..i + 1]);
          RefreshStopsAtRaise(nodes, comps, i + 1);
          return ns, false;
        }
      }
      i := i + 1;
    }
    assert comps[..i] == comps;
  }

  /** Once a hook raised, the hooks after it never run. */
  lemma {:induction false} RefreshStopsAtRaise<T>(nodes: seq<Node<T>>, comps: seq<Component<T>>, n: nat)
    requires IdsValid(nodes, comps) && n <= |comps|
    requires !RefreshAll(nodes, comps[..n]).1
    ensures RefreshAll(nodes, comps) == RefreshAll(nodes, comps[..n])
  {
    if n < |comps| {
      var init := comps[..|comps| - 1];
      assert init[..n] == comps[..n];
      RefreshStopsAtRaise(nodes, init, n);
    } else {
      assert comps[..n] == comps;
    }
  }

  // ---------------------------------------------------------------------------
  // Step 2: the roots
  // ---------------------------------------------------------------------------

  /** The solid is listed in some assembly. */
  ghost predicate Listed<T>(comps: seq<Component<T>>, v: nat) {
    exists i, j :: 0 <= i < |comps| && 0 <= j < |comps[i].assembly| && comps[i].assembly[j].1 == v
  }

  /** The roots loop: every parentless listed solid, once, in first-seen order. */
  method FindRoots<T>(nodes: seq<Node<T>>, comps: seq<Component<T>>) returns (roots: seq<nat>)
    requires IdsValid(nodes, comps)
    ensures forall a, b :: 0 <= a < b < |roots| ==> roots[a] != roots[b]
    ensures forall k :: 0 <= k < |roots| ==> roots[k] < |nodes| && nodes[roots[k]].parent.None? && Listed(comps, roots[k])
    ensures forall i, j :: 0 <= i < |comps| && 0 <= j < |comps[i].assembly| && nodes[comps[i].assembly[j].1].parent.None?
              ==> comps[i].assembly[j].1 in roots
  {
    roots := [];
    var seen: set<nat> := {};
    var i := 0;
    while i < |comps|
      invariant 0 <= i <= |comps|
      invariant forall v :: v in seen <==> v in roots
      invariant forall a, b :: 0 <= a < b < |roots| ==> roots[a] != roots[b]
      invariant forall k :: 0 <= k < |roots| ==> roots[k] < |nodes| && nodes[roots[k]].parent.None? && Listed(comps, roots[k])
      invariant forall i', j :: 0 <= i' < i && 0 <= j < |comps[i'].assembly| && nodes[comps[i'].assembly[j].1].parent.None?
                  ==> comps[i'].assembly[j].1 in seen
    {
      var assembly := comps[i].assembly;
      var j := 0;
      while j < |assembly|
        invariant 0 <= j <= |assembly|
        invariant forall v :: v in seen <==> v in roots
        invariant forall a, b :: 0 <= a < b < |roots| ==> roots[a] != roots[b]
        invariant forall k :: 0 <= k < |roots| ==> roots[k] < |nodes| && nodes[roots[k]].parent.None? && Listed(comps, roots[k])
        invariant forall i', j' :: 0 <= i' < i && 0 <= j' < |comps[i'].assembly| && nodes[comps[i'].assembly[j'].1].parent.None?
                    ==> comps[i'].assembly[j'].1 in seen
        invariant forall j' :: 0 <= j' < j && nodes[assembly[j'].1].parent.None? ==> assembly[j'].1 in seen
      {
        var solid := assembly[j].1;
        if nodes[solid].parent.None? && solid !in seen {
          seen := seen + {solid};
          roots := roots + [solid];
        }
        j := j + 1;
      }
      i := i + 1;
    }
  }

  // ---------------------------------------------------------------------------
  // Step 3: the depth-first traversal
  // ---------------------------------------------------------------------------

  /** The solids on the stack, bottom first. */
  function Ids<T>(stack: seq<(nat, T)>): (ids: seq<nat>)
    ensures |ids| == |stack| && forall k :: 0 <= k < |stack| ==> ids[k] == stack[k].0
  {
    seq(|stack|, k requires 0 <= k < |stack| => stack[k].0)
  }

  /** `order` lists the visited solids, each once, every solid after its parent. */
  ghost predicate OrderOk<T>(nodes: seq<Node<T>>, worldT: map<nat, T>, order: seq<nat>) {
    && (forall k :: 0 <= k < |order| ==> order[k] < |nodes|)
    && (forall a, b :: 0 <= a < b < |order| ==> order[a] != order[b])
    && (forall v :: v in worldT <==> v in order)
    && (forall k :: 0 <= k < |order| && nodes[order[k]].parent.Some? ==> nodes[order[k]].parent.value in order[..k])
  }

  /** Roots get `eye ∘ local`, other visited solids `parent_world ∘ local`. */
  ghost predicate Equations<T>(nodes: seq<Node<T>>, roots: seq<nat>, compose: (T, T) -> T, eye: T, worldT: map<nat, T>) {
    && (forall v :: v in worldT && v < |nodes| && nodes[v].parent.None? ==>
          v in roots && worldT[v] == compose(eye, nodes[v].local))
    && (forall v :: v in worldT && v < |nodes| && nodes[v].parent.Some? ==>
          nodes[v].parent.value in worldT && worldT[v] == compose(worldT[nodes[v].parent.value], nodes[v].local))
  }

  /** The solids visited so far, with their world transforms. */
  ghost predicate Visited<T>(nodes: seq<Node<T>>, roots: seq<nat>, compose: (T, T) -> T, eye: T,
                             worldT: map<nat, T>, order: seq<nat>)
  {
    OrderOk(nodes, worldT, order) && Equations(nodes, roots, compose, eye, worldT)
  }

  /** What the traversal leaves in `world_T`: the visited table, closed under children, covering the roots. */
  ghost predicate WorldTable<T>(nodes: seq<Node<T>>, roots: seq<nat>, compose: (T, T) -> T, eye: T,
                                worldT: map<nat, T>, order: seq<nat>)
  {
    && Visited(nodes, roots, compose, eye, worldT, order)
    && (forall k :: 0 <= k < |roots| ==> roots[k] in worldT)
    && (forall v, j :: v in worldT && v < |nodes| && 0 <= j < |nodes[v].children| ==> nodes[v].children[j] in worldT)
  }

  /** The stack holds distinct solids that are not visited yet. */
  ghost predicate StackOk<T>(nodes: seq<Node<T>>, stack: seq<(nat, T)>, worldT: map<nat, T>) {
    && (forall k :: 0 <= k < |stack| ==> stack[k].0 < |nodes| && stack[k].0 !in worldT)
    && (forall a, b :: 0 <= a < b < |stack| ==> stack[a].0 != stack[b].0)
  }

  /** Each stacked solid carries its parent's world transform, or `eye` for a root. */
  ghost predicate Carried<T>(nodes: seq<Node<T>>, roots: seq<nat>, eye: T, stack: seq<(nat, T)>, worldT: map<nat, T>) {
    && (forall k :: 0 <= k < |stack| && stack[k].0 < |nodes| && nodes[stack[k].0].parent.None? ==>
          stack[k].0 in roots && stack[k].1 == eye)
    && (forall k :: 0 <= k < |stack| && stack[k].0 < |nodes| && nodes[stack[k].0].parent.Some? ==>
          nodes[stack[k].0].parent.value in worldT && stack[k].1 == worldT[nodes[stack[k].0].parent.value])
  }

  /** Every root is visited or stacked; a child is visited or stacked exactly when its parent is visited. */
  ghost predicate Frontier<T>(nodes: seq<Node<T>>, roots: seq<nat>, stack: seq<(nat, T)>, worldT: map<nat, T>) {
    && (forall k :: 0 <= k < |roots| ==> roots[k] in worldT || roots[k] in Ids(stack))
    && (forall c :: 0 <= c < |nodes| && nodes[c].parent.Some? ==>
          ((c in worldT || c in Ids(stack)) <==> nodes[c].parent.value in worldT))
  }

  /**
   * The explicit-stack traversal of `compute_world_poses`. On a linked forest it
   * terminates (each pop visits a solid never visited before) and computes
   * the world table.
   */
  method Traverse<T>(nodes: seq<Node<T>>, roots: seq<nat>, compose: (T, T) -> T, eye: T)
    returns (worldT: map<nat, T>, ghost order: seq<nat>)
    requires Linked(nodes)
    requires forall k :: 0 <= k < |roots| ==> roots[k] < |nodes| && nodes[roots[k]].parent.None?
    requires forall a, b :: 0 <= a < b < |roots| ==> roots[a] != roots[b]
    ensures WorldTable(nodes, roots, compose, eye, worldT, order)
    ensures forall k :: 0 <= k < |roots| ==> roots[k] in worldT
    ensures Equations(nodes, roots, compose, eye, worldT)
  {
    worldT := map[];
    order := [];
    var stack := seq(|roots|, k requires 0 <= k < |roots| => (roots[k], eye));
    ghost var all := Below(|nodes|);
    StartStack(nodes, roots, compose, eye, stack);
    while stack != []
      invariant Visited(nodes, roots, compose, eye, worldT, order)
      invariant StackOk(nodes, stack, worldT)
      invariant Carried(nodes, roots, eye, stack, worldT)
      invariant Frontier(nodes, roots, stack, worldT)
      invariant worldT.Keys <= all
      decreases |all - worldT.Keys|
    {
      ghost var before := worldT.Keys;
      ghost var node: nat;
      stack, worldT, order, node := Visit(nodes, roots, compose, eye, stack, worldT, order);
      Progress(all, before, worldT.Keys, node);
    }
    Closed(nodes, roots, worldT);
  }

  /** With nothing left on the stack, every child of a visited solid is visited. */
  lemma Closed<T>(nodes: seq<Node<T>>, roots: seq<nat>, worldT: map<nat, T>)
    requires Linked(nodes) && Frontier(nodes, roots, [], worldT)
    ensures forall k :: 0 <= k < |roots| ==> roots[k] in worldT
    ensures forall v, j :: v in worldT && v < |nodes| && 0 <= j < |nodes[v].children| ==> nodes[v].children[j] in worldT
  {
    forall v, j | v in worldT && v < |nodes| && 0 <= j < |nodes[v].children| ensures nodes[v].children[j] in worldT {
      var c := nodes[v].children[j];
      assert nodes[c].parent == Some(v);
    }
  }

  lemma SplitLast<X>(s: seq<X>)
    requires s != []
    ensures s == s[..|s| - 1] + [s[|s| - 1]]
  {
  }

  /** Growing a slice by one element appends that element; the full slice is the whole. */
  lemma SnocSlice<X>(pre: seq<X>, row: seq<X>, j: nat)
    requires j <= |row|
    ensures pre + row[..0] == pre && pre + row[..|row|] == pre + row
    ensures 0 < j ==> pre + row[..j] == (pre + row[..j - 1]) + [row[j - 1]]
  {
    if 0 < j {
      assert row[..j] == row[..j - 1] + [row[j - 1]];
    }
    assert row[..|row|] == row;
  }

  /** The solid indices below `n`. */
  function Below(n: nat): (r: set<nat>)
    ensures forall v :: v in r <==> 0 <= v < n
  {
    if n == 0 then {} else Below(n - 1) + {n - 1}
  }

  /** The stack of roots the traversal starts from. */
  lemma StartStack<T>(nodes: seq<Node<T>>, roots: seq<nat>, compose: (T, T) -> T, eye: T, stack: seq<(nat, T)>)
    requires forall k :: 0 <= k < |roots| ==> roots[k] < |nodes| && nodes[roots[k]].parent.None?
    requires forall a, b :: 0 <= a < b < |roots| ==> roots[a] != roots[b]
    requires stack == seq(|roots|, k requires 0 <= k < |roots| => (roots[k], eye))
    ensures Visited(nodes, roots, compose, eye, map[], [])
    ensures StackOk(nodes, stack, map[])
    ensures Carried(nodes, roots, eye, stack, map[])
    ensures Frontier(nodes, roots, stack, map[])
  {
    forall k | 0 <= k < |roots| ensures roots[k] in Ids(stack) {
      assert Ids(stack)[k] == roots[k];
    }
    forall k | 0 <= k < |stack| ensures nodes[Ids(stack)[k]].parent.None? {
    }
  }

  /** One pop with its pushes keeps the whole loop invariant. */
  lemma PopKeeps<T>(nodes: seq<Node<T>>, roots: seq<nat>, compose: (T, T) -> T, eye: T,
                    rest: seq<(nat, T)>, node: nat, tParent: T, worldT: map<nat, T>, order: seq<nat>)
    requires Linked(nodes)
    requires Visited(nodes, roots, compose, eye, worldT, order)
    requires StackOk(nodes, rest + [(node, tParent)], worldT)
    requires Carried(nodes, roots, eye, rest + [(node, tParent)], worldT)
    requires Frontier(nodes, roots, rest + [(node, tParent)], worldT)
    ensures node < |nodes| && node !in worldT
    ensures var t := compose(tParent, nodes[node].local);
            var s := rest + Kids(nodes, node, t);
            var w := worldT[node := t];
            && Visited(nodes, roots, compose, eye, w, order + [node])
            && StackOk(nodes, s, w) && Carried(nodes, roots, eye, s, w) && Frontier(nodes, roots, s, w)
  {
    TopOf(nodes, roots, eye, rest, node, tParent, worldT);
    var t := compose(tParent, nodes[node].local);
    PopOrder(nodes, worldT, order, node, t);
    PopEquations(nodes, roots, compose, eye, worldT, node, tParent);
    PopCarried(nodes, roots, compose, eye, rest, node, tParent, worldT);
    PopStack(nodes, roots, rest, node, tParent, t, worldT);
    PopFrontier(nodes, roots, rest, node, tParent, t, worldT);
  }

  /**
   * One round of the traversal loop: pop the top solid, record its world
   * transform and push its children. The loop invariant is kept and exactly
   * one new solid is visited.
   */
  method Visit<T>(nodes: seq<Node<T>>, roots: seq<nat>, compose: (T, T) -> T, eye: T,
                  stack0: seq<(nat, T)>, worldT0: map<nat, T>, ghost order0: seq<nat>)
    returns (stack: seq<(nat, T)>, worldT: map<nat, T>, ghost order: seq<nat>, ghost node: nat)
    requires Linked(nodes) && stack0 != []
    requires Visited(nodes, roots, compose, eye, worldT0, order0)
    requires StackOk(nodes, stack0, worldT0) && Carried(nodes, roots, eye, stack0, worldT0)
    requires Frontier(nodes, roots, stack0, worldT0)
    ensures Visited(nodes, roots, compose, eye, worldT, order)
    ensures StackOk(nodes, stack, worldT) && Carried(nodes, roots, eye, stack, worldT)
    ensures Frontier(nodes, roots, stack, worldT)
    ensures node < |nodes| && node !in worldT0 && worldT.Keys == worldT0.Keys + {node}
  {
    var (id, tParent) := stack0[|stack0| - 1];
    node := id;
    SplitLast(stack0);
    var rest := stack0[..|stack0| - 1];
    PopKeeps(nodes, roots, compose, eye, rest, id, tParent, worldT0, order0);
    var tWorld := compose(tParent, nodes[id].local);
    worldT := worldT0[id := tWorld];
    order := order0 + [id];
    stack := PushChildren(nodes, id, rest, tWorld);
  }

  /** The push loop: every child of `node`, in order, with the world transform just computed. */
  method PushChildren<T>(nodes: seq<Node<T>>, node: nat, rest: seq<(nat, T)>, t: T) returns (stack: seq<(nat, T)>)
    requires node < |nodes|
    ensures stack == rest + Kids(nodes, node, t)
  {
    var children := nodes[node].children;
    ghost var kids := Kids(nodes, node, t);
    SnocSlice(rest, kids, 0);
    stack := rest;
    var j := 0;
    while j < |children|
      invariant 0 <= j <= |children|
      invariant stack == rest + kids[..j]
    {
      SnocSlice(rest, kids, j + 1);
      stack := stack + [(children[j], t)];
      j := j + 1;
    }
  }

  /** Visiting a new solid shrinks the set of unvisited ones. */
  lemma Progress(all: set<nat>, before: set<nat>, after: set<nat>, node: nat)
    requires node in all && node !in before && after == before + {node}
    ensures |all - after| < |all - before|
  {
    assert all - after == (all - before) - {node};
  }


  /** What the stack says about its top solid. */
  lemma TopOf<T>(nodes: seq<Node<T>>, roots: seq<nat>, eye: T, rest: seq<(nat, T)>, node: nat, tParent: T,
                 worldT: map<nat, T>)
    requires StackOk(nodes, rest + [(node, tParent)], worldT)
    requires Carried(nodes, roots, eye, rest + [(node, tParent)], worldT)
    ensures node < |nodes| && node !in worldT
    ensures nodes[node].parent.None? ==> node in roots && tParent == eye
    ensures nodes[node].parent.Some? ==>
              nodes[node].parent.value in worldT && tParent == worldT[nodes[node].parent.value]
  {
    assert (rest + [(node, tParent)])[|rest|] == (node, tParent);
  }

  /** Appending the popped solid keeps `order` a parents-first listing of the visited solids. */
  lemma PopOrder<T>(nodes: seq<Node<T>>, worldT: map<nat, T>, order: seq<nat>, node: nat, t: T)
    requires OrderOk(nodes, worldT, order)
    requires node < |nodes| && node !in worldT
    requires nodes[node].parent.Some? ==> nodes[node].parent.value in worldT
    ensures OrderOk(nodes, worldT[node := t], order + [node])
  {
    var w := worldT[node := t];
    var o := order + [node];
    forall a, b | 0 <= a < b < |o| ensures o[a] != o[b] {
      if b == |order| {
        assert o[a] == order[a];
      }
    }
    forall v ensures v in w <==> v in o {
      assert v in o <==> v in order || v == node;
    }
    forall k | 0 <= k < |o| && nodes[o[k]].parent.Some? ensures nodes[o[k]].parent.value in o[..k] {
      if k < |order| {
        assert o[..k] == order[..k];
      } else {
        var p := nodes[node].parent.value;
        var m :| 0 <= m < |order| && order[m] == p;
        assert o[..k][m] == p;
      }
    }
  }

  /** The popped solid's world transform is its carried transform composed with its local one. */
  lemma PopEquations<T>(nodes: seq<Node<T>>, roots: seq<nat>, compose: (T, T) -> T, eye: T,
                        worldT: map<nat, T>, node: nat, tParent: T)
    requires Equations(nodes, roots, compose, eye, worldT)
    requires node < |nodes| && node !in worldT
    requires nodes[node].parent.None? ==> node in roots && tParent == eye
    requires nodes[node].parent.Some? ==>
               nodes[node].parent.value in worldT && tParent == worldT[nodes[node].parent.value]
    ensures Equations(nodes, roots, compose, eye, worldT[node := compose(tParent, nodes[node].local)])
  {
    var w := worldT[node := compose(tParent, nodes[node].local)];
    forall v | v in w && v < |nodes| && nodes[v].parent.Some?
      ensures nodes[v].parent.value in w && w[v] == compose(w[nodes[v].parent.value], nodes[v].local)
    {
      if v != node {
        assert nodes[v].parent.value != node;
      }
    }
  }

  /** The remaining stacked solids still carry the right transforms, and so do the pushed children. */
  lemma PopCarried<T>(nodes: seq<Node<T>>, roots: seq<nat>, compose: (T, T) -> T, eye: T,
                      rest: seq<(nat, T)>, node: nat, tParent: T, worldT: map<nat, T>)
    requires Linked(nodes)
    requires StackOk(nodes, rest + [(node, tParent)], worldT)
    requires Carried(nodes, roots, eye, rest + [(node, tParent)], worldT)
    ensures node < |nodes|
    ensures Carried(nodes, roots, eye, rest + Kids(nodes, node, compose(tParent, nodes[node].local)),
                    worldT[node := compose(tParent, nodes[node].local)])
  {
    var stack := rest + [(node, tParent)];
    assert stack[|rest|] == (node, tParent);
    var t := compose(tParent, nodes[node].local);
    var s := rest + Kids(nodes, node, t);
    var w := worldT[node := t];
    forall k | 0 <= k < |s| && s[k].0 < |nodes|
      ensures nodes[s[k].0].parent.None? ==> s[k].0 in roots && s[k].1 == eye
      ensures nodes[s[k].0].parent.Some? ==>
                nodes[s[k].0].parent.value in w && s[k].1 == w[nodes[s[k].0].parent.value]
    {
      if k < |rest| {
        assert stack[k] == rest[k];
      } else {
        assert nodes[s[k].0].parent == Some(node);
      }
    }
  }

  /** The pushed children are new and distinct from what is still stacked. */
  lemma PopStack<T>(nodes: seq<Node<T>>, roots: seq<nat>, rest: seq<(nat, T)>, node: nat, tParent: T, t: T,
                    worldT: map<nat, T>)
    requires Linked(nodes)
    requires StackOk(nodes, rest + [(node, tParent)], worldT)
    requires Frontier(nodes, roots, rest + [(node, tParent)], worldT)
    ensures node < |nodes|
    ensures StackOk(nodes, rest + Kids(nodes, node, t), worldT[node := t])
  {
    var stack := rest + [(node, tParent)];
    assert stack[|rest|] == (node, tParent);
    var s := rest + Kids(nodes, node, t);
    forall k | |rest| <= k < |s| ensures s[k].0 !in worldT && s[k].0 !in Ids(rest) {
      var c := s[k].0;
      assert c == nodes[node].children[k - |rest|];
      assert nodes[c].parent == Some(node);
      assert (c in worldT || c in Ids(stack)) <==> node in worldT;
      assert forall m :: 0 <= m < |rest| ==> Ids(stack)[m] == Ids(rest)[m];
    }
    forall k | 0 <= k < |s| ensures s[k].0 < |nodes| && s[k].0 !in worldT[node := t] {
      if k < |rest| {
        assert stack[k] == rest[k];
      }
    }
    forall a, b | 0 <= a < b < |s| ensures s[a].0 != s[b].0 {
      if b < |rest| {
        assert stack[a] == rest[a] && stack[b] == rest[b];
      } else if a < |rest| {
        assert Ids(rest)[a] == s[a].0;
      }
    }
  }

  /** After the pushes, the frontier property holds for the new visited set. */
  lemma PopFrontier<T>(nodes: seq<Node<T>>, roots: seq<nat>, rest: seq<(nat, T)>, node: nat, tParent: T, t: T,
                       worldT: map<nat, T>)
    requires Linked(nodes)
    requires StackOk(nodes, rest + [(node, tParent)], worldT)
    requires Frontier(nodes, roots, rest + [(node, tParent)], worldT)
    ensures node < |nodes|
    ensures Frontier(nodes, roots, rest + Kids(nodes, node, t), worldT[node := t])
  {
    var stack := rest + [(node, tParent)];
    assert stack[|rest|] == (node, tParent);
    var s := rest + Kids(nodes, node, t);
    var w := worldT[node := t];
    assert forall c :: c in Ids(stack) ==> c == node || c in Ids(s) by {
      forall c | c in Ids(stack) ensures c == node || c in Ids(s) {
        var m :| 0 <= m < |stack| && Ids(stack)[m] == c;
        if m < |rest| {
          assert Ids(s)[m] == c;
        }
      }
    }
    forall c | 0 <= c < |nodes| && nodes[c].parent.Some?
      ensures (c in w || c in Ids(s)) <==> nodes[c].parent.value in w
    {
      var p := nodes[c].parent.value;
      if c in Ids(s) {
        var m :| 0 <= m < |s| && Ids(s)[m] == c;
        if m < |rest| {
          assert Ids(stack)[m] == c;
        } else {
          assert nodes[c].parent == Some(node);
        }
      }
      if p == node {
        var j :| 0 <= j < |nodes[node].children| && nodes[node].children[j] == c;
        assert Ids(s)[|rest| + j] == c;
      } else if c == node {
        assert Ids(stack)[|rest|] == node;
      }
    }
  }

  /** The children pushed after a pop, all carrying the popped solid's world transform. */
  function Kids<T>(nodes: seq<Node<T>>, node: nat, t: T): (kids: seq<(nat, T)>)
    requires node < |nodes|
    ensures |kids| == |nodes[node].children|
    ensures forall k :: 0 <= k < |kids| ==> kids[k] == (nodes[node].children[k], t)
  {
    seq(|nodes[node].children|, k requires 0 <= k < |nodes[node].children| => (nodes[node].children[k], t))
  }

  // ---------------------------------------------------------------------------
  // Step 4: the `comp_solid` -> world transform dictionary
  // ---------------------------------------------------------------------------

  /** `world_T.get(id(solid), solid.local["T"])` */
  function WorldOrLocal<T>(nodes: seq<Node<T>>, worldT: map<nat, T>, v: nat): T
    requires v < |nodes|
  {
    if v in worldT then worldT[v] else nodes[v].local
  }

  function PoseRow<T>(nodes: seq<Node<T>>, comp: Component<T>, worldT: map<nat, T>): (row: seq<(string, T)>)
    requires forall j :: 0 <= j < |comp.assembly| ==> comp.assembly[j].1 < |nodes|
    ensures |row| == |comp.assembly|
    ensures forall j :: 0 <= j < |row| ==>
              row[j] == (Naming.Key(comp.name, comp.assembly[j].0), WorldOrLocal(nodes, worldT, comp.assembly[j].1))
  {
    seq(|comp.assembly|, j requires 0 <= j < |comp.assembly| =>
      (Naming.Key(comp.name, comp.assembly[j].0), WorldOrLocal(nodes, worldT, comp.assembly[j].1)))
  }

  function PoseEntries<T>(nodes: seq<Node<T>>, comps: seq<Component<T>>, worldT: map<nat, T>): seq<(string, T)>
    requires IdsValid(nodes, comps)
  {
    if comps == [] then []
    else PoseEntries(nodes, comps[..|comps| - 1], worldT) + PoseRow(nodes, comps[|comps| - 1], worldT)
  }

  lemma PoseEntriesSnoc<T>(nodes: seq<Node<T>>, comps: seq<Component<T>>, worldT: map<nat, T>, i: nat)
    requires IdsValid(nodes, comps) && i < |comps|
    ensures IdsValid(nodes, comps[..i]) && IdsValid(nodes, comps[..i + 1])
    ensures PoseEntries(nodes, comps[..i + 1], worldT) == PoseEntries(nodes, comps[..i], worldT) + PoseRow(nodes, comps[i], worldT)
  {
    assert comps[..i + 1][..i] == comps[..i];
  }

  method BuildPoses<T>(nodes: seq<Node<T>>, comps: seq<Component<T>>, worldT: map<nat, T>)
    returns (poses: map<string, T>)
    requires IdsValid(nodes, comps)
    ensures poses == Naming.Collect(PoseEntries(nodes, comps, worldT))
  {
    poses := map[];
    var i := 0;
    while i < |comps|
      invariant 0 <= i <= |comps|
      invariant IdsValid(nodes, comps[..i])
      invariant poses == Naming.Collect(PoseEntries(nodes, comps[..i], worldT))
    {
      var comp := comps[i];
      ghost var before := PoseEntries(nodes, comps[..i], worldT);
      ghost var row := PoseRow(nodes, comp, worldT);
      var j := 0;
      SnocSlice(before, row, 0);
      while j < |comp.assembly|
        invariant 0 <= j <= |comp.assembly|
        invariant poses == Naming.Collect(before + row[..j])
      {
        var (solidName, solid) := comp.assembly[j];
        var key := Naming.Key(comp.name, solidName);
        var t := if solid in worldT then worldT[solid] else nodes[solid].local;
        assert row[j] == (key, t);
        Naming.CollectSnoc(before + row[..j], (key, t));
        SnocSlice(before, row, j + 1);
        poses := poses[key := t];
        j := j + 1;
      }
      PoseEntriesSnoc(nodes, comps, worldT, i);
      i := i + 1;
    }
    assert comps[..i] == comps;
  }

  /**
   * `compute_world_poses`: refresh, find the roots, traverse, and name every
   * solid's transform `comp_solid`; `poses` is None when an `update_pose` raised.
   * `refreshed` is the graph after the hooks, which the code updates in place.
   */
  method ComputeWorldPoses<T>(nodes: seq<Node<T>>, comps: seq<Component<T>>, compose: (T, T) -> T, eye: T)
    returns (refreshed: seq<Node<T>>, poses: Option<map<string, T>>, roots: seq<nat>,
             worldT: map<nat, T>, ghost order: seq<nat>)
    requires Linked(nodes) && IdsValid(nodes, comps)
    ensures refreshed == RefreshAll(nodes, comps).0
    ensures poses.None? <==> !RefreshAll(nodes, comps).1
    ensures poses.Some? ==>
      && (forall k :: 0 <= k < |roots| ==> roots[k] < |nodes| && nodes[roots[k]].parent.None?)
      && (forall i, j :: 0 <= i < |comps| && 0 <= j < |comps[i].assembly| && nodes[comps[i].assembly[j].1].parent.None?
            ==> comps[i].assembly[j].1 in roots)
      && WorldTable(refreshed, roots, compose, eye, worldT, order)
      && poses.value == Naming.Collect(PoseEntries(refreshed, comps, worldT))
  {
    var ok;
    refreshed, ok := RefreshComponents(nodes, comps);
    roots, worldT, order := [], map[], [];
    if !ok {
      return refreshed, None, roots, worldT, order;
    }
    RefreshKeepsLinks(nodes, comps);
    roots := FindRoots(refreshed, comps);
    worldT, order := Traverse(refreshed, roots, compose, eye);
    var named := BuildPoses(refreshed, comps, worldT);
    poses := Some(named);
  }

  // ---------------------------------------------------------------------------
  // Properties of the world table
  // ---------------------------------------------------------------------------

  /** Each listed solid of each component is named in the result. */
  lemma {:induction false} PoseEntriesCover<T>(nodes: seq<Node<T>>, comps: seq<Component<T>>, worldT: map<nat, T>, i: nat, j: nat)
    requires IdsValid(nodes, comps) && i < |comps| && j < |comps[i].assembly|
    ensures (Naming.Key(comps[i].name, comps[i].assembly[j].0), WorldOrLocal(nodes, worldT, comps[i].assembly[j].1))
            in PoseEntries(nodes, comps, worldT)
  {
    var init := comps[..|comps| - 1];
    if i < |init| {
      assert comps[i] == init[i];
      PoseEntriesCover(nodes, init, worldT, i, j);
    } else {
      assert PoseRow(nodes, comps[i], worldT)[j] in PoseRow(nodes, comps[|comps| - 1], worldT);
    }
  }

  /** The result has a key `comp_solid` for every solid of every component. */
  lemma PosesCoverAllSolids<T>(nodes: seq<Node<T>>, comps: seq<Component<T>>, worldT: map<nat, T>, i: nat, j: nat)
    requires IdsValid(nodes, comps) && i < |comps| && j < |comps[i].assembly|
    ensures Naming.Key(comps[i].name, comps[i].assembly[j].0) in Naming.Collect(PoseEntries(nodes, comps, worldT))
  {
    PoseEntriesCover(nodes, comps, worldT, i, j);
    var es := PoseEntries(nodes, comps, worldT);
    var n :| 0 <= n < |es| && es[n] == (Naming.Key(comps[i].name, comps[i].assembly[j].0),
                                        WorldOrLocal(nodes, worldT, comps[i].assembly[j].1));
  }

  /** A listed solid never reached from a root is published with its own local transform. */
  lemma OrphanKeepsLocal<T>(nodes: seq<Node<T>>, comps: seq<Component<T>>, worldT: map<nat, T>, i: nat, j: nat)
    requires IdsValid(nodes, comps) && i < |comps| && j < |comps[i].assembly|
    requires comps[i].assembly[j].1 !in worldT
    requires forall a, b, c, d ::
               (0 <= a < |comps| && 0 <= b < |comps[a].assembly| &&
                0 <= c < |comps| && 0 <= d < |comps[c].assembly| && (a, b) != (c, d)) ==>
               Naming.Key(comps[a].name, comps[a].assembly[b].0) != Naming.Key(comps[c].name, comps[c].assembly[d].0)
    ensures Naming.Key(comps[i].name, comps[i].assembly[j].0) in Naming.Collect(PoseEntries(nodes, comps, worldT))
    ensures Naming.Collect(PoseEntries(nodes, comps, worldT))[Naming.Key(comps[i].name, comps[i].assembly[j].0)]
            == nodes[comps[i].assembly[j].1].local
  {
    var key := Naming.Key(comps[i].name, comps[i].assembly[j].0);
    var es := PoseEntries(nodes, comps, worldT);
    PosesCoverAllSolids(nodes, comps, worldT, i, j);
    Naming.CollectValueFrom(es, key);
    var n :| 0 <= n < |es| && es[n] == (key, Naming.Collect(es)[key]);
    var a, b := PoseEntryFrom(nodes, comps, worldT, n);
    assert (a, b) == (i, j);
  }

  /** Every position of `PoseEntries` is the pair of one listed solid. */
  lemma {:induction false} PoseEntryFrom<T>(nodes: seq<Node<T>>, comps: seq<Component<T>>, worldT: map<nat, T>, n: nat)
    returns (i: nat, j: nat)
    requires IdsValid(nodes, comps) && n < |PoseEntries(nodes, comps, worldT)|
    ensures i < |comps| && j < |comps[i].assembly|
    ensures PoseEntries(nodes, comps, worldT)[n]
            == (Naming.Key(comps[i].name, comps[i].assembly[j].0), WorldOrLocal(nodes, worldT, comps[i].assembly[j].1))
  {
    var init := comps[..|comps| - 1];
    if n < |PoseEntries(nodes, init, worldT)| {
      i, j := PoseEntryFrom(nodes, init, worldT, n);
      assert comps[i] == init[i];
    } else {
      i, j := |comps| - 1, n - |PoseEntries(nodes, init, worldT)|;
    }
  }

  /** A root path: it starts at a parentless solid and each next solid is a child of the previous one. */
  ghost predicate RootPath<T>(nodes: seq<Node<T>>, path: seq<nat>) {
    && |path| > 0
    && (forall k :: 0 <= k < |path| ==> path[k] < |nodes|)
    && nodes[path[0]].parent.None?
    && (forall k :: 0 < k < |path| ==> nodes[path[k]].parent == Some(path[k - 1]))
  }

  /** The word obtained by composing the local transforms along a path (free monoid: concatenation). */
  function Locals(nodes: seq<Node<seq<int>>>, path: seq<nat>): seq<int>
    requires forall k :: 0 <= k < |path| ==> path[k] < |nodes|
  {
    if path == [] then [] else Locals(nodes, path[..|path| - 1]) + nodes[path[|path| - 1]].local
  }

  function Append(a: seq<int>, b: seq<int>): seq<int> {
    a + b
  }

  /**
   * With words of local transforms as the transform type, every visited
   * solid's world value is the composition of the locals along its path
   * from a root: the traversal computes `root.local ∘ ... ∘ parent.local ∘ local`.
   */
  lemma {:induction false} RootPathWorld(nodes: seq<Node<seq<int>>>, roots: seq<nat>,
                                         worldT: map<nat, seq<int>>, order: seq<nat>, k: nat)
    returns (path: seq<nat>)
    requires Visited(nodes, roots, Append, [], worldT, order)
    requires k < |order|
    ensures RootPath(nodes, path) && path[|path| - 1] == order[k]
    ensures worldT[order[k]] == Locals(nodes, path)
  {
    var v := order[k];
    assert v in worldT;
    if nodes[v].parent.None? {
      path := [v];
      assert path[..0] == [];
    } else {
      var p := nodes[v].parent.value;
      assert p in order[..k];
      var m :| 0 <= m < k && order[m] == p;
      var prefix := RootPathWorld(nodes, roots, worldT, order, m);
      path := prefix + [v];
      assert path[..|path| - 1] == prefix;
      assert path[0] == prefix[0];
      assert forall i :: 0 <= i < |prefix| ==> path[i] == prefix[i];
    }
  }
}
