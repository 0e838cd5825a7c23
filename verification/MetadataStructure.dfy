/** The structural summary of a metadata tree: a walk under a budget of nodes and depth that says
    whether it saw everything. */
module MetadataStructure {
  import opened Values

  const MAX_NODES := 128
  const MAX_DEPTH := 6
  const MAX_ENTRIES := 10000

  /** A decoded JSON value.  Names and scalar values do not matter here. */
  datatype Json =
    | Null | Boolean | Text
    | Number(finite: bool)
    | Object(members: seq<Json>)
    | Array(elements: seq<Json>)
    | Other

  datatype Kind =
    ObjectKind | ArrayKind | TextKind | BooleanKind | NumberKind | NullKind | InvalidKind

  datatype Shape = Unavailable | Absent | NullShape | Valid | Invalid

  datatype Summary = Summary(
    shape: Shape, entries: Option<nat>, inspectedNodes: nat, maximumDepth: nat, truncated: bool,
    kinds: multiset<Kind>)

  /** What is inspected: no object at all, an object without the field, or the field's value. */
  datatype Parent = NoObject | WithoutField | WithField(root: Json)

  function KindOf(value: Json): Kind {
    match value
    case Null => NullKind
    case Boolean => BooleanKind
    case Text => TextKind
    case Number(finite) => if finite then NumberKind else InvalidKind
    case Object(_) => ObjectKind
    case Array(_) => ArrayKind
    case Other => InvalidKind
  }

  function Children(value: Json): seq<Json> {
    match value
    case Object(members) => members
    case Array(elements) => elements
    case _ => []
  }

  function Entries(value: Json): Option<nat> {
    if value.Object? || value.Array? then
      Some(if |Children(value)| < MAX_ENTRIES then |Children(value)| else MAX_ENTRIES)
    else None
  }

  // ---------------------------------------------------------------- a full recursive walk

  function Nodes(value: Json): nat {
    match value
    case Object(members) => 1 + NodesOf(members)
    case Array(elements) => 1 + NodesOf(elements)
    case _ => 1
  }

  function NodesOf(values: seq<Json>): nat {
    if values == [] then 0 else NodesOf(values[..|values| - 1]) + Nodes(values[|values| - 1])
  }

  function Kinds(value: Json): multiset<Kind> {
    match value
    case Object(members) => multiset{ObjectKind} + KindsOf(members)
    case Array(elements) => multiset{ArrayKind} + KindsOf(elements)
    case _ => multiset{KindOf(value)}
  }

  function KindsOf(values: seq<Json>): multiset<Kind> {
    if values == [] then multiset{}
    else KindsOf(values[..|values| - 1]) + Kinds(values[|values| - 1])
  }

  function Max(a: nat, b: nat): nat {
    if a < b then b else a
  }

  /** The number of steps to the deepest node. */
  function Depth(value: Json): nat {
    match value
    case Object(members) => DepthOf(members)
    case Array(elements) => DepthOf(elements)
    case _ => 0
  }

  function DepthOf(values: seq<Json>): nat {
    if values == [] then 0
    else Max(DepthOf(values[..|values| - 1]), 1 + Depth(values[|values| - 1]))
  }

  // ---------------------------------------------------------------- what is still pending

  datatype Entry = Entry(value: Json, depth: nat)

  function PendingNodes(pending: seq<Entry>): nat {
    if pending == [] then 0
    else PendingNodes(pending[..|pending| - 1]) + Nodes(pending[|pending| - 1].value)
  }

  function PendingKinds(pending: seq<Entry>): multiset<Kind> {
    if pending == [] then multiset{}
    else PendingKinds(pending[..|pending| - 1]) + Kinds(pending[|pending| - 1].value)
  }

  /** The greatest depth below any pending entry. */
  function PendingDepth(pending: seq<Entry>): nat {
    if pending == [] then 0
    else
      var last := pending[|pending| - 1];
      Max(PendingDepth(pending[..|pending| - 1]), last.depth + Depth(last.value))
  }

  function Level(values: seq<Json>, depth: nat): (entries: seq<Entry>)
    ensures |entries| == |values|
    ensures forall k :: 0 <= k < |values| ==> entries[k] == Entry(values[k], depth)
  {
    seq(|values|, k requires 0 <= k < |values| => Entry(values[k], depth))
  }

  lemma {:induction false} LevelAppends(rest: seq<Entry>, values: seq<Json>, depth: nat)
    requires values != []
    ensures var front, last := values[..|values| - 1], values[|values| - 1];
            rest + Level(values, depth) == rest + Level(front, depth) + [Entry(last, depth)]
  {
  }

  lemma {:induction false} PushesNodes(rest: seq<Entry>, values: seq<Json>, depth: nat)
    ensures PendingNodes(rest + Level(values, depth + 1)) == PendingNodes(rest) + NodesOf(values)
    decreases |values|
  {
    hide Nodes, PendingNodes, PendingKinds, PendingDepth;
    if values == [] {
      assert rest + Level(values, depth + 1) == rest;
    } else {
      var front, last := values[..|values| - 1], values[|values| - 1];
      PushesNodes(rest, front, depth);
      LevelAppends(rest, values, depth + 1);
      PushesOne(rest + Level(front, depth + 1), Entry(last, depth + 1));
    }
  }

  lemma {:induction false} PushesKinds(rest: seq<Entry>, values: seq<Json>, depth: nat)
    ensures PendingKinds(rest + Level(values, depth + 1)) == PendingKinds(rest) + KindsOf(values)
    decreases |values|
  {
    hide Kinds, PendingNodes, PendingKinds, PendingDepth;
    if values == [] {
      assert rest + Level(values, depth + 1) == rest;
    } else {
      var front, last := values[..|values| - 1], values[|values| - 1];
      PushesKinds(rest, front, depth);
      LevelAppends(rest, values, depth + 1);
      PushesOne(rest + Level(front, depth + 1), Entry(last, depth + 1));
    }
  }

  lemma {:induction false} PushesDepth(rest: seq<Entry>, values: seq<Json>, depth: nat)
    ensures PendingDepth(rest + Level(values, depth + 1))
         == Max(PendingDepth(rest), if values == [] then 0 else depth + DepthOf(values))
    decreases |values|
  {
    hide Depth, PendingNodes, PendingKinds, PendingDepth;
    if values == [] {
      assert rest + Level(values, depth + 1) == rest;
    } else {
      var front, last := values[..|values| - 1], values[|values| - 1];
      PushesDepth(rest, front, depth);
      LevelAppends(rest, values, depth + 1);
      PushesOne(rest + Level(front, depth + 1), Entry(last, depth + 1));
    }
  }

  /** Pushing the children of a value pushes exactly their subtrees. */
  lemma {:induction false} PushesSubtrees(rest: seq<Entry>, values: seq<Json>, depth: nat)
    ensures PendingNodes(rest + Level(values, depth + 1)) == PendingNodes(rest) + NodesOf(values)
    ensures PendingKinds(rest + Level(values, depth + 1)) == PendingKinds(rest) + KindsOf(values)
    ensures PendingDepth(rest + Level(values, depth + 1))
         == Max(PendingDepth(rest), if values == [] then 0 else depth + DepthOf(values))
  {
    hide PendingNodes, PendingKinds, PendingDepth, NodesOf, KindsOf, DepthOf;
    PushesNodes(rest, values, depth);
    PushesKinds(rest, values, depth);
    PushesDepth(rest, values, depth);
  }

  lemma {:induction false} PushesOne(rest: seq<Entry>, e: Entry)
    ensures PendingNodes(rest + [e]) == PendingNodes(rest) + Nodes(e.value)
    ensures PendingKinds(rest + [e]) == PendingKinds(rest) + Kinds(e.value)
    ensures PendingDepth(rest + [e]) == Max(PendingDepth(rest), e.depth + Depth(e.value))
  {
    hide Nodes, Kinds, Depth;
    assert (rest + [e])[..|rest|] == rest;
  }

  lemma {:induction false} EachHasNode(pending: seq<Entry>)
    ensures PendingNodes(pending) >= |pending|
    decreases |pending|
  {
    if pending != [] {
      EachHasNode(pending[..|pending| - 1]);
    }
  }

  lemma {:induction false} ValuesHaveNodes(values: seq<Json>)
    ensures NodesOf(values) >= |values|
    decreases |values|
  {
    if values != [] {
      ValuesHaveNodes(values[..|values| - 1]);
    }
  }

  lemma {:induction false} NonemptyIsDeep(values: seq<Json>)
    ensures values != [] ==> DepthOf(values) >= 1
  {
  }

  // ---------------------------------------------------------------- the budgeted walk

  /** While nothing was cut off, what was inspected and what is pending are the whole tree; and a
      walk that cut something off had a reason to. */
  ghost predicate Accounts(root: Json, pending: seq<Entry>, nodes: nat, depth: nat,
                           truncated: bool, kinds: multiset<Kind>)
  {
    && nodes + |pending| <= MAX_NODES && depth <= MAX_DEPTH
    && (forall k :: 0 <= k < |pending| ==> pending[k].depth <= MAX_DEPTH)
    && (if truncated then Nodes(root) > MAX_NODES || Depth(root) > MAX_DEPTH
        else
          && nodes + PendingNodes(pending) == Nodes(root)
          && kinds + PendingKinds(pending) == Kinds(root)
          && Max(depth, PendingDepth(pending)) == Depth(root))
  }

  /** A node is itself and its children. */
  lemma {:induction false} NodeAndChildren(value: Json)
    ensures Nodes(value) == 1 + NodesOf(Children(value))
    ensures Kinds(value) == multiset{KindOf(value)} + KindsOf(Children(value))
    ensures Depth(value) == DepthOf(Children(value))
  {
  }

  /** What holds of the entry on top of the stack while nothing was cut off. */
  lemma {:induction false} TopOfStack(root: Json, rest: seq<Entry>, e: Entry, nodes: nat,
                                      depth: nat, kinds: multiset<Kind>)
    requires Accounts(root, rest + [e], nodes, depth, false, kinds)
    ensures var children := Children(e.value);
            && nodes + PendingNodes(rest) + 1 + NodesOf(children) == Nodes(root)
            && kinds + PendingKinds(rest) + multiset{KindOf(e.value)} + KindsOf(children)
                 == Kinds(root)
            && Max(depth, Max(PendingDepth(rest), e.depth + DepthOf(children))) == Depth(root)
  {
    hide Nodes, Kinds, Depth, NodesOf, KindsOf, DepthOf, PendingNodes, PendingKinds, PendingDepth,
         KindOf, Children, Max;
    PushesOne(rest, e);
    NodeAndChildren(e.value);
    Groups(kinds, PendingKinds(rest), multiset{KindOf(e.value)}, KindsOf(Children(e.value)));
  }

  lemma {:induction false} Groups<T>(a: multiset<T>, b: multiset<T>, c: multiset<T>,
                                     d: multiset<T>)
    ensures a + (b + (c + d)) == a + b + c + d
  {
  }

  /** All children of the inspected node are pushed. */
  lemma {:induction false} Expands(root: Json, rest: seq<Entry>, e: Entry, nodes: nat, depth: nat,
                                   truncated: bool, kinds: multiset<Kind>)
    requires Accounts(root, rest + [e], nodes, depth, truncated, kinds) && e.depth <= MAX_DEPTH
    requires var children := Children(e.value);
             && nodes + 1 + |rest| + |children| <= MAX_NODES
             && (e.depth < MAX_DEPTH || children == [])
    ensures Accounts(root, rest + Level(Children(e.value), e.depth + 1), nodes + 1,
                     Max(depth, e.depth), truncated, kinds + multiset{KindOf(e.value)})
  {
    hide Nodes, Kinds, Depth, NodesOf, KindsOf, DepthOf, PendingNodes, PendingKinds, PendingDepth;
    PushesSubtrees(rest, Children(e.value), e.depth);
    assert forall k :: 0 <= k < |rest| ==> (rest + [e])[k] == rest[k];
    if !truncated {
      TopOfStack(root, rest, e, nodes, depth, kinds);
      NoDepth();
      Regroups(kinds, multiset{KindOf(e.value)}, PendingKinds(rest), KindsOf(Children(e.value)));
    }
  }

  lemma {:induction false} Regroups<T>(a: multiset<T>, b: multiset<T>, c: multiset<T>,
                                       d: multiset<T>)
    ensures a + b + (c + d) == a + c + b + d
  {
  }

  lemma {:induction false} NoDepth()
    ensures DepthOf([]) == 0
  {
  }

  /** Some children do not fit: then the tree does not fit. */
  lemma {:induction false} CutsOff(root: Json, rest: seq<Entry>, e: Entry, nodes: nat, depth: nat,
                                   truncated: bool, kinds: multiset<Kind>, taken: nat)
    requires Accounts(root, rest + [e], nodes, depth, truncated, kinds) && e.depth <= MAX_DEPTH
    requires var children := Children(e.value);
             && taken <= |children| && nodes + 1 + |rest| + taken <= MAX_NODES
             && (if e.depth == MAX_DEPTH then children != [] && taken == 0
                 else nodes + 1 + |rest| + |children| > MAX_NODES)
    ensures Accounts(root, rest + Level(Children(e.value)[..taken], e.depth + 1), nodes + 1,
                     Max(depth, e.depth), true, kinds + multiset{KindOf(e.value)})
  {
    hide Nodes, Kinds, Depth, NodesOf, KindsOf, DepthOf, PendingNodes, PendingKinds, PendingDepth;
    assert forall k :: 0 <= k < |rest| ==> (rest + [e])[k] == rest[k];
    if !truncated {
      TopOfStack(root, rest, e, nodes, depth, kinds);
      EachHasNode(rest);
      ValuesHaveNodes(Children(e.value));
      NonemptyIsDeep(Children(e.value));
    }
  }

  /** The summary is never larger than the budget; it says it was truncated exactly when the tree
      has more nodes or is deeper than the budget; and otherwise it is what a full recursive walk
      finds. */
  ghost predicate Exact(root: Json, s: Summary) {
    && s.inspectedNodes <= MAX_NODES && s.maximumDepth <= MAX_DEPTH
    && (s.truncated <==> Nodes(root) > MAX_NODES || Depth(root) > MAX_DEPTH)
    && (!s.truncated ==>
          && s.inspectedNodes == Nodes(root) && s.maximumDepth == Depth(root)
          && s.kinds == Kinds(root))
  }

  method Structure(parent: Parent) returns (s: Summary)
    ensures parent.NoObject? ==> s == Summary(Unavailable, None, 0, 0, false, multiset{})
    ensures parent.WithoutField? ==> s == Summary(Absent, None, 0, 0, false, multiset{})
    ensures parent.WithField? ==>
      && s.shape == (if parent.root.Null? then NullShape
                     else if parent.root.Object? then Valid else Invalid)
      && s.entries == Entries(parent.root)
      && Exact(parent.root, s)
  {
    if parent.NoObject? {
      return Summary(Unavailable, None, 0, 0, false, multiset{});
    }
    if parent.WithoutField? {
      return Summary(Absent, None, 0, 0, false, multiset{});
    }
    var root := parent.root;
    var shape := if root.Null? then NullShape else if root.Object? then Valid else Invalid;
    var nodes, depth, truncated, kinds := Walk(root);
    s := Summary(shape, Entries(root), nodes, depth, truncated, kinds);
  }

  method Walk(root: Json)
    returns (nodes: nat, maximumDepth: nat, truncated: bool, kinds: multiset<Kind>)
    ensures Exact(root, Summary(Valid, None, nodes, maximumDepth, truncated, kinds))
  {
    hide Nodes, Kinds, Depth, Accounts;
    nodes, maximumDepth, truncated, kinds := 0, 0, false, multiset{};
    var pending := [Entry(root, 0)];
    AccountsAtFirst(root);
    while pending != [] && nodes < MAX_NODES
      invariant nodes <= MAX_NODES && nodes + |pending| <= MAX_NODES
      invariant Accounts(root, pending, nodes, maximumDepth, truncated, kinds)
      decreases MAX_NODES - nodes
    {
      var top := pending[|pending| - 1];
      ghost var rest := pending[..|pending| - 1];
      assert pending == rest + [top];
      TopIsBounded(root, rest, top, nodes, maximumDepth, truncated, kinds);
      ghost var before := (nodes, maximumDepth, truncated, kinds);
      pending := pending[..|pending| - 1];
      nodes := nodes + 1;
      maximumDepth := Max(maximumDepth, top.depth);
      kinds := kinds + multiset{KindOf(top.value)};
      var children := Children(top.value);
      var remaining := MAX_NODES - nodes - |pending|;
      var taken := 0;
      if top.depth == MAX_DEPTH {
        truncated := truncated || children != [];
      } else {
        taken := if |children| <= remaining then |children| else remaining;
        truncated := truncated || |children| > remaining;
        for i := 0 to taken
          invariant pending == rest + Level(children[..i], top.depth + 1)
        {
          pending := pending + [Entry(children[i], top.depth + 1)];
          assert children[..i + 1] == children[..i] + [children[i]];
        }
      }
      assert pending == rest + Level(children[..taken], top.depth + 1);
      if taken == |children| {
        assert children[..taken] == children;
        Expands(root, rest, top, before.0, before.1, before.2, before.3);
      } else {
        CutsOff(root, rest, top, before.0, before.1, before.2, before.3, taken);
      }
    }
    Finishes(root, pending, nodes, maximumDepth, truncated, kinds);
    truncated := truncated || pending != [];
  }

  lemma {:induction false} AccountsAtFirst(root: Json)
    ensures Accounts(root, [Entry(root, 0)], 0, 0, false, multiset{})
  {
    hide Nodes, Kinds, Depth;
    PushesOne([], Entry(root, 0));
    assert [] + [Entry(root, 0)] == [Entry(root, 0)];
  }

  lemma {:induction false} TopIsBounded(root: Json, rest: seq<Entry>, e: Entry, nodes: nat,
                                        depth: nat, truncated: bool, kinds: multiset<Kind>)
    requires Accounts(root, rest + [e], nodes, depth, truncated, kinds)
    ensures e.depth <= MAX_DEPTH && nodes + |rest| + 1 <= MAX_NODES
  {
    assert (rest + [e])[|rest|] == e;
    assert |rest + [e]| == |rest| + 1;
  }

  /** When the walk ends, either nothing is pending or the budget of nodes is used up. */
  lemma {:induction false} Finishes(root: Json, pending: seq<Entry>, nodes: nat, depth: nat,
                                    truncated: bool, kinds: multiset<Kind>)
    requires Accounts(root, pending, nodes, depth, truncated, kinds)
    requires pending == [] || nodes >= MAX_NODES
    ensures Exact(root, Summary(Valid, None, nodes, depth, truncated || pending != [], kinds))
  {
    hide Nodes, Kinds, Depth;
    EachHasNode(pending);
  }
}
