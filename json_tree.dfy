/** The recursive `JsonNode` viewer of web-ui/components/dashboard.tsx. Each
    mounted node holds its own `isExpanded` flag, starting as `depth < 2`;
    a container node renders its entries as child nodes at `depth + 1` only
    while expanded, so collapsing it unmounts them and their flags are lost.
    The mounted tree is a value; a click on a node is `Toggle` at its path. */
module JsonTree {
  import opened Common
  import opened JsonValue

  /** `value !== null && typeof value === 'object'`. */
  predicate IsContainer(v: Json) {
    v.Arr? || v.Obj?
  }

  /** `Object.entries(value)`: array elements under their decimal indices,
      object fields in order; nothing for a scalar. */
  function Entries(v: Json): (r: seq<(string, Json)>)
    ensures v.Arr? ==> |r| == |v.items| && forall i :: 0 <= i < |r| ==> r[i] == (NatToString(i), v.items[i])
    ensures v.Obj? ==> r == v.fields
    ensures !IsContainer(v) ==> r == []
  {
    match v
    case Arr(items) => seq(|items|, i requires 0 <= i < |items| => (NatToString(i), items[i]))
    case Obj(fields) => fields
    case _ => []
  }

  /** A mounted `JsonNode`: its props and its `isExpanded` state, with the
      child nodes it currently renders. */
  datatype Node = Node(key: string, value: Json, depth: nat, expanded: bool, children: seq<Node>)

  /** The child nodes a container renders when it is (re-)expanded: every
      entry, freshly mounted one level deeper. */
  function Children(v: Json, depth: nat): (r: seq<Node>)
    ensures |r| == |Entries(v)|
    decreases v, 0
  {
    match v
    case Arr(items) => seq(|items|, i requires 0 <= i < |items| => Mount(NatToString(i), items[i], depth))
    case Obj(fields) => seq(|fields|, i requires 0 <= i < |fields| => Mount(fields[i].0, fields[i].1, depth))
    case _ => []
  }

  /** Mounting `<JsonNode keyName value depth>`: expanded exactly when
      `depth < 2`, and then rendering its entries. */
  function Mount(key: string, value: Json, depth: nat): (n: Node)
    ensures n.key == key && n.value == value && n.depth == depth
    ensures n.expanded <==> depth < 2
    ensures n.children != [] ==> n.expanded && IsContainer(value)
    decreases value, 1
  {
    var expanded := depth < 2;
    Node(key, value, depth, expanded, if expanded then Children(value, depth + 1) else [])
  }

  /** The rendered tree agrees with the data: a node shows children exactly
      when it is an expanded container, one per entry, in order, with the
      entry's key and value, one level deeper. */
  ghost predicate WellFormed(n: Node)
    decreases n
  {
    var es := Entries(n.value);
    if n.expanded && IsContainer(n.value) then
      && |n.children| == |es|
      && forall i :: 0 <= i < |es| ==>
           && n.children[i].key == es[i].0 && n.children[i].value == es[i].1
           && n.children[i].depth == n.depth + 1
           && WellFormed(n.children[i])
    else n.children == []
  }

  lemma {:induction false} ChildrenWellFormed(v: Json, depth: nat)
    ensures forall i :: 0 <= i < |Entries(v)| ==>
      && Children(v, depth)[i].key == Entries(v)[i].0 && Children(v, depth)[i].value == Entries(v)[i].1
      && Children(v, depth)[i].depth == depth
      && WellFormed(Children(v, depth)[i])
    decreases v, 0
  {
    var es := Entries(v);
    forall i | 0 <= i < |es|
      ensures WellFormed(Children(v, depth)[i]) && Children(v, depth)[i] == Mount(es[i].0, es[i].1, depth)
    {
      match v {
        case Arr(items) =>
          MountWellFormed(NatToString(i), items[i], depth);
        case Obj(fields) =>
          MountWellFormed(fields[i].0, fields[i].1, depth);
      }
    }
  }

  /** A freshly mounted tree agrees with its data. */
  lemma {:induction false} MountWellFormed(key: string, value: Json, depth: nat)
    ensures WellFormed(Mount(key, value, depth))
    decreases value, 1
  {
    if depth < 2 {
      ChildrenWellFormed(value, depth + 1);
    }
  }

  /** Every node of a tree lies at most at depth `bound`. */
  ghost predicate DepthsAtMost(n: Node, bound: nat)
    decreases n
  {
    n.depth <= bound && forall i :: 0 <= i < |n.children| ==> DepthsAtMost(n.children[i], bound)
  }

  /** The default view of a tree mounted at the root shows at most three
      levels: nodes at depth 2 start collapsed. */
  lemma {:induction false} DefaultViewIsShallow(key: string, value: Json, depth: nat)
    requires depth <= 2
    ensures DepthsAtMost(Mount(key, value, depth), 2)
    decreases value
  {
    var n := Mount(key, value, depth);
    if depth < 2 {
      forall i | 0 <= i < |n.children| ensures DepthsAtMost(n.children[i], 2) {
        match value {
          case Arr(items) => DefaultViewIsShallow(NatToString(i), items[i], depth + 1);
          case Obj(fields) => DefaultViewIsShallow(fields[i].0, fields[i].1, depth + 1);
        }
      }
    }
  }

  /** The node reached by following child indices from the root. */
  ghost predicate ValidPath(n: Node, path: seq<nat>)
    decreases |path|
  {
    path == [] || (path[0] < |n.children| && ValidPath(n.children[path[0]], path[1..]))
  }

  ghost function At(n: Node, path: seq<nat>): Node
    requires ValidPath(n, path)
    decreases |path|
  {
    if path == [] then n else At(n.children[path[0]], path[1..])
  }

  /** A click on the header of the node at `path`: `setIsExpanded(!isExpanded)`.
      Collapsing unmounts the children; expanding mounts them afresh. A
      scalar node has no header to click. */
  function Toggle(n: Node, path: seq<nat>): (r: Node)
    ensures r.key == n.key && r.value == n.value && r.depth == n.depth
    ensures path != [] ==> r.expanded == n.expanded && |r.children| == |n.children|
    ensures path != [] && path[0] < |n.children| ==>
      forall j :: 0 <= j < |n.children| && j != path[0] ==> r.children[j] == n.children[j]
    decreases |path|
  {
    if path == [] then
      if !IsContainer(n.value) then n
      else if n.expanded then n.(expanded := false, children := [])
      else n.(expanded := true, children := Children(n.value, n.depth + 1))
    else if path[0] < |n.children| then
      n.(children := n.children[path[0] := Toggle(n.children[path[0]], path[1..])])
    else n
  }

  /** Toggling keeps the tree in agreement with its data. */
  lemma {:induction false} ToggleWellFormed(n: Node, path: seq<nat>)
    requires WellFormed(n)
    ensures WellFormed(Toggle(n, path))
    decreases |path|
  {
    if path == [] {
      if IsContainer(n.value) && !n.expanded {
        ChildrenWellFormed(n.value, n.depth + 1);
      }
    } else if path[0] < |n.children| {
      ToggleWellFormed(n.children[path[0]], path[1..]);
    }
  }

  /** A click flips the flag of the clicked container node and no other. */
  lemma {:induction false} ToggleFlips(n: Node, path: seq<nat>)
    requires ValidPath(n, path) && IsContainer(At(n, path).value)
    ensures ValidPath(Toggle(n, path), path)
    ensures At(Toggle(n, path), path).expanded == !At(n, path).expanded
    decreases |path|
  {
    if path != [] {
      ToggleFlips(n.children[path[0]], path[1..]);
    }
  }

  /** Expanding a collapsed node and collapsing it again restores the tree. */
  lemma {:induction false} DoubleToggleRestoresCollapsed(n: Node, path: seq<nat>)
    requires WellFormed(n) && ValidPath(n, path) && !At(n, path).expanded
    ensures Toggle(Toggle(n, path), path) == n
    decreases |path|
  {
    if path == [] {
      assert n.children == [];
    } else {
      var i := path[0];
      DoubleToggleRestoresCollapsed(n.children[i], path[1..]);
      assert n.children[i := Toggle(Toggle(n.children[i], path[1..]), path[1..])] == n.children;
    }
  }

  /** Collapsing an expanded node and expanding it again brings its flag back
      but remounts its children at their defaults: whatever was opened or
      closed below it is forgotten. */
  lemma CollapseForgetsBelow(n: Node)
    requires WellFormed(n) && n.expanded && IsContainer(n.value)
    ensures Toggle(Toggle(n, []), []).expanded
    ensures Toggle(Toggle(n, []), []) == n.(children := Children(n.value, n.depth + 1))
  {
  }

  /** An example of the loss: in `[[1]]` mounted at the root, collapse the
      inner array, then collapse and re-expand the root; the inner array is
      expanded again. */
  lemma CollapseForgetsExample()
    ensures var root := Mount("data", Arr([Arr([Num(1)])]), 0);
      && At(Toggle(root, [0]), [0]).expanded == false
      && Toggle(Toggle(Toggle(root, [0]), []), []) == root
  {
    var root := Mount("data", Arr([Arr([Num(1)])]), 0);
    assert NatToString(0) == "0";
    assert ValidPath(root, [0]) by { assert [0][1..] == []; }
    ToggleFlips(root, [0]);
    assert [0][1..] == [];
  }

  /** How the header's chevron looks: an empty container shows a spacer. */
  datatype Chevron = Spacer | Down | Right

  function ChevronOf(n: Node): (c: Chevron)
    requires IsContainer(n.value)
    ensures c == Spacer <==> |Entries(n.value)| == 0
  {
    if |Entries(n.value)| == 0 then Spacer else if n.expanded then Down else Right
  }

  /** A click on an empty container changes its chevron not at all. */
  lemma EmptyToggleInvisible(n: Node)
    requires IsContainer(n.value) && |Entries(n.value)| == 0
    ensures ChevronOf(Toggle(n, [])) == ChevronOf(n) == Spacer
    ensures Toggle(n, []).children == []
  {
    if !n.expanded {
      assert |Children(n.value, n.depth + 1)| == 0;
    }
  }

  /** The entry-count badge: `[n]` for an array, `{n}` for an object. */
  function Badge(v: Json): (b: string)
    requires IsContainer(v)
    ensures |b| >= 3
    ensures v.Arr? ==> b[0] == '[' && b[|b| - 1] == ']' && b[1..|b| - 1] == NatToString(|v.items|)
    ensures v.Obj? ==> b[0] == '{' && b[|b| - 1] == '}' && b[1..|b| - 1] == NatToString(|v.fields|)
  {
    var count := NatToString(|Entries(v)|);
    if v.Arr? then "[" + count + "]" else "{" + count + "}"
  }

  /** `getValueColor()` of a scalar node. */
  function ValueColor(v: Json): string {
    match v
    case Str(_) => "text-emerald-400"
    case Num(_) => "text-amber-400"
    case Bool(_) => "text-purple-400"
    case Null => "text-zinc-500"
    case _ => "text-zinc-300"
  }

  /** Every scalar gets one of the four type colours; the fallback colour is
      left to values that JSON does not produce. */
  lemma ScalarColors(v: Json)
    requires !IsContainer(v)
    ensures ValueColor(v) in {"text-emerald-400", "text-amber-400", "text-purple-400", "text-zinc-500"}
    ensures ValueColor(v) == "text-emerald-400" <==> v.Str?
    ensures ValueColor(v) == "text-zinc-500" <==> v.Null?
  {
  }

  /** `String(value)`: the text the copy button puts on the clipboard. */
  function CopyText(v: Json): string
    requires !IsContainer(v)
  {
    match v
    case Str(s) => s
    case Num(n) => IntToString(n)
    case Bool(b) => if b then "true" else "false"
    case Null => "null"
  }

  /** The shown value: strings in double quotes, anything else as `String(value)`. */
  function ValueText(v: Json): (t: string)
    requires !IsContainer(v)
    ensures v.Str? ==> t == "\"" + CopyText(v) + "\"" && |t| == |CopyText(v)| + 2
    ensures !v.Str? ==> t == CopyText(v)
  {
    if v.Str? then "\"" + v.s + "\"" else CopyText(v)
  }

  /** The viewer's root: `jsonData && Array.isArray(jsonData)` shows the tree
      under the key "data"; anything else shows "No data available". */
  function ViewerRoot(jsonData: Json): (r: Option<Node>)
    ensures r.Some? <==> jsonData.Arr?
    ensures r.Some? ==> r.value == Mount("data", jsonData, 0) && r.value.expanded
  {
    if jsonData.Arr? then Some(Mount("data", jsonData, 0)) else None
  }

  /** An empty array is truthy: an empty artifact shows the root "data [0]",
      not "No data available". */
  lemma EmptyArtifactShowsRoot()
    ensures ViewerRoot(Arr([])).Some?
    ensures Badge(Arr([])) == "[0]"
    ensures ChevronOf(ViewerRoot(Arr([])).value) == Spacer
  {
    assert NatToString(0) == "0";
  }
}
