/** `formatMenu`: the persistent-menu tree stripped of its storage metadata at
    every level, as the profile API expects it. */
module Menu {

  /** A stored menu node: identifiers and timestamps, the call-to-action
      properties (`title`, `type`, `url`, `payload`, ...) and its children. */
  datatype MenuNode = MenuNode(
    id: string,
    createdAt: string,
    updatedAt: string,
    attrs: map<string, string>,
    children: Children)

  /** `call_to_actions` of a stored node: absent, or a (possibly empty) list. */
  datatype Children = NoChildren | Children(nodes: seq<MenuNode>)

  /** A node as sent to the platform. */
  datatype MenuItem = MenuItem(attrs: map<string, string>, actions: Actions)

  /** `call_to_actions` of a platform node: `undefined`, or a list. */
  datatype Actions = Undefined | Actions(items: seq<MenuItem>)

  /** One node with its subtree: metadata dropped, properties kept, children
      projected in order; absent children become `undefined` and an empty
      child list stays an empty list. */
  function FormatNode(n: MenuNode): (r: MenuItem)
    ensures r.attrs == n.attrs
    ensures r.actions.Undefined? <==> n.children.NoChildren?
    ensures r.actions.Actions? ==> |r.actions.items| == |n.children.nodes|
    decreases n
  {
    match n.children
    case NoChildren => MenuItem(n.attrs, Undefined)
    case Children(cs) =>
      MenuItem(n.attrs, Actions(seq(|cs|, i requires 0 <= i < |cs| => FormatNode(cs[i]))))
  }

  /** `formatMenu`: every top-level node, in order. */
  function FormatMenu(tree: seq<MenuNode>): (r: seq<MenuItem>)
    ensures |r| == |tree|
    ensures forall i :: 0 <= i < |tree| ==> r[i] == FormatNode(tree[i])
  {
    seq(|tree|, i requires 0 <= i < |tree| => FormatNode(tree[i]))
  }

  /** Two stored nodes that differ only in identifiers and timestamps, at any
      depth. */
  predicate SameUpToMetadata(a: MenuNode, b: MenuNode)
    decreases a
  {
    && a.attrs == b.attrs
    && a.children.Children? == b.children.Children?
    && (a.children.Children? ==>
          && |a.children.nodes| == |b.children.nodes|
          && forall i :: 0 <= i < |a.children.nodes| ==>
               SameUpToMetadata(a.children.nodes[i], b.children.nodes[i]))
  }

  /** Stripping is complete: metadata leaves no trace at any depth. */
  lemma {:induction false} MetadataIsStripped(a: MenuNode, b: MenuNode)
    requires SameUpToMetadata(a, b)
    ensures FormatNode(a) == FormatNode(b)
    decreases a
  {
    if a.children.Children? {
      var ca, cb := a.children.nodes, b.children.nodes;
      forall i | 0 <= i < |ca|
        ensures FormatNode(ca[i]) == FormatNode(cb[i])
      {
        MetadataIsStripped(ca[i], cb[i]);
      }
      assert FormatNode(a).actions.items == FormatNode(b).actions.items;
    }
  }

  /** A stored node for a platform node, with blank metadata. */
  function Store(m: MenuItem): (r: MenuNode)
    ensures r.attrs == m.attrs
    decreases m
  {
    match m.actions
    case Undefined => MenuNode("", "", "", m.attrs, NoChildren)
    case Actions(cs) =>
      MenuNode("", "", "", m.attrs, Children(seq(|cs|, i requires 0 <= i < |cs| => Store(cs[i]))))
  }

  /** Every platform node is the projection of some stored node: the projection
      loses exactly the metadata and nothing else. */
  lemma {:induction false} FormatStore(m: MenuItem)
    ensures FormatNode(Store(m)) == m
    decreases m
  {
    if m.actions.Actions? {
      var cs := m.actions.items;
      forall i | 0 <= i < |cs|
        ensures FormatNode(Store(cs[i])) == cs[i]
      {
        FormatStore(cs[i]);
      }
      assert FormatNode(Store(m)).actions.items == cs;
    }
  }
}
