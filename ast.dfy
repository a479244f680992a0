/** The part of the syntax tree the pass can observe. */
module Ast {
  import opened Wrappers

  /** A syntax-tree node. Every node that is not JSX is collapsed into `Other`;
      `children` are all the sub-nodes a generic walk descends into
      (attributes, expression containers, nested JSX, and so on). */
  datatype Node =
    | JSXElement(children: seq<Node>)
    | JSXFragment(children: seq<Node>)
    | Other(children: seq<Node>)

  /** The two kinds of JSX syntax the pass reports. */
  datatype JsxKind = Element | Fragment

  /** A named import specifier: the local binding and, if aliased, the name it is imported as. */
  datatype ImportSpecifier = Named(local: string, imported: Option<string>)

  /** A top-level item: an import declaration, or any other declaration or statement. */
  datatype ModuleItem =
    | Import(specifiers: seq<ImportSpecifier>, src: string)
    | Item(node: Node)

  /** A parsed program: a module with its item list, or a script with its statement list. */
  datatype Program =
    | Module(body: seq<ModuleItem>)
    | Script(stmts: seq<Node>)

  predicate IsKind(n: Node, k: JsxKind) {
    match k
    case Element => n.JSXElement?
    case Fragment => n.JSXFragment?
  }

  /** `n`, or some node below it, is JSX of kind `k`. */
  predicate Uses(n: Node, k: JsxKind)
    decreases n, 1
  {
    IsKind(n, k) || SomeChildUses(n, k)
  }

  /** Some node strictly below `n` is JSX of kind `k`. */
  predicate SomeChildUses(n: Node, k: JsxKind)
    decreases n, 0
  {
    exists i :: 0 <= i < |n.children| && Uses(n.children[i], k)
  }

  /** An import declaration holds no JSX; any other item holds what its node holds. */
  predicate ItemUses(item: ModuleItem, k: JsxKind) {
    match item
    case Import(_, _) => false
    case Item(n) => Uses(n, k)
  }

  predicate ItemsUse(items: seq<ModuleItem>, k: JsxKind) {
    exists i :: 0 <= i < |items| && ItemUses(items[i], k)
  }

  /** The node reached from `n` by following child indices along `path`, if they all exist. */
  function Subtree(n: Node, path: seq<nat>): Option<Node>
    decreases |path|
  {
    if path == [] then Some(n)
    else if path[0] < |n.children| then Subtree(n.children[path[0]], path[1..])
    else None
  }

  /** The node at `path` below `n` exists and is JSX of kind `k`. */
  predicate KindAt(n: Node, path: seq<nat>, k: JsxKind) {
    var s := Subtree(n, path);
    s.Some? && IsKind(s.value, k)
  }

  /** `Uses` means "at any depth": it holds exactly when some path leads to JSX of that kind. */
  lemma {:induction false} UsesIffSomePath(n: Node, k: JsxKind)
    ensures Uses(n, k) <==> exists path :: KindAt(n, path, k)
    decreases n
  {
    if Uses(n, k) {
      if IsKind(n, k) {
        assert KindAt(n, [], k);
      } else {
        assert SomeChildUses(n, k);
        var i :| 0 <= i < |n.children| && Uses(n.children[i], k);
        UsesIffSomePath(n.children[i], k);
        var p :| KindAt(n.children[i], p, k);
        var q: seq<nat> := [i] + p;
        assert q[0] == i && q[1..] == p;
        assert KindAt(n, q, k);
      }
    }
    if exists path :: KindAt(n, path, k) {
      var p :| KindAt(n, p, k);
      if p != [] {
        var i := p[0];
        assert KindAt(n.children[i], p[1..], k);
        UsesIffSomePath(n.children[i], k);
        assert SomeChildUses(n, k);
      }
    }
  }
}
