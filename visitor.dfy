/** The stateful visitor and the plugin entry point. */
module Visitor {
  import opened Wrappers
  import opened Ast
  import opened Config
  import opened Pragma

  /** A growable list of module items, changed in place (the item vector the visitor receives). */
  class ModuleItemVec {
    var elems: seq<ModuleItem>

    constructor (elems: seq<ModuleItem>)
      ensures this.elems == elems
    {
      this.elems := elems;
    }

    /** Inserts `item` at `index`, shifting every later item one place up. */
    method Insert(index: nat, item: ModuleItem)
      requires index <= |elems|
      modifies this
      ensures elems == old(elems[..index]) + [item] + old(elems[index..])
    {
      elems := elems[..index] + [item] + elems[index..];
    }
  }

  /** The per-run state: two usage flags that only ever go from false to true,
      and the import source fixed when the visitor is built. */
  class TransformVisitor {
    var hasJsxElement: bool
    var hasJsxFragment: bool
    const importSource: string

    /** The default visitor: nothing seen yet, importing from the default source. */
    constructor Default()
      ensures !hasJsxElement && !hasJsxFragment
      ensures importSource == DefaultImportSource
    {
      hasJsxElement, hasJsxFragment := false, false;
      importSource := DefaultImportSource;
    }

    /** A visitor with nothing seen yet, importing from `importSource`. */
    constructor (importSource: string)
      ensures !hasJsxElement && !hasJsxFragment
      ensures this.importSource == importSource
    {
      hasJsxElement, hasJsxFragment := false, false;
      this.importSource := importSource;
    }

    /** Dispatch on the node kind; the fallback arm only descends. A walk only ever sets a
        flag, and afterwards each flag records whether its kind occurs anywhere in `node`. */
    method VisitNode(node: Node)
      modifies this
      decreases node, 2
      ensures old(hasJsxElement) ==> hasJsxElement
      ensures old(hasJsxFragment) ==> hasJsxFragment
      ensures hasJsxElement == (old(hasJsxElement) || Uses(node, Element))
      ensures hasJsxFragment == (old(hasJsxFragment) || Uses(node, Fragment))
    {
      match node
      case JSXElement(_) => VisitJsxElement(node);
      case JSXFragment(_) => VisitJsxFragment(node);
      case Other(_) => VisitChildren(node);
    }

    /** Records an element, then keeps descending so nested JSX is still seen. */
    method VisitJsxElement(node: Node)
      requires node.JSXElement?
      modifies this
      decreases node, 1
      ensures hasJsxElement
      ensures hasJsxFragment == (old(hasJsxFragment) || SomeChildUses(node, Fragment))
    {
      hasJsxElement := true;
      VisitChildren(node);
    }

    /** Records a fragment, then keeps descending so nested JSX is still seen. */
    method VisitJsxFragment(node: Node)
      requires node.JSXFragment?
      modifies this
      decreases node, 1
      ensures hasJsxFragment
      ensures hasJsxElement == (old(hasJsxElement) || SomeChildUses(node, Element))
    {
      hasJsxFragment := true;
      VisitChildren(node);
    }

    /** Visits every child of `node`, left to right. */
    method VisitChildren(node: Node)
      modifies this
      decreases node, 0
      ensures hasJsxElement == (old(hasJsxElement) || SomeChildUses(node, Element))
      ensures hasJsxFragment == (old(hasJsxFragment) || SomeChildUses(node, Fragment))
    {
      var cs := node.children;
      var i := 0;
      while i < |cs|
        invariant 0 <= i <= |cs|
        invariant hasJsxElement == (old(hasJsxElement) || exists j :: 0 <= j < i && Uses(cs[j], Element))
        invariant hasJsxFragment == (old(hasJsxFragment) || exists j :: 0 <= j < i && Uses(cs[j], Fragment))
      {
        VisitNode(cs[i]);
        i := i + 1;
      }
    }

    /** Walks every item first; only then, if either flag is set, inserts one import of the
        factories seen from `importSource` at index 0. Existing imports are not looked at. */
    method VisitModuleItems(n: ModuleItemVec)
      modifies this, n
      ensures hasJsxElement == (old(hasJsxElement) || ItemsUse(old(n.elems), Element))
      ensures hasJsxFragment == (old(hasJsxFragment) || ItemsUse(old(n.elems), Fragment))
      ensures n.elems == InjectPragma(old(n.elems), hasJsxElement, hasJsxFragment, importSource)
    {
      var items := n.elems;
      var i := 0;
      while i < |items|
        invariant 0 <= i <= |items|
        invariant n.elems == items
        invariant hasJsxElement
          == (old(hasJsxElement) || exists j :: 0 <= j < i && ItemUses(items[j], Element))
        invariant hasJsxFragment
          == (old(hasJsxFragment) || exists j :: 0 <= j < i && ItemUses(items[j], Fragment))
      {
        match items[i] {
          case Import(_, _) =>  // an import declaration holds no JSX: nothing to record
          case Item(node) => VisitNode(node);
        }
        i := i + 1;
      }

      if hasJsxElement || hasJsxFragment {
        var specifiers: seq<ImportSpecifier> := [];
        if hasJsxElement {
          specifiers := specifiers + [CreateElementSpecifier];
        }
        if hasJsxFragment {
          specifiers := specifiers + [FragmentSpecifier];
        }
        assert specifiers == Specifiers(hasJsxElement, hasJsxFragment);
        n.Insert(0, Import(specifiers, importSource));
        assert n.elems == [Import(specifiers, importSource)] + items;
      }
    }
  }

  /** The plugin entry point on an already-parsed configuration: a fresh visitor importing
      from the resolved source walks the program. A module gets the pragma import when it
      holds JSX; a script has no item list and is returned unchanged. */
  method ProcessTransform(program: Program, config: PluginConfig) returns (result: Program)
    ensures program.Script? ==> result == program
    ensures program.Module? ==> result.Module?
    ensures program.Module? ==>
      result.body == TransformModule(program.body, ResolveImportSource(config))
  {
    var visitor := new TransformVisitor(ResolveImportSource(config));
    match program
    case Module(body) =>
      var items := new ModuleItemVec(body);
      visitor.VisitModuleItems(items);
      result := Module(items.elems);
    case Script(stmts) =>
      for i := 0 to |stmts| {
        visitor.VisitNode(stmts[i]);
      }
      result := program;
  }
}
