/** The repository's tests, on the tree shapes their inputs parse to, plus two more cases:
    the kinds met in the other order, and a second run of the pass.
    Non-JSX syntax (the binding `jsx`, `console.log`, the tag name) is `Other`. */
module Examples {
  import opened Wrappers
  import opened Ast
  import opened Config
  import opened Pragma

  /** `console.log('No transform')` */
  const NoJsx: ModuleItem := Item(Other([Other([]), Other([])]))
  /** `const jsx = <div />`; `<Component />` has the same shape. */
  const ElementDecl: ModuleItem := Item(Other([Other([]), JSXElement([Other([])])]))
  /** `const jsx = <></>` */
  const FragmentDecl: ModuleItem := Item(Other([Other([]), JSXFragment([])]))
  /** `const jsx = <><div /></>` */
  const ElementInFragmentDecl: ModuleItem :=
    Item(Other([Other([]), JSXFragment([JSXElement([Other([])])])]))
  /** `const jsx = <div><></></div>`: the same kinds met in the other order. */
  const FragmentInElementDecl: ModuleItem :=
    Item(Other([Other([]), JSXElement([Other([]), JSXFragment([])])]))

  const Defaults: PluginConfig := PluginConfig(None)

  lemma NoTransform()
    ensures TransformModule([NoJsx], ResolveImportSource(Defaults)) == [NoJsx]
  {
  }

  lemma ElementPragma()
    ensures TransformModule([ElementDecl], ResolveImportSource(Defaults))
         == [Import([Named("createElement", None)], "react"), ElementDecl]
  {
    var n := ElementDecl.node;
    assert Uses(n.children[1], Element);
    assert !Uses(n.children[0], Fragment);
    assert !Uses(n.children[1].children[0], Fragment);
    assert !Uses(n.children[1], Fragment);
    assert Uses(n, Element);
    assert ItemUses([ElementDecl][0], Element);
    assert ItemsUse([ElementDecl], Element);
    assert !ItemsUse([ElementDecl], Fragment);
    assert Specifiers(true, false) == [Named("createElement", None)];
  }

  lemma FragmentPragma()
    ensures TransformModule([FragmentDecl], ResolveImportSource(Defaults))
         == [Import([Named("Fragment", None)], "react"), FragmentDecl]
  {
    var n := FragmentDecl.node;
    assert Uses(n.children[1], Fragment);
    assert !Uses(n.children[0], Element) && !Uses(n.children[1], Element);
    assert Uses(n, Fragment);
    assert ItemUses([FragmentDecl][0], Fragment);
    assert ItemsUse([FragmentDecl], Fragment);
    assert !ItemsUse([FragmentDecl], Element);
    assert Specifiers(false, true) == [Named("Fragment", None)];
  }

  lemma ElementAndFragmentPragma()
    ensures TransformModule([ElementInFragmentDecl], ResolveImportSource(Defaults))
         == [Import([Named("createElement", None), Named("Fragment", None)], "react"),
             ElementInFragmentDecl]
  {
    var n := ElementInFragmentDecl.node;
    assert Uses(n.children[1], Fragment);
    assert Uses(n.children[1].children[0], Element);
    assert Uses(n.children[1], Element);
    assert Uses(n, Element);
    assert ItemUses([ElementInFragmentDecl][0], Element);
    assert Uses(n, Fragment);
    assert ItemUses([ElementInFragmentDecl][0], Fragment);
    assert ItemsUse([ElementInFragmentDecl], Element);
    assert ItemsUse([ElementInFragmentDecl], Fragment);
    assert Specifiers(true, true) == [Named("createElement", None), Named("Fragment", None)];
  }

  /** The specifier order is fixed by kind, not by which kind the walk meets first. */
  lemma OrderFixedByKind()
    ensures TransformModule([FragmentInElementDecl], ResolveImportSource(Defaults))[0]
         == TransformModule([ElementInFragmentDecl], ResolveImportSource(Defaults))[0]
  {
    ElementAndFragmentPragma();
    var n := FragmentInElementDecl.node;
    assert Uses(n.children[1], Element);
    assert Uses(n.children[1].children[1], Fragment);
    assert Uses(n.children[1], Fragment);
    assert Uses(n, Element);
    assert ItemUses([FragmentInElementDecl][0], Element);
    assert Uses(n, Fragment);
    assert ItemUses([FragmentInElementDecl][0], Fragment);
  }

  lemma ConfiguredImportSource()
    ensures TransformModule([ElementDecl], ResolveImportSource(PluginConfig(Some("preact"))))
         == [Import([Named("createElement", None)], "preact"), ElementDecl]
  {
    ElementPragma();
  }

  /** Running the pass again on the element test's output inserts a second import. */
  lemma ElementPragmaTwice()
    ensures var once := TransformModule([ElementDecl], ResolveImportSource(Defaults));
      TransformModule(once, ResolveImportSource(Defaults))
        == [Import([Named("createElement", None)], "react"),
            Import([Named("createElement", None)], "react"),
            ElementDecl]
  {
    ElementPragma();
    var n := ElementDecl.node;
    assert Uses(n.children[1], Element);
    assert Uses(n, Element);
    assert ItemUses([ElementDecl][0], Element);
    SecondRunDuplicatesImport([ElementDecl], ResolveImportSource(Defaults));
  }
}
