/** What the pass does to a module's item list, stated on values. */
module Pragma {
  import opened Wrappers
  import opened Ast

  /** The factory symbols the JSX desugaring expects in scope, imported under their own names. */
  const CreateElementSpecifier: ImportSpecifier := Named("createElement", None)
  const FragmentSpecifier: ImportSpecifier := Named("Fragment", None)

  /** The specifier that brings the factory for JSX of kind `k` into scope. */
  function SpecifierFor(k: JsxKind): (s: ImportSpecifier)
    ensures s.imported == None
    ensures s == CreateElementSpecifier <==> k == Element
  {
    match k
    case Element => CreateElementSpecifier
    case Fragment => FragmentSpecifier
  }

  /** The specifier list of the injected import: one specifier per kind seen,
      `createElement` always before `Fragment`, whatever order they were met in. */
  function Specifiers(sawElement: bool, sawFragment: bool): (r: seq<ImportSpecifier>)
    ensures SpecifierFor(Element) in r <==> sawElement
    ensures SpecifierFor(Fragment) in r <==> sawFragment
    ensures |r| == (if sawElement then 1 else 0) + (if sawFragment then 1 else 0)
    ensures sawElement ==> r[0] == CreateElementSpecifier
    ensures forall s :: s in r ==> s.imported == None
  {
    (if sawElement then [CreateElementSpecifier] else [])
    + (if sawFragment then [FragmentSpecifier] else [])
  }

  /** The item list after the post-walk decision, given the final flags: unchanged when
      neither flag is set, otherwise one import in front and every old item one place later. */
  function InjectPragma(items: seq<ModuleItem>, sawElement: bool, sawFragment: bool,
                        importSource: string): (r: seq<ModuleItem>)
    ensures !sawElement && !sawFragment ==> r == items
    ensures sawElement || sawFragment ==>
      && |r| == |items| + 1
      && r[0] == Import(Specifiers(sawElement, sawFragment), importSource)
      && (forall i :: 0 <= i < |items| ==> r[i + 1] == items[i])
  {
    if sawElement || sawFragment then
      [Import(Specifiers(sawElement, sawFragment), importSource)] + items
    else
      items
  }

  /** The whole pass on a module's items, run by a visitor whose flags start false. */
  /** It only ever prepends: the input is a suffix of the output, at most one item shorter. */
  function TransformModule(items: seq<ModuleItem>, importSource: string): (r: seq<ModuleItem>)
    ensures |items| <= |r| <= |items| + 1
    ensures r[|r| - |items|..] == items
  {
    InjectPragma(items, ItemsUse(items, Element), ItemsUse(items, Fragment), importSource)
  }

  /** A module is left exactly as it was if and only if it holds no JSX element and no fragment. */
  lemma UnchangedIffNoJsx(items: seq<ModuleItem>, importSource: string)
    ensures TransformModule(items, importSource) == items
        <==> !ItemsUse(items, Element) && !ItemsUse(items, Fragment)
  {
  }

  /** JSX of kind `k` at any depth of any item makes the pass insert an import naming its factory. */
  lemma JsxAnywhereNamesItsFactory(items: seq<ModuleItem>, i: nat, path: seq<nat>,
                                    k: JsxKind, importSource: string)
    requires i < |items| && items[i].Item?
    requires KindAt(items[i].node, path, k)
    ensures var r := TransformModule(items, importSource);
      && |r| == |items| + 1
      && r[0].Import?
      && r[0].src == importSource
      && SpecifierFor(k) in r[0].specifiers
  {
    UsesIffSomePath(items[i].node, k);
    assert ItemUses(items[i], k);
    assert ItemsUse(items, k);
  }

  /** The inserted import holds no JSX, so the output uses exactly the kinds the input uses. */
  lemma InjectPreservesUse(items: seq<ModuleItem>, sawElement: bool,
                             sawFragment: bool, importSource: string, k: JsxKind)
    ensures ItemsUse(InjectPragma(items, sawElement, sawFragment, importSource), k)
        <==> ItemsUse(items, k)
  {
  }

  /** Existing imports are never inspected: running the pass a second time on output that
      holds JSX inserts a second, identical import in front of the first. */
  lemma SecondRunDuplicatesImport(items: seq<ModuleItem>, importSource: string)
    requires ItemsUse(items, Element) || ItemsUse(items, Fragment)
    ensures var once := TransformModule(items, importSource);
      TransformModule(once, importSource) == [once[0], once[0]] + items
  {
    var e, f := ItemsUse(items, Element), ItemsUse(items, Fragment);
    var once := TransformModule(items, importSource);
    InjectPreservesUse(items, e, f, importSource, Element);
    InjectPreservesUse(items, e, f, importSource, Fragment);
    assert once == [once[0]] + items;
  }
}
