# JSX pragma import pass

A model of an SWC compiler plugin pass that prepends a JSX pragma import to a module.
The pass walks the whole syntax tree with a visitor holding two flags,
"saw a JSX element" and "saw a JSX fragment", plus a fixed import source.
Visiting an element or a fragment sets its flag and then keeps descending, so nested JSX is seen too.
Once every item of the module's item list has been visited, the pass decides whether to insert.
If either flag is set it builds one import declaration and inserts it at index 0.
That declaration names `createElement` if an element was seen, then `Fragment` if a fragment was seen,
and imports from the import source.
The import source is the configured `importSource` when one is given, and `"react"` otherwise.

Layout:

- `wrappers.dfy`: `Option`.
- `config.dfy`: the parsed plugin configuration and the defaulting of `importSource`.
- `ast.dfy`: syntax-tree nodes (`JSXElement`, `JSXFragment`, and one fallback `Other` kind), module items and programs.
  It also defines `Uses` ("JSX of this kind occurs in the node") and a path-based reference for it.
- `pragma.dfy`: the specifier list and the insertion, stated on values, with lemmas about the whole pass.
- `visitor.dfy`: the visitor as a class whose methods update its flags.
  Also the in-place item vector, and the plugin entry point `ProcessTransform`.
- `examples.dfy`: the repository's tests as lemmas, plus two more cases (the kinds met in the other order, and a second run of the pass).

Syntax-tree nodes are immutable values. The source's visitor receives them by mutable reference
but never changes them, apart from nested item lists (see "## Left out"), so within the model
"JSX nodes are left exactly as found" holds by construction.

## Model

| member | source | states |
|---|---|---|
| Config.ResolveImportSource | src/lib.rs:99 | the import source is the configured `importSource` when present and `"react"` (the visitor's default) when absent |
| Ast.UsesIffSomePath | src/lib.rs:37-44 | `Uses(n, k)`, the flag condition the visitor establishes, holds exactly when some path of child indices from `n` leads to JSX of kind `k`, i.e. JSX at any depth |
| Pragma.SpecifierFor | src/lib.rs:55-70 | each JSX kind has its own factory specifier, imported without alias; only elements map to `createElement` |
| Pragma.Specifiers | src/lib.rs:55-70 | `createElement` is in the list iff an element was seen and `Fragment` iff a fragment was seen; one entry per kind seen; `createElement` comes first whenever present; no aliases |
| Pragma.InjectPragma | src/lib.rs:48-86 | with neither flag set the item list is unchanged; otherwise it is one longer, item 0 is the import of `Specifiers` from the import source, and every old item `i` sits unchanged at `i + 1` |
| Pragma.TransformModule | src/lib.rs:45-87 | the whole pass on a module's items, as run by the fresh visitor of src/lib.rs:101-106 (`ProcessTransform`'s ensures ties the imperative walk to it); it only ever prepends: the input is a suffix of the output, which is at most one item longer |
| Pragma.UnchangedIffNoJsx | src/lib.rs:45-87 | a fresh pass leaves the item list equal to its input if and only if no item holds a JSX element or fragment |
| Pragma.JsxAnywhereNamesItsFactory | src/lib.rs:45-70 | JSX of a kind at any depth in any item makes the pass insert an import from the import source whose specifiers include that kind's factory, because the decision is taken after the whole list is walked |
| Pragma.InjectPreservesUse | src/lib.rs:72-85 | the inserted import holds no JSX: the output list uses a JSX kind iff the input does |
| Pragma.SecondRunDuplicatesImport | src/lib.rs:48-85 | existing imports are not inspected: a second pass over output holding JSX puts a second, identical import in front of the first, followed by the original items |
| Visitor.ModuleItemVec.Insert | src/lib.rs:72-85 | inserting at an index puts the item there and shifts every later item one place up |
| Visitor.TransformVisitor.Default | src/lib.rs:17-24 | the default visitor has both flags false and imports from `"react"` |
| Visitor.TransformVisitor.constructor | src/lib.rs:101-106 | the entry point's visitor has both flags false and the given import source |
| Visitor.TransformVisitor.VisitNode | src/lib.rs:33-44 | flags are monotonic, and after the visit each flag is true iff it was true before or the node holds JSX of that kind at any depth |
| Visitor.TransformVisitor.VisitJsxElement | src/lib.rs:37-40 | the element flag is set, and the fragment flag records fragments anywhere below the element |
| Visitor.TransformVisitor.VisitJsxFragment | src/lib.rs:41-44 | the fragment flag is set, and the element flag records elements anywhere below the fragment |
| Visitor.TransformVisitor.VisitChildren | src/lib.rs:39 | visiting the children left to right sets each flag iff it was set or some child holds that kind |
| Visitor.TransformVisitor.VisitModuleItems | src/lib.rs:45-87 | each flag becomes its old value or "some item holds that kind"; then the item vector becomes `InjectPragma` of its old contents under the final flags (the insertion decision sees the whole walk) |
| Visitor.ProcessTransform | src/lib.rs:91-107 | a module's items become the fresh-visitor pass over them with the resolved import source; a script is returned unchanged |
| Examples.NoTransform | src/lib.rs:124-134 | `console.log('No transform')` is left unchanged |
| Examples.ElementPragma | src/lib.rs:136-160 | `const jsx = <div />` (and `<Component />`, the same shape) gets `import { createElement } from "react"` in front |
| Examples.FragmentPragma | src/lib.rs:162-173 | `const jsx = <></>` gets `import { Fragment } from "react"` in front |
| Examples.ElementAndFragmentPragma | src/lib.rs:175-186 | `const jsx = <><div /></>` gets `import { createElement, Fragment } from "react"` in front |
| Examples.OrderFixedByKind | src/lib.rs:55-70 | an element holding a fragment gets the same import as a fragment holding an element: order is by kind, not by encounter |
| Examples.ConfiguredImportSource | src/lib.rs:188-200 | with `importSource` set to `"preact"`, `const jsx = <div />` gets `import { createElement } from "preact"` |
| Examples.ElementPragmaTwice | src/lib.rs:72-85 | two passes over `const jsx = <div />` give two `createElement` imports in front of the declaration |

## Left out

- Reading the configuration payload from the host and parsing it as JSON (src/lib.rs:92-97), with their fatal failures. These are host I/O and a foreign library. The configuration is modelled as an already-parsed `PluginConfig` whose `importSource` is an `Option<string>`.
- Spans, syntax contexts, marks and the construction of identifiers and string literals (src/lib.rs:50-53, 58, 66, 77-81). They carry no logic of the pass.
- The generic SWC visitor and folder machinery, and the full set of SWC node kinds. Every non-JSX node is one `Other` kind whose walk only descends into its children.
- Nested item lists. SWC calls `visit_mut_module_items` for every item vector, including TypeScript namespace bodies, and the flags are never reset, so such a body could also receive an import. The model has one top-level item list, and an item's inner structure is only a node tree.
- Default and namespace import specifiers, type-only imports and import assertions. The generic walk does descend into existing import declarations, but they hold no JSX, and the pass never consults or merges them. So only the named, unaliased form the pass builds is represented. `ItemUses` is false for an import, and `VisitModuleItems` skips the walk of import items for that reason.
- Visitor.ModuleItemVec.Insert: requires the index to be within the list instead of modelling the panic of an out-of-range insert; the pass only ever inserts at index 0.
- Printing the tree back to source, the JSX desugaring itself, and the Node test harness in test/test.mjs (file-system fixtures around the compiled plugin).
