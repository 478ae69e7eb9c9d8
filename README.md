# Empty `Drop` lint — a Dafny model

This project models clippy's `EMPTY_DROP` lint. The lint pass calls
`check_item` for every item of a crate. `check_item` reports an item when it
is an `impl Drop for T` block with exactly one member, that member is a method,
and the method's body is a block with no statements. It emits one diagnostic
at the span of the whole `impl` block, with the message "empty drop
implementation", the help "try removing this impl", and no help span.

Modules:

- `Wrappers` (`wrappers.dfy`): `Option`.
- `Hir` (`hir.dfy`): the part of rustc's HIR that the lint reads: items,
  `impl` blocks, trait references, impl items, bodies, expressions, blocks and
  statements. `LateContext` stands in for the type context. It holds the
  `drop` lang item (`Option<DefId>`), the HIR map and the body table.
- `EmptyDrop` (`empty_drop.dfy`): the lint. `CheckItem` follows the
  `if_chain!` one guard at a time. `IsEmptyDropImpl` describes the same verdict
  by reading the HIR tables directly. One lemma per guard states what that
  guard rejects.
- `LintPass` (`lint_pass.dfy`): the host calls `check_item` on each item in
  order and the sink collects what it emits. `CheckCrate` models this.
- `EmptyDropUi` (`ui_tests.dfy`): concrete crates for the UI test, the doc
  example and the edge cases, each with its verdict.

Two details follow the code rather than a first reading of it:

- The trait test compares two `Option<DefId>` values. If the trait path does
  not resolve (`None`) and the crate has no `drop` lang item (`None`), the test
  passes.
- Only the body block's statement list is tested. The trailing expression is
  never looked at. So `{ {} }` is reported: the inner block is the trailing
  expression, not a statement. A body that is only a trailing call, like
  `{ release(self) }`, is reported too.

## Model

| member | source | states |
|---|---|---|
| `EmptyDrop.CheckItem` | clippy_lints/src/empty_drop.rs:34-53 | A finding is produced exactly when `IsEmptyDropImpl` holds: a trait impl with one member, the trait equal to the drop lang item, the member a method, and a body block with no statements. The finding is then exactly (lint, impl span, fixed message, no help span, fixed help). |
| `EmptyDrop.DropFnBody` | clippy_lints/src/empty_drop.rs:37-45 | Yields a body id exactly when the item is a one-member trait impl of the drop trait whose member resolves to an impl-item method. The id is that method's body. |
| `Hir.TraitRef.TraitDefId` | clippy_lints/src/empty_drop.rs:42 | The trait's definition is present exactly when the path resolved to a trait, and it is that trait. |
| `EmptyDrop.OnlyTraitImplsWithOneMemberFlagged` | clippy_lints/src/empty_drop.rs:37-41 | Inherent impls, impls with zero or several members, and non-impl items get no finding. |
| `EmptyDrop.OtherTraitNotFlagged` | clippy_lints/src/empty_drop.rs:42 | An impl whose optional trait definition differs from the drop lang item gets no finding, whatever its members or body. |
| `EmptyDrop.UnresolvedTraitMatchesMissingLangItem` | clippy_lints/src/empty_drop.rs:42 | If both the trait path and the lang item are unresolved, the trait test passes. The first five guards reduce to the member being a method, and a finding is produced exactly when the member is a method whose body block has no statements. |
| `EmptyDrop.SoleChildMustBeFn` | clippy_lints/src/empty_drop.rs:43-45 | A member missing from the HIR map, a node that is not an impl item, or an associated const or type gets no finding. |
| `EmptyDrop.BodyMustBeBlock` | clippy_lints/src/empty_drop.rs:46-47 | A method body that is not a block expression gets no finding. |
| `EmptyDrop.StatementsMustBeEmpty` | clippy_lints/src/empty_drop.rs:48 | A body block with at least one statement of any kind gets no finding. |
| `EmptyDrop.TailExprNotInspected` | clippy_lints/src/empty_drop.rs:47-48 | Two bodies with the same statements and different trailing expressions get the same verdict. |
| `EmptyDrop.EmptyDropImplFlagged` | clippy_lints/src/empty_drop.rs:50 | Any drop impl whose single method has a statement-free body is reported, at the impl's span, with "empty drop implementation", "try removing this impl" and no help span. |
| `EmptyDrop.CheckItemIntended` | clippy_lints/src/empty_drop.rs:47-48 | Corrected check: a finding exactly when the drop method's body is `{}`, with neither statements nor a trailing expression. |
| `EmptyDrop.TailOnlyBodyFlaggedAsWritten` | clippy_lints/src/empty_drop.rs:47-48 | A body made only of a trailing expression is reported by the lint as written and not by the corrected check. |
| `EmptyDrop.IntendedAgreesOnTaillessBodies` | clippy_lints/src/empty_drop.rs:47-48 | The corrected check reports a subset of what the lint reports. The two agree whenever the body block has no trailing expression. |
| `LintPass.CheckCrate` | clippy_lints/src/empty_drop.rs:34-35 | Visiting a crate yields at most one diagnostic per item. Every diagnostic carries the lint's fixed message and help and no help span. |
| `LintPass.CheckCrateAppend` | clippy_lints/src/empty_drop.rs:34-35 | The diagnostics for two item lists, one after the other, are the diagnostics of each list, concatenated. Each item is checked independently. |
| `LintPass.CheckCrateSound` | clippy_lints/src/empty_drop.rs:36-50 | Every diagnostic of a crate sits at the span of one of its items that is an empty drop impl. |
| `LintPass.CheckCrateComplete` | clippy_lints/src/empty_drop.rs:36-50 | Every empty drop impl in a crate gets a diagnostic at its own span. |
| `LintPass.CheckCrateQuiet` | clippy_lints/src/empty_drop.rs:36-50 | A crate with no empty drop impl gets no diagnostics. |
| `LintPass.CheckCrateInOrder` | clippy_lints/src/empty_drop.rs:34-50 | A crate's diagnostics are exactly one per empty drop impl, in item order, each the lint's finding at that impl's span. |
| `EmptyDropUi.FooDropIsFlagged` | tests/ui/empty_drop.rs:4-8 | For `struct Foo; impl Drop for Foo { fn drop(&mut self) {} } fn main`, the crate gets exactly one diagnostic, at the impl block. |
| `EmptyDropUi.LetStatementBodyNotFlagged` | clippy_lints/src/empty_drop.rs:48 | A body `{ let _x = compute(); }` is not reported. |
| `EmptyDropUi.SemiStatementBodyNotFlagged` | clippy_lints/src/empty_drop.rs:48 | A body `{ release(self); }` is not reported. |
| `EmptyDropUi.NestedEmptyBlockFlagged` | clippy_lints/src/empty_drop.rs:47-48 | A body `{ {} }` is reported, because the inner block is the trailing expression. |
| `EmptyDropUi.TailCallBodyFlagged` | clippy_lints/src/empty_drop.rs:47-48 | A body `{ release(self) }` is reported as written but not by the corrected check. |
| `EmptyDropUi.InherentImplNotFlagged` | clippy_lints/src/empty_drop.rs:37-38 | `impl Foo { fn drop(&mut self) {} }` is not reported. |
| `EmptyDropUi.CloneImplNotFlagged` | clippy_lints/src/empty_drop.rs:42 | The same empty method in an impl of another trait is not reported. |
| `EmptyDropUi.UnresolvedTraitWithoutLangItemFlagged` | clippy_lints/src/empty_drop.rs:42 | In a crate without the drop lang item, an unresolved trait impl with an empty method is reported. |
| `EmptyDropUi.AssocConstNotFlagged` | clippy_lints/src/empty_drop.rs:45 | An associated const as the only member is not reported. |

## Left out

- The lint's declaration and registration (`declare_clippy_lint!`, `declare_lint_pass!`), with its doc text, version and category (clippy_lints/src/empty_drop.rs:8-32). These macros have no behaviour.
- `span_lint_and_help` and rustc's diagnostic machinery. The sink is modelled only as returning (or, in `LintPass`, appending) the `Finding`. Lint levels and `allow` attributes are not modelled.
- Lang-item resolution and the HIR map's implementation. They are replaced by the `LateContext` fields `dropTrait`, `hir` and `bodies`.
- `hir().body(b)`: rustc treats this lookup as total. It is stated as the precondition `BodyResolves`: the drop method's body is in the body table.
- `TraitRef::trait_def_id` panics on a path that resolved to something other than a trait. `Res` has only the trait and error cases, so that input cannot be built.
- The traversal that visits nested items (items inside modules and function bodies). `CheckCrate` takes the visited items as a flat list in visiting order.
- tests/ui/let_underscore_drop.rs. It tests a different lint and mentions this lint only in an `allow` attribute.
- The UI test / rustfix harness, which does I/O.
- Idempotence is not stated as a lemma. `CheckItem` is a function, so equal inputs always give equal results.

## Findings

| source | as written | input that shows it | evidently intended | confidence | as-written member | corrected member |
|---|---|---|---|---|---|---|
| clippy_lints/src/empty_drop.rs:47-48 | an empty `stmts` list is taken to mean an empty body, and the block's trailing expression is ignored | `impl Drop for Foo { fn drop(&mut self) { release(self) } }`: the call is the trailing expression, so the body has no statements and is reported as empty (the lint is in the `correctness` group) | report only a body with neither statements nor a trailing expression | high, not executed | `EmptyDrop.TailOnlyBodyFlaggedAsWritten` | `EmptyDrop.CheckItemIntended` |

`CheckItem` and `LintPass` model the lint as written, since that is what it
emits. `CheckItemIntended` is the corrected verdict. `IntendedAgreesOnTaillessBodies`
shows the two differ only on bodies that have a trailing expression.
