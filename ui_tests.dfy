/**
 * Concrete crates mirroring the lint's UI test and doc example, and the
 * edge cases of its guards, with the verdict each one receives.
 */
module EmptyDropUi {
  import opened Wrappers
  import opened Hir
  import opened EmptyDrop
  import opened LintPass

  const DropTraitDef: DefId := 1
  const CloneTraitDef: DefId := 2
  const DropFnHir: HirId := 10
  const DropFnBodyKey: BodyId := 20

  function At(lo: nat, hi: nat): Span { Span(lo, hi) }

  function BlockOf(stmts: seq<Stmt>, tail: Option<Expr>): Expr
  {
    Expr(BlockExpr(Block(stmts, tail), None), At(0, 0))
  }

  /** A crate with the given drop lang item (or none) whose only impl member is `fn drop(&mut self) <body>`. */
  function CrateWithDropBody(dropTrait: Option<DefId>, body: Expr): LateContext
  {
    LateContext(
      dropTrait,
      map[DropFnHir := ImplItemNode(ImplItem("drop", FnItem(DropFnBodyKey), At(60, 81)))],
      map[DropFnBodyKey := Body(["self"], body)])
  }

  /** `impl <trait> for Foo { fn drop(&mut self) ... }`; its span, like every span here, is illustrative. */
  function ImplFor(ofTrait: Option<TraitRef>): Item
  {
    Item("", ImplKind(Impl(ofTrait, "Foo", [ImplItemRef(DropFnHir, "drop")])), At(40, 83))
  }

  const DropImpl: Item := ImplFor(Some(TraitRef(TraitDef(DropTraitDef))))

  /**
   * `struct Foo; impl Drop for Foo { fn drop(&mut self) {} } fn main() { ... }`:
   * exactly one diagnostic, at the impl block and not at the method.
   */
  lemma FooDropIsFlagged()
    ensures
      var cx := CrateWithDropBody(Some(DropTraitDef), BlockOf([], None));
      var foo := Item("Foo", Struct, At(0, 11));
      var main := Item("main", Fn, At(85, 150));
      CheckCrate(cx, [foo, DropImpl, main]) == [Finding(EmptyDropLint, At(40, 83), Message, None, Help)]
  {
    var cx := CrateWithDropBody(Some(DropTraitDef), BlockOf([], None));
    var foo := Item("Foo", Struct, At(0, 11));
    var main := Item("main", Fn, At(85, 150));
    var items := [foo, DropImpl, main];
    assert items[1..] == [DropImpl, main] && items[1..][1..] == [main] && [main][1..] == [];
    assert CheckItem(cx, foo) == None && CheckItem(cx, main) == None;
    assert CheckItem(cx, DropImpl) == Some(Finding(EmptyDropLint, At(40, 83), Message, None, Help));
    assert CheckCrate(cx, [main]) == [];
    assert CheckCrate(cx, [DropImpl, main]) == [Finding(EmptyDropLint, At(40, 83), Message, None, Help)];
  }

  /** A body `{ let _x = compute(); }` has a statement and is not reported. */
  lemma LetStatementBodyNotFlagged()
    ensures
      var call := Expr(Call(Expr(Path("compute"), At(0, 0)), []), At(0, 0));
      var cx := CrateWithDropBody(Some(DropTraitDef), BlockOf([Local("_x", Some(call))], None));
      CheckItem(cx, DropImpl) == None
  {
  }

  /** A body `{ release(self); }` has a statement and is not reported. */
  lemma SemiStatementBodyNotFlagged()
    ensures
      var call := Expr(Call(Expr(Path("release"), At(0, 0)), [Expr(Path("self"), At(0, 0))]), At(0, 0));
      var cx := CrateWithDropBody(Some(DropTraitDef), BlockOf([Semi(call)], None));
      CheckItem(cx, DropImpl) == None
  {
  }

  /** A body `{ {} }`: the inner block is the trailing expression, so the body has no statements and is reported. */
  lemma NestedEmptyBlockFlagged()
    ensures
      var cx := CrateWithDropBody(Some(DropTraitDef), BlockOf([], Some(BlockOf([], None))));
      CheckItem(cx, DropImpl) == Some(Finding(EmptyDropLint, At(40, 83), Message, None, Help))
  {
  }

  /**
   * A body `{ release(self) }` does work in its trailing expression, yet the
   * lint as written reports it; the intended check does not.
   */
  lemma TailCallBodyFlagged()
    ensures
      var call := Expr(Call(Expr(Path("release"), At(0, 0)), [Expr(Path("self"), At(0, 0))]), At(0, 0));
      var cx := CrateWithDropBody(Some(DropTraitDef), BlockOf([], Some(call)));
      CheckItem(cx, DropImpl).Some? && CheckItemIntended(cx, DropImpl).None?
  {
  }

  /** `impl Foo { fn drop(&mut self) {} }` is inherent and not reported. */
  lemma InherentImplNotFlagged()
    ensures
      var cx := CrateWithDropBody(Some(DropTraitDef), BlockOf([], None));
      CheckItem(cx, ImplFor(None)) == None
  {
  }

  /** The same empty method in an impl of another trait is not reported. */
  lemma CloneImplNotFlagged()
    ensures
      var cx := CrateWithDropBody(Some(DropTraitDef), BlockOf([], None));
      CheckItem(cx, ImplFor(Some(TraitRef(TraitDef(CloneTraitDef))))) == None
  {
  }

  /**
   * In a crate without the drop lang item, an impl whose trait path does not
   * resolve passes the trait test (both sides absent) and is reported.
   */
  lemma UnresolvedTraitWithoutLangItemFlagged()
    ensures
      var cx := CrateWithDropBody(None, BlockOf([], None));
      CheckItem(cx, ImplFor(Some(TraitRef(ResErr)))) == Some(Finding(EmptyDropLint, At(40, 83), Message, None, Help))
  {
  }

  /** An associated constant as the sole member is not reported, even with an empty block body. */
  lemma AssocConstNotFlagged()
    ensures
      var cx := CrateWithDropBody(Some(DropTraitDef), BlockOf([], None))
        .(hir := map[DropFnHir := ImplItemNode(ImplItem("C", Const(DropFnBodyKey), At(60, 81)))]);
      CheckItem(cx, DropImpl) == None
  {
  }
}
