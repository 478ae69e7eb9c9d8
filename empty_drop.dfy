/**
 * The `EMPTY_DROP` lint: `check_item` decides whether a declaration is an
 * `impl Drop for T` whose single `drop` method has a body without statements,
 * and if so reports one diagnostic anchored at the whole `impl` block.
 *
 * `CheckItem` is the lint as written. `IsEmptyDropImpl` is an independent
 * description of the same verdict in terms of the HIR tables, and the lemmas
 * below state each guard of the source on its own.
 */
module EmptyDrop {
  import opened Wrappers
  import opened Hir

  /** The lint that the diagnostic is emitted under. */
  const EmptyDropLint: string := "clippy::empty_drop"
  const Message: string := "empty drop implementation"
  const Help: string := "try removing this impl"

  /** The diagnostic handed to the sink: where, what, and an optional help location and text. */
  datatype Finding = Finding(lint: string, span: Span, message: string, helpSpan: Option<Span>, help: string)

  // ---------------------------------------------------------------------
  // The verdict described on the HIR tables

  /** The id of the only member of an `impl` block that has exactly one. */
  function SoleChild(item: Item): HirId
    requires item.kind.ImplKind? && |item.kind.impl.items| == 1
  {
    item.kind.impl.items[0].id
  }

  /**
   * The item implements the drop trait (compared as optional definitions)
   * with exactly one member, and that member is a method.
   */
  predicate IsDropImplWithSoleFn(cx: LateContext, item: Item)
  {
    && item.kind.ImplKind?
    && item.kind.impl.ofTrait.Some?
    && |item.kind.impl.items| == 1
    && item.kind.impl.ofTrait.value.TraitDefId() == cx.dropTrait
    && SoleChild(item) in cx.hir
    && cx.hir[SoleChild(item)].ImplItemNode?
    && cx.hir[SoleChild(item)].implItem.kind.FnItem?
  }

  /** The body of that method. */
  function DropFnBodyId(cx: LateContext, item: Item): BodyId
    requires IsDropImplWithSoleFn(cx, item)
  {
    cx.hir[SoleChild(item)].implItem.kind.body
  }

  /** What the lint demands of its environment: the method's body is in the body table. */
  predicate BodyResolves(cx: LateContext, item: Item)
  {
    IsDropImplWithSoleFn(cx, item) ==> DropFnBodyId(cx, item) in cx.bodies
  }

  /** A block expression with no statements; its trailing expression may be anything. */
  predicate HasNoStatements(e: Expr)
  {
    e.kind.BlockExpr? && e.kind.block.stmts == []
  }

  /** A block expression with neither statements nor a trailing expression: `{}`. */
  predicate IsEmptyBlock(e: Expr)
  {
    e.kind.BlockExpr? && e.kind.block.stmts == [] && e.kind.block.expr.None?
  }

  /** The shape the lint reports. */
  predicate IsEmptyDropImpl(cx: LateContext, item: Item)
  {
    && IsDropImplWithSoleFn(cx, item)
    && DropFnBodyId(cx, item) in cx.bodies
    && HasNoStatements(cx.bodies[DropFnBodyId(cx, item)].value)
  }

  // ---------------------------------------------------------------------
  // The lint as written

  /**
   * The first five guards of `check_item`: a trait impl with exactly one
   * member, whose trait is the drop lang item, whose member resolves in the
   * HIR map to an impl item that is a method. Yields that method's body id.
   */
  function DropFnBody(cx: LateContext, item: Item): (r: Option<BodyId>)
    ensures r.Some? <==> IsDropImplWithSoleFn(cx, item)
    ensures r.Some? ==> r.value == DropFnBodyId(cx, item)
  {
    match item.kind
    case ImplKind(Impl(Some(traitRef), _, items)) =>
      if |items| != 1 then None
      else if traitRef.TraitDefId() != cx.dropTrait then None
      else
        var implItemHir := items[0].id;
        (match cx.Find(implItemHir)
         case Some(ImplItemNode(implItem)) =>
           (match implItem.kind
            case FnItem(b) => Some(b)
            case _ => None)
         case _ => None)
    case _ => None
  }

  /**
   * `check_item`: on a full match, exactly one diagnostic anchored at the
   * impl block's span with the lint's fixed message and help and no help span.
   */
  function CheckItem(cx: LateContext, item: Item): (r: Option<Finding>)
    requires BodyResolves(cx, item)
    ensures r.Some? <==> IsEmptyDropImpl(cx, item)
    ensures r.Some? ==> r.value == Finding(EmptyDropLint, item.span, Message, None, Help)
  {
    match DropFnBody(cx, item)
    case None => None
    case Some(b) =>
      var funcExpr := cx.BodyOf(b).value;
      match funcExpr.kind
      case BlockExpr(block, _) =>
        if block.stmts == [] then Some(Finding(EmptyDropLint, item.span, Message, None, Help))
        else None
      case _ => None
  }

  // ---------------------------------------------------------------------
  // Each guard of `check_item` on its own

  /** Inherent impls, impls with zero or several members and non-impl items are never reported. */
  lemma OnlyTraitImplsWithOneMemberFlagged(cx: LateContext, item: Item)
    requires !item.kind.ImplKind? || item.kind.impl.ofTrait.None? || |item.kind.impl.items| != 1
    ensures BodyResolves(cx, item) && CheckItem(cx, item) == None
  {
  }

  /** An impl of a trait whose optional definition differs from the drop lang item is never reported. */
  lemma OtherTraitNotFlagged(cx: LateContext, item: Item)
    requires item.kind.ImplKind? && item.kind.impl.ofTrait.Some?
    requires item.kind.impl.ofTrait.value.TraitDefId() != cx.dropTrait
    ensures BodyResolves(cx, item) && CheckItem(cx, item) == None
  {
  }

  /**
   * The trait test is an equality of two optional definitions: when neither
   * the trait path nor the drop lang item resolves, the test passes, and the
   * verdict is decided by the member being a method and its body block
   * having no statements.
   */
  lemma UnresolvedTraitMatchesMissingLangItem(cx: LateContext, item: Item)
    requires cx.dropTrait.None?
    requires item.kind.ImplKind? && item.kind.impl.ofTrait == Some(TraitRef(ResErr))
    requires |item.kind.impl.items| == 1
    requires BodyResolves(cx, item)
    ensures IsDropImplWithSoleFn(cx, item) <==>
      (var id := SoleChild(item);
       id in cx.hir && cx.hir[id].ImplItemNode? && cx.hir[id].implItem.kind.FnItem?)
    ensures CheckItem(cx, item).Some? <==>
      (var id := SoleChild(item);
       && id in cx.hir && cx.hir[id].ImplItemNode? && cx.hir[id].implItem.kind.FnItem?
       && HasNoStatements(cx.bodies[cx.hir[id].implItem.kind.body].value))
  {
  }

  /** A member that is missing from the HIR map, is not an impl item, or is a const or type is never reported. */
  lemma SoleChildMustBeFn(cx: LateContext, item: Item)
    requires item.kind.ImplKind? && item.kind.impl.ofTrait.Some? && |item.kind.impl.items| == 1
    requires
      var id := SoleChild(item);
      id !in cx.hir || !cx.hir[id].ImplItemNode? || !cx.hir[id].implItem.kind.FnItem?
    ensures BodyResolves(cx, item) && CheckItem(cx, item) == None
  {
  }

  /** A method body that is not a block expression is never reported. */
  lemma BodyMustBeBlock(cx: LateContext, item: Item)
    requires IsDropImplWithSoleFn(cx, item) && DropFnBodyId(cx, item) in cx.bodies
    requires !cx.bodies[DropFnBodyId(cx, item)].value.kind.BlockExpr?
    ensures CheckItem(cx, item) == None
  {
  }

  /** A body block with at least one statement, of any kind, is never reported. */
  lemma StatementsMustBeEmpty(cx: LateContext, item: Item)
    requires IsDropImplWithSoleFn(cx, item) && DropFnBodyId(cx, item) in cx.bodies
    requires cx.bodies[DropFnBodyId(cx, item)].value.kind.BlockExpr?
    requires cx.bodies[DropFnBodyId(cx, item)].value.kind.block.stmts != []
    ensures CheckItem(cx, item) == None
  {
  }

  /**
   * The trailing expression of the body block is never inspected: replacing
   * it by any other leaves the verdict unchanged.
   */
  lemma TailExprNotInspected(cx: LateContext, item: Item, params: seq<string>, stmts: seq<Stmt>,
                             lbl: Option<string>, sp: Span, tail1: Option<Expr>, tail2: Option<Expr>)
    requires IsDropImplWithSoleFn(cx, item)
    ensures
      var b := DropFnBodyId(cx, item);
      var cx1 := cx.(bodies := cx.bodies[b := Body(params, Expr(BlockExpr(Block(stmts, tail1), lbl), sp))]);
      var cx2 := cx.(bodies := cx.bodies[b := Body(params, Expr(BlockExpr(Block(stmts, tail2), lbl), sp))]);
      BodyResolves(cx1, item) && BodyResolves(cx2, item) && CheckItem(cx1, item) == CheckItem(cx2, item)
  {
  }

  /**
   * Every `impl` of the drop trait with a single method whose body block has
   * no statements is reported once, at the impl block's span rather than the
   * method's, with no help span.
   */
  lemma EmptyDropImplFlagged(cx: LateContext, item: Item, tr: TraitRef, child: ImplItemRef,
                             fnItem: ImplItem, b: BodyId, body: Body)
    requires item.kind.ImplKind? && item.kind.impl.ofTrait == Some(tr) && item.kind.impl.items == [child]
    requires tr.TraitDefId() == cx.dropTrait
    requires cx.Find(child.id) == Some(ImplItemNode(fnItem)) && fnItem.kind == FnItem(b)
    requires b in cx.bodies && cx.bodies[b] == body && HasNoStatements(body.value)
    ensures BodyResolves(cx, item)
    ensures
      var r := CheckItem(cx, item);
      && r.Some?
      && r.value.span == item.span
      && r.value.message == "empty drop implementation"
      && r.value.help == "try removing this impl"
      && r.value.helpSpan == None
  {
  }

  // ---------------------------------------------------------------------
  // The verdict the lint evidently intends

  /**
   * `check_item` with the trailing expression also required to be absent,
   * so that only a body `{}` is reported.
   */
  function CheckItemIntended(cx: LateContext, item: Item): (r: Option<Finding>)
    requires BodyResolves(cx, item)
    ensures r.Some? <==>
      IsDropImplWithSoleFn(cx, item) && IsEmptyBlock(cx.bodies[DropFnBodyId(cx, item)].value)
    ensures r.Some? ==> r.value == Finding(EmptyDropLint, item.span, Message, None, Help)
  {
    match DropFnBody(cx, item)
    case None => None
    case Some(b) =>
      var funcExpr := cx.BodyOf(b).value;
      match funcExpr.kind
      case BlockExpr(block, _) =>
        if block.stmts == [] && block.expr.None? then Some(Finding(EmptyDropLint, item.span, Message, None, Help))
        else None
      case _ => None
  }

  /**
   * As written, a drop method whose body is only a trailing expression (a
   * call such as `{ release(self) }`, or a nested block `{ {} }`) is
   * reported as empty; the intended check does not report it.
   */
  lemma TailOnlyBodyFlaggedAsWritten(cx: LateContext, item: Item, tail: Expr)
    requires IsDropImplWithSoleFn(cx, item) && DropFnBodyId(cx, item) in cx.bodies
    requires cx.bodies[DropFnBodyId(cx, item)].value.kind.BlockExpr?
    requires cx.bodies[DropFnBodyId(cx, item)].value.kind.block == Block([], Some(tail))
    ensures CheckItem(cx, item).Some? && CheckItemIntended(cx, item).None?
  {
  }

  /** The intended check reports a subset of what the lint reports, and the same wherever the body has no trailing expression. */
  lemma IntendedAgreesOnTaillessBodies(cx: LateContext, item: Item)
    requires BodyResolves(cx, item)
    ensures CheckItemIntended(cx, item).Some? ==> CheckItem(cx, item) == CheckItemIntended(cx, item)
    ensures IsDropImplWithSoleFn(cx, item) && cx.bodies[DropFnBodyId(cx, item)].value.kind.BlockExpr?
            && cx.bodies[DropFnBodyId(cx, item)].value.kind.block.expr.None?
            ==> CheckItem(cx, item) == CheckItemIntended(cx, item)
  {
  }
}
