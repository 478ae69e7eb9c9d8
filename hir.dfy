/**
 * The fragment of rustc's high-level IR (HIR) that the `EMPTY_DROP` lint
 * inspects, and a stand-in for the `LateContext` it queries: the
 * `drop` lang item, the HIR map from ids to nodes and the table of bodies.
 * Constructors that the lint never distinguishes are grouped under one
 * "other" constructor per type.
 */
module Hir {
  import opened Wrappers

  /** Identifiers are opaque: the lint only ever compares them or looks them up. */
  type DefId = nat
  type HirId = nat
  type BodyId = nat

  /** A byte range of the source file. */
  datatype Span = Span(lo: nat, hi: nat)

  /** What the path of a trait reference resolved to. */
  datatype Res =
    | TraitDef(def: DefId)   // a trait or trait alias
    | ResErr                 // name resolution failed

  datatype TraitRef = TraitRef(path: Res) {
    /** `TraitRef::trait_def_id`: the trait's definition, if the path resolved. */
    function TraitDefId(): (r: Option<DefId>)
      ensures r.Some? <==> path.TraitDef?
      ensures r.Some? ==> r.value == path.def
    {
      match path
      case TraitDef(def) => Some(def)
      case ResErr => None
    }
  }

  /** A member written inside an `impl` block, as referred to from the block. */
  datatype ImplItemRef = ImplItemRef(id: HirId, ident: string)

  /** An `impl` block: the trait reference is absent for an inherent impl. */
  datatype Impl = Impl(ofTrait: Option<TraitRef>, selfTy: string, items: seq<ImplItemRef>)

  datatype ItemKind =
    | Struct
    | Fn
    | Trait
    | ImplKind(impl: Impl)
    | OtherItem

  /** A top-level declaration. */
  datatype Item = Item(ident: string, kind: ItemKind, span: Span)

  datatype ImplItemKind =
    | Const(body: BodyId)
    | FnItem(body: BodyId)
    | TyAlias

  datatype ImplItem = ImplItem(ident: string, kind: ImplItemKind, span: Span)

  /** A node of the HIR map. */
  datatype Node =
    | ImplItemNode(implItem: ImplItem)
    | ItemNode(item: Item)
    | ExprNode(expr: Expr)
    | OtherNode

  datatype Expr = Expr(kind: ExprKind, span: Span)

  datatype ExprKind =
    | BlockExpr(block: Block, labelName: Option<string>)
    | Call(callee: Expr, args: seq<Expr>)
    | Lit
    | Path(name: string)
    | OtherExpr

  /** A brace-delimited block: its statements and its optional trailing expression. */
  datatype Block = Block(stmts: seq<Stmt>, expr: Option<Expr>)

  datatype Stmt =
    | Local(name: string, init: Option<Expr>)   // `let name = init;`
    | ItemStmt(item: HirId)                      // a nested item declaration
    | ExprStmt(expr: Expr)                       // a block-like expression without `;`
    | Semi(expr: Expr)                           // an expression followed by `;`

  /** The body of a function or constant. */
  datatype Body = Body(params: seq<string>, value: Expr)

  /**
   * What the lint reads from the type context: the `drop` lang item (absent
   * in a crate that does not define it), the HIR map and the body table.
   */
  datatype LateContext = LateContext(
    dropTrait: Option<DefId>,
    hir: map<HirId, Node>,
    bodies: map<BodyId, Body>)
  {
    /** `hir().find`: the node with this id, if the map has one. */
    function Find(id: HirId): (r: Option<Node>)
      ensures r.Some? <==> id in hir
      ensures r.Some? ==> r.value == hir[id]
    {
      if id in hir then Some(hir[id]) else None
    }

    /** `hir().body`: rustc treats this lookup as total, so callers must know the id is present. */
    function BodyOf(b: BodyId): (r: Body)
      requires b in bodies
      ensures r == bodies[b]
    {
      bodies[b]
    }
  }
}
