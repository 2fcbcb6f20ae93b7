/** The fragment of Python's syntax tree (`ast` module) that the decompiler
    and the token-standard validator look at. Every other node is kept as a
    generic node holding its children in field order, so that a walk over
    the tree still reaches them. */
module Ast {
  import opened Outcomes

  /** The number a `float(...)` call produced, kept symbolically: from the
      text it parsed, or from an integer. */
  datatype FloatLit = Decimal(text: string) | Integral(i: int)

  /** The payload of an `ast.Constant`. */
  datatype Const =
    | CStr(s: string)
    | CInt(i: int)
    | CBool(b: bool)
    | CNone
    | CFloat(f: FloatLit)

  datatype Expr =
    | Name(id: string)
    | Constant(value: Const)
    | Call(func: Expr, args: seq<Expr>, keywords: seq<Keyword>)
    | Subscript(base: Expr, slice: Expr)
      /** Any other expression (attribute, operator, list display, ...):
          its sub-expressions in field order. */
    | OtherExpr(children: seq<Expr>)

  /** `ast.keyword`: `arg` is None for `**kwargs`. */
  datatype Keyword = Keyword(arg: Option<string>, value: Expr)

  datatype Stmt =
      /** `ast.FunctionDef`: the names of the positional parameters, the
          expressions inside the signature (defaults and annotations), the
          body and the decorator list. */
    | FunctionDef(name: string, params: seq<string>, signature: seq<Expr>, body: seq<Stmt>, decorators: seq<Expr>)
    | Assign(targets: seq<Expr>, value: Expr)
      /** Any other statement: its expressions, then its nested statements. */
    | OtherStmt(exprs: seq<Expr>, body: seq<Stmt>)

  datatype Module = Module(body: seq<Stmt>)

  /** Every statement of `ss` and, recursively, of their bodies, in the order
      a depth-first visit meets them. */
  function Flatten(ss: seq<Stmt>): (r: seq<Stmt>)
    ensures |r| >= |ss|
    ensures forall s | s in ss :: s in r
  {
    if ss == [] then []
    else
      var r := FlattenStmt(ss[0]) + Flatten(ss[1..]);
      assert forall s | s in ss :: s == ss[0] || s in ss[1..];
      r
  }

  function FlattenStmt(s: Stmt): (r: seq<Stmt>)
    ensures |r| >= 1 && r[0] == s
  {
    match s
    case FunctionDef(_, _, _, body, _) => [s] + Flatten(body)
    case Assign(_, _) => [s]
    case OtherStmt(_, body) => [s] + Flatten(body)
  }

  lemma {:induction false} FlattenAppend(a: seq<Stmt>, b: seq<Stmt>)
    ensures Flatten(a + b) == Flatten(a) + Flatten(b)
  {
    if a == [] {
      assert a + b == b;
    } else {
      assert (a + b)[0] == a[0] && (a + b)[1..] == a[1..] + b;
      FlattenAppend(a[1..], b);
    }
  }
}
