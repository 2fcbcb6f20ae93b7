/** `ContractDecompiler` of `xian_py/decompiler.py`: a first pass that
    collects the names of ORM variables, then a tree rewrite that undoes the
    compiler's name mangling. Every `visit_*` method first rewrites the
    node's children (`generic_visit`) and then applies its own rule to the
    node, so each rule below sees children that are already rewritten. */
module Decompiler {
  import opened Outcomes
  import opened PyText
  import opened PyNumbers
  import opened Ast

  /* ------------------------------------------------------ local rules */

  /** `visit_Name`: a name starting with `__` loses those two characters.
      Both branches of the source do the same, whether or not the shortened
      name is an ORM variable. */
  function VisitName(ormVars: set<string>, id: string): (r: string)
    ensures StartsWith(id, "__") ==> id == "__" + r
    ensures !StartsWith(id, "__") ==> r == id
  {
    if StartsWith(id, "__") && id[2..] in ormVars then id[2..]
    else if StartsWith(id, "__") then id[2..]
    else id
  }

  lemma VisitNameIgnoresOrmVars(o1: set<string>, o2: set<string>, id: string)
    ensures VisitName(o1, id) == VisitName(o2, id)
  {
  }

  /** `float(value)` for the value of a constant: a string must be a
      numeral (ValueError otherwise), an integer must be within the range of
      a double (OverflowError otherwise), `None` raises TypeError. */
  function FloatOf(c: Const): (r: Result<FloatLit>)
    ensures r == Raise(ValueError) <==> c.CStr? && !ParsesAsFloat(c.s)
    ensures r == Raise(OverflowError) <==> c.CInt? && !IntFitsFloat(c.i)
    ensures r == Raise(TypeError) <==> c.CNone?
    ensures c.CStr? && r.Ok? ==> r.value == Decimal(c.s)
  {
    match c
    case CStr(s) => if ParsesAsFloat(s) then Ok(Decimal(s)) else Raise(ValueError)
    case CInt(i) => if IntFitsFloat(i) then Ok(Integral(i)) else Raise(OverflowError)
    case CBool(b) => Ok(Integral(if b then 1 else 0))
    case CNone => Raise(TypeError)
    case CFloat(f) => Ok(f)
  }

  predicate IsDecimalCall(func: Expr, args: seq<Expr>) {
    func.Name? && func.id == "decimal" && |args| == 1 && args[0].Constant?
  }

  /** `visit_Call` after the children: `decimal(<constant>)` becomes the
      number literal `float(<constant>)` (its keywords are dropped); when
      `float` raises ValueError the call is kept, any other exception
      propagates. Every other call is kept. */
  function VisitCall(func: Expr, args: seq<Expr>, kws: seq<Keyword>): (r: Result<Expr>)
    ensures !IsDecimalCall(func, args) ==> r == Ok(Call(func, args, kws))
    ensures IsDecimalCall(func, args) ==>
      && (args[0].value.CStr? && ParsesAsFloat(args[0].value.s) ==>
            r == Ok(Constant(CFloat(Decimal(args[0].value.s)))))
      && (args[0].value.CStr? && !ParsesAsFloat(args[0].value.s) ==> r == Ok(Call(func, args, kws)))
      && (args[0].value.CNone? ==> r == Raise(TypeError))
      && (args[0].value.CInt? && IntFitsFloat(args[0].value.i) ==>
            r == Ok(Constant(CFloat(Integral(args[0].value.i)))))
      && (args[0].value.CInt? && !IntFitsFloat(args[0].value.i) ==> r == Raise(OverflowError))
      && (args[0].value.CFloat? ==> r == Ok(Constant(args[0].value)))
  {
    if IsDecimalCall(func, args) then
      match FloatOf(args[0].value)
      case Ok(f) => Ok(Constant(CFloat(f)))
      case Raise(e) => if e == ValueError then Ok(Call(func, args, kws)) else Raise(e)
    else Ok(Call(func, args, kws))
  }

  predicate HasKeyword(kws: seq<Keyword>, name: string) {
    exists k | k in kws :: k.arg == Some(name)
  }

  /** `[kw for kw in keywords if kw.arg == 'default_value']` */
  function DefaultValueKeywords(kws: seq<Keyword>): (r: seq<Keyword>)
    ensures forall k | k in r :: k in kws && k.arg == Some("default_value")
    ensures forall k | k in kws && k.arg == Some("default_value") :: k in r
    ensures |r| <= |kws|
  {
    if kws == [] then []
    else
      assert forall k | k in kws :: k == kws[0] || k in kws[1..];
      (if kws[0].arg == Some("default_value") then [kws[0]] else []) + DefaultValueKeywords(kws[1..])
  }

  /** The filter keeps the original order: it distributes over
      concatenation. */
  lemma {:induction false} DefaultValueKeywordsAppend(a: seq<Keyword>, b: seq<Keyword>)
    ensures DefaultValueKeywords(a + b) == DefaultValueKeywords(a) + DefaultValueKeywords(b)
  {
    if a == [] {
      assert a + b == b;
    } else {
      assert (a + b)[0] == a[0] && (a + b)[1..] == a[1..] + b;
      DefaultValueKeywordsAppend(a[1..], b);
    }
  }

  /** An ORM declaration: a call on a plain name with a `contract` keyword. */
  predicate IsOrmDeclaration(v: Expr) {
    v.Call? && v.func.Name? && HasKeyword(v.keywords, "contract")
  }

  /** `visit_Assign` after the children: an ORM declaration keeps only its
      `default_value` keywords. */
  function VisitAssign(targets: seq<Expr>, value: Expr): (r: Stmt)
    ensures r.Assign? && r.targets == targets
    ensures IsOrmDeclaration(value) ==>
      r.value == value.(keywords := DefaultValueKeywords(value.keywords))
    ensures !IsOrmDeclaration(value) ==> r.value == value
    ensures !IsOrmDeclaration(r.value)
  {
    if value.Call? && value.func.Name? && HasKeyword(value.keywords, "contract") then
      Assign(targets, value.(keywords := DefaultValueKeywords(value.keywords)))
    else Assign(targets, value)
  }

  /** `export(<constant>)`: the call form of the export decorator. */
  predicate IsExportCall(d: Expr) {
    d.Call? && d.func.Name? && d.func.id == "export" && |d.args| == 1 && d.args[0].Constant?
  }

  /** The rule for the first decorator of a function that is not `____`. */
  function FirstDecoratorRule(decs: seq<Expr>): (r: seq<Expr>)
    ensures decs == [] ==> r == []
    ensures decs != [] && IsExportCall(decs[0]) ==> r == [Name("export")]
    ensures decs != [] && decs[0].Call? && !IsExportCall(decs[0]) ==> r == decs
    ensures decs != [] && decs[0].Name? ==>
      r == decs[0 := Name(if StartsWith(decs[0].id, "__") then decs[0].id[2..] else decs[0].id)]
    ensures decs != [] && !decs[0].Call? && !decs[0].Name? ==> r == decs
  {
    if decs == [] then decs
    else match decs[0]
      case Call(_, _, _) => if IsExportCall(decs[0]) then [Name("export")] else decs
      case Name(id) => if StartsWith(id, "__") then decs[0 := Name(id[2..])] else decs
      case _ => decs
  }

  /** `visit_FunctionDef` after the children. */
  function VisitFunctionDef(name: string, params: seq<string>, signature: seq<Expr>, body: seq<Stmt>, decs: seq<Expr>): (r: Stmt)
    ensures r.FunctionDef? && r.params == params && r.signature == signature && r.body == body
    ensures name == "____" ==> r.name == "seed" && r.decorators == [Name("construct")]
    ensures name != "____" ==> r.decorators == FirstDecoratorRule(decs)
    ensures name != "____" && StartsWith(name, "__") ==> name == "__" + r.name
    ensures name != "____" && !StartsWith(name, "__") ==> r.name == name
  {
    if name == "____" then FunctionDef("seed", params, signature, body, [Name("construct")])
    else
      var decs' := FirstDecoratorRule(decs);
      var name' := if StartsWith(name, "__") then name[2..] else name;
      FunctionDef(name', params, signature, body, decs')
  }

  /* ---------------------------------------------------- the whole tree */

  function RewriteExpr(o: set<string>, e: Expr): Result<Expr> {
    match e
    case Name(id) => Ok(Name(VisitName(o, id)))
    case Constant(_) => Ok(e)
    case Call(func, args, kws) =>
      var func' :- RewriteExpr(o, func);
      var args' :- RewriteExprs(o, args);
      var kws' :- RewriteKeywords(o, kws);
      VisitCall(func', args', kws')
    case Subscript(b, sl) =>
      var b' :- RewriteExpr(o, b);
      var sl' :- RewriteExpr(o, sl);
      Ok(Subscript(b', sl'))
    case OtherExpr(cs) =>
      var cs' :- RewriteExprs(o, cs);
      Ok(OtherExpr(cs'))
  }

  function RewriteExprs(o: set<string>, es: seq<Expr>): Result<seq<Expr>> {
    if es == [] then Ok([])
    else
      var h :- RewriteExpr(o, es[0]);
      var t :- RewriteExprs(o, es[1..]);
      Ok([h] + t)
  }

  function RewriteKeyword(o: set<string>, k: Keyword): Result<Keyword> {
    var v :- RewriteExpr(o, k.value);
    Ok(Keyword(k.arg, v))
  }

  function RewriteKeywords(o: set<string>, ks: seq<Keyword>): Result<seq<Keyword>> {
    if ks == [] then Ok([])
    else
      var h :- RewriteKeyword(o, ks[0]);
      var t :- RewriteKeywords(o, ks[1..]);
      Ok([h] + t)
  }

  function RewriteStmt(o: set<string>, s: Stmt): Result<Stmt> {
    match s
    case FunctionDef(name, params, sig, body, decs) =>
      var sig' :- RewriteExprs(o, sig);
      var body' :- RewriteStmts(o, body);
      var decs' :- RewriteExprs(o, decs);
      Ok(VisitFunctionDef(name, params, sig', body', decs'))
    case Assign(ts, v) =>
      var ts' :- RewriteExprs(o, ts);
      var v' :- RewriteExpr(o, v);
      Ok(VisitAssign(ts', v'))
    case OtherStmt(es, body) =>
      var es' :- RewriteExprs(o, es);
      var body' :- RewriteStmts(o, body);
      Ok(OtherStmt(es', body'))
  }

  function RewriteStmts(o: set<string>, ss: seq<Stmt>): Result<seq<Stmt>> {
    if ss == [] then Ok([])
    else
      var h :- RewriteStmt(o, ss[0]);
      var t :- RewriteStmts(o, ss[1..]);
      Ok([h] + t)
  }

  /** `self.visit(tree)` on the module. */
  function Rewrite(o: set<string>, m: Module): Result<Module> {
    var body :- RewriteStmts(o, m.body);
    Ok(Module(body))
  }

  /* ------------------------------------------ the ORM registry is unused */

  /** The rewrite does not depend on which ORM variables were collected. */
  lemma {:induction false} RewriteIgnoresOrmVars(o1: set<string>, o2: set<string>, m: Module)
    ensures Rewrite(o1, m) == Rewrite(o2, m)
  {
    StmtsIgnoreOrmVars(o1, o2, m.body);
  }

  lemma {:induction false} ExprIgnoresOrmVars(o1: set<string>, o2: set<string>, e: Expr)
    ensures RewriteExpr(o1, e) == RewriteExpr(o2, e)
  {
    match e
    case Name(id) => VisitNameIgnoresOrmVars(o1, o2, id);
    case Constant(_) =>
    case Call(func, args, kws) =>
      ExprIgnoresOrmVars(o1, o2, func);
      ExprsIgnoreOrmVars(o1, o2, args);
      KeywordsIgnoreOrmVars(o1, o2, kws);
    case Subscript(b, sl) =>
      ExprIgnoresOrmVars(o1, o2, b);
      ExprIgnoresOrmVars(o1, o2, sl);
    case OtherExpr(cs) =>
      ExprsIgnoreOrmVars(o1, o2, cs);
  }

  lemma {:induction false} ExprsIgnoreOrmVars(o1: set<string>, o2: set<string>, es: seq<Expr>)
    ensures RewriteExprs(o1, es) == RewriteExprs(o2, es)
  {
    if es != [] {
      ExprIgnoresOrmVars(o1, o2, es[0]);
      ExprsIgnoreOrmVars(o1, o2, es[1..]);
    }
  }

  lemma {:induction false} KeywordIgnoresOrmVars(o1: set<string>, o2: set<string>, k: Keyword)
    ensures RewriteKeyword(o1, k) == RewriteKeyword(o2, k)
  {
    ExprIgnoresOrmVars(o1, o2, k.value);
  }

  lemma {:induction false} KeywordsIgnoreOrmVars(o1: set<string>, o2: set<string>, ks: seq<Keyword>)
    ensures RewriteKeywords(o1, ks) == RewriteKeywords(o2, ks)
  {
    if ks != [] {
      KeywordIgnoresOrmVars(o1, o2, ks[0]);
      KeywordsIgnoreOrmVars(o1, o2, ks[1..]);
    }
  }

  lemma {:induction false} StmtIgnoresOrmVars(o1: set<string>, o2: set<string>, s: Stmt)
    ensures RewriteStmt(o1, s) == RewriteStmt(o2, s)
  {
    match s
    case FunctionDef(_, _, sig, body, decs) =>
      ExprsIgnoreOrmVars(o1, o2, sig);
      StmtsIgnoreOrmVars(o1, o2, body);
      ExprsIgnoreOrmVars(o1, o2, decs);
    case Assign(ts, v) =>
      ExprsIgnoreOrmVars(o1, o2, ts);
      ExprIgnoresOrmVars(o1, o2, v);
    case OtherStmt(es, body) =>
      ExprsIgnoreOrmVars(o1, o2, es);
      StmtsIgnoreOrmVars(o1, o2, body);
  }

  lemma {:induction false} StmtsIgnoreOrmVars(o1: set<string>, o2: set<string>, ss: seq<Stmt>)
    ensures RewriteStmts(o1, ss) == RewriteStmts(o2, ss)
  {
    if ss != [] {
      StmtIgnoresOrmVars(o1, o2, ss[0]);
      StmtsIgnoreOrmVars(o1, o2, ss[1..]);
    }
  }

  /* --------------------------------- no ORM bookkeeping keyword is left */

  /** No assignment anywhere in the statements is an ORM declaration (a
      call on a plain name with a `contract` keyword). */
  predicate NoOrmDeclarations(ss: seq<Stmt>) {
    forall s | s in Flatten(ss) :: s.Assign? ==> !IsOrmDeclaration(s.value)
  }

  lemma {:induction false} RewriteLeavesNoOrmDeclarations(o: set<string>, m: Module)
    ensures Rewrite(o, m).Ok? ==> NoOrmDeclarations(Rewrite(o, m).value.body)
  {
    StmtsLeaveNoOrmDeclarations(o, m.body);
  }

  lemma {:induction false} StmtLeavesNoOrmDeclarations(o: set<string>, s: Stmt)
    ensures RewriteStmt(o, s).Ok? ==> NoOrmDeclarations([RewriteStmt(o, s).value])
  {
    if RewriteStmt(o, s).Ok? {
      var r := RewriteStmt(o, s).value;
      assert [r][1..] == [];
      match s
      case FunctionDef(_, _, _, body, _) =>
        StmtsLeaveNoOrmDeclarations(o, body);
      case Assign(_, _) =>
      case OtherStmt(_, body) =>
        StmtsLeaveNoOrmDeclarations(o, body);
    }
  }

  lemma {:induction false} StmtsLeaveNoOrmDeclarations(o: set<string>, ss: seq<Stmt>)
    ensures RewriteStmts(o, ss).Ok? ==> NoOrmDeclarations(RewriteStmts(o, ss).value)
  {
    if ss != [] && RewriteStmts(o, ss).Ok? {
      var h, t := RewriteStmt(o, ss[0]).value, RewriteStmts(o, ss[1..]).value;
      StmtLeavesNoOrmDeclarations(o, ss[0]);
      StmtsLeaveNoOrmDeclarations(o, ss[1..]);
      FlattenAppend([h], t);
    }
  }

  /* ------------------------------------------------------- idempotence */

  /** Stripping `__` once leaves no `__` in front, unless the name started
      with `____`. */
  lemma StripOnce(id: string)
    requires !StartsWith(id, "____")
    ensures StartsWith(id, "__") ==> !StartsWith(id[2..], "__")
  {
    if StartsWith(id, "__") && |id| >= 4 {
      assert id[..4] == id[..2] + id[2..4];
      assert id[2..][..2] == id[2..4];
    }
  }

  /** Source the compiler could have produced from a readable contract: no
      name and no function name (other than the constructor `____` itself)
      starts with four underscores. */
  predicate CleanExpr(e: Expr) {
    match e
    case Name(id) => !StartsWith(id, "____")
    case Constant(_) => true
    case Call(func, args, kws) =>
      CleanExpr(func) && (forall a | a in args :: CleanExpr(a)) && forall k | k in kws :: CleanKeyword(k)
    case Subscript(b, sl) => CleanExpr(b) && CleanExpr(sl)
    case OtherExpr(cs) => forall c | c in cs :: CleanExpr(c)
  }

  predicate CleanKeyword(k: Keyword) {
    CleanExpr(k.value)
  }

  predicate CleanStmt(s: Stmt) {
    match s
    case FunctionDef(name, _, sig, body, decs) =>
      && (name == "____" || !StartsWith(name, "____"))
      && (forall e | e in sig :: CleanExpr(e))
      && (forall t | t in body :: CleanStmt(t))
      && (forall e | e in decs :: CleanExpr(e))
    case Assign(ts, v) => (forall e | e in ts :: CleanExpr(e)) && CleanExpr(v)
    case OtherStmt(es, body) => (forall e | e in es :: CleanExpr(e)) && forall t | t in body :: CleanStmt(t)
  }

  /** What the rewrite leaves behind: no name and no function name starts
      with `__`, every `decimal(<constant>)` left is one whose constant
      `float` rejects, no assignment is an ORM declaration, and no function
      starts its decorators with `export(<constant>)`. */
  predicate NormalExpr(e: Expr) {
    match e
    case Name(id) => !StartsWith(id, "__")
    case Constant(_) => true
    case Call(func, args, kws) =>
      && NormalExpr(func) && (forall a | a in args :: NormalExpr(a)) && (forall k | k in kws :: NormalKeyword(k))
      && (IsDecimalCall(func, args) ==> FloatOf(args[0].value) == Raise(ValueError))
    case Subscript(b, sl) => NormalExpr(b) && NormalExpr(sl)
    case OtherExpr(cs) => forall c | c in cs :: NormalExpr(c)
  }

  predicate NormalKeyword(k: Keyword) {
    NormalExpr(k.value)
  }

  predicate NormalStmt(s: Stmt) {
    match s
    case FunctionDef(name, _, sig, body, decs) =>
      && !StartsWith(name, "__")
      && (forall e | e in sig :: NormalExpr(e))
      && (forall t | t in body :: NormalStmt(t))
      && (forall e | e in decs :: NormalExpr(e))
      && (decs != [] ==> !IsExportCall(decs[0]))
    case Assign(ts, v) => (forall e | e in ts :: NormalExpr(e)) && NormalExpr(v) && !IsOrmDeclaration(v)
    case OtherStmt(es, body) => (forall e | e in es :: NormalExpr(e)) && forall t | t in body :: NormalStmt(t)
  }

  /* Clean input is rewritten to normal output. */

  lemma {:induction false} ExprBecomesNormal(o: set<string>, e: Expr)
    requires CleanExpr(e)
    ensures RewriteExpr(o, e).Ok? ==> NormalExpr(RewriteExpr(o, e).value)
  {
    match e
    case Name(id) => StripOnce(id);
    case Constant(_) =>
    case Call(func, args, kws) =>
      ExprBecomesNormal(o, func);
      ExprsBecomeNormal(o, args);
      KeywordsBecomeNormal(o, kws);
    case Subscript(b, sl) =>
      ExprBecomesNormal(o, b);
      ExprBecomesNormal(o, sl);
    case OtherExpr(cs) =>
      ExprsBecomeNormal(o, cs);
  }

  lemma {:induction false} ExprsBecomeNormal(o: set<string>, es: seq<Expr>)
    requires forall e | e in es :: CleanExpr(e)
    ensures RewriteExprs(o, es).Ok? ==> forall e | e in RewriteExprs(o, es).value :: NormalExpr(e)
  {
    if es != [] {
      assert es[0] in es;
      ExprBecomesNormal(o, es[0]);
      ExprsBecomeNormal(o, es[1..]);
    }
  }

  lemma {:induction false} KeywordBecomesNormal(o: set<string>, k: Keyword)
    requires CleanKeyword(k)
    ensures RewriteKeyword(o, k).Ok? ==> NormalKeyword(RewriteKeyword(o, k).value)
  {
    ExprBecomesNormal(o, k.value);
  }

  lemma {:induction false} KeywordsBecomeNormal(o: set<string>, ks: seq<Keyword>)
    requires forall k | k in ks :: CleanKeyword(k)
    ensures RewriteKeywords(o, ks).Ok? ==> forall k | k in RewriteKeywords(o, ks).value :: NormalKeyword(k)
  {
    if ks != [] {
      assert ks[0] in ks;
      KeywordBecomesNormal(o, ks[0]);
      KeywordsBecomeNormal(o, ks[1..]);
    }
  }

  lemma {:induction false} StmtBecomesNormal(o: set<string>, s: Stmt)
    requires CleanStmt(s)
    ensures RewriteStmt(o, s).Ok? ==> NormalStmt(RewriteStmt(o, s).value)
  {
    match s
    case FunctionDef(name, _, sig, body, decs) =>
      ExprsBecomeNormal(o, sig);
      StmtsBecomeNormal(o, body);
      ExprsBecomeNormal(o, decs);
      if name != "____" {
        StripOnce(name);
        var r := RewriteStmt(o, s);
        if r.Ok? {
          if StartsWith(name, "__") {
            assert r.value.name == name[2..];
          }
          var decs' := RewriteExprs(o, decs).value;
          assert "export"[..2] == "ex";
          if decs' != [] && decs'[0].Name? {
            assert decs'[0] in decs';
            assert decs'[0 := decs'[0]] == decs';
          }
        }
      } else {
        assert "seed"[..2] == "se" && "construct"[..2] == "co";
      }
    case Assign(ts, v) =>
      ExprsBecomeNormal(o, ts);
      ExprBecomesNormal(o, v);
    case OtherStmt(es, body) =>
      ExprsBecomeNormal(o, es);
      StmtsBecomeNormal(o, body);
  }

  lemma {:induction false} StmtsBecomeNormal(o: set<string>, ss: seq<Stmt>)
    requires forall s | s in ss :: CleanStmt(s)
    ensures RewriteStmts(o, ss).Ok? ==> forall s | s in RewriteStmts(o, ss).value :: NormalStmt(s)
  {
    if ss != [] {
      assert ss[0] in ss;
      StmtBecomesNormal(o, ss[0]);
      StmtsBecomeNormal(o, ss[1..]);
    }
  }

  /* Normal trees are left as they are. */

  lemma {:induction false} NormalExprFixed(o: set<string>, e: Expr)
    requires NormalExpr(e)
    ensures RewriteExpr(o, e) == Ok(e)
  {
    match e
    case Name(id) =>
    case Constant(_) =>
    case Call(func, args, kws) =>
      NormalExprFixed(o, func);
      NormalExprsFixed(o, args);
      NormalKeywordsFixed(o, kws);
    case Subscript(b, sl) =>
      NormalExprFixed(o, b);
      NormalExprFixed(o, sl);
    case OtherExpr(cs) =>
      NormalExprsFixed(o, cs);
  }

  lemma {:induction false} NormalExprsFixed(o: set<string>, es: seq<Expr>)
    requires forall e | e in es :: NormalExpr(e)
    ensures RewriteExprs(o, es) == Ok(es)
  {
    if es != [] {
      assert es[0] in es;
      NormalExprFixed(o, es[0]);
      NormalExprsFixed(o, es[1..]);
      assert [es[0]] + es[1..] == es;
    }
  }

  lemma {:induction false} NormalKeywordFixed(o: set<string>, k: Keyword)
    requires NormalKeyword(k)
    ensures RewriteKeyword(o, k) == Ok(k)
  {
    NormalExprFixed(o, k.value);
  }

  lemma {:induction false} NormalKeywordsFixed(o: set<string>, ks: seq<Keyword>)
    requires forall k | k in ks :: NormalKeyword(k)
    ensures RewriteKeywords(o, ks) == Ok(ks)
  {
    if ks != [] {
      assert ks[0] in ks;
      NormalKeywordFixed(o, ks[0]);
      NormalKeywordsFixed(o, ks[1..]);
      assert [ks[0]] + ks[1..] == ks;
    }
  }

  lemma {:induction false} NormalStmtFixed(o: set<string>, s: Stmt)
    requires NormalStmt(s)
    ensures RewriteStmt(o, s) == Ok(s)
  {
    match s
    case FunctionDef(name, _, sig, body, decs) =>
      NormalExprsFixed(o, sig);
      NormalStmtsFixed(o, body);
      NormalExprsFixed(o, decs);
      if decs != [] && decs[0].Name? {
        assert decs[0] in decs;
        assert decs[0 := decs[0]] == decs;
      }
    case Assign(ts, v) =>
      NormalExprsFixed(o, ts);
      NormalExprFixed(o, v);
    case OtherStmt(es, body) =>
      NormalExprsFixed(o, es);
      NormalStmtsFixed(o, body);
  }

  lemma {:induction false} NormalStmtsFixed(o: set<string>, ss: seq<Stmt>)
    requires forall s | s in ss :: NormalStmt(s)
    ensures RewriteStmts(o, ss) == Ok(ss)
  {
    if ss != [] {
      assert ss[0] in ss;
      NormalStmtFixed(o, ss[0]);
      NormalStmtsFixed(o, ss[1..]);
      assert [ss[0]] + ss[1..] == ss;
    }
  }

  /** Decompiling clean source a second time changes nothing, whatever ORM
      variables either pass collected. */
  lemma {:induction false} RewriteIdempotent(o1: set<string>, o2: set<string>, m: Module)
    requires forall s | s in m.body :: CleanStmt(s)
    requires Rewrite(o1, m).Ok?
    ensures Rewrite(o2, Rewrite(o1, m).value) == Rewrite(o1, m)
  {
    StmtsBecomeNormal(o1, m.body);
    NormalStmtsFixed(o2, Rewrite(o1, m).value.body);
  }

  /** Without clean input a second pass does change the tree: `____x` is
      stripped once per pass. */
  lemma RewriteNotIdempotentOnFourUnderscores()
    ensures RewriteExpr({}, Name("____x")) == Ok(Name("__x"))
    ensures RewriteExpr({}, Name("__x")) == Ok(Name("x"))
  {
    assert StartsWith("____x", "__") && "____x"[2..] == "__x";
    assert StartsWith("__x", "__") && "__x"[2..] == "x";
  }

  /* -------------------------------------------- collecting ORM variables */

  /** `next(kw for kw in keywords if kw.arg == 'name')`: the first keyword
      called `name`, None where the generator is exhausted. */
  function NameKeyword(kws: seq<Keyword>): (r: Option<Keyword>)
    ensures r.None? <==> forall k | k in kws :: k.arg != Some("name")
    ensures r.Some? ==> exists i | 0 <= i < |kws| :: kws[i] == r.value && r.value.arg == Some("name")
                          && forall j | 0 <= j < i :: kws[j].arg != Some("name")
  {
    if kws == [] then None
    else if kws[0].arg == Some("name") then Some(kws[0])
    else
      var r := NameKeyword(kws[1..]);
      assert forall k | k in kws :: k == kws[0] || k in kws[1..];
      if r.Some? then
        ghost var i :| 0 <= i < |kws[1..]| && kws[1..][i] == r.value && r.value.arg == Some("name")
                       && forall j | 0 <= j < i :: kws[1..][j].arg != Some("name");
        assert kws[i + 1] == r.value && forall j | 0 <= j < i + 1 :: kws[j].arg != Some("name");
        r
      else r
  }

  /** An ORM declaration without a `name` keyword: `next` raises StopIteration. */
  predicate MissingNameKeyword(s: Stmt) {
    s.Assign? && IsOrmDeclaration(s.value) && NameKeyword(s.value.keywords).None?
  }

  /** An ORM declaration whose `name` keyword is the string `x`. */
  predicate DeclaresOrmName(s: Stmt, x: string) {
    && s.Assign? && IsOrmDeclaration(s.value)
    && NameKeyword(s.value.keywords).Some?
    && NameKeyword(s.value.keywords).value.value == Constant(CStr(x))
  }

  /** The names one statement contributes. */
  function OrmName(s: Stmt): (r: Result<set<string>>)
    ensures r.Raise? <==> MissingNameKeyword(s)
    ensures r.Raise? ==> r.exc == StopIteration
    ensures r.Ok? ==> forall x :: x in r.value <==> DeclaresOrmName(s, x)
  {
    if s.Assign? && IsOrmDeclaration(s.value) then
      match NameKeyword(s.value.keywords)
      case None => Raise(StopIteration)
      case Some(k) => if k.value.Constant? && k.value.value.CStr? then Ok({k.value.value.s}) else Ok({})
    else Ok({})
  }

  /** The names the statements contribute, in order; the first declaration
      without a `name` keyword stops the walk. */
  function OrmNames(ss: seq<Stmt>): Result<set<string>> {
    if ss == [] then Ok({})
    else
      var a :- OrmNames(ss[..|ss| - 1]);
      var b :- OrmName(ss[|ss| - 1]);
      Ok(a + b)
  }

  /** The walk succeeds exactly when every ORM declaration has a `name`
      keyword, and then collects exactly the string names declared. */
  lemma {:induction false} OrmNamesMeaning(ss: seq<Stmt>)
    ensures OrmNames(ss).Ok? <==> forall s | s in ss :: !MissingNameKeyword(s)
    ensures OrmNames(ss).Raise? ==> OrmNames(ss).exc == StopIteration
    ensures OrmNames(ss).Ok? ==> forall x :: x in OrmNames(ss).value <==> exists s | s in ss :: DeclaresOrmName(s, x)
  {
    if ss != [] {
      var init, last := ss[..|ss| - 1], ss[|ss| - 1];
      assert ss == init + [last];
      assert forall s | s in ss :: s in init || s == last;
      OrmNamesMeaning(init);
    }
  }

  lemma {:induction false} OrmNamesPrefixRaises(ss: seq<Stmt>, i: nat)
    requires i <= |ss|
    requires OrmNames(ss[..i]).Raise?
    ensures OrmNames(ss) == OrmNames(ss[..i])
    decreases |ss| - i
  {
    if i < |ss| {
      assert ss[..i + 1][..i] == ss[..i];
      OrmNamesPrefixRaises(ss, i + 1);
    } else {
      assert ss[..i] == ss;
    }
  }

  /** `decompile` without the parser and the printer: collect, then rewrite
      (the collected names do not matter, see `RewriteIgnoresOrmVars`). */
  function DecompileTree(parsed: Result<Module>): Result<Module> {
    var m :- parsed;
    var _ :- OrmNames(Flatten(m.body));
    Rewrite({}, m)
  }

  class ContractDecompiler {
    var contractName: Option<string>
    var ormVars: set<string>

    constructor ()
      ensures contractName == None && ormVars == {}
    {
      contractName := None;
      ormVars := {};
    }

    /** `collect_orm_vars`: walks every statement of the module; the names
        are added to what earlier calls collected. */
    method CollectOrmVars(m: Module) returns (r: Result<()>)
      modifies this
      ensures contractName == old(contractName)
      ensures r.Ok? <==> OrmNames(Flatten(m.body)).Ok?
      ensures r.Raise? ==> r.exc == StopIteration
      ensures r.Ok? ==> ormVars == old(ormVars) + OrmNames(Flatten(m.body)).value
      ensures old(ormVars) <= ormVars
    {
      var flat := Flatten(m.body);
      var i := 0;
      while i < |flat|
        invariant 0 <= i <= |flat|
        invariant contractName == old(contractName)
        invariant OrmNames(flat[..i]).Ok?
        invariant ormVars == old(ormVars) + OrmNames(flat[..i]).value
      {
        var s := flat[i];
        assert flat[..i + 1][..i] == flat[..i] && flat[..i + 1][i] == s;
        if s.Assign? && IsOrmDeclaration(s.value) {
          var kw := NameKeyword(s.value.keywords);
          if kw.None? {
            OrmNamesPrefixRaises(flat, i + 1);
            return Raise(StopIteration);
          }
          if kw.value.value.Constant? && kw.value.value.value.CStr? {
            ormVars := ormVars + {kw.value.value.value.s};
          }
        }
        i := i + 1;
      }
      assert flat[..i] == flat;
      return Ok(());
    }

    /** `decompile` on the outcome of `ast.parse`: a syntax error propagates,
        then the names are collected and the tree is rewritten. */
    method Decompile(parsed: Result<Module>) returns (r: Result<Module>)
      modifies this
      ensures r == DecompileTree(parsed)
      ensures contractName == old(contractName)
      ensures parsed.Raise? ==> ormVars == old(ormVars)
      ensures parsed.Ok? && OrmNames(Flatten(parsed.value.body)).Ok? ==>
        ormVars == old(ormVars) + OrmNames(Flatten(parsed.value.body)).value
      ensures old(ormVars) <= ormVars
    {
      if parsed.Raise? {
        return Raise(parsed.exc);
      }
      var m := parsed.value;
      var collected := CollectOrmVars(m);
      if collected.Raise? {
        OrmNamesMeaning(Flatten(m.body));
        return Raise(collected.exc);
      }
      RewriteIgnoresOrmVars(ormVars, {}, m);
      r := Rewrite(ormVars, m);
    }
  }
}
