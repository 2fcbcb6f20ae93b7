/** The XSC001 token-standard check of `xian_py/validator.py`: a visitor
    gathers facts about a contract's syntax tree (its variables, functions,
    constructor and metadata), and `validate` turns the facts into the list
    of ways the contract falls short of the standard. */
module Validator {
  import opened Outcomes
  import opened Ast

  /* ------------------------------------------------------- the facts */

  /** What the visitor has gathered: names assigned from a call, functions
      with the names of their positional parameters, whether a constructor
      was seen, names assigned from `Hash(...)`, and the constant keys of
      `metadata[...] = ...` in a `seed` function. */
  datatype Facts = Facts(
    variables: set<string>,
    functions: map<string, set<string>>,
    hasConstructor: bool,
    hashVars: set<string>,
    metadata: set<Const>)

  const NoFacts := Facts({}, map[], false, {}, {})

  function ParamSet(params: seq<string>): (r: set<string>)
    ensures forall p :: p in r <==> p in params
  {
    set p | p in params
  }

  /* Statement by statement, what `visit_Assign` and `visit_FunctionDef`
     record. Evaluating `node.targets[0]` on an assignment without targets
     raises IndexError. */

  /** An assignment that records `x` as a variable. */
  predicate AssignsCallTo(s: Stmt, x: string) {
    s.Assign? && s.targets != [] && s.targets[0] == Name(x) && s.value.Call?
  }

  /** An assignment that records `x` as a Hash. */
  predicate AssignsHashTo(s: Stmt, x: string) {
    AssignsCallTo(s, x) && s.value.func == Name("Hash")
  }

  predicate HasConstructDecorator(s: Stmt) {
    s.FunctionDef? && Name("construct") in s.decorators
  }

  /** `metadata[c] = ...` */
  predicate MetadataAssignment(t: Stmt, c: Const) {
    && t.Assign? && t.targets != [] && t.targets[0].Subscript?
    && t.targets[0].base == Name("metadata") && t.targets[0].slice == Constant(c)
  }

  /** A `seed` function whose body assigns metadata field `c`. */
  predicate SetsMetadataField(s: Stmt, c: Const) {
    s.FunctionDef? && s.name == "seed" && exists t | t in s.body :: MetadataAssignment(t, c)
  }

  /** A statement on which the visitor raises IndexError. */
  predicate RaisesIndexError(s: Stmt) {
    || (s.Assign? && s.targets == [])
    || (s.FunctionDef? && s.name == "seed" && exists t | t in s.body :: t.Assign? && t.targets == [])
  }

  function AssignStep(f: Facts, s: Stmt): Result<Facts>
    requires s.Assign?
  {
    if s.targets == [] then Raise(IndexError)
    else if s.targets[0].Name? && s.value.Call? then
      var x := s.targets[0].id;
      Ok(f.(variables := f.variables + {x},
            hashVars := if s.value.func == Name("Hash") then f.hashVars + {x} else f.hashVars))
    else Ok(f)
  }

  /** The metadata keys one statement of `seed` contributes. */
  function MetadataStep(t: Stmt): Result<set<Const>> {
    if !t.Assign? then Ok({})
    else if t.targets == [] then Raise(IndexError)
    else if t.targets[0].Subscript? && t.targets[0].base == Name("metadata") && t.targets[0].slice.Constant? then
      Ok({t.targets[0].slice.value})
    else Ok({})
  }

  function MetadataOf(body: seq<Stmt>): Result<set<Const>> {
    if body == [] then Ok({})
    else
      var a :- MetadataOf(body[..|body| - 1]);
      var b :- MetadataStep(body[|body| - 1]);
      Ok(a + b)
  }

  lemma {:induction false} MetadataOfMeaning(body: seq<Stmt>)
    ensures MetadataOf(body).Ok? <==> forall t | t in body :: !(t.Assign? && t.targets == [])
    ensures MetadataOf(body).Raise? ==> MetadataOf(body) == Raise(IndexError)
    ensures MetadataOf(body).Ok? ==> forall c :: c in MetadataOf(body).value <==> exists t | t in body :: MetadataAssignment(t, c)
  {
    if body != [] {
      var init, last := body[..|body| - 1], body[|body| - 1];
      assert body == init + [last];
      assert forall t | t in body :: t in init || t == last;
      MetadataOfMeaning(init);
    }
  }

  function FunctionStep(f: Facts, s: Stmt): Result<Facts>
    requires s.FunctionDef?
  {
    var g := f.(functions := f.functions[s.name := ParamSet(s.params)],
                hasConstructor := f.hasConstructor || Name("construct") in s.decorators);
    if s.name == "seed" then
      var md :- MetadataOf(s.body);
      Ok(g.(metadata := g.metadata + md))
    else Ok(g)
  }

  function Step(f: Facts, s: Stmt): Result<Facts> {
    match s
    case Assign(_, _) => AssignStep(f, s)
    case FunctionDef(_, _, _, _, _) => FunctionStep(f, s)
    case OtherStmt(_, _) => Ok(f)
  }

  /** The facts after visiting `ss` in order, starting from `f`. */
  function Collect(f: Facts, ss: seq<Stmt>): Result<Facts> {
    if ss == [] then Ok(f)
    else
      var g :- Collect(f, ss[..|ss| - 1]);
      Step(g, ss[|ss| - 1])
  }

  lemma {:induction false} CollectPrefixRaises(f: Facts, ss: seq<Stmt>, i: nat)
    requires i <= |ss|
    requires Collect(f, ss[..i]).Raise?
    ensures Collect(f, ss) == Collect(f, ss[..i])
    decreases |ss| - i
  {
    if i < |ss| {
      assert ss[..i + 1][..i] == ss[..i];
      CollectPrefixRaises(f, ss, i + 1);
    } else {
      assert ss[..i] == ss;
    }
  }

  lemma StepMeaning(f: Facts, s: Stmt)
    ensures Step(f, s).Ok? <==> !RaisesIndexError(s)
    ensures Step(f, s).Raise? ==> Step(f, s) == Raise(IndexError)
    ensures Step(f, s).Ok? ==>
      var g := Step(f, s).value;
      && (forall x :: x in g.variables <==> x in f.variables || AssignsCallTo(s, x))
      && (forall x :: x in g.hashVars <==> x in f.hashVars || AssignsHashTo(s, x))
      && (g.hasConstructor <==> f.hasConstructor || HasConstructDecorator(s))
      && (forall c :: c in g.metadata <==> c in f.metadata || SetsMetadataField(s, c))
      && g.functions.Keys == f.functions.Keys + (if s.FunctionDef? then {s.name} else {})
      && (s.FunctionDef? ==> g.functions[s.name] == ParamSet(s.params))
      && (forall n | n in f.functions && !(s.FunctionDef? && s.name == n) :: g.functions[n] == f.functions[n])
  {
    if s.FunctionDef? && s.name == "seed" {
      MetadataOfMeaning(s.body);
    }
  }

  /** What visiting a sequence of statements gathers: it fails exactly
      when one of them raises IndexError, and otherwise each fact is the
      starting fact or comes from some statement. */
  lemma {:induction false} CollectMeaning(f: Facts, ss: seq<Stmt>)
    ensures Collect(f, ss).Ok? <==> forall s | s in ss :: !RaisesIndexError(s)
    ensures Collect(f, ss).Raise? ==> Collect(f, ss) == Raise(IndexError)
    ensures Collect(f, ss).Ok? ==>
      var g := Collect(f, ss).value;
      && (forall x :: x in g.variables <==> x in f.variables || exists s | s in ss :: AssignsCallTo(s, x))
      && (forall x :: x in g.hashVars <==> x in f.hashVars || exists s | s in ss :: AssignsHashTo(s, x))
      && (g.hasConstructor <==> f.hasConstructor || exists s | s in ss :: HasConstructDecorator(s))
      && (forall c :: c in g.metadata <==> c in f.metadata || exists s | s in ss :: SetsMetadataField(s, c))
      && (forall n :: n in g.functions <==> n in f.functions || exists s | s in ss :: s.FunctionDef? && s.name == n)
  {
    if ss != [] {
      var init, last := ss[..|ss| - 1], ss[|ss| - 1];
      assert ss == init + [last];
      assert forall s | s in ss :: s in init || s == last;
      CollectMeaning(f, init);
      if Collect(f, init).Ok? {
        StepMeaning(Collect(f, init).value, last);
      }
    }
  }

  /** A function defined again later overwrites the earlier record: the
      parameters recorded for a name are those of its last definition. */
  lemma {:induction false} CollectLastDefinitionWins(f: Facts, ss: seq<Stmt>, i: nat)
    requires Collect(f, ss).Ok?
    requires i < |ss| && ss[i].FunctionDef?
    requires forall j | i < j < |ss| :: !(ss[j].FunctionDef? && ss[j].name == ss[i].name)
    ensures ss[i].name in Collect(f, ss).value.functions
    ensures Collect(f, ss).value.functions[ss[i].name] == ParamSet(ss[i].params)
  {
    var init, last := ss[..|ss| - 1], ss[|ss| - 1];
    var g := Collect(f, init).value;
    StepMeaning(g, last);
    if i < |ss| - 1 {
      assert forall j | i < j < |init| :: init[j] == ss[j];
      CollectLastDefinitionWins(f, init, i);
    }
  }

  /* --------------------------------------------------- the standard */

  /** The violations `validate` reports, in the order it appends them. */
  datatype Violation =
    | MissingVariables(missing: set<string>)
    | NotHash(variable: string)
    | MissingFunction(fn: string)
    | IncorrectArguments(fn: string, expected: set<string>, got: set<string>)
    | MissingConstructor
    | MissingMetadataFields(fields: set<string>)
      /** `validate_contract`: the parser rejected the code. */
    | SyntaxErrorIn(detail: string)
      /** `validate_contract`: any other exception while validating. */
    | ValidationError(exc: Exception)

  /** What a standard requires: variables (in the order `validate` goes
      through them), functions with their parameter names, metadata fields. */
  datatype Standard = Standard(
    variables: seq<string>,
    functions: seq<(string, set<string>)>,
    metadataFields: set<string>)

  /** XSC001. The source keeps the required variables in a set, whose
      iteration order it does not fix; they are listed here in one order. */
  const XSC001 := Standard(
    ["balances", "metadata"],
    [ ("change_metadata", {"key", "value"}),
      ("transfer", {"amount", "to"}),
      ("approve", {"amount", "to"}),
      ("transfer_from", {"amount", "to", "main_account"}),
      ("balance_of", {"address"}) ],
    {"token_name", "token_symbol", "token_logo_url", "token_website", "operator"})

  function VariableSet(std: Standard): (r: set<string>)
    ensures forall v :: v in r <==> v in std.variables
  {
    set v | v in std.variables
  }

  function MissingVariableSet(f: Facts, std: Standard): set<string> {
    VariableSet(std) - f.variables
  }

  function MissingMetadata(f: Facts, std: Standard): (r: set<string>)
    ensures forall x :: x in r <==> x in std.metadataFields && CStr(x) !in f.metadata
  {
    set x | x in std.metadataFields && CStr(x) !in f.metadata
  }

  function HashViolations(f: Facts, vs: seq<string>): seq<Violation> {
    if vs == [] then []
    else
      var v := vs[|vs| - 1];
      HashViolations(f, vs[..|vs| - 1]) + (if v in f.variables && v !in f.hashVars then [NotHash(v)] else [])
  }

  function FunctionViolation(f: Facts, p: (string, set<string>)): seq<Violation> {
    if p.0 !in f.functions then [MissingFunction(p.0)]
    else if f.functions[p.0] != p.1 then [IncorrectArguments(p.0, p.1, f.functions[p.0])]
    else []
  }

  function FunctionViolations(f: Facts, fs: seq<(string, set<string>)>): seq<Violation> {
    if fs == [] then [] else FunctionViolations(f, fs[..|fs| - 1]) + FunctionViolation(f, fs[|fs| - 1])
  }

  function MissingVariablesPart(f: Facts, std: Standard): seq<Violation> {
    if MissingVariableSet(f, std) != {} then [MissingVariables(MissingVariableSet(f, std))] else []
  }

  function ConstructorPart(f: Facts): seq<Violation> {
    if !f.hasConstructor then [MissingConstructor] else []
  }

  function MetadataPart(f: Facts, std: Standard): seq<Violation> {
    if MissingMetadata(f, std) != {} then [MissingMetadataFields(MissingMetadata(f, std))] else []
  }

  /** The list `validate` builds from the facts. */
  function Violations(f: Facts, std: Standard): seq<Violation> {
    MissingVariablesPart(f, std) + LaterParts(f, std)
  }

  /** Everything after the report of missing variables. */
  function LaterParts(f: Facts, std: Standard): seq<Violation> {
    HashViolations(f, std.variables) + FunctionViolations(f, std.functions) + ConstructorPart(f) + MetadataPart(f, std)
  }

  lemma {:induction false} HashViolationsMeaning(f: Facts, vs: seq<string>)
    ensures forall e | e in HashViolations(f, vs) :: e.NotHash? && e.variable in vs && e.variable in f.variables && e.variable !in f.hashVars
    ensures forall v | v in vs && v in f.variables && v !in f.hashVars :: NotHash(v) in HashViolations(f, vs)
  {
    if vs != [] {
      var init := vs[..|vs| - 1];
      assert vs == init + [vs[|vs| - 1]];
      HashViolationsMeaning(f, init);
    }
  }

  lemma {:induction false} FunctionViolationsMeaning(f: Facts, fs: seq<(string, set<string>)>)
    ensures forall e | e in FunctionViolations(f, fs) ::
      || (e.MissingFunction? && e.fn !in f.functions && exists p | p in fs :: p.0 == e.fn)
      || (&& e.IncorrectArguments? && (e.fn, e.expected) in fs && e.fn in f.functions
          && e.got == f.functions[e.fn] && e.got != e.expected)
    ensures forall p | p in fs :: p.0 !in f.functions ==> MissingFunction(p.0) in FunctionViolations(f, fs)
    ensures forall p | p in fs :: p.0 in f.functions && f.functions[p.0] != p.1 ==>
      IncorrectArguments(p.0, p.1, f.functions[p.0]) in FunctionViolations(f, fs)
  {
    if fs != [] {
      var init, last := fs[..|fs| - 1], fs[|fs| - 1];
      assert fs == init + [last];
      assert forall p | p in fs :: p in init || p == last;
      FunctionViolationsMeaning(f, init);
    }
  }

  /** Where in the list each kind of violation sits. */
  lemma ViolationsParts(f: Facts, std: Standard)
    ensures forall e | e in Violations(f, std) ::
      || e in MissingVariablesPart(f, std) || e in HashViolations(f, std.variables)
      || e in FunctionViolations(f, std.functions) || e in ConstructorPart(f) || e in MetadataPart(f, std)
    ensures forall e | e in MissingVariablesPart(f, std) :: e in Violations(f, std)
    ensures forall e | e in LaterParts(f, std) :: e in Violations(f, std)
  {
  }

  lemma LaterPartsReportNoMissingVariables(f: Facts, std: Standard)
    ensures forall e | e in LaterParts(f, std) :: !e.MissingVariables?
  {
    HashViolationsMeaning(f, std.variables);
    FunctionViolationsMeaning(f, std.functions);
  }

  /** Facts that meet the standard: every variable found and a Hash,
      every function with exactly its parameters, a constructor, and every
      metadata field. */
  predicate Compliant(f: Facts, std: Standard) {
    && (forall v | v in std.variables :: v in f.variables && v in f.hashVars)
    && (forall p | p in std.functions :: p.0 in f.functions && f.functions[p.0] == p.1)
    && f.hasConstructor
    && forall x | x in std.metadataFields :: CStr(x) in f.metadata
  }

  /** `validate` reports nothing exactly for compliant facts. */
  lemma ViolationsEmptyIffCompliant(f: Facts, std: Standard)
    ensures Violations(f, std) == [] <==> Compliant(f, std)
  {
    HashViolationsMeaning(f, std.variables);
    FunctionViolationsMeaning(f, std.functions);
    ViolationsParts(f, std);
    if Violations(f, std) == [] {
      assert MissingVariablesPart(f, std) == [] && MetadataPart(f, std) == [];
      assert HashViolations(f, std.variables) == [];
      forall v | v in std.variables
        ensures v in f.variables && v in f.hashVars
      {
        assert v !in MissingVariableSet(f, std);
      }
      forall x | x in std.metadataFields
        ensures CStr(x) in f.metadata
      {
        assert x !in MissingMetadata(f, std);
      }
    }
    if Compliant(f, std) {
      HashViolationsEmpty(f, std.variables);
      FunctionViolationsEmpty(f, std.functions);
      assert MissingVariableSet(f, std) == {};
      assert MissingMetadata(f, std) == {};
    }
  }

  lemma {:induction false} HashViolationsEmpty(f: Facts, vs: seq<string>)
    requires forall v | v in vs :: v in f.hashVars
    ensures HashViolations(f, vs) == []
  {
    if vs != [] {
      assert vs[|vs| - 1] in vs;
      assert forall v | v in vs[..|vs| - 1] :: v in vs;
      HashViolationsEmpty(f, vs[..|vs| - 1]);
    }
  }

  lemma {:induction false} FunctionViolationsEmpty(f: Facts, fs: seq<(string, set<string>)>)
    requires forall p | p in fs :: p.0 in f.functions && f.functions[p.0] == p.1
    ensures FunctionViolations(f, fs) == []
  {
    if fs != [] {
      assert fs[|fs| - 1] in fs;
      assert forall p | p in fs[..|fs| - 1] :: p in fs;
      FunctionViolationsEmpty(f, fs[..|fs| - 1]);
    }
  }

  /** Exactly one entry reports the missing variables, and only when some
      are missing. */
  lemma MissingVariablesReported(f: Facts, std: Standard)
    ensures MissingVariables(MissingVariableSet(f, std)) in Violations(f, std) <==> MissingVariableSet(f, std) != {}
    ensures |Violations(f, std)| > 0 && Violations(f, std)[0].MissingVariables? ==>
      Violations(f, std)[0].missing == MissingVariableSet(f, std)
    ensures forall i | 0 < i < |Violations(f, std)| :: !Violations(f, std)[i].MissingVariables?
  {
    LaterPartsReportNoMissingVariables(f, std);
    var V, rest := Violations(f, std), LaterParts(f, std);
    var k := |MissingVariablesPart(f, std)|;
    if |V| > 0 && k == 0 {
      assert V[0] == rest[0] && rest[0] in rest;
    }
    forall i | 0 < i < |V|
      ensures !V[i].MissingVariables?
    {
      assert V[i] == rest[i - k] && rest[i - k] in rest;
    }
  }

  /** A required variable found but not assigned from `Hash(...)` is
      reported as such, and only then. */
  lemma NotHashReported(f: Facts, std: Standard, v: string)
    requires v in std.variables
    ensures NotHash(v) in Violations(f, std) <==> v in f.variables && v !in f.hashVars
  {
    HashViolationsMeaning(f, std.variables);
    FunctionViolationsMeaning(f, std.functions);
    ViolationsParts(f, std);
  }

  /** A required function is reported missing exactly when no definition
      was recorded, and as having incorrect arguments exactly when the
      recorded parameters differ from the required ones. */
  lemma FunctionReported(f: Facts, std: Standard, name: string, params: set<string>)
    requires (name, params) in std.functions
    ensures MissingFunction(name) in Violations(f, std) <==> name !in f.functions
    ensures name in f.functions ==>
      (IncorrectArguments(name, params, f.functions[name]) in Violations(f, std) <==> f.functions[name] != params)
    ensures forall e | e in Violations(f, std) && e.IncorrectArguments? && e.fn == name ::
      name in f.functions && e.got == f.functions[name] && (name, e.expected) in std.functions
  {
    HashViolationsMeaning(f, std.variables);
    FunctionViolationsMeaning(f, std.functions);
    ViolationsParts(f, std);
  }

  lemma ConstructorReported(f: Facts, std: Standard)
    ensures MissingConstructor in Violations(f, std) <==> !f.hasConstructor
  {
    HashViolationsMeaning(f, std.variables);
    FunctionViolationsMeaning(f, std.functions);
    ViolationsParts(f, std);
  }

  /** The missing metadata fields are reported together, in one entry that
      names exactly the fields not assigned in `seed`. */
  lemma MetadataReported(f: Facts, std: Standard)
    ensures (exists e | e in Violations(f, std) :: e.MissingMetadataFields?) <==>
      exists x | x in std.metadataFields :: CStr(x) !in f.metadata
    ensures forall e | e in Violations(f, std) && e.MissingMetadataFields? ::
      forall x :: x in e.fields <==> x in std.metadataFields && CStr(x) !in f.metadata
  {
    HashViolationsMeaning(f, std.variables);
    FunctionViolationsMeaning(f, std.functions);
    ViolationsParts(f, std);
    if exists x | x in std.metadataFields :: CStr(x) !in f.metadata {
      var x :| x in std.metadataFields && CStr(x) !in f.metadata;
      assert x in MissingMetadata(f, std);
      var front := HashViolations(f, std.variables) + FunctionViolations(f, std.functions) + ConstructorPart(f);
      assert LaterParts(f, std) == front + MetadataPart(f, std);
      assert LaterParts(f, std)[|front|] == MetadataPart(f, std)[0];
      assert LaterParts(f, std)[|front|] in LaterParts(f, std);
    }
    if exists e | e in Violations(f, std) :: e.MissingMetadataFields? {
      var e :| e in Violations(f, std) && e.MissingMetadataFields?;
      assert e in MetadataPart(f, std);
      var x :| x in MissingMetadata(f, std);
      assert x in std.metadataFields && CStr(x) !in f.metadata;
    }
  }

  /* ------------------------------------------------ the validator object */

  class ValidatorXSC001 {
    var requiredVariables: seq<string>
    var requiredFunctions: seq<(string, set<string>)>
    var metadataFields: set<string>
    var foundVariables: set<string>
    var foundFunctions: map<string, set<string>>
    var hasConstructor: bool
    var isHashType: set<string>
    var foundMetadataFields: set<Const>

    function Gathered(): Facts
      reads this
    {
      Facts(foundVariables, foundFunctions, hasConstructor, isHashType, foundMetadataFields)
    }

    function Required(): Standard
      reads this
    {
      Standard(requiredVariables, requiredFunctions, metadataFields)
    }

    constructor ()
      ensures Required() == XSC001 && Gathered() == NoFacts
    {
      requiredVariables := XSC001.variables;
      requiredFunctions := XSC001.functions;
      metadataFields := XSC001.metadataFields;
      foundVariables := {};
      foundFunctions := map[];
      hasConstructor := false;
      isHashType := {};
      foundMetadataFields := {};
    }

    /** `visit_Assign`, without the walk into the children. */
    method VisitAssign(s: Stmt) returns (r: Result<()>)
      requires s.Assign?
      modifies this
      ensures Required() == old(Required())
      ensures r.Ok? <==> AssignStep(old(Gathered()), s).Ok?
      ensures r.Raise? ==> r == Raise(IndexError)
      ensures r.Ok? ==> Gathered() == AssignStep(old(Gathered()), s).value
    {
      if s.targets == [] {
        return Raise(IndexError);
      }
      if s.targets[0].Name? && s.value.Call? {
        var x := s.targets[0].id;
        foundVariables := foundVariables + {x};
        if s.value.func.Name? && s.value.func.id == "Hash" {
          isHashType := isHashType + {x};
        }
      }
      return Ok(());
    }

    /** `visit_FunctionDef`, without the walk into the children. */
    method VisitFunctionDef(s: Stmt) returns (r: Result<()>)
      requires s.FunctionDef?
      modifies this
      ensures Required() == old(Required())
      ensures r.Ok? <==> FunctionStep(old(Gathered()), s).Ok?
      ensures r.Raise? ==> r == Raise(IndexError)
      ensures r.Ok? ==> Gathered() == FunctionStep(old(Gathered()), s).value
    {
      foundFunctions := foundFunctions[s.name := ParamSet(s.params)];
      var i := 0;
      while i < |s.decorators|
        invariant 0 <= i <= |s.decorators|
        invariant hasConstructor == (old(hasConstructor) || Name("construct") in s.decorators[..i])
        invariant foundVariables == old(foundVariables) && isHashType == old(isHashType)
        invariant foundMetadataFields == old(foundMetadataFields)
        invariant foundFunctions == old(foundFunctions)[s.name := ParamSet(s.params)]
        invariant Required() == old(Required())
      {
        assert s.decorators[..i + 1] == s.decorators[..i] + [s.decorators[i]];
        var d := s.decorators[i];
        if d.Name? && d.id == "construct" {
          hasConstructor := true;
        }
        i := i + 1;
      }
      assert s.decorators[..i] == s.decorators;
      if s.name == "seed" {
        var j := 0;
        while j < |s.body|
          invariant 0 <= j <= |s.body|
          invariant MetadataOf(s.body[..j]).Ok?
          invariant foundMetadataFields == old(foundMetadataFields) + MetadataOf(s.body[..j]).value
          invariant foundVariables == old(foundVariables) && isHashType == old(isHashType)
          invariant hasConstructor == (old(hasConstructor) || Name("construct") in s.decorators)
          invariant foundFunctions == old(foundFunctions)[s.name := ParamSet(s.params)]
          invariant Required() == old(Required())
        {
          var t := s.body[j];
          assert s.body[..j + 1][..j] == s.body[..j] && s.body[..j + 1][j] == t;
          if t.Assign? {
            if t.targets == [] {
              assert MetadataOf(s.body[..j + 1]).Raise?;
              MetadataOfMeaning(s.body);
              assert t in s.body;
              return Raise(IndexError);
            }
            var target := t.targets[0];
            if target.Subscript? && target.base.Name? && target.base.id == "metadata" && target.slice.Constant? {
              foundMetadataFields := foundMetadataFields + {target.slice.value};
            }
          }
          j := j + 1;
        }
        assert s.body[..j] == s.body;
      }
      return Ok(());
    }

    /** `self.visit(tree)`: every statement of the module and of the bodies
        nested in it, each before its children. */
    method Visit(m: Module) returns (r: Result<()>)
      modifies this
      ensures Required() == old(Required())
      ensures r.Ok? <==> Collect(old(Gathered()), Flatten(m.body)).Ok?
      ensures r.Raise? ==> r == Raise(IndexError)
      ensures r.Ok? ==> Gathered() == Collect(old(Gathered()), Flatten(m.body)).value
    {
      var flat := Flatten(m.body);
      var i := 0;
      while i < |flat|
        invariant 0 <= i <= |flat|
        invariant Collect(old(Gathered()), flat[..i]) == Ok(Gathered())
        invariant Required() == old(Required())
      {
        var s := flat[i];
        assert flat[..i + 1][..i] == flat[..i] && flat[..i + 1][i] == s;
        var step: Result<()>;
        match s {
          case Assign(_, _) => step := VisitAssign(s);
          case FunctionDef(_, _, _, _, _) => step := VisitFunctionDef(s);
          case OtherStmt(_, _) => step := Ok(());
        }
        if step.Raise? {
          CollectPrefixRaises(old(Gathered()), flat, i + 1);
          return step;
        }
        i := i + 1;
      }
      assert flat[..i] == flat;
      return Ok(());
    }

    /** The loop of `validate` over the required variables. */
    method HashErrors(vs: seq<string>) returns (errors: seq<Violation>)
      ensures errors == HashViolations(Gathered(), vs)
    {
      errors := [];
      var i := 0;
      while i < |vs|
        invariant 0 <= i <= |vs|
        invariant errors == HashViolations(Gathered(), vs[..i])
      {
        var v := vs[i];
        assert vs[..i + 1][..i] == vs[..i];
        if v in foundVariables && v !in isHashType {
          errors := errors + [NotHash(v)];
        }
        i := i + 1;
      }
      assert vs[..i] == vs;
    }

    /** The loop of `validate` over the required functions. */
    method FunctionErrors(fs: seq<(string, set<string>)>) returns (errors: seq<Violation>)
      ensures errors == FunctionViolations(Gathered(), fs)
    {
      errors := [];
      var j := 0;
      while j < |fs|
        invariant 0 <= j <= |fs|
        invariant errors == FunctionViolations(Gathered(), fs[..j])
      {
        var (name, params) := fs[j];
        assert fs[..j + 1][..j] == fs[..j];
        if name !in foundFunctions {
          errors := errors + [MissingFunction(name)];
        } else if foundFunctions[name] != params {
          errors := errors + [IncorrectArguments(name, params, foundFunctions[name])];
        }
        j := j + 1;
      }
      assert fs[..j] == fs;
    }

    /** `validate`: the violations of the gathered facts, and whether
        there are none. */
    method Validate() returns (ok: bool, errors: seq<Violation>)
      ensures errors == Violations(Gathered(), Required())
      ensures ok == (|errors| == 0)
    {
      var missingPart: seq<Violation> := [];
      var missing := (set v | v in requiredVariables) - foundVariables;
      if missing != {} {
        missingPart := [MissingVariables(missing)];
      }
      var hashErrors := HashErrors(requiredVariables);
      var functionErrors := FunctionErrors(requiredFunctions);
      var constructorPart: seq<Violation> := [];
      if !hasConstructor {
        constructorPart := [MissingConstructor];
      }
      var metadataPart: seq<Violation> := [];
      var missingMetadata := set x | x in metadataFields && CStr(x) !in foundMetadataFields;
      if missingMetadata != {} {
        metadataPart := [MissingMetadataFields(missingMetadata)];
      }
      errors := missingPart + (hashErrors + functionErrors + constructorPart + metadataPart);
      ok := |errors| == 0;
    }
  }

  /* ------------------------------------------------ `validate_contract` */

  /** What `validate_contract` returns for the outcome of `ast.parse`. */
  function ContractVerdict(parsed: Result<Module>): (bool, seq<Violation>) {
    match parsed
    case Raise(SyntaxError(d)) => (false, [SyntaxErrorIn(d)])
    case Raise(e) => (false, [ValidationError(e)])
    case Ok(m) =>
      match Collect(NoFacts, Flatten(m.body))
      case Raise(e) => (false, [ValidationError(e)])
      case Ok(f) => (Violations(f, XSC001) == [], Violations(f, XSC001))
  }

  /** `validate_contract` never raises: its flag is true exactly when no
      error is listed, an exception becomes one error entry, and the flag
      is true exactly for code that parses, can be visited and is compliant. */
  lemma ContractVerdictMeaning(parsed: Result<Module>)
    ensures ContractVerdict(parsed).0 <==> |ContractVerdict(parsed).1| == 0
    ensures parsed.Raise? ==> |ContractVerdict(parsed).1| == 1
    ensures ContractVerdict(parsed).0 <==>
      && parsed.Ok? && Collect(NoFacts, Flatten(parsed.value.body)).Ok?
      && Compliant(Collect(NoFacts, Flatten(parsed.value.body)).value, XSC001)
    ensures parsed.Ok? && Collect(NoFacts, Flatten(parsed.value.body)).Raise? ==>
      ContractVerdict(parsed).1 == [ValidationError(IndexError)]
  {
    if parsed.Ok? {
      var flat := Flatten(parsed.value.body);
      CollectMeaning(NoFacts, flat);
      if Collect(NoFacts, flat).Ok? {
        ViolationsEmptyIffCompliant(Collect(NoFacts, flat).value, XSC001);
      }
    }
  }

  method ValidateContract(parsed: Result<Module>) returns (ok: bool, errors: seq<Violation>)
    ensures (ok, errors) == ContractVerdict(parsed)
  {
    if parsed.Raise? {
      match parsed.exc {
        case SyntaxError(d) => return false, [SyntaxErrorIn(d)];
        case _ => return false, [ValidationError(parsed.exc)];
      }
    }
    var validator := new ValidatorXSC001();
    var visited := validator.Visit(parsed.value);
    if visited.Raise? {
      CollectMeaning(NoFacts, Flatten(parsed.value.body));
      return false, [ValidationError(visited.exc)];
    }
    ok, errors := validator.Validate();
  }
}
