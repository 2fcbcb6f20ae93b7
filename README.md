# xian-py core, modelled in Dafny

This project models four pieces of the xian-py client library:

- **The transaction payload canonicaliser and schema check** (`xian_py/formating.py`).
  - `format_dictionary` asserts that every key is a string and canonicalises nested dicts, including dicts inside list values. It then rebuilds the dict with its items sorted by key.
  - `check_format_of_payload` requires exactly the seven payload keys. It then runs `recurse_rules` with `TRANSACTION_PAYLOAD_RULES` and the field checks `key_is_formatted`, `number_is_formatted`, `identifier_is_formatted`, `kwargs_are_formatted` and `cid_id_formatted`.
- **The contract decompiler** (`xian_py/decompiler.py`).
  - `ContractDecompiler` first collects ORM variable names (`collect_orm_vars`). It then rewrites the syntax tree bottom-up to undo the contracting compiler's name mangling:
    - `__` prefixes are removed;
    - `____` becomes `seed` with `@construct`;
    - `@export(<constant>)` becomes `@export`;
    - `decimal(<constant>)` becomes a float literal;
    - ORM declarations keep only `default_value` keywords.
  - The custom source generator's `visit_Str` decides how string constants are quoted when printed.
- **The XSC001 token-standard validator** (`xian_py/validator.py`).
  - `ValidatorXSC001` gathers facts while visiting the tree: variables, Hash variables, functions with parameter names, a constructor, and metadata fields. `validate` turns those facts into the list of violations.
  - `validate_contract` wraps parsing and validation, and maps exceptions to a single error.
- **The wallet key checks** (`xian_py/wallet.py`).
  - `Wallet.is_valid_key` accepts 64 characters that `int(key, 16)` parses.
  - `EthereumWallet.is_valid_key` accepts 40 such characters, after one optional `0x`.

## How the model is built

**Modules and files**

| module | file | models |
|---|---|---|
| `Outcomes` | `outcomes.dfy` | Python's exceptions, as a `Result` that is `Ok(value)` or `Raise(exc)` |
| `PyText` | `pytext.dfy` | character classes, prefixes, stripping, and code-point order of strings |
| `PyNumbers` | `pynumbers.dfy` | the syntax accepted by `int(s, 16)` and `float(s)` (ASCII only), and the range of a double |
| `Formatting` | `formatting.dfy` | `formating.py` |
| `Ast` | `ast.dfy` | the fragment of Python's `ast` both tree walkers look at |
| `Decompiler` | `decompiler.dfy` | `ContractDecompiler` |
| `SourceGenerator` | `source_generator.dfy` | `visit_Str`, and the decoding of a Python string literal it must agree with |
| `Validator` | `validator.dfy` | `ValidatorXSC001` and `validate_contract` |
| `Keys` | `wallet.dfy` | the two `is_valid_key` functions |

**Payload values.** A Python value becomes a JSON-like `Value`. A dict is its list of entries in insertion order. Every pure Python function is a Dafny function with lemmas about it.

**The two classes.** `ContractDecompiler` and `ValidatorXSC001` update their fields while they walk the tree. Each becomes a Dafny `class` with the same fields. Its methods loop over the statements, and each method is proved against a function of the old state: `Collect`, `OrmNames` or `Violations`.

**Loops in functions.** The loops in `format_dictionary`, `kwargs_are_formatted`, `recurse_rules` and `validate` are methods with loop invariants, proved equal to the functions the lemmas reason about.

**Parsing is a parameter.** `ast.parse` is an input of type `Result<Module>`, so a syntax error is an input too.

## Model

| member | source | states |
|---|---|---|
| Formatting.CanonShape | xian_py/formating.py:61-70 | a successful `format_dictionary` returns a dict with the same number of entries and the same keys, all strings; for a real dict (distinct keys) the keys come in strictly ascending order |
| Formatting.CanonMembers | xian_py/formating.py:62-70 | each entry of the result is the canonical form of an input entry, and each input entry's canonical form is in the result |
| Formatting.CanonValueShape | xian_py/formating.py:64-69 | a scalar value is kept; a dict value is replaced by its canonical form; a list value keeps its length and order, with each dict element canonicalised and every other element kept |
| Formatting.CanonFails | xian_py/formating.py:63 | `format_dictionary` succeeds exactly when every key it visits (in the dict, in nested dicts, in dicts inside lists) is a string; otherwise it raises AssertionError |
| Formatting.CanonIdempotent | xian_py/formating.py:61-70 | formatting an already formatted dict gives the same dict (`format_dictionary` is idempotent) |
| Formatting.Canon | xian_py/formating.py:61-70 | a successful result has as many entries as the input dict |
| Formatting.CanonOrderIndependent | xian_py/formating.py:70 | two dicts with the same items, inserted in different orders, give the same result or both fail |
| Formatting.SameContentCanonDict | xian_py/formating.py:61-70 | two dicts of the same content give the same result or both fail, whatever the insertion order of each dict `format_dictionary` visits: the dict itself, dicts under its keys at any depth, and dicts that are elements of a list value |
| Formatting.CanonKeepsOrderInNestedLists | xian_py/formating.py:64-67 | a dict inside a list inside a list is not canonicalised: two such dicts that differ only in insertion order give two different results |
| Formatting.FormatDictionary | xian_py/formating.py:61-70 | the loop over the items computes `Canon`, about which the lemmas above are proved |
| Formatting.IdentifierIsFormatted | xian_py/formating.py:11-18 | true exactly for strings that are an ASCII letter followed by letters, digits and underscores, optionally with one final newline (which `$` accepts); false for any non-string |
| Formatting.IdentifierAcceptsFinalNewline | xian_py/formating.py:13 | `"transfer\n"` is accepted; `"transfer\n\n"` and `"trans\nfer"` are not |
| Formatting.NumberIsFormatted | xian_py/formating.py:21-26 | true exactly for integers that are not negative; a bool is never accepted |
| Formatting.KeyIsFormatted | xian_py/formating.py:29-38 | true exactly for strings of length 64 that `int(s, 16)` parses; false for any non-string |
| Formatting.KeyIsFormattedPlainHex | xian_py/formating.py:29-38 | 64 hex digits are accepted; 63 or 65 are not |
| Formatting.KeyIsFormattedPrefixed | xian_py/formating.py:31-32 | `0x` followed by 62 hex digits is accepted as a key, because `int(s, 16)` takes the prefix |
| Formatting.KwargsAreFormatted | xian_py/formating.py:4-8 | the loop over the keys gives `KwargsFormatted`: true exactly when every key is a formatted identifier; AttributeError for a value without `keys` |
| Formatting.DictHasKeys | xian_py/formating.py:56-58 | true exactly when the dict's key set equals the given set (the symmetric difference is empty) |
| Formatting.RecurseRules | xian_py/formating.py:73-93 | the loop over the rule's fields computes `RulesHold`, the verdict the payload lemmas below describe |
| Formatting.PayloadKeys | xian_py/formating.py:45-53 | the payload rules name exactly the seven keys sender, nonce, stamps_supplied, contract, function, kwargs and chain_id |
| Formatting.CheckFormatOfPayload | xian_py/formating.py:96-103 | a payload without exactly the seven keys gives false; one with them gives the verdict of `recurse_rules` |
| Formatting.PayloadVerdict | xian_py/formating.py:73-103 | with the right keys, `recurse_rules` raises only AttributeError and only from the `kwargs` field; when `kwargs` cannot raise, the verdict is true exactly when all seven field checks pass |
| Formatting.PayloadFieldsPassIff | xian_py/formating.py:45-53 | all field rules pass exactly when each of the seven named checks passes on its field |
| Decompiler.VisitName | xian_py/decompiler.py:93-100 | a name starting with `__` equals `__` followed by the result; any other name is kept |
| Decompiler.VisitNameIgnoresOrmVars | xian_py/decompiler.py:96-99 | both branches do the same: the result does not depend on the collected ORM variables |
| Decompiler.FloatOf | xian_py/decompiler.py:140-142 | `float(value)` raises ValueError exactly for strings that are not numerals, OverflowError exactly for integers out of double range, and TypeError exactly for None; a numeral string gives its decimal value |
| Decompiler.VisitCall | xian_py/decompiler.py:131-147 | `decimal(<numeral>)` becomes a float literal with the numeral's value; `decimal(<non-numeral string>)` is kept; `decimal(<integer>)` becomes a float literal in double range and raises OverflowError outside it; `decimal(<float>)` becomes that float literal; `decimal(None)` raises TypeError; any other call is kept |
| Decompiler.DefaultValueKeywords | xian_py/decompiler.py:158-159 | the kept keywords are exactly the input's `default_value` keywords |
| Decompiler.DefaultValueKeywordsAppend | xian_py/decompiler.py:158-159 | the filter keeps the original order (it distributes over concatenation) |
| Decompiler.VisitAssign | xian_py/decompiler.py:149-160 | targets are kept; an ORM declaration keeps only its `default_value` keywords; any other value is kept; the result is never an ORM declaration |
| Decompiler.FirstDecoratorRule | xian_py/decompiler.py:113-123 | `export(<constant>)` as first decorator replaces the whole list by `export`; a `__`-prefixed name decorator loses the prefix; anything else is kept |
| Decompiler.VisitFunctionDef | xian_py/decompiler.py:102-129 | `____` becomes `seed` decorated only with `construct`; otherwise the first-decorator rule applies and a `__` prefix is removed from the name; parameters, signature and body are kept |
| Decompiler.RewriteIgnoresOrmVars | xian_py/decompiler.py:93-100 | the rewrite of a whole module is the same whatever ORM variables were collected |
| Decompiler.RewriteLeavesNoOrmDeclarations | xian_py/decompiler.py:149-160 | no assignment anywhere in the rewritten module is still an ORM declaration |
| Decompiler.RewriteIdempotent | xian_py/decompiler.py:93-160 | for code without `____`-prefixed names, rewriting the output of a successful rewrite changes nothing |
| Decompiler.RewriteNotIdempotentOnFourUnderscores | xian_py/decompiler.py:96-99 | `____x` becomes `__x` on one pass and `x` on the next, so the rewrite is not idempotent in general |
| Decompiler.NameKeyword | xian_py/decompiler.py:89 | `next(...)` finds nothing exactly when no keyword is called `name`; otherwise it returns the first one |
| Decompiler.OrmName | xian_py/decompiler.py:83-91 | one statement raises StopIteration exactly when it is an ORM declaration without a `name` keyword; otherwise it contributes exactly the string names it declares |
| Decompiler.OrmNamesMeaning | xian_py/decompiler.py:80-91 | the walk succeeds exactly when no ORM declaration lacks a `name` keyword, raises only StopIteration, and collects exactly the declared string names |
| Decompiler.ContractDecompiler.constructor | xian_py/decompiler.py:63-66 | no contract name and no ORM variables |
| Decompiler.ContractDecompiler.CollectOrmVars | xian_py/decompiler.py:80-91 | adds the declared names to `orm_vars` (never removes any) and leaves the contract name alone; raises StopIteration exactly when the walk does |
| Decompiler.ContractDecompiler.Decompile | xian_py/decompiler.py:68-78 | returns the collected-then-rewritten tree and leaves the contract name alone; a parse error propagates and leaves `orm_vars` unchanged; when the walk succeeds `orm_vars` gains exactly the declared names; `orm_vars` never loses a name |
| SourceGenerator.QuoteStr | xian_py/decompiler.py:23-29 | the literal is framed by one quote character on each side; single quotes exactly when the text holds `"` and no `'`, and then the text is written unchanged between them; text without `"` is written unchanged between double quotes |
| SourceGenerator.QuoteStrRoundTrip | xian_py/decompiler.py:23-29 | for text without backslashes, newlines, carriage returns or NUL, the printed literal reads back as the original string, whichever quote is chosen |
| SourceGenerator.QuoteStrBreaksOnBackslash | xian_py/decompiler.py:29 | a single backslash is printed as `"\"`, which is not a valid literal |
| SourceGenerator.QuoteStrBreaksOnNewline | xian_py/decompiler.py:29 | a string holding a newline is printed as a literal that does not read back |
| SourceGenerator.QuoteStrChangesEscapes | xian_py/decompiler.py:29 | the two characters backslash and `n` are printed so that they read back as a newline |
| SourceGenerator.QuoteStrFixedRoundTrip | xian_py/decompiler.py:23-29 | with backslash, quote, newline, carriage return and NUL escaped, every string reads back as itself |
| SourceGenerator.QuoteStrFixedAgrees | xian_py/decompiler.py:23-29 | on text the original handles correctly, the corrected quoting prints exactly what the original prints |
| Validator.StepMeaning | xian_py/validator.py:40-68 | visiting one statement raises IndexError exactly for an assignment without targets (also inside `seed`); otherwise it adds exactly that statement's variable, Hash variable, constructor flag and metadata fields, and records the function's parameter names |
| Validator.CollectMeaning | xian_py/validator.py:40-68 | the visit of a module fails only with IndexError, exactly when some statement raises; otherwise every fact gathered comes from some statement of the module or from the start state, and every such fact is gathered |
| Validator.CollectLastDefinitionWins | xian_py/validator.py:53 | the parameters recorded for a function name are those of its last definition |
| Validator.MetadataOfMeaning | xian_py/validator.py:59-66 | the metadata fields found in `seed` are exactly the constant subscripts of `metadata` that are assigned; an assignment without targets raises IndexError |
| Validator.ViolationsEmptyIffCompliant | xian_py/validator.py:70-96 | `validate` reports no error exactly when every required variable exists and is a Hash, every required function has exactly its parameters, there is a constructor and every metadata field is set |
| Validator.MissingVariablesReported | xian_py/validator.py:73-75 | the missing-variables error appears exactly when variables are missing, carries the missing set, and can only be the first error |
| Validator.NotHashReported | xian_py/validator.py:77-79 | a required variable is reported as not a Hash exactly when it was found but not assigned a `Hash(...)` call |
| Validator.FunctionReported | xian_py/validator.py:81-87 | a required function is reported missing exactly when no definition was found; when found, it is reported with wrong arguments exactly when its parameter names differ, quoting expected and found parameters |
| Validator.ConstructorReported | xian_py/validator.py:89-90 | the missing-constructor error appears exactly when no function carries `@construct` |
| Validator.MetadataReported | xian_py/validator.py:92-94 | a missing-metadata error appears exactly when some required field was not set in `seed`, and it names exactly those fields |
| Validator.ValidatorXSC001.constructor | xian_py/validator.py:18-38 | the requirements are those of XSC001 and nothing has been found yet |
| Validator.ValidatorXSC001.VisitAssign | xian_py/validator.py:40-48 | the found facts are updated as `AssignStep` says, and the requirements are kept |
| Validator.ValidatorXSC001.VisitFunctionDef | xian_py/validator.py:50-68 | the found facts are updated as `FunctionStep` says, and the requirements are kept |
| Validator.ValidatorXSC001.Visit | xian_py/validator.py:40-68 | visiting the module in depth-first order leaves the facts that `Collect` computes |
| Validator.ValidatorXSC001.HashErrors | xian_py/validator.py:77-79 | the Hash loop reports `HashViolations` of the gathered facts |
| Validator.ValidatorXSC001.FunctionErrors | xian_py/validator.py:81-87 | the function loop reports `FunctionViolations` of the gathered facts |
| Validator.ValidatorXSC001.Validate | xian_py/validator.py:70-96 | the errors are `Violations` of the gathered facts against the requirements, and the verdict is true exactly when there are none |
| Validator.ContractVerdictMeaning | xian_py/validator.py:107-124 | the verdict is true exactly when there are no errors, exactly when the code parses, every visit succeeds and the facts comply with XSC001; a parse failure or exception gives a single error |
| Validator.ValidateContract | xian_py/validator.py:107-124 | computes `ContractVerdict`: a syntax error, an exception while visiting, or the result of `validate` |
| Keys.IsValidKey | xian_py/wallet.py:75-83 | a valid key has 64 characters; a string of hex digits is valid exactly when it has 64 |
| Keys.IsValidKeyAgreesWithPayloadCheck | xian_py/wallet.py:75-83 | the wallet's key check accepts exactly the strings the payload's `key_is_formatted` accepts |
| Keys.IsValidKeyAcceptsPrefix | xian_py/wallet.py:77-80 | `0x` followed by 62 hex digits is a valid key, since `int(key, 16)` takes the prefix |
| Keys.EthIsValidKey | xian_py/wallet.py:119-130 | a valid address has 40 characters, or 42 starting with `0x`; a string of hex digits is valid exactly when it has 40 |
| Keys.WithoutEthPrefix | xian_py/wallet.py:123-124 | exactly one leading `0x` is removed, if there is one |
| Keys.PlainHexAddressIsValid | xian_py/wallet.py:119-130 | 40 hex digits are a valid address, with or without `0x` |
| Keys.EthIsValidKeyAcceptsDoublePrefix | xian_py/wallet.py:123-127 | `0x0x` followed by 38 hex digits passes: one prefix is stripped, and `int(key, 16)` takes the second |

## Left out

- I/O and parsing: `ast.parse` is the input `Result<Module>`, so a syntax error is an input value. The printer (`astor`, `CustomSourceGenerator.write`, `newline`, `visit_JoinedStr`, `visit_Num`) is not modelled, except for `visit_Str`.
- Printing the result of `decompile` is not modelled; `Decompile` returns the rewritten tree.
- `ast.walk` in `collect_orm_vars` visits breadth-first, while the model walks depth-first. The collected set is the same. Only the names already added when StopIteration is raised can differ, and the model then states nothing about `orm_vars`.
- Python AST nodes are rewritten in place and may be shared; the model rewrites values, so aliasing between nodes is not captured.
- `format_dictionary` also mutates its argument in place (`d[k] = ...`, `v[i] = ...`). The model returns the new dict and does not describe what the caller's dict holds afterwards.
- Floats are symbolic: `float(...)` yields the numeral text or the integer, not an IEEE double. Non-ASCII digits, which `int()` and `float()` also accept, are not modelled.
- The Python < 3.8 node classes `ast.Str`/`ast.Num`, bytes constants, and `ast.Index` are not modelled; constants are `ast.Constant`.
- `visit_FunctionDef` visits the signature's expressions before the body. The model keeps them as one sequence and does not model the `returns` annotation separately.
- The unused `comments` field of `ContractDecompiler` is left out; `contract_name` is kept but never set.
- RecursionError on deeply nested input is not modelled.
- Error messages of `validate` and `validate_contract` are a `Violation` datatype, not formatted strings; set fields are not printed.
- `required_variables` is a Python set, whose iteration order is not fixed. The model lists `balances` then `metadata`, so the order of the `NotHash` errors is one of the possible orders.
- `ValidatorFactory`, `XianStandard` and other standards are not modelled; `validate_contract` is modelled for XSC001 only.
- The `\N{...}` escape, and `\u`/`\U` escapes of surrogates, are decoded as failures in `SourceGenerator.DecodeLiteral`; the corrected quoting never emits them.
- The rest of `xian_py/wallet.py` (key generation, signing, verification) uses cryptographic libraries and is not part of this model.
- `xian_py/transaction.py`, which calls `format_dictionary` and then `check_format_of_payload`, is not part of this model.
- Formatting.SameContentCanonDict: follows `format_dictionary` in not descending into a list inside a list, so a dict there is compared as it is, insertion order included (`Formatting.CanonKeepsOrderInNestedLists` shows the two results differ). Scalars are compared as values, so Python's `1 == True` and `1 == 1.0` are not treated as the same content.
- Formatting.CidIdFormatted: carries no contract, because it is simply "is a string".

## Findings

| source | as written | input that shows it | evidently intended | confidence | as-written member | corrected member |
|---|---|---|---|---|---|---|
| xian_py/decompiler.py:23-29 | `visit_Str` writes the string between quotes. The single-quote branch (lines 26-27) escapes nothing; the double-quote branch (line 29) escapes only `"`. Backslashes, newlines, carriage returns and NUL are written raw in both. This assumes `decompile` reaches this override for string constants; whether astor dispatches `ast.Constant` strings to `visit_Str` on Python 3.8 and later depends on astor, which is not part of this model | the one-character string `\` prints as `"\"`, which is not a valid literal; `a` newline `b` breaks the literal; backslash-`n` reads back as a newline | the printed literal denotes the same string | not executed | SourceGenerator.QuoteStrBreaksOnBackslash | SourceGenerator.QuoteStrFixedRoundTrip |
