# json-scenario-generator, modelled in Dafny

This project models the core of json-scenario-generator. The tool keeps JSON test scenarios for a
loan-application API in step with new versions of the API's JSON Schemas. The model covers three parts.

- **Expression-language pieces.** The language is a function-call subset of the Spring Expression
  Language (SpEL) that decides when a conditionally required field ("УО") must be present.
  - The builtin predicates (`spel_functions.dfy`): the INN checksum, the UUID check, digit
    counting, year arithmetic with the Feb-29 fallback, date order and three-way comparison.
  - The evaluation context with its stack of parent objects (`spel_context.dfy`, a class).
  - The node catalogue with its scope classification by path prefix (`spel_ast.dfy`).
  - The regex tokenizer and the recursive-descent parser over a token list with a cursor
    (`spel_parser.dfy`). It is given both as functions and as a class whose methods advance the
    cursor, and the methods are proved equal to the functions.
  - The serialiser from parser nodes to Python source text (`spel_transpiler.dfy`).
- **Schema-diff pipeline.**
  - The schema parser flattens a JSON Schema into `{path: FieldMetadata}` and also has its own
    comparison (`schema_parser.dfy`).
  - The comparator splits the union of paths into added, removed and modified fields and
    describes each difference (`schema_comparator.dfy`).
  - The change analyzer classifies each change by change type, breaking level and impact level
    (`change_analyzer.dfy`).
  - The models add predicates, filters, statistics and stable sorting (`schema_models.dfy`,
    `change_models.dfy`).
- **Data-structure operations.**
  - Path-addressed read, write and delete on a scenario's nested JSON, with list padding
    (`scenario_models.dfy`).
  - Linear-search dictionary lookups (`dictionary_models.dfy`).
  - Deep schema merge and collection of required field paths (`json_utils.dfy`).
  - The file names of schemas, reports and updated scenarios (`settings.dfy`).

`json.dfy` holds the JSON value type: null, bool, integer, string, list and object. Objects are
finite maps, so Python dict order is not modelled. Where Python iterates a dict or a set (the
comparator's loop over paths, the parser's loop over properties, `merge_schemas`), the model picks
keys in an unspecified order. Its contracts are stated so that they hold for every order.
`common.dfy` holds the string helpers: split, join, find, strip, lower case and decimal text.

Python exceptions are modelled as values. Each module has an `Option`, `Outcome` or result
datatype, and a failing call returns the case naming the exception. Preconditions appear only
where the code relies on its callers: `SchemaParser.ParseSchema` requires property names without
"/" and "[" and not empty (see "Left out"), and `ChangeAnalyzer.AnalyzeAddition` and
`ChangeAnalyzer.AnalyzeRemoval` require the new or old metadata that `compare` always attaches
to an added or removed change.

The model follows the code where code and documentation disagree:
- `get_schema_path`'s docstring shows "V72Call1Rq.json" for version "072", but the code formats
  the version unchanged ("V072Call1Rq.json").
- `_analyze_modification`'s docstring rates non-restricting constraint changes LOW, but the code
  gives MEDIUM.
- The schema parser's `_detect_field_changes` writes requiredness as "False → True".
  `FieldChange.is_breaking_change` looks for "Н → О", which only the comparator writes. A field
  that becomes required is therefore breaking in a diff from the comparator and not breaking in a
  diff from the parser (`SchemaParser.RequiredChangeNotBreaking`,
  `SchemaParser.ComparatorRequiredBreaking`).
- The parser's `_fields_differ` ignores the condition, while the comparator's does not
  (`SchemaParser.ModifiedVsComparator`).

## Model

| member | source | states |
|---|---|---|
| SpelAst.ClassifyPath | src/core/spel_ast.py:114-124 | each scope holds exactly when its test does: THIS exactly for `this` or `this.`; ROOT exactly for a path starting with `root` or `#rootBean`; PARENT exactly for one starting with `parent`; FIELD exactly when none of these apply |
| SpelAst.ClassifyRootPrefix | src/core/spel_ast.py:118-119 | every path starting with `root` or with `#rootBean` is ROOT, whatever follows |
| SpelAst.ClassifyParentPrefix | src/core/spel_ast.py:120-121 | every path starting with `parent` is PARENT, whatever follows |
| SpelAst.ClassifyThisDotPrefix | src/core/spel_ast.py:116-123 | `this.` followed by any non-empty text is an ordinary FIELD, not THIS |
| SpelAst.ThisDotFieldIsField | src/core/spel_ast.py:116-123 | `this.x` is an ordinary field, `rootX` is ROOT and `parentId` is PARENT: the test is a bare prefix test |
| SpelAst.ParentNPath | src/core/spel_ast.py:139-150 | the path built by `ParentNNode` always starts with `parent` |
| SpelAst.ParentNPathExamples | src/core/spel_ast.py:144-150 | level 2 with a sub-path gives `parent2.sub`; level 1 gives `parent.sub`; no sub-path gives `parent3`; level 0 with an empty sub-path gives `parent` |
| SpelAst.RootPath | src/core/spel_ast.py:163-165 | the root path is `rootBean.` followed by the sub-path, unchanged |
| SpelAst.TypeOf | src/core/spel_ast.py:88-165 | a literal is LITERAL, a `ParentNNode` is PARENT, a `RootNode` is ROOT, a method call is CALL, and a field gets its scope from its path |
| SpelAst.LiteralRepr | src/core/spel_ast.py:97-105 | None prints as `null`, booleans print in lower case, strings print in double quotes, integers print in decimal |
| SpelAst.Repr | src/core/spel_ast.py:82-323 | a field, parent or root node prints as its path, and every operator, call or collection node prints as a call form ending in `)` |
| SpelAst.Reprs | src/core/spel_ast.py:198-200 | the operand texts are the node texts, one per operand, in order |
| SpelAst.NaryReprMatchesFixedArity | src/core/spel_ast.py:177-200 | an n-ary node with one or two operands prints exactly like the unary or binary node of that kind |
| SpelAst.CallReprNoArguments | src/core/spel_ast.py:222-224 | a method call without arguments prints as `call(target, name)` |
| SpelAst.CreateCall | src/core/spel_ast.py:211-220 | a missing argument list becomes the empty list; target and name are kept |
| SpelAst.CreateAnd | src/core/spel_ast.py:326-328 | an AND node over exactly the given operands |
| SpelAst.CreateOr | src/core/spel_ast.py:331-333 | an OR node over exactly the given operands |
| SpelAst.CreateNot | src/core/spel_ast.py:336-338 | a NOT node that prints as `not(operand)` |
| SpelAst.CreateEq | src/core/spel_ast.py:341-343 | an EQ node that prints as `eq(left, right)` |
| SpelAst.CreateNotEq | src/core/spel_ast.py:346-348 | a NOT_EQ node that prints as `notEq(left, right)` |
| SpelAst.CreateIn | src/core/spel_ast.py:351-353 | an IN node whose first operand is the value being checked, followed by the candidates in order |
| SpelAst.CreateNotIn | src/core/spel_ast.py:356-358 | a NOT_IN node with the same operand layout as `create_in` |
| SpelAst.CreateInRepr | src/core/spel_ast.py:351-353 | `in` with one candidate prints like the binary `in(subject, value)` |
| SpelAst.CreateIsNull | src/core/spel_ast.py:361-363 | an IS_NULL node that prints as `isNull(operand)` |
| SpelAst.CreateNotNull | src/core/spel_ast.py:366-368 | a NOT_NULL node that prints as `notNull(operand)` |
| SpelAst.CreateIsBlank | src/core/spel_ast.py:371-373 | an IS_BLANK node that prints as `isBlank(operand)` |
| SpelAst.CreateNotBlank | src/core/spel_ast.py:376-378 | a NOT_BLANK node that prints as `notBlank(operand)` |
| SpelAst.FieldReprIsPath | src/core/spel_ast.py:128-169 | a field, parent or root node prints as its path |
| SpelContext.ParentAt | src/core/spel_context.py:113-137 | level k is the k-th most recent parent; a level below 1 or beyond the stack gives None |
| SpelContext.EvalContext | src/core/spel_context.py:139-181 | `data` and `root` are always present; `parent`, `parent2` and `parent3` are present exactly when that level is not None, and hold it; there are no other names |
| SpelContext.PushShiftsLevels | src/core/spel_context.py:77-137 | after a push the pushed object is level 1 and every earlier level moves up by one |
| SpelContext.EvalContextSeesThreeLevels | src/core/spel_context.py:139-181 | objects deeper than level 3 never reach the evaluation variables |
| SpelContext.SpelContext.constructor | src/core/spel_context.py:67-75 | a None root falls back to the data object; the stack is the given one |
| SpelContext.SpelContext.PushParent | src/core/spel_context.py:77-91 | appends the object to the stack, leaves data and root alone, and the object becomes level 1 |
| SpelContext.SpelContext.PopParent | src/core/spel_context.py:93-111 | on an empty stack returns None and changes nothing; otherwise removes and returns the most recent parent |
| SpelContext.SpelContext.GetParent | src/core/spel_context.py:113-137 | the parent at the given level of the current stack, None when out of range |
| SpelContext.SpelContext.ToEvalContext | src/core/spel_context.py:139-181 | the evaluation variables of the current data, root and stack |
| SpelContext.SpelContext.CreateChildContext | src/core/spel_context.py:183-220 | a new context over the new data with the same root and a copy of the stack, or an empty stack |
| SpelContext.CreateContext | src/core/spel_context.py:223-253 | a new context whose stack holds the initial parent exactly when it is not None |
| SpelContext.PushPopRoundTrip | src/core/spel_context.py:77-111 | a push followed by a pop returns the pushed object and restores the stack |
| SpelFunctions.Control | src/core/spel_functions.py:148-149 | the check digit is a single digit, 0 to 9 |
| SpelFunctions.IsValidTaxNum | src/core/spel_functions.py:142-166 | only a non-empty all-digit string of length 10 or 12 can be a valid INN |
| SpelFunctions.WeightedSumPrefix | src/core/spel_functions.py:148-160 | the weighted checksum reads only as many digits as there are weights |
| SpelFunctions.WeightedSum10 | src/core/spel_functions.py:147-148 | the 10-digit checksum weighs the first nine digits by 2, 4, 10, 3, 5, 9, 4, 6, 8 |
| SpelFunctions.TaxNum10 | src/core/spel_functions.py:145-150 | a 10-digit INN is valid if and only if its tenth digit is ((2·d1 + 4·d2 + 10·d3 + 3·d4 + 5·d5 + 9·d6 + 4·d7 + 6·d8 + 8·d9) mod 11) mod 10 |
| SpelFunctions.WeightedSum12First | src/core/spel_functions.py:154-157 | the first 12-digit checksum weighs the first ten digits by 7, 2, 4, 10, 3, 5, 9, 4, 6, 8 |
| SpelFunctions.WeightedSum12Second | src/core/spel_functions.py:155-160 | the second 12-digit checksum weighs the first eleven digits by 3, 7, 2, 4, 10, 3, 5, 9, 4, 6, 8 |
| SpelFunctions.TaxNum12 | src/core/spel_functions.py:152-163 | a 12-digit INN is valid if and only if its eleventh digit is the first weighted sum mod 11 mod 10 and its twelfth digit the second, with the weights written out |
| SpelFunctions.TaxNum10FromPrefix | src/core/spel_functions.py:145-150 | any nine digits followed by their computed check digit form a valid 10-digit INN |
| SpelFunctions.TaxNum12FromPrefix | src/core/spel_functions.py:152-163 | any ten digits followed by both computed check digits form a valid 12-digit INN |
| SpelFunctions.TaxNum10CheckDigitDetected | src/core/spel_functions.py:145-150 | changing only the check digit of a valid 10-digit INN always makes it invalid |
| SpelFunctions.TaxNum10MutationUndetected | src/core/spel_functions.py:145-150 | "0000000000" and "5000000000" are both valid: a change of one digit is not always detected |
| SpelFunctions.IsValidUuidAsWritten | src/core/spel_functions.py:181-188 | as written: accepts exactly the 8-4-4-4-12 hex shape, optionally followed by one newline, because `$` also matches before a final newline |
| SpelFunctions.IsValidUuid | src/core/spel_functions.py:181-188 | as intended: accepts only the 8-4-4-4-12 hex shape, in either case, with nothing after it |
| SpelFunctions.UuidTrailingNewline | src/core/spel_functions.py:184-188 | a valid UUID followed by "\n" passes the as-written check and fails the intended one |
| SpelFunctions.UuidAgreement | src/core/spel_functions.py:181-188 | the two checks agree on every input that does not end in a newline |
| SpelFunctions.UuidIgnoresCase | src/core/spel_functions.py:184-187 | upper-case hex digits are accepted and "not-a-uuid" is not |
| SpelFunctions.DigitsCheckDecimal | src/core/spel_functions.py:209-226 | for `int.frac` with one dot the verdict compares the integer-part length (sign excluded) and the fraction length with the two maxima |
| SpelFunctions.DigitsCheckInteger | src/core/spel_functions.py:213-226 | an integer passes when its digit count, without the sign, is within the integer maximum and the fraction maximum is not negative |
| SpelFunctions.DigitsCheckTwoDots | src/core/spel_functions.py:216-217 | a value with two dots raises ValueError when it is unpacked into two parts |
| SpelFunctions.DigitsCheck | src/core/spel_functions.py:209-226 | None is valid; ValueError exactly when the text has a dot and does not split into two parts |
| SpelFunctions.MinusYears | src/core/spel_functions.py:61-65 | succeeds exactly when the target year is within 1 to 9999; keeps month and day, except that Feb 29 becomes Feb 28 in a non-leap year |
| SpelFunctions.MinusZeroYears | src/core/spel_functions.py:61-62 | subtracting zero years gives the same date |
| SpelFunctions.MinusYearsLeapDay | src/core/spel_functions.py:61-65 | Feb 29 stays Feb 29 in a leap target year and becomes Feb 28 otherwise |
| SpelFunctions.IsAfter | src/core/spel_functions.py:93 | a date is never after itself |
| SpelFunctions.IsAfterStrictOrder | src/core/spel_functions.py:93 | `is_after` is irreflexive, asymmetric, transitive and total on distinct dates |
| SpelFunctions.CompareTo | src/core/spel_functions.py:105-110 | 1 exactly when the first is greater, -1 exactly when it is smaller, 0 exactly when they are equal |
| SpelFunctions.CompareToAntisymmetric | src/core/spel_functions.py:105-110 | swapping the arguments negates the result |
| SpelFunctions.Length | src/core/spel_functions.py:125 | the number of characters, and 0 for None |
| SpelFunctions.IsDictionaryValue | src/core/spel_functions.py:251-261 | the stub accepts every value, with or without `allow_empty` |
| SpelParser.WordRun | src/core/spel_parser.py:80-81 | the `\w+` alternative takes the longest run of word characters at the start |
| SpelParser.Step | src/core/spel_parser.py:80-81 | each scan step consumes at least one character; when it yields a token, the pattern can produce that token |
| SpelParser.StepLongestToken | src/core/spel_parser.py:80-81 | a step takes the longest token of the pattern that starts the text (a two-character operator before `<`, `>` or `!`), and drops one character exactly when no token starts there |
| SpelParser.Tokenize | src/core/spel_parser.py:64-82 | every token is one the pattern can produce; which tokens, for every input, is stated by the five lemmas below |
| SpelParser.TokenizeWordRun | src/core/spel_parser.py:80-81 | a maximal run of word characters is one token, followed by the tokens of the rest |
| SpelParser.TokenizePunct | src/core/spel_parser.py:80-81 | each of `( ) . , [ ]` is a token of its own, whatever follows it |
| SpelParser.TokenizeTwoChar | src/core/spel_parser.py:80-81 | `==`, `!=`, `<=`, `>=`, `&&` and the double bar are taken whole, whatever follows them |
| SpelParser.TokenizeOneChar | src/core/spel_parser.py:80-81 | `<`, `>` and `!` are one-character tokens when no `=` follows them |
| SpelParser.TokenizeDrop | src/core/spel_parser.py:80-81 | a character that starts no token is dropped and tokenizing goes on after it |
| SpelParser.WordRunBeforeSpace | src/core/spel_parser.py:80 | a word run stops at a space |
| SpelParser.StepBeforeSpace | src/core/spel_parser.py:80-81 | no scan step reaches across a following space |
| SpelParser.TokenizeSpace | src/core/spel_parser.py:80-81 | a space separates tokens and is itself dropped: the tokens of `a b` are those of `a` followed by those of `b` |
| SpelParser.TokenizeWord | src/core/spel_parser.py:80-81 | a run of word characters is a single token |
| SpelParser.TokenizeTwoCharOperator | src/core/spel_parser.py:80 | `<=` is one token, not `<` followed by `=` |
| SpelParser.TokenizeNot | src/core/spel_parser.py:80 | `!` without a following `=` is a token of its own |
| SpelParser.TokenizeDropsQuotes | src/core/spel_parser.py:80-81 | quotes and a lone `=` match no alternative and are dropped |
| SpelParser.VarEnd | src/core/spel_parser.py:174-185 | the variable loop stops at the first token that is neither a path part nor a dot |
| SpelParser.PathParts | src/core/spel_parser.py:176-183 | the collected path never holds a dot and has at most one part per token |
| SpelParser.PathPartsConcat | src/core/spel_parser.py:176-183 | the parts of two token runs in a row are the parts of the first followed by those of the second |
| SpelParser.PathPartsOne | src/core/spel_parser.py:178-183 | a single token is collected unless it is the dot |
| SpelParser.Variable | src/core/spel_parser.py:158-188 | the variable consumes exactly the maximal run of path tokens at the cursor, and its name is that run's parts joined with "." |
| SpelParser.VariableOfRun | src/core/spel_parser.py:172-188 | for any run of path tokens followed by a token a path cannot hold, the variable ends at that token and is named by the run's parts |
| SpelParser.VariableNamesParts | src/core/spel_parser.py:172-188 | for any path parts x1 … xn, both `x1 . x2 . … . xn` and `x1 x2 … xn` name the variable `x1.x2.….xn` |
| SpelParser.Primary | src/core/spel_parser.py:94-119 | a parsed primary expression is one the parser builds; when it consumes nothing it is the empty variable |
| SpelParser.FunctionCall | src/core/spel_parser.py:121-156 | a parsed call is named after its first token and ends at the `)` it consumed |
| SpelParser.Args | src/core/spel_parser.py:144-154 | the argument loop keeps the arguments it has already collected, in order, and a parsed call ends at `)` |
| SpelParser.FunctionCallArguments | src/core/spel_parser.py:139-153 | for every parsed call: the token after the name is `(`; the i-th argument is the primary expression parsed at a position `starts[i]` inside the parentheses; each argument ends no later than the next one starts; only commas lie before the first argument, between consecutive arguments and after the last; the call ends just after its `)` |
| SpelParser.ArgsArguments | src/core/spel_parser.py:144-149 | the same layout for the arguments the loop adds from any position, skipping commas and parsing one primary expression per turn |
| SpelParser.ParseNoTokens | src/core/spel_parser.py:101-102 | an expression without tokens raises "Unexpected end of expression" |
| SpelParser.PrimaryDigits | src/core/spel_parser.py:107-109 | a digit token becomes an integer literal and the cursor advances by one |
| SpelParser.VariableStopsAtOtherToken | src/core/spel_parser.py:112-119 | otherwise the primary is a variable over a run of path tokens, and the token that ends the run is not consumed |
| SpelParser.VariableJoinsParts | src/core/spel_parser.py:172-188 | for any two path parts x and y, `x . y` and `x y` both give the path `x.y`, and the variable ends at the first token a path cannot hold |
| SpelParser.UnderscoreEndsVariable | src/core/spel_parser.py:178 | a token such as `a_b` is not alphanumeric, so the variable there is empty |
| SpelParser.ArgumentWithoutProgressDiverges | src/core/spel_parser.py:145-149 | `f(a_b)` makes the argument loop repeat forever: an argument that consumes nothing leaves the cursor where it was, so the cursor never advances |
| SpelParser.MissingCloseParen | src/core/spel_parser.py:144-153 | a call with no `)` among the tokens after its `(` never parses, at any position in any token list |
| SpelParser.MissingCloseParenMessage | src/core/spel_parser.py:152-153 | a call whose tokens end right after `(` raises "Expected ')' after function arguments" |
| SpelParser.CallArgumentsInOrder | src/core/spel_parser.py:144-156 | in `f(1, 2)` the comma is skipped and the arguments are 1 then 2 |
| SpelParser.Parse | src/core/spel_parser.py:37-62 | a parsed result is a tree the parser builds, and an expression without tokens raises "Unexpected end of expression" |
| SpelParser.SpelParserState.constructor | src/core/spel_parser.py:32-35 | starts with no tokens and the cursor at 0 |
| SpelParser.SpelParserState.Parse | src/core/spel_parser.py:37-62 | stores the tokens of the expression and returns the primary expression parsed from position 0 |
| SpelParser.SpelParserState.ParsePrimary | src/core/spel_parser.py:94-119 | the stepwise parse returns exactly `Primary` at the old cursor and leaves the cursor after it |
| SpelParser.SpelParserState.ParseFunctionCall | src/core/spel_parser.py:121-156 | the stepwise call parse returns exactly `FunctionCall` at the old cursor |
| SpelParser.SpelParserState.ParseVariable | src/core/spel_parser.py:158-188 | the stepwise variable parse returns exactly `Variable` at the old cursor and moves the cursor to its end |
| SpelTranspiler.Literal | src/core/spel_transpiler.py:96-103 | strings in single quotes (not escaped), None as `None`, booleans as `True`/`False`, integers in decimal |
| SpelTranspiler.UnaryOperator | src/core/spel_transpiler.py:139-143 | `not` and `!` become `not`; any other operator passes through unchanged |
| SpelTranspiler.BinaryOperatorTable | src/core/spel_transpiler.py:166-179 | each of the ten table entries maps as listed, and any other operator passes through unchanged |
| SpelTranspiler.Both | src/core/spel_transpiler.py:163-164 | the combined code succeeds iff both parts do; the first part's error wins over the second's |
| SpelTranspiler.SwapBoth | src/core/spel_transpiler.py:234-238 | when the second part is printed first, the first part is still transpiled and reported first |
| SpelTranspiler.TranspileArgsJoin | src/core/spel_transpiler.py:198-200 | the argument code is the codes of the arguments, in order, joined with ", " |
| SpelTranspiler.Transpile | src/core/spel_transpiler.py:40-77 | the only error transpiling raises is the "Unsupported AST node type: " ValueError |
| SpelTranspiler.TranspileArgs | src/core/spel_transpiler.py:196-200 | the only error the arguments raise is the "Unsupported AST node type: " ValueError |
| SpelTranspiler.TranspileFailsIffUnsupported | src/core/spel_transpiler.py:40-77 | transpiling fails with ValueError exactly when the tree holds a node kind outside the dispatch |
| SpelTranspiler.ArgsFailIffUnsupported | src/core/spel_transpiler.py:198 | the arguments fail exactly when one of them holds an unsupported node |
| SpelTranspiler.ParsedTranspiles | src/core/spel_parser.py:94-188 | every tree the parser builds transpiles without error |
| SpelTranspiler.IntegerLiteralRoundTrip | src/core/spel_transpiler.py:102-103 | a digit token without a superfluous leading zero, parsed and transpiled, gives back the same text |
| SpelTranspiler.IntegerLiteralReadsBack | src/core/spel_transpiler.py:102-103 | the code of an integer literal reads back as the same integer |
| SpelTranspiler.VariableCode | src/core/spel_transpiler.py:120 | a variable becomes `context.get_value('name')` |
| SpelTranspiler.NegationCode | src/core/spel_transpiler.py:138-144 | `!x` and `not x` both become `(not x)` |
| SpelTranspiler.BinaryCode | src/core/spel_transpiler.py:163-180 | `notIn` becomes `not in`, and an operator outside the table is copied into the code verbatim |
| SpelTranspiler.CollectionCode | src/core/spel_transpiler.py:215-310 | filter and map become list comprehensions, the match operators become `all`, `any` and `not any`, and hasSize becomes a `len` comparison |
| SpelTranspiler.FirstErrorWins | src/core/spel_transpiler.py:198-235 | with several unsupported nodes, the one transpiled first (the collection, or the leftmost argument) is the one reported |
| SchemaModels.StatusValueInjective | src/models/schema_models.py:15-28 | distinct statuses carry distinct texts, so the text identifies the status |
| SchemaModels.FullVersion | src/models/schema_models.py:71-80 | the version alone when the subversion is missing or empty, otherwise the version, a dot and the subversion |
| SchemaModels.VersionStatusExclusive | src/models/schema_models.py:82-92 | every version is exactly one of current, future or deprecated, and deprecated covers both deprecating and deprecated |
| SchemaModels.PrimitiveComplexDisjoint | src/models/schema_models.py:154-160 | no field is both primitive and complex, and the fallback type "unknown" is neither |
| SchemaModels.Get | src/models/schema_models.py:166-176 | `dict.get`: the stored value, or None when the key is absent |
| SchemaModels.RequirementStatus | src/models/schema_models.py:178-192 | "О" exactly for a required field, "УО" exactly for a conditional field that is not required, "Н" otherwise |
| SchemaModels.IsBreakingChange | src/models/schema_models.py:243-267 | only a removal with old metadata, a "type" entry or a "required" entry can make a change breaking |
| SchemaModels.KeysOf | src/models/schema_models.py:240 | the key set of a change-description dict |
| SchemaModels.Lookup | src/models/schema_models.py:240 | `changes[key]` is the text stored under that key |
| SchemaModels.HasKeyConcat | src/core/schema_comparator.py:143-150 | a key is in two merged description dicts exactly when it is in one of them |
| SchemaModels.LookupConcat | src/core/schema_comparator.py:143-150 | a lookup in two merged description dicts finds the text in the first dict that has the key |
| SchemaModels.DistinctConcat | src/core/schema_comparator.py:143-150 | two description dicts without common keys merge into one whose keys are still distinct |
| SchemaModels.Texts | src/models/schema_models.py:240 | the description texts in order, one per entry |
| SchemaModels.Severity | src/models/schema_models.py:269-283 | "critical" exactly for a breaking change, "warning" exactly for a non-breaking modification, "info" otherwise |
| SchemaModels.PlainAdditionNotBreaking | src/models/schema_models.py:243-267 | an addition with no descriptions is never breaking, whatever the new field looks like, and its severity is "info" |
| SchemaModels.RemovedRequiredIsCritical | src/models/schema_models.py:256-257 | removing a required field is critical, whatever its descriptions say |
| SchemaModels.TotalChanges | src/models/schema_models.py:339-341 | the total is the number of added, removed and modified changes together |
| SchemaModels.BreakingChanges | src/models/schema_models.py:357-360 | every listed change is breaking and comes from the diff; there are no more of them than changes |
| SchemaModels.Statistics | src/models/schema_models.py:362-375 | the total is the sum of the three counts, and the breaking count is at most the total |
| SchemaModels.HasChangesIffSomeList | src/models/schema_models.py:339-345 | a diff has changes exactly when one of its three lists is non-empty |
| SchemaModels.BreakingChangesInOrder | src/models/schema_models.py:347-375 | the breaking changes are those of the added, then the removed, then the modified list, each kept in order; `has_breaking_changes` holds exactly when there is one, and the statistics count them |
| ChangeModels.ToPriority | src/models/change_models.py:72-75 | the sort priority of an impact level is one of 0 to 3 |
| ChangeModels.PriorityOrder | src/models/change_models.py:72-75 | priorities order the impact levels strictly, critical first, and distinct levels never share a priority |
| ChangeModels.PriorityZeroIffCritical | src/models/change_models.py:67-75 | a change has priority 0 exactly when it is critical |
| ChangeModels.Select | src/models/change_models.py:137-208 | a filtered list is no longer than the input and holds only changes of the requested group |
| ChangeModels.SelectConcat | src/models/change_models.py:137-208 | filtering a concatenation filters each part, so the filters keep the input order |
| ChangeModels.SelectCount | src/models/change_models.py:137-208 | a change occurs in a filtered list as often as in the input when it belongs to the group, and never otherwise |
| ChangeModels.SelectNonEmpty | src/models/change_models.py:137-208 | a filtered list is non-empty exactly when some change belongs to the group |
| ChangeModels.BreakingPartition | src/models/change_models.py:137-151 | breaking and non-breaking changes together hold every change exactly once |
| ChangeModels.ChangeTypePartition | src/models/change_models.py:153-175 | additions, removals and modifications together hold every change exactly once |
| ChangeModels.ImpactPartition | src/models/change_models.py:177-208 | the critical, high, medium and low lists together hold every change exactly once |
| ChangeModels.ChangeTypeCount | src/models/change_models.py:153-175 | each change is counted by exactly one of the three change-type filters |
| ChangeModels.ImpactCount | src/models/change_models.py:177-208 | each change is counted by exactly one of the four impact filters |
| ChangeModels.Statistics | src/models/change_models.py:212-242 | the change-type counts, the breaking-level counts and the impact counts each add up to the total number of changes |
| ChangeModels.SummaryPredicates | src/models/change_models.py:303-313 | there are critical (breaking) changes exactly when some change is critical (breaking), and a scenario update is required exactly when there are breaking changes |
| ChangeModels.PrecedesIrreflexive | src/models/change_models.py:244-285 | no change sorts strictly before itself |
| ChangeModels.PrecedesKeys | src/models/change_models.py:244-285 | a change that sorts before another has a different sort key |
| ChangeModels.PrecedesTransitive | src/models/change_models.py:244-285 | sorting before is transitive for every sort field and direction |
| ChangeModels.NotPrecedesTransitive | src/models/change_models.py:244-285 | not sorting before is transitive too, so the order is a strict weak order as `sorted` needs |
| ChangeModels.Insert | src/models/change_models.py:244-285 | inserting into a list lengthens it by one |
| ChangeModels.InsertPermutes | src/models/change_models.py:244-285 | inserting adds the element and loses nothing |
| ChangeModels.Sort | src/models/change_models.py:244-285 | sorting keeps the length |
| ChangeModels.SortPermutes | src/models/change_models.py:244-285 | the sorted list is a permutation of the input |
| ChangeModels.ConsSorted | src/models/change_models.py:244-285 | a sorted list stays sorted when an element nothing sorts before is put in front |
| ChangeModels.InsertNoneBefore | src/models/change_models.py:244-285 | a lower bound of the element and of the list is still a lower bound after the insertion |
| ChangeModels.InsertSorted | src/models/change_models.py:244-285 | inserting into a sorted list gives a sorted list |
| ChangeModels.SortSorted | src/models/change_models.py:244-285 | the result is sorted by the chosen key, ascending or (with `reverse`) descending |
| ChangeModels.InsertStable | src/models/change_models.py:244-285 | an inserted element lands in front of the elements with the same key |
| ChangeModels.SortStable | src/models/change_models.py:244-285 | the sort is stable: changes with equal keys keep their input order, in both directions |
| ChangeModels.GetSortedChanges | src/models/change_models.py:244-285 | "priority", "path" and "impact_level" give a sorted permutation of the changes; any other field is the ValueError with its message |
| ChangeModels.PriorityAndImpactSortAgree | src/models/change_models.py:262-279 | sorting by "priority" and by "impact_level" gives the same list |
| ChangeModels.InsertAgree | src/models/change_models.py:262-279 | inserting by priority and by impact level puts an element at the same place |
| SchemaComparator.FieldsDiffer | src/core/schema_comparator.py:130-170 | fields that differ are never equal |
| SchemaComparator.FieldsDifferProps | src/core/schema_comparator.py:131-170 | a field never differs from itself, differing is symmetric, and fields alike in path, name, description and items that do not differ are equal |
| SchemaComparator.ConstraintPart | src/core/schema_comparator.py:379-396 | the description of one differing constraint is never empty |
| SchemaComparator.AnalyzeConstraintChanges | src/core/schema_comparator.py:339-398 | every key but "custom" whose value differs is described once, in some iteration order of the key set, and the parts are joined with "; " |
| SchemaComparator.ConstraintDescriptionEmpty | src/core/schema_comparator.py:372-398 | the constraint description is empty exactly when no key other than "custom" changed its value |
| SchemaComparator.ConstraintDirection | src/core/schema_comparator.py:389-394 | a numeric change is "ужесточено" when a lower bound grows or another bound shrinks, and "смягчено" otherwise |
| SchemaComparator.ConstraintOneSided | src/core/schema_comparator.py:384-388 | a key only on the new side reads "<name> добавлено: <new>"; a key only on the old side reads "<name> удалено (было: <old>)" |
| SchemaComparator.Preview | src/core/schema_comparator.py:269 | the preview has at most the given number of characters and no newline |
| SchemaComparator.ListMatchAt | src/core/schema_comparator.py:285-286 | a match of the `in(…)` pattern captures a non-empty group made of digits, commas and whitespace only |
| SchemaComparator.Numbers | src/core/schema_comparator.py:293-297 | every number found in the value lists is a digit string |
| SchemaComparator.Minus | src/core/schema_comparator.py:299-300 | the set difference holds exactly the values of the first list missing from the second |
| SchemaComparator.ConditionAppears | src/core/schema_comparator.py:267-272 | a new condition is shown as "Добавлено условие: " and a preview of at most 100 characters without newlines, "..." marking a cut |
| SchemaComparator.ConditionDisappears | src/core/schema_comparator.py:274-279 | a removed condition is shown as "Условие удалено: " and the same kind of preview |
| SchemaComparator.AddedValuesListed | src/core/schema_comparator.py:285-305 | when both conditions hold `in(…)` value lists and only up to ten values were added, the description lists exactly those values, ascending and without repetition |
| SchemaComparator.DescribeConditionChange | src/core/schema_comparator.py:246-336 | the description of a condition change is never empty |
| SchemaComparator.MixedValuesListed | src/core/schema_comparator.py:315-326 | when values were both added and removed, at most five of each, the text is "Добавлены: " and the added values, then "; удалены: " and the removed ones, each ascending |
| SchemaComparator.ConditionFallback | src/core/schema_comparator.py:328-336 | without value lists to compare, two conditions are compared by 80-character previews: the old preview (with "..." for a cut) is shown when they differ, else "Условие изменилось" |
| SchemaComparator.DetectHeadChanges | src/core/schema_comparator.py:192-223 | the type, required, conditional, condition and dictionary entries are written in that order, each exactly when that attribute differs |
| SchemaComparator.DetectFieldChanges | src/core/schema_comparator.py:172-244 | the description dict is the one built attribute by attribute, with the constraint text of some key iteration order |
| SchemaComparator.FieldChangesKeys | src/core/schema_comparator.py:194-244 | the description has a key exactly for each attribute that differs; a missing condition counts as "", and constraints also need a non-empty description |
| SchemaComparator.FieldChangesTexts | src/core/schema_comparator.py:198-232 | no key appears twice, and the required, conditional, condition and constraints entries hold the texts the comparator writes for the new state |
| SchemaComparator.SilentDifferences | src/core/schema_comparator.py:131-244 | equal fields get no description; a difference with an empty description can only be a missing versus empty condition or a change in "custom" alone |
| SchemaComparator.Modification | src/core/schema_comparator.py:105-114 | the modified entry for a path in both schemas carries both fields and their description |
| SchemaComparator.Compare | src/core/schema_comparator.py:44-129 | the added, removed and modified lists hold each new-only, old-only and differing path exactly once, with entries of the right shape, whatever order the paths are visited in |
| SchemaComparator.CompareTotal | src/core/schema_comparator.py:79-129 | the diff counts one change per added, removed and differing path, and comparing a schema with itself gives no change |
| SchemaParser.BuildPathSegments | src/parsers/schema_parser.py:257-271 | a path splits on "/" into the parent's segments followed by the field name, and is the bare name at the top level |
| SchemaParser.RequiredNames | src/parsers/schema_parser.py:244-255 | a missing `required` gives no names, a list gives its string members, and a value Python cannot make a set of is the TypeError |
| SchemaParser.ConstraintsOnlyRecognised | src/parsers/schema_parser.py:203-242 | keys outside the nine recognised keywords never reach the constraints, every recognised key present is copied unchanged, and extracting twice changes nothing |
| SchemaParser.ExtractConstraints | src/parsers/schema_parser.py:203-242 | the constraints hold exactly the recognised keywords the field schema has, with their values |
| SchemaParser.ParseField | src/parsers/schema_parser.py:122-172 | the field keeps its path, name and requiredness, is conditional exactly when it has a `condition` key, has type "unknown" when none is given, and carries the recognised constraints |
| SchemaParser.ParsedRequirement | src/parsers/schema_parser.py:141-148 | a parsed field's requirement status is "О" when required, else "УО" when it has a condition, else "Н"; a field without a type is neither primitive nor complex |
| SchemaParser.ParseArrayItems | src/parsers/schema_parser.py:174-201 | the items are described at "path[]" under the name "items", from the items' type, description, constraints and dictionary, and are never required or conditional |
| SchemaParser.Properties | src/parsers/schema_parser.py:83 | each property schema is a part of the level's schema, so recursion on it terminates |
| SchemaParser.ItemsShape | src/parsers/schema_parser.py:103-117 | what an array field adds is its own entry, with the items attached, and entries under "path[]/" |
| SchemaParser.ContributionShape | src/parsers/schema_parser.py:84-117 | every entry a property adds lies at or below its path, and its own path holds its metadata |
| SchemaParser.FlattenUnder | src/parsers/schema_parser.py:84-117 | below a non-empty parent every flattened path starts with "parent/" |
| SchemaParser.OwnerUnique | src/parsers/schema_parser.py:84-117 | with plain property names, no two properties of a level produce the same path |
| SchemaParser.ParseItems | src/parsers/schema_parser.py:103-117 | an array field receives its items metadata, and object items with properties are flattened under "path[]" |
| SchemaParser.ParseProperty | src/parsers/schema_parser.py:84-117 | one property stores its metadata at its path, then adds a nested object's or the array items' entries, or fails as the source raises |
| SchemaParser.ParseSchema | src/parsers/schema_parser.py:55-120 | the flattened map is the union of what every property contributes, whatever order the properties are visited in, or the failure of any of them |
| SchemaParser.FlattenHolds | src/parsers/schema_parser.py:84-117 | a successful parse holds every entry each property contributes, unchanged |
| SchemaParser.FlattenEntry | src/parsers/schema_parser.py:84-95 | every property has an entry at its path with its name, whether it is in `required`, whether it has a condition, and its type |
| SchemaParser.FlattenNested | src/parsers/schema_parser.py:97-100 | the properties of an object field are flattened under "path/", each entry as the nested parse gives it |
| SchemaParser.FlattenItems | src/parsers/schema_parser.py:102-117 | an array field carries its items metadata, and the properties of object items are flattened under "path[]/" |
| SchemaParser.FlattenKeys | src/parsers/schema_parser.py:84-117 | every flattened path comes from some property of the level and lies under its path |
| SchemaParser.FieldsDiffer | src/parsers/schema_parser.py:348-371 | fields that differ are never equal |
| SchemaParser.FieldsDifferVsComparator | src/parsers/schema_parser.py:348-371 | the parser's test is the comparator's without the condition, so the two disagree only on fields whose condition alone differs |
| SchemaParser.DetectHeadChanges | src/parsers/schema_parser.py:388-400 | the type, required, conditional and dictionary entries are written in that order, each exactly when that attribute differs |
| SchemaParser.DetectFieldChanges | src/parsers/schema_parser.py:373-411 | the description dict is the one built attribute by attribute |
| SchemaParser.FieldChangesKeys | src/parsers/schema_parser.py:388-411 | the description has a key exactly for each of the seven attributes that differs |
| SchemaParser.FieldChangesTexts | src/parsers/schema_parser.py:388-411 | no key appears twice, the description is empty exactly when the fields do not differ, requiredness reads "False → True" or "True → False", and constraints read "изменены" |
| SchemaParser.RequiredChangeNotBreaking | src/parsers/schema_parser.py:393-394 | a field that only becomes required is recorded by the parser, yet `is_breaking_change` does not flag it, since it looks for "Н → О" |
| SchemaParser.ComparatorRequiredBreaking | src/core/schema_comparator.py:199-201 | the comparator's description of the same change is flagged as breaking |
| SchemaParser.AddedChanges | src/parsers/schema_parser.py:307-314 | one addition per path of the new schema only, each path once |
| SchemaParser.RemovedChanges | src/parsers/schema_parser.py:316-323 | one removal per path of the old schema only, each path once |
| SchemaParser.ModifiedChanges | src/parsers/schema_parser.py:325-339 | one modification per common path whose fields differ, each path once and with its description |
| SchemaParser.CompareSchemas | src/parsers/schema_parser.py:273-346 | the diff has versions and call "unknown", adapter "front-adapter", and exactly the added, removed and modified paths, each once |
| SchemaParser.ModifiedVsComparator | src/parsers/schema_parser.py:325-339 | the parser's modified paths are the comparator's, minus exactly the paths whose fields differ only in their condition |
| SchemaParser.CompareTotal | src/parsers/schema_parser.py:290-346 | the diff counts one change per added, removed and modified path, and a schema compared with itself gives no change |
| AnalyzerTexts.BecameRequiredMarked | src/core/schema_comparator.py:200-201 | the comparator's "became required" text carries the marker "Н → О" that `is_breaking_change` looks for |
| AnalyzerTexts.OptionalUnmarked | src/core/schema_comparator.py:202-203 | the "became optional" text does not carry that marker |
| AnalyzerTexts.BecameRequiredReads | src/analyzers/change_analyzer.py:283-284 | the "became required" text, lowered, contains "стало обязательным" |
| AnalyzerTexts.BecameOptionalReads | src/analyzers/change_analyzer.py:283-284 | the "became optional" text, lowered, does not |
| AnalyzerTexts.BecameConditionalReads | src/analyzers/change_analyzer.py:312-313 | the "became conditionally required" text, lowered, contains "стало условно обязательным" |
| AnalyzerTexts.StoppedConditionalReads | src/analyzers/change_analyzer.py:312-313 | the "no longer conditionally required" text, lowered, does not |
| ChangeAnalyzer.FormatConditionBrief | src/analyzers/change_analyzer.py:440-459 | "нет условия" without a condition, the expression itself up to 100 characters, and its first 100 characters and "..." beyond |
| ChangeAnalyzer.RequirementWord | src/analyzers/change_analyzer.py:138-180 | the reason's adjective is "обязательное" exactly for "О" and "условно обязательное" exactly for "УО" |
| ChangeAnalyzer.Mention | src/analyzers/change_analyzer.py:146-150 | a recommendation built around the path mentions the path |
| ChangeAnalyzer.AdditionAdvice | src/analyzers/change_analyzer.py:138-180 | the recommendations for an addition are at least two and name the field's path |
| ChangeAnalyzer.AnalyzeAddition | src/analyzers/change_analyzer.py:120-181 | an added field breaks clients exactly when it is "О" or "УО"; it is critical for "О", high for "УО", low for "Н", with the matching reason |
| ChangeAnalyzer.RemovalAdvice | src/analyzers/change_analyzer.py:201-241 | the recommendations for a removal are at least two and the first names the path |
| ChangeAnalyzer.AnalyzeRemoval | src/analyzers/change_analyzer.py:183-241 | a removed field always breaks clients, with high impact exactly when it was required and medium otherwise |
| ChangeAnalyzer.Rule | src/analyzers/change_analyzer.py:268-425 | exactly one of the eight rules of `_analyze_modification` decides, the first that applies |
| ChangeAnalyzer.ModificationLevels | src/analyzers/change_analyzer.py:268-431 | a modification is breaking exactly for a type change, a field that became (conditionally) required, a changed condition of a conditional field, a changed dictionary or a restricting constraint; critical exactly for a type change or a field that became required; breaking ones are critical or high, the others medium or low |
| ChangeAnalyzer.ModificationAdvice | src/analyzers/change_analyzer.py:268-431 | every modification comes with at least one recommendation |
| ChangeAnalyzer.TypeAdvice | src/analyzers/change_analyzer.py:268-281 | three recommendations for a type change, the first naming the path |
| ChangeAnalyzer.RequiredAdvice | src/analyzers/change_analyzer.py:283-310 | two recommendations for a requiredness change, naming the path |
| ChangeAnalyzer.ConditionalAdvice | src/analyzers/change_analyzer.py:312-341 | three recommendations for a conditional-requiredness change, the second naming the path |
| ChangeAnalyzer.ConditionAdvice | src/analyzers/change_analyzer.py:343-358 | three recommendations for a changed condition, the first naming the path |
| ChangeAnalyzer.DictionaryAdvice | src/analyzers/change_analyzer.py:360-373 | three recommendations for a changed dictionary, the first naming the path |
| ChangeAnalyzer.ConstraintsAdvice | src/analyzers/change_analyzer.py:375-408 | two recommendations for a constraint change, naming the path |
| ChangeAnalyzer.FormatAdvice | src/analyzers/change_analyzer.py:410-423 | two recommendations for a format change, the second naming the path |
| ChangeAnalyzer.AnalyzeModification | src/analyzers/change_analyzer.py:243-438 | a modified field keeps its change, has the levels of the deciding rule, and the reason and recommendations of that rule |
| ChangeAnalyzer.RequiredTextRead | src/analyzers/change_analyzer.py:283-284 | the comparator's requiredness text carries "Н → О" and reads as "стало обязательным" exactly when the field became required |
| ChangeAnalyzer.ConditionalTextRead | src/analyzers/change_analyzer.py:312-313 | the comparator's conditional text reads as "стало условно обязательным" exactly when the field became conditionally required |
| ChangeAnalyzer.CriticalModification | src/analyzers/change_analyzer.py:268-299 | on the comparator's output, a modification is critical exactly for a type change or a field that became required |
| ChangeAnalyzer.BreakingModification | src/models/schema_models.py:243-267 | on the comparator's output, `is_breaking_change` reports a modification exactly for a type change or a field that became required |
| ChangeAnalyzer.CriticalAgreesWithBreaking | src/analyzers/change_analyzer.py:268-299 | on the comparator's output, the analyzer's critical modifications are exactly the changes `is_breaking_change` reports |
| ChangeAnalyzer.ConditionalChangeRead | src/analyzers/change_analyzer.py:312-341 | with type and requiredness unchanged, becoming conditionally required is breaking and high, ceasing to be is non-breaking and low |
| ChangeAnalyzer.TightenedPartReads | src/core/schema_comparator.py:389-394 | the description of a tightened numeric constraint contains "ужесточено" |
| ChangeAnalyzer.TightenedPartRestricts | src/analyzers/change_analyzer.py:375-382 | a tightened numeric bound makes the whole constraint description read as a restriction |
| ChangeAnalyzer.TightenedDescription | src/analyzers/change_analyzer.py:375-382 | a constraint description with a tightened bound is non-empty and a restriction, whatever order the keys were described in |
| ChangeAnalyzer.OnlyConstraintsDiffer | src/analyzers/change_analyzer.py:375-408 | when only the constraints differ, with a non-empty description, the constraints rule decides on that description |
| ChangeAnalyzer.TightenedConstraintBreaks | src/analyzers/change_analyzer.py:375-393 | when only the constraints differ and a numeric bound was tightened, the change is breaking with high impact |
| ChangeAnalyzer.AnalyzeKind | src/analyzers/change_analyzer.py:89-99 | each rule keeps the change it classifies and gives its list's change type; removals always break |
| ChangeAnalyzer.MapElements | src/analyzers/change_analyzer.py:89-99 | the mapped list holds one result per change, in order |
| ChangeAnalyzer.ListElements | src/analyzers/change_analyzer.py:89-99 | one analysed change per change of a list, each the rule's verdict on it |
| ChangeAnalyzer.AnalyzeEach | src/analyzers/change_analyzer.py:89-99 | a loop of `analyze_changes` appends the rule's verdict on each change in order |
| ChangeAnalyzer.AnalyzeChanges | src/analyzers/change_analyzer.py:86-114 | the result lists the verdicts on the additions, then the removals, then the modifications, with the two file stems as versions |
| ChangeAnalyzer.ComparedAnalyzable | src/analyzers/change_analyzer.py:80-99 | every diff `compare` produces carries the metadata the rules read |
| ChangeAnalyzer.ListKinds | src/analyzers/change_analyzer.py:89-99 | every analysed change of a list keeps its change and its list's change type, and removals all break |
| ChangeAnalyzer.AnalysisFollowsDiff | src/analyzers/change_analyzer.py:86-99 | the analysis has one entry per change of the diff, the i-th about the i-th change |
| ChangeAnalyzer.AnalysisCounts | src/analyzers/change_analyzer.py:86-114 | the result's additions, removals and modifications are as many as the diff's, and there are at least as many breaking changes as removals |
| ScenarioModels.ParseSegment | src/models/scenario_models.py:156-163 | a part without both brackets is a plain key; an indexed part's key holds no "["; a failure is always the ValueError of the split or of `int()` |
| ScenarioModels.ParseSegmentText | src/models/scenario_models.py:158-160 | a segment written out as `key` or `key[index]` parses back to itself |
| ScenarioModels.Position | src/models/scenario_models.py:161 | a Python index is valid exactly from -n to n-1, a negative one counting from the end |
| ScenarioModels.GetPathErrors | src/models/scenario_models.py:134-165 | reading by path fails only with KeyError, IndexError, TypeError or ValueError |
| ScenarioModels.Pad | src/models/scenario_models.py:195-196 | padding makes the list long enough for the index, keeps its items and fills the rest with the filler |
| ScenarioModels.SetLast | src/models/scenario_models.py:204-218 | the final write on a dict adds only the segment's key and keeps every other key's value |
| ScenarioModels.SetPath | src/models/scenario_models.py:167-218 | writing into the data dict leaves a dict |
| ScenarioModels.SetChild | src/models/scenario_models.py:199-202 | an intermediate plain key is created if missing, and no other key changes |
| ScenarioModels.SetItem | src/models/scenario_models.py:186-198 | an intermediate indexed key is created if missing, and no other key changes |
| ScenarioModels.SetThenGet | src/models/scenario_models.py:134-218 | after a write that raised nothing, reading the same path gives the value just written |
| ScenarioModels.SetChildThenGet | src/models/scenario_models.py:199-202 | after a write through a plain key, the rest of the path reads back the value |
| ScenarioModels.SetItemThenGet | src/models/scenario_models.py:186-198 | after a write through an indexed key, the rest of the path reads back the value from that item |
| ScenarioModels.SetSiblings | src/models/scenario_models.py:181-218 | a write never touches a top-level key other than the first segment's, which exists afterwards; a malformed first segment changes nothing |
| ScenarioModels.SetCreatesDict | src/models/scenario_models.py:199-202 | a missing intermediate key becomes a new dict holding the rest of the path |
| ScenarioModels.SetPadsFinal | src/models/scenario_models.py:206-216 | a final `key[i]` pads the list with None up to i, keeps its earlier items and stores the value at i |
| ScenarioModels.SetPadsIntermediate | src/models/scenario_models.py:186-198 | an intermediate `key[i]` pads the list with empty dicts up to i and keeps its earlier items |
| ScenarioModels.GetPathHead | src/models/scenario_models.py:153-163 | a readable path starts with a segment that parses and names a key of the current dict |
| ScenarioModels.DeletePath | src/models/scenario_models.py:266-285 | deleting from the data dict leaves a dict |
| ScenarioModels.DeleteLast | src/models/scenario_models.py:278-285 | the final delete removes exactly the plain key, or keeps the keys when it removes an item, and no other key changes |
| ScenarioModels.DeleteChild | src/models/scenario_models.py:270-276 | deleting through a plain key keeps the dict's keys and every other value |
| ScenarioModels.DeleteItem | src/models/scenario_models.py:270-276 | deleting through an indexed key keeps the dict's keys and every other value |
| ScenarioModels.DeleteThenGet | src/models/scenario_models.py:246-288 | after deleting a path that ends in a plain key, reading it raises KeyError |
| ScenarioModels.DeleteSiblings | src/models/scenario_models.py:266-285 | deleting keeps every other top-level key, and removes the first segment's key only for a one-segment plain path |
| ScenarioModels.WithTag | src/models/scenario_models.py:50-58 | the tag is present afterwards; the list is unchanged when it was there and extended by it at the end otherwise |
| ScenarioModels.WithTagIdempotent | src/models/scenario_models.py:50-58 | adding a tag twice is adding it once, and a list without duplicates stays without |
| ScenarioModels.ScenarioMetadata.constructor | src/models/scenario_models.py:40-48 | the given name, version and call, adapter "front-adapter", no description and no tags |
| ScenarioModels.ScenarioMetadata.AddTag | src/models/scenario_models.py:50-70 | the tags become the list with the tag added unless present, `has_tag` holds afterwards, and nothing else changes |
| ScenarioModels.Scenario.constructor | src/models/scenario_models.py:130-131 | the scenario holds the given metadata and data |
| ScenarioModels.Scenario.GetFieldValue | src/models/scenario_models.py:134-165 | the loop returns what reading the path segment by segment gives, or the exception it raises |
| ScenarioModels.Scenario.HasField | src/models/scenario_models.py:223-244 | true exactly when the path can be read, false when reading raises KeyError, IndexError or TypeError; a ValueError passes through |
| ScenarioModels.Scenario.SetFieldValue | src/models/scenario_models.py:167-221 | the data becomes the written dict, including what was created before an exception, and the metadata object is kept |
| ScenarioModels.Scenario.DeleteField | src/models/scenario_models.py:246-288 | an unreadable path gives false with the data unchanged (a ValueError passes through); otherwise the final key or item is removed and the answer is true |
| ScenarioModels.Scenario.ToDict | src/models/scenario_models.py:290-297 | the copy equals the data |
| DictionaryModels.FirstIsFirst | src/models/dictionary_models.py:113-116 | the front-to-back search finds the entry at the lowest matching index, and nothing exactly when no entry matches |
| DictionaryModels.FirstAppend | src/models/dictionary_models.py:207-221 | appending an entry never hides an earlier match, and the new entry is found only when nothing before it matches |
| DictionaryModels.Dictionary.constructor | src/models/dictionary_models.py:93-95 | a new dictionary has the given name, no entries and no description |
| DictionaryModels.Dictionary.GetByCode | src/models/dictionary_models.py:97-116 | the first entry with the code, None when there is none |
| DictionaryModels.Dictionary.GetByName | src/models/dictionary_models.py:118-137 | the first entry with the name, None when there is none |
| DictionaryModels.Dictionary.ContainsCode | src/models/dictionary_models.py:223-233 | true exactly when some entry has the code |
| DictionaryModels.Dictionary.ContainsName | src/models/dictionary_models.py:235-245 | true exactly when some entry has the name |
| DictionaryModels.Dictionary.Contains | src/models/dictionary_models.py:275-292 | an int (a bool as 0 or 1) is looked up by code, a string by name, an entry by equality, and anything else is not contained |
| DictionaryModels.Dictionary.AddEntry | src/models/dictionary_models.py:207-221 | the entry is appended at the end and nothing else changes |
| DictionaryModels.Dictionary.AllCodes | src/models/dictionary_models.py:159-172 | the codes of the entries, one per entry, in entry order |
| DictionaryModels.Dictionary.AllNames | src/models/dictionary_models.py:174-187 | the names of the entries, one per entry, in entry order |
| DictionaryModels.Dictionary.Size | src/models/dictionary_models.py:189-196 | the size is the number of entries, one code per entry |
| DictionaryModels.Dictionary.IsEmpty | src/models/dictionary_models.py:189-205 | empty exactly when the size is 0 and there are no entries |
| DictionaryModels.Dictionary.GetRandom | src/models/dictionary_models.py:139-157 | a ValueError naming the dictionary exactly when it is empty, otherwise an entry of the dictionary |
| DictionaryModels.AddEntryLookups | src/models/dictionary_models.py:207-245 | after `add_entry` the code and the name are found; a lookup by code still returns an earlier entry with that code, and the new entry otherwise |
| JsonUtils.Merged | src/utils/json_utils.py:238-246 | the merged schema has every key of either side |
| JsonUtils.MergedValues | src/utils/json_utils.py:238-246 | a key only in the base keeps its value, a key of the override takes the override's value unless both values are dicts, which are merged in turn |
| JsonUtils.MergeIdempotent | src/utils/json_utils.py:222-246 | merging a schema with itself gives it back, at every depth |
| JsonUtils.MergeEmpty | src/utils/json_utils.py:222-246 | an empty override changes nothing, and over an empty base the override is taken whole |
| JsonUtils.MergeSchemas | src/utils/json_utils.py:222-246 | the loop over the override's keys, in any order, computes the merged schema |
| JsonUtils.RequiredPath | src/utils/json_utils.py:274 | under a non-empty prefix the entry is a path starting with "prefix/", and without a prefix it is the name itself |
| JsonUtils.Iterated | src/utils/json_utils.py:272-273 | a list is iterated item by item and a string character by character; any other `required` makes the loop raise |
| JsonUtils.LevelRequired | src/utils/json_utils.py:269-275 | the level's entries exist exactly when `required` can be iterated, one per item, in order, each placed under the prefix |
| JsonUtils.ContributionCases | src/utils/json_utils.py:279-283 | a property that is not a dict raises, one whose type is not "object" adds nothing, and an object adds its own required paths under "prefix/name" |
| JsonUtils.NestedSumStep | src/utils/json_utils.py:279-283 | the nested paths together do not depend on which property is visited first |
| JsonUtils.LevelPaths | src/utils/json_utils.py:269-275 | the first loop gives this level's entries, or the failure when `required` cannot be iterated |
| JsonUtils.ExtractRequiredFields | src/utils/json_utils.py:249-285 | the result exists exactly when no part raises; it holds this level's entries first, in order, then every nested object's required paths, whatever order the properties come in |
| JsonUtils.NestedPaths | src/utils/json_utils.py:277-285 | the second loop keeps what was found and adds exactly the required paths of every nested object, or fails as the source raises |
| JsonUtils.NestedStep | src/utils/json_utils.py:279-283 | appending one property's paths keeps the running total equal to the sum over the properties seen |
| JsonUtils.FlatSchema | src/utils/json_utils.py:249-285 | when no property is an object, the result is exactly this level's `required` list |
| JsonUtils.AllRequiredUnder | src/utils/json_utils.py:274-282 | under a non-empty prefix every collected entry is a path below "prefix/" |
| JsonUtils.NestedSumUnder | src/utils/json_utils.py:279-283 | under a non-empty prefix every nested entry is a path below "prefix/" |
| JsonUtils.ContributionUnder | src/utils/json_utils.py:280-283 | under a non-empty prefix every entry one property adds is a path below "prefix/" |
| Settings.Components | config/settings.py:111 | the parts pathlib keeps from a path string are non-empty, not ".", and hold no "/" |
| Settings.Join | config/settings.py:111 | joining a name keeps a path well formed |
| Settings.JoinName | config/settings.py:111 | joining a plain file name appends exactly that component, which becomes the path's name |
| Settings.JoinTwo | config/settings.py:28-42 | joining two plain names in turn appends both |
| Settings.Name | config/settings.py:139-140 | a path's name holds no "/" |
| Settings.Suffix | config/settings.py:140 | a suffix is empty, or a dot and at least one more character at the end of the name, shorter than the name |
| Settings.Stem | config/settings.py:139 | the stem is a head of the name, non-empty when the name is |
| Settings.RFind | config/settings.py:139-140 | the last position of the character, -1 when there is none |
| Settings.StemSuffix | config/settings.py:139-140 | stem and suffix split the name; a suffix is a dot followed by at least one character and no other dot, after a non-empty stem |
| Settings.NameWithSuffix | config/settings.py:139-140 | a name ending in a dot and non-dot characters after a non-empty head has that tail as its suffix and the head as its stem |
| Settings.DirectionSuffix | config/settings.py:109 | "Rq" exactly for the request direction, "Rs" otherwise |
| Settings.SchemaPath | config/settings.py:93-111 | the schema path keeps the schemas directory's anchoring and a well-formed directory gives a well-formed path |
| Settings.ReportPath | config/settings.py:113-126 | the report path keeps the reports directory's anchoring and stays well formed |
| Settings.UpdatedScenarioPath | config/settings.py:128-142 | the updated path keeps the updated-scenarios directory's anchoring and stays well formed |
| Settings.SchemaPathShape | config/settings.py:93-111 | a schema path is one file directly in the schemas directory, with suffix ".json" and stem "V", version, call and direction marker |
| Settings.SchemaDirectionsDiffer | config/settings.py:109-111 | the request and the response schema of one version and call are different files |
| Settings.ReportPathShape | config/settings.py:113-126 | a report is one ".md" file directly in the reports directory, named after the call and both versions |
| Settings.UpdatedScenarioShape | config/settings.py:128-142 | the updated scenario lands directly in the updated-scenarios directory whatever directory the original was in; a suffix is kept and "_updated_to_v" and the version are appended to the stem |
| JsonData.PyStr | src/core/schema_comparator.py:384-396 | `str()` of a value as the f-strings show it: a string as itself, None as "None", an integer in decimal |
| JsonData.ReprQuote | src/core/schema_comparator.py:384-396 | `repr()` quotes a string with double quotes exactly when it holds a single quote and no double quote |
| JsonData.StrRepr | src/core/schema_comparator.py:384-396 | `repr()` of a string starts and ends with the chosen quote |
| JsonData.StrReprRoundTrip | src/core/schema_comparator.py:384-396 | the `repr()` text of every string reads back as that string, so distinct strings never print alike |
| JsonData.EscapeRoundTrip | src/core/schema_comparator.py:384-396 | the escaped body (backslash, the chosen quote, tab, newline, carriage return, `\xhh` for non-printable characters) reads back as the string |
| JsonData.PlainRepr | src/core/schema_comparator.py:384-396 | text with no quote, backslash or non-printable character is `repr`-ed as itself between single quotes |

## Left out

- The SpEL evaluator (`spel_evaluator.py`) and the protocol classes (`spel_protocols.py`) are not part of this model. The model stops at parsing and transpiling.
- `current_date`, `to_local_date` and `minus_days` need the clock and `datetime` parsing, so they are left out. `minus_years` is modelled on a `Date` value.
- `digits_check` on Python floats is not modelled. `SpelFunctions.DigitsCheck` takes the decimal text that `str(value)` would give.
- Floating-point and other non-integer JSON numbers are not modelled. JSON numbers are integers.
- Python dict insertion order is not modelled, because JSON objects are maps. Every result that comes from iterating a dict is specified as a set, multiset or map, and never as an order.
- File I/O is left out, with the file contents taken as parameters:
  - `load_json`, `save_json`, `load_schema` and JSON Schema validation;
  - the loaders, `excel_utils`, `report_formatter`, the logger and the command-line scripts.
- ChangeAnalyzer.AnalyzeChanges: the file-loading half of `analyze_changes` is left out. It also calls `compare` with `old_name`/`new_name` keywords that the comparator does not accept. The model starts from the diff that `compare` would produce.
- Timestamps (`update_timestamp`, `created_at`, `updated_at`) need the clock and are left out. The scenario and metadata fields that hold them are omitted.
- DictionaryModels.Dictionary.GetRandom: `random.choice` is replaced by a `pick` index given by the caller.
- DictionaryModels.Dictionary.constructor takes only a name. Entries are added with `AddEntry`, and the dataclass's ability to pass entries and a description at construction is not modelled.
- `to_dict` and ISO date serialisations of the models are left out, except `Scenario.to_dict`'s data copy.
- Settings leave out several things:
  - `load_dotenv`, `os.getenv` and the directory creation in `__post_init__`;
  - the scalar configuration constants;
  - Windows paths and paths with a leading "//";
  - the suffix rules of newer Python versions' `pathlib`.
- SchemaParser.ParseSchema requires non-empty property names without "/" and "[". With such names the Python flattening is not injective, and the model does not capture what happens then. The empty name is one of them: `_build_path("", "x")` is `"x"`, so a top-level `{"": {"type": "object", "properties": {"x": …}}, "x": …}` flattens both properties to `x`.
- A field's `condition` is modelled as an optional expression string, though `FieldMetadata` types it as a dict.
- The enums module is not part of this model. The priority order of change types follows its use in `change_models.py`.
- JsonData.PyStr renders a non-empty dict as the placeholder "{...}" rather than Python's full `str()` text. These texts appear as they are in the change and constraint descriptions, so those descriptions differ from Python's for dict values.
- JsonData.StrRepr writes the non-printable characters below U+0100 as `\xhh`, but not the `\uXXXX` and `\UXXXXXXXX` forms Python's `repr()` uses for non-printable characters above U+00FF (U+2028, for instance); such characters are copied as they are.
- ScenarioModels.ParseSegment: `int()` accepting surrounding whitespace, underscores or non-ASCII decimal digits is not modelled. Such segments are treated as not integers; Python reads `"a[٣]"` (an Arabic-Indic three) as index 3.
- Scenario path operations, deep merge and dictionary entries have value semantics. Aliasing between nested dicts and lists is not modelled.
- JsonUtils.ExtractRequiredFields: a dict-valued `required` is reported as the loop raising (`Iterated` gives None for it), while Python would iterate its keys.
- Lower-casing covers ASCII and the basic Cyrillic alphabet only.
- SpelParser.Tokenize treats only ASCII letters, digits and "_" as word characters, while Python's `\w` is Unicode-aware.
- SpelFunctions.IsValidTaxNum takes `isdigit()` and `int()` as ASCII digits only; Python also accepts other Unicode decimal digits (Arabic-Indic digits, for instance).
- SpelParser.Primary takes `token.isdigit()` as ASCII digits only, for the same reason.
- SpelParser.Variable takes `isalnum()` as ASCII letters and digits only; Python's `isalnum()` also accepts Cyrillic and other Unicode letters and digits.
- SpelFunctions.CompareTo is specialised to integers; `compare_to` accepts any mutually comparable values (dates, strings).
- SchemaComparator.FieldsDiffer compares JSON values structurally, so Python's `True == 1` and `False == 0` are not modelled: an old default `true` against a new default `1` counts as a difference here and not in Python.
- SchemaComparator.DifferingKeys has the same gap: a constraint `{"minimum": 0}` against `{"minimum": false}` yields a part here and none in Python.
- SchemaComparator.DetectFieldChanges inherits it in the presence test of every attribute.
- SchemaParser.FieldsDiffer compares structurally in the same way.
- ScenarioModels.SetLast: a final `key[i]` write where `current[key]` is a dict with more than `i` entries succeeds in Python and stores the int key `i`, but a JSON object cannot hold an int key, so the model returns the error `IntKey`. ScenarioModels.SetPath, ScenarioModels.SetThenGet and ScenarioModels.Scenario.SetFieldValue inherit this.
- SpelParser.SpelParserState.Parse: the parser does not advance on some tokens and would loop for ever there. The model reports these inputs as `Diverges` instead of proving termination on them.

## Findings

| source | as written | input that shows it | evidently intended | confidence | as-written member | corrected member |
|---|---|---|---|---|---|---|
| src/core/spel_functions.py:184-188 | `re.match` with a pattern ending in `$` also accepts a string whose only extra character is a final newline | a valid UUID followed by "\n" | reject any text that is not exactly a UUID (`re.fullmatch` or `\Z`) | not executed | SpelFunctions.UuidTrailingNewline | SpelFunctions.IsValidUuid |
