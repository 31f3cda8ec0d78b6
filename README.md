# Call and parse helpers of an IDE platform, modelled in Dafny

This project models three small cores of the IntelliJ Platform code base.

- **Groovy parser utilities** (`parserUtils.kt`). These cover:
  - the block-reparse check `isBlockParseable`, a bracket-stack scan over the lexer's tokens;
  - the cast-or-argument-list lookahead `castOperandCheck`/`castOperandCheckInner`;
  - the class-name stack used for constructor names;
  - the "definitely a type element" flag protocol and the cursor step `advanceIf`;
  - the `parseApplication` dispatch table, with `choice` and `isNextTokenCapitalized`.

  The `PsiBuilder` is a `Builder` class holding the token sequence, a cursor, the class-name stack and the type flags. Grammar rules passed in as parsers are functions over a snapshot of that state.
- **Java call hierarchy** (`JavaCallReferenceProcessor.process`). Each reference found while expanding a caller node goes through:
  - a chain of early-return filters;
  - a recursion check that walks the ancestor nodes;
  - a get-or-create update of the shared map from `(member, instance type)` keys to node descriptors.

  Node descriptors are a class with a usage count, the references held and the instance data. The map is a `DescriptorMap` class. Java type queries (inheritance, assignability, method lookup, enclosing instance, enclosing member) are uninterpreted functions in a `Hierarchy` value.
- **Python call expressions** (`PyCallExpression`). This covers the default argument accessors and the two value classes `PyMarkedCallee` and `PyArgumentsMapping`. `ObjectUtils.tryCast` with a `Class` argument is modelled as a predicate on expressions.

Modules:

| module | file |
|---|---|
| `Common` | `common.dfy` |
| `GroovyTokens` | `groovy_tokens.dfy` |
| `GroovyBlocks` | `groovy_blocks.dfy` |
| `GroovyCast` | `groovy_cast.dfy` |
| `GroovyBuilder` | `groovy_builder.dfy` |
| `GroovyDispatch` | `groovy_dispatch.dfy` |
| `CallHierarchy` | `call_hierarchy.dfy` |
| `PyCallExpression` | `py_call_expression.dfy` |

The imperative code keeps its form. The following are methods with loops or state updates, each proved against a specification function:
- `isBlockParseable` (against `BlockScan`);
- `castOperandCheckInner` (against `CastScan`);
- the builder operations;
- `process` and the map update (against `Filter`, `FirstUse` and `Reuse`).

Lemmas then prove the promised properties of those functions.

**Where the code and its documentation differ.** `getArgument(index, keyword, argClass)` is documented as returning the keyword argument or the positional one. The code tests the keyword argument's *value expression* for null. So a keyword argument written without a value (or one whose value is missing in the tree) falls back to the positional argument. The model follows the code: `GetArgumentByKeyword` falls back exactly when `GetKeywordArgument` is null.

## Model

| member | source | states |
|---|---|---|
| GroovyBlocks.IsBlockParseable | plugins/groovy/groovy-psi/src/org/jetbrains/plugins/groovy/lang/parser/parserUtils.kt:447-479 | The result is `BlockParseable` of the tokens: the first token must be `{`, and the scan with stack `[{]` accepts. Acceptance implies the first token is `{`. The loop keeps the remaining scan equal to the whole scan. |
| GroovyBlocks.ScanSplit | plugins/groovy/groovy-psi/src/org/jetbrains/plugins/groovy/lang/parser/parserUtils.kt:457-478 | The scan of `a + b` accepts iff `a` can be scanned without a mismatched closer and without emptying the stack before its last token, and the scan of `b` then accepts from the stack `a` leaves. In particular it fails if `a` leaves the stack empty and `b` is non-empty. |
| GroovyBlocks.AcceptsIffStackEmpties | plugins/groovy/groovy-psi/src/org/jetbrains/plugins/groovy/lang/parser/parserUtils.kt:458-462 | The scan accepts iff the bracket stack becomes empty exactly when the tokens run out. |
| GroovyBlocks.TrailingTokensRejected | plugins/groovy/groovy-psi/src/org/jetbrains/plugins/groovy/lang/parser/parserUtils.kt:458-462 | Any token after the one that closes the opening brace makes the check false. |
| GroovyBlocks.MismatchedCloserRejected | plugins/groovy/groovy-psi/src/org/jetbrains/plugins/groovy/lang/parser/parserUtils.kt:463-476 | A `}` or `)` whose popped opener is not its own kind makes the check false, whatever follows. |
| GroovyBlocks.ScanBalancesCounts | plugins/groovy/groovy-psi/src/org/jetbrains/plugins/groovy/lang/parser/parserUtils.kt:463-476 | Along an accepting scan from any stack, the openers seen plus the openers still on the stack equal the closers seen, for braces and for parentheses separately. |
| GroovyBlocks.AcceptedIsBalanced | plugins/groovy/groovy-psi/src/org/jetbrains/plugins/groovy/lang/parser/parserUtils.kt:447-479 | An accepted token stream has as many `{` as `}` and as many `(` as `)`. |
| GroovyBlocks.NestScan | plugins/groovy/groovy-psi/src/org/jetbrains/plugins/groovy/lang/parser/parserUtils.kt:463-476 | A well-nested bracket group leaves the stack as it found it. |
| GroovyBlocks.NestsScan | plugins/groovy/groovy-psi/src/org/jetbrains/plugins/groovy/lang/parser/parserUtils.kt:463-476 | The same holds for a sequence of well-nested groups. |
| GroovyBlocks.WellNestedBlockAccepted | plugins/groovy/groovy-psi/src/org/jetbrains/plugins/groovy/lang/parser/parserUtils.kt:447-479 | Every brace block whose contents nest properly is accepted. |
| GroovyBlocks.CloserOf | plugins/groovy/groovy-psi/src/org/jetbrains/plugins/groovy/lang/parser/parserUtils.kt:467-476 | The closer paired with an opener is a closer whose opener is that opener. |
| GroovyCast.CastScanIff | plugins/groovy/groovy-psi/src/org/jetbrains/plugins/groovy/lang/parser/parserUtils.kt:390-415 | The scan answers true iff there is a `)` at which the depth returns to zero, the depth never went negative before it, and every `,` before it lies at positive depth. Any other outcome (a depth-zero `,` or end of input) is false. |
| GroovyCast.ClosesAtShift | plugins/groovy/groovy-psi/src/org/jetbrains/plugins/groovy/lang/parser/parserUtils.kt:392-413 | One step of the depth counter turns "closes at j from i" into the same statement from the next token with the updated depth. |
| GroovyBuilder.ClearedTypeInfo | plugins/groovy/groovy-psi/src/org/jetbrains/plugins/groovy/lang/parser/parserUtils.kt:158-162 | All three type-info flags are off. The cursor, the class names and the parsing modes are untouched. |
| GroovyBuilder.TypeInfoSet | plugins/groovy/groovy-psi/src/org/jetbrains/plugins/groovy/lang/parser/parserUtils.kt:154-156 | `wasDefinitelyTypeElement`: some type-info flag is set iff clearing the flags would change the state. |
| GroovyBuilder.Builder.DefinitelyTypeElementParsing | plugins/groovy/groovy-psi/src/org/jetbrains/plugins/groovy/lang/parser/parserUtils.kt:152 | Definitely-type mode holds exactly when the definitely-type key is set and any-type mode is off. |
| GroovyBuilder.IsNextTokenCapitalized | plugins/groovy/groovy-psi/src/org/jetbrains/plugins/groovy/lang/parser/parserUtils.kt:139-142 | True iff a token text is present, non-empty, starts with an upper-case letter and is not the completion dummy identifier. |
| GroovyBuilder.Builder.constructor | plugins/groovy/groovy-psi/src/org/jetbrains/plugins/groovy/lang/parser/parserUtils.kt:50-61 | A fresh builder sits at the first token with an empty class-name stack (the key's default) and all flags off (unset keys). |
| GroovyBuilder.Builder.Current | plugins/groovy/groovy-psi/src/org/jetbrains/plugins/groovy/lang/parser/parserUtils.kt:329-337 | There is a current token iff the cursor is before the end, and it is the token at the cursor. |
| GroovyBuilder.Builder.AdvanceLexer | plugins/groovy/groovy-psi/src/org/jetbrains/plugins/groovy/lang/parser/parserUtils.kt:329-337 | The cursor moves one token forward, and stays put at end of input. |
| GroovyBuilder.Builder.AdvanceIf | plugins/groovy/groovy-psi/src/org/jetbrains/plugins/groovy/lang/parser/parserUtils.kt:329-337 | The result is the condition on the current token. The cursor advances by one exactly when the condition holds (and input remains). |
| GroovyBuilder.Builder.AdvanceIfIn | plugins/groovy/groovy-psi/src/org/jetbrains/plugins/groovy/lang/parser/parserUtils.kt:327 | True iff the current token's type is in the set. The cursor then advances by exactly one; otherwise it does not move. |
| GroovyBuilder.Builder.ClassIdentifier | plugins/groovy/groovy-psi/src/org/jetbrains/plugins/groovy/lang/parser/parserUtils.kt:63-72 | An identifier token has its text pushed on the class-name stack and is consumed. Otherwise neither the stack nor the cursor changes. |
| GroovyBuilder.Builder.PopClassIdentifier | plugins/groovy/groovy-psi/src/org/jetbrains/plugins/groovy/lang/parser/parserUtils.kt:74-77 | Exactly the top name is removed and the result is true. On an empty stack the deque throws, modelled as `NoSuchElement`. |
| GroovyBuilder.Builder.ConstructorIdentifier | plugins/groovy/groovy-psi/src/org/jetbrains/plugins/groovy/lang/parser/parserUtils.kt:79-83 | The cursor advances by one iff the token is an identifier whose text equals the top of the class-name stack. |
| GroovyBuilder.Builder.SetTypeWasPrimitive | plugins/groovy/groovy-psi/src/org/jetbrains/plugins/groovy/lang/parser/parserUtils.kt:164-169 | Always true. The flag is raised only in definitely-type mode outside any-type mode; nothing else changes. |
| GroovyBuilder.Builder.SetRefWasQualified | plugins/groovy/groovy-psi/src/org/jetbrains/plugins/groovy/lang/parser/parserUtils.kt:171-176 | Always true. The flag is raised only in definitely-type mode outside any-type mode; nothing else changes. |
| GroovyBuilder.Builder.SetRefHadTypeArguments | plugins/groovy/groovy-psi/src/org/jetbrains/plugins/groovy/lang/parser/parserUtils.kt:178-183 | Always true. The flag is raised only in definitely-type mode outside any-type mode; nothing else changes. |
| GroovyBuilder.Builder.ClearTypeInfo | plugins/groovy/groovy-psi/src/org/jetbrains/plugins/groovy/lang/parser/parserUtils.kt:158-162 | The new state is the old one with the three type-info flags cleared. |
| GroovyBuilder.Builder.DefinitelyTypeElement | plugins/groovy/groovy-psi/src/org/jetbrains/plugins/groovy/lang/parser/parserUtils.kt:144-156 | The type element parses with the definitely-type key set, and the key is then restored. The check rule runs only if the type element parsed and no type-info flag was raised. The result is "parsed and (a flag was raised or the check parsed)". The flags end cleared whatever the outcome. |
| GroovyBuilder.Builder.CastOperandCheckInner | plugins/groovy/groovy-psi/src/org/jetbrains/plugins/groovy/lang/parser/parserUtils.kt:390-415 | The result is `CastScan` from the token after the cursor at depth zero. The loop keeps the depth non-negative. |
| GroovyBuilder.Builder.CastOperandCheck | plugins/groovy/groovy-psi/src/org/jetbrains/plugins/groovy/lang/parser/parserUtils.kt:384-388 | True when the current token is not `(`, otherwise the cast scan. The cursor always ends where it began, because the lookahead rolls back. |
| GroovyDispatch.FirstSuccess | plugins/groovy/groovy-psi/src/org/jetbrains/plugins/groovy/lang/parser/parserUtils.kt:439-445 | The index of the first alternative that parses: it parses and no earlier one does. None means no alternative parses. |
| GroovyDispatch.Choice | plugins/groovy/groovy-psi/src/org/jetbrains/plugins/groovy/lang/parser/parserUtils.kt:439-445 | True iff some alternative parses. |
| GroovyDispatch.ApplicationRules | plugins/groovy/groovy-psi/src/org/jetbrains/plugins/groovy/lang/parser/parserUtils.kt:243-261 | The alternatives tried for each wrappee type are distinct and end with the reference or application rule. The index rule comes first exactly for method calls and references. The call rule is used unless the wrappee is an application or another element. |
| GroovyDispatch.ParseApplication | plugins/groovy/groovy-psi/src/org/jetbrains/plugins/groovy/lang/parser/parserUtils.kt:235-262 | False without a latest done marker. Otherwise true iff some alternative for the wrappee type parses; on success the deciding alternative is the first in the wrappee's order that parses, and none before it parses. |
| GroovyDispatch.ReferenceRulePrecedence | plugins/groovy/groovy-psi/src/org/jetbrains/plugins/groovy/lang/parser/parserUtils.kt:251-255 | For a reference expression, the index rule is tried before the call rule, and the call rule before the application rule. |
| CallHierarchy.Filter | java/java-impl/src/com/intellij/ide/hierarchy/call/JavaCallReferenceProcessor.java:44-110 | The early-return filters, in source order, with both directions of each outcome. A reference is rejected exactly when one of these holds: a `super` call whose class is unresolved or a superclass; a qualified call of a non-static method to a sibling method or on an unrelated instance type; an unqualified or `this` call whose enclosing instance is incompatible with the parent's data; a new-expression or anonymous-class parent reached other than through its class reference. It is accepted without recording exactly for non-element references and plain element references. Every other reference proceeds, passing instance call info exactly for unqualified and `this` calls. |
| CallHierarchy.KeyFor | java/java-impl/src/com/intellij/ide/hierarchy/call/JavaCallReferenceProcessor.java:133 | The map key is the reference's enclosing member and never carries an instance type. |
| CallHierarchy.SameMemberSameKey | java/java-impl/src/com/intellij/ide/hierarchy/call/JavaCallReferenceProcessor.java:133 | Two call sites in the same member share one map key. |
| CallHierarchy.DifferentMembersDifferentKeys | java/java-impl/src/com/intellij/ide/hierarchy/call/JavaCallReferenceProcessor.java:133 | Call sites in different members never share a map key. |
| CallHierarchy.InstanceDataToPass | java/java-impl/src/com/intellij/ide/hierarchy/call/JavaCallReferenceProcessor.java:156-163 | Null iff instance call info is not passed. Otherwise it is the parent's instance data when present, and this expansion's data when not. |
| CallHierarchy.NodeDescriptor.constructor | java/java-impl/src/com/intellij/ide/hierarchy/call/JavaCallReferenceProcessor.java:170 | A new call-hierarchy node starts with usage count 1, no references and no instance data, linked under its parent. |
| CallHierarchy.NodeDescriptor.IncrementUsageCount | java/java-impl/src/com/intellij/ide/hierarchy/call/JavaCallReferenceProcessor.java:175-177 | The usage count rises by one. |
| CallHierarchy.NodeDescriptor.AddReference | java/java-impl/src/com/intellij/ide/hierarchy/call/JavaCallReferenceProcessor.java:178 | The reference is appended to those held. |
| CallHierarchy.DescriptorMap.RecordCallSite | java/java-impl/src/com/intellij/ide/hierarchy/call/JavaCallReferenceProcessor.java:165-187 | On an absent key, exactly one fresh node is inserted under that key, holding the reference and the instance data passed. No other entry changes. On a present key the map is unchanged and the node's state becomes `Reuse` of its old state. The map stays injective. |
| CallHierarchy.FirstUseCountsDistinct | java/java-impl/src/com/intellij/ide/hierarchy/call/JavaCallReferenceProcessor.java:167-173 | A new node's usage count is its number of distinct references. |
| CallHierarchy.ReuseKeepsCountsDistinct | java/java-impl/src/com/intellij/ide/hierarchy/call/JavaCallReferenceProcessor.java:175-178 | The count rises by one iff the reference was not already held, so the count remains the number of distinct references. |
| CallHierarchy.ReuseIdempotent | java/java-impl/src/com/intellij/ide/hierarchy/call/JavaCallReferenceProcessor.java:175-186 | Recording the same reference with the same instance data twice changes neither the count, nor the distinct references, nor the instance data. |
| CallHierarchy.InstanceDataSurvivesOnlyIfShared | java/java-impl/src/com/intellij/ide/hierarchy/call/JavaCallReferenceProcessor.java:180-186 | A node keeps instance data only if it had that very object from the start and every later call site passed it. Once cleared, it stays cleared. |
| CallHierarchy.ReuseAllCountsDistinct | java/java-impl/src/com/intellij/ide/hierarchy/call/JavaCallReferenceProcessor.java:175-178 | Over any sequence of call sites, the usage count equals the number of distinct references held. |
| CallHierarchy.Process | java/java-impl/src/com/intellij/ide/hierarchy/call/JavaCallReferenceProcessor.java:34-189 | Accepted references return true and rejected ones false, and neither touches the map. If a call node strictly above the parent already stands for the method, the result is false and the map and its nodes are unchanged. Otherwise the key for the enclosing member is inserted (a fresh call-hierarchy node standing for that member, linked under the parent, in state `FirstUse`) or updated (`Reuse`) with the selected instance data, and the result is false. Only the node under that key may change: every other key keeps its node and that node's state. |
| PyCallExpression.TryCast | python/psi-api/src/com/jetbrains/python/psi/PyCallExpression.java:71 | The value is kept iff it is present and an instance of the class. |
| PyCallExpression.GetArguments | python/psi-api/src/com/jetbrains/python/psi/PyCallExpression.java:55-58 | Empty without an argument list, otherwise exactly the list's arguments. |
| PyCallExpression.GetArgument | python/psi-api/src/com/jetbrains/python/psi/PyCallExpression.java:69-72 | Present iff the index is within the arguments and the argument there is of the class. It is then that argument. |
| PyCallExpression.FirstKeywordIndex | python/psi-api/src/com/jetbrains/python/psi/PyCallExpression.java:114-124 | The first position holding a keyword argument with that keyword. None iff no argument has it. |
| PyCallExpression.GetKeywordArgument | python/psi-api/src/com/jetbrains/python/psi/PyCallExpression.java:114-124 | The result is the value of the first keyword argument with that keyword (which may itself be null). It is null when no argument has that keyword. |
| PyCallExpression.KeywordArguments | python/psi-api/src/com/jetbrains/python/psi/PyCallExpression.java:116-117 | Every element is a keyword argument of the call, and every keyword argument of the call is kept. |
| PyCallExpression.KeywordValueCons | python/psi-api/src/com/jetbrains/python/psi/PyCallExpression.java:115-121 | The loop visits arguments in order: a matching first argument decides the result, otherwise the lookup continues with the rest. |
| PyCallExpression.KeywordLookupIgnoresPositional | python/psi-api/src/com/jetbrains/python/psi/PyCallExpression.java:114-124 | Removing every positional argument does not change the keyword lookup. |
| PyCallExpression.GetArgumentByKeyword | python/psi-api/src/com/jetbrains/python/psi/PyCallExpression.java:83-89 | A keyword argument with a value gives its cast (possibly null) and the position is not consulted. Otherwise the result is the positional lookup. |
| PyCallExpression.KeywordBeatsPosition | python/psi-api/src/com/jetbrains/python/psi/PyCallExpression.java:83-89 | When the first keyword match at position i has a value, the result is the cast of that value, whatever the argument at the index. |
| PyCallExpression.GetArgumentForParameter | python/psi-api/src/com/jetbrains/python/psi/PyCallExpression.java:99-105 | Null without an argument list. When the list has a value for the parameter and it is of the class, that value is returned. Any result is the list's value for the parameter, and it is of the class. |
| PyCallExpression.AnyNameEquals | python/psi-api/src/com/jetbrains/python/psi/PyCallExpression.java:184 | True iff some candidate equals the referenced name. |
| PyCallExpression.IsCalleeText | python/psi-api/src/com/jetbrains/python/psi/PyCallExpression.java:180-185 | True iff the callee is a reference expression whose name equals some candidate. Always false for no candidates. |
| PyCallExpression.MarkedCalleeGetters | python/psi-api/src/com/jetbrains/python/psi/PyCallExpression.java:288-319 | Each getter of `PyMarkedCallee` returns the constructor's argument. |
| PyCallExpression.ArgumentsMappingGetters | python/psi-api/src/com/jetbrains/python/psi/PyCallExpression.java:212-268 | Each getter of `PyArgumentsMapping` returns the constructor's argument. |

## Left out

- The Groovy lexer: its output is an input token sequence. Token kinds other than `{ } ( ) ,` and identifiers are lumped together.
- `PsiBuilder` markers and tree building: `collapseHook`, `parseBlockLazy`, `error`, `unexpected`, `parseTailLeftFlat`, `markLeft`/`wrapLeft`. The meaning of these depends on the host's marker semantics. The `lookahead` marker and rollback are modelled only as "the cursor is restored".
- The error-state helpers (`addVariant`, `clearVariants`, `clearError`, `withProtectedLastVariantPos`), and `newLine`, which needs raw offsets and the original text.
- `withKey` and its users other than `definitelyTypeElement` (`allowDiamond`, `codeReferenceIdentifier`, `capitalizedTypeElement` and the like). The definition of `withKey` is not shown. In `DefinitelyTypeElement` it is taken to set the key for the block and then restore the previous value.
- `parseKeyword`, `parsePrimitiveType`, `assignmentOperator` and `equalityOperator` are `AdvanceIfIn` with host token sets, which are not part of this model. `any` is `AdvanceIf` with a constant condition.
- GroovyBuilder.IsNextTokenCapitalized: tests ASCII upper case only. Kotlin's `isUpperCase` covers all Unicode upper-case letters, and there is no Unicode table here.
- GroovyDispatch.Choice: does not model the Kotlin `assert(parsers.size > 1)`. Assertions are off in production, and the loop does not depend on it.
- GroovyDispatch.ParseApplication and Choice: a parser is modelled only as "parses here or not". The state a failed alternative leaves behind is not modelled.
- Java type resolution, assignability, inheritance, method lookup and enclosing-instance search are uninterpreted `Hierarchy` functions.
- The `synchronized` block around the map update: the update is one sequential step.
- The unused `instanceType` computation in `process` (lines 112-121), which has no effect on the result or the map.
- `CallHierarchyNodeDescriptor` is modelled by the `NodeDescriptor` class, but its source is not among the modelled files, so these behaviours are assumed:
  - the usage count starts at 1;
  - `incrementUsageCount` adds one;
  - `addReference` appends;
  - `hasReference` is membership.
- CallHierarchy.Process: requires the parent node to be a call-hierarchy node and its ancestor chain to be linked. The Java code's cast of the parent would throw otherwise, and that exception path is not modelled.
- PyCallExpression.GetArgument: takes a `nat` index. A negative index in Java throws `ArrayIndexOutOfBoundsException`, which is not modelled.
- `PyCallExpression.addArgument`, `resolveCallee`, `mapArguments`, `isCallee` and `getArgumentList`'s tree search. These are deprecated, abstract, or delegate to resolvers that are not part of this model.
- The Python pull-up refactoring dialog and the Java test-data fixtures. They contain no logic to model.
