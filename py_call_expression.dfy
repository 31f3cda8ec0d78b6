/**
 * The default methods of `PyCallExpression` that look up call arguments,
 * and the two value classes nested in it.  An argument list is the
 * sequence of argument expressions in source order; a keyword argument
 * `name=value` is itself one of those expressions.
 */
module PyCallExpression {
  import opened Common

  datatype Expr =
    | ReferenceExpr(id: nat, referencedName: Option<string>)                  // PyReferenceExpression
    | KeywordArgument(id: nat, keyword: Option<string>, value: Option<Expr>)  // PyKeywordArgument
    | OtherExpr(id: nat)

  /** A `FunctionParameter`: a position and an optional name. */
  datatype FunctionParameter = FunctionParameter(position: int, name: Option<string>)

  /**
   * A `PyArgumentList`: its arguments, and the host's answer to
   * `getValueExpressionForParam` for the parameters it can match.
   */
  datatype ArgumentList = ArgumentList(arguments: seq<Expr>, valueForParam: map<FunctionParameter, Expr>)

  datatype CallExpr = CallExpr(callee: Option<Expr>, argumentList: Option<ArgumentList>)

  /** A `Class<T>` argument, seen as its `isInstance` test. */
  type ExprClass = Expr -> bool

  /** `ObjectUtils.tryCast`: the value if it is an instance of the class, else null. */
  function TryCast(e: Option<Expr>, cls: ExprClass): (r: Option<Expr>)
    ensures r.Some? <==> e.Some? && cls(e.value)
    ensures r.Some? ==> r == e
  {
    if e.Some? && cls(e.value) then e else None
  }

  /** `getArguments`: the list's arguments, or none without a list. */
  function GetArguments(call: CallExpr): (args: seq<Expr>)
    ensures call.argumentList.None? ==> args == []
    ensures call.argumentList.Some? ==> args == call.argumentList.value.arguments
  {
    match call.argumentList
    case None => []
    case Some(list) => list.arguments
  }

  /** `getArgument(index, argClass)`: the argument at `index` if there is one of that class. */
  function GetArgument(call: CallExpr, index: nat, cls: ExprClass): (r: Option<Expr>)
    ensures r.Some? <==> index < |GetArguments(call)| && cls(GetArguments(call)[index])
    ensures r.Some? ==> r.value == GetArguments(call)[index]
  {
    var args := GetArguments(call);
    if |args| > index then TryCast(Some(args[index]), cls) else None
  }

  predicate IsKeywordFor(e: Expr, keyword: string)
  {
    e.KeywordArgument? && e.keyword == Some(keyword)
  }

  /** Index of the first keyword argument named `keyword`, as the `for` loop finds it. */
  function FirstKeywordIndex(args: seq<Expr>, keyword: string): (r: Option<nat>)
    ensures r.Some? ==> r.value < |args| && IsKeywordFor(args[r.value], keyword)
    ensures r.Some? ==> forall j :: 0 <= j < r.value ==> !IsKeywordFor(args[j], keyword)
    ensures r.None? ==> forall j :: 0 <= j < |args| ==> !IsKeywordFor(args[j], keyword)
    decreases |args|
  {
    if args == [] then None
    else if IsKeywordFor(args[0], keyword) then Some(0)
    else match FirstKeywordIndex(args[1..], keyword)
      case None => None
      case Some(i) => Some(i + 1)
  }

  /** The value of the first keyword argument named `keyword` among `args`. */
  function KeywordValue(args: seq<Expr>, keyword: string): Option<Expr>
  {
    match FirstKeywordIndex(args, keyword)
    case None => None
    case Some(i) => args[i].value
  }

  /**
   * `getKeywordArgument`: the value of the first keyword argument with
   * that keyword, or null when none has it (or its value is missing).
   */
  function GetKeywordArgument(call: CallExpr, keyword: string): (r: Option<Expr>)
    ensures r.Some? ==> exists i :: && 0 <= i < |GetArguments(call)|
                                    && IsKeywordFor(GetArguments(call)[i], keyword)
                                    && GetArguments(call)[i].value == r
                                    && forall j :: 0 <= j < i ==> !IsKeywordFor(GetArguments(call)[j], keyword)
    ensures (forall j :: 0 <= j < |GetArguments(call)| ==> !IsKeywordFor(GetArguments(call)[j], keyword)) ==> r.None?
    ensures forall i :: && 0 <= i < |GetArguments(call)| && IsKeywordFor(GetArguments(call)[i], keyword)
                        && (forall j :: 0 <= j < i ==> !IsKeywordFor(GetArguments(call)[j], keyword))
                        ==> r == GetArguments(call)[i].value
  {
    KeywordValue(GetArguments(call), keyword)
  }

  /** The keyword arguments of `args`, in order. */
  function KeywordArguments(args: seq<Expr>): (r: seq<Expr>)
    ensures forall e | e in r :: e.KeywordArgument? && e in args
    ensures forall e | e in args && e.KeywordArgument? :: e in r
    decreases |args|
  {
    if args == [] then []
    else if args[0].KeywordArgument? then [args[0]] + KeywordArguments(args[1..])
    else KeywordArguments(args[1..])
  }

  /** Keyword lookup looks at the head first, then at the rest. */
  lemma KeywordValueCons(e: Expr, rest: seq<Expr>, keyword: string)
    ensures KeywordValue([e] + rest, keyword)
            == if IsKeywordFor(e, keyword) then e.value else KeywordValue(rest, keyword)
  {
    assert ([e] + rest)[1..] == rest;
  }

  /** Positional arguments play no part in keyword lookup. */
  lemma {:induction false} KeywordLookupIgnoresPositional(args: seq<Expr>, keyword: string)
    ensures KeywordValue(args, keyword) == KeywordValue(KeywordArguments(args), keyword)
    decreases |args|
  {
    if args != [] {
      var rest := args[1..];
      KeywordLookupIgnoresPositional(rest, keyword);
      assert args == [args[0]] + rest;
      KeywordValueCons(args[0], rest, keyword);
      if args[0].KeywordArgument? {
        assert KeywordArguments(args) == [args[0]] + KeywordArguments(rest);
        KeywordValueCons(args[0], KeywordArguments(rest), keyword);
      } else {
        assert KeywordArguments(args) == KeywordArguments(rest);
      }
    }
  }

  /**
   * `getArgument(index, keyword, argClass)`: a keyword argument with a
   * value wins, cast to the class; otherwise the positional lookup.
   */
  function GetArgumentByKeyword(call: CallExpr, index: nat, keyword: string, cls: ExprClass): (r: Option<Expr>)
    ensures GetKeywordArgument(call, keyword).Some? ==> r == TryCast(GetKeywordArgument(call, keyword), cls)
    ensures GetKeywordArgument(call, keyword).None? ==> r == GetArgument(call, index, cls)
  {
    var arg := GetKeywordArgument(call, keyword);
    if arg.Some? then TryCast(arg, cls) else GetArgument(call, index, cls)
  }

  /**
   * Keyword beats position: once a keyword argument with a value is
   * present, the argument at `index` cannot be the answer unless it is
   * that very value.
   */
  lemma KeywordBeatsPosition(call: CallExpr, index: nat, keyword: string, cls: ExprClass, i: nat)
    requires i < |GetArguments(call)| && IsKeywordFor(GetArguments(call)[i], keyword)
    requires forall j :: 0 <= j < i ==> !IsKeywordFor(GetArguments(call)[j], keyword)
    requires GetArguments(call)[i].value.Some?
    ensures GetArgumentByKeyword(call, index, keyword, cls) == TryCast(GetArguments(call)[i].value, cls)
  {
  }

  /** `getArgument(parameter, argClass)`: null without a list, else the list's value for the parameter, cast. */
  function GetArgumentForParameter(call: CallExpr, parameter: FunctionParameter, cls: ExprClass): (r: Option<Expr>)
    ensures call.argumentList.None? ==> r.None?
    ensures r.Some? ==> parameter in call.argumentList.value.valueForParam
                        && r.value == call.argumentList.value.valueForParam[parameter] && cls(r.value)
    ensures (&& call.argumentList.Some? && parameter in call.argumentList.value.valueForParam
             && cls(call.argumentList.value.valueForParam[parameter]))
            ==> r == Some(call.argumentList.value.valueForParam[parameter])
  {
    match call.argumentList
    case None => None
    case Some(list) =>
      TryCast(if parameter in list.valueForParam then Some(list.valueForParam[parameter]) else None, cls)
  }

  /** `ContainerUtil.exists(nameCandidates, name -> name.equals(referencedName))`. */
  function AnyNameEquals(nameCandidates: seq<string>, referencedName: Option<string>): (r: bool)
    ensures r <==> exists i :: 0 <= i < |nameCandidates| && referencedName == Some(nameCandidates[i])
    decreases |nameCandidates|
  {
    if nameCandidates == [] then false
    else referencedName == Some(nameCandidates[0]) || AnyNameEquals(nameCandidates[1..], referencedName)
  }

  /** `isCalleeText`: the callee is a reference expression whose name is one of the candidates. */
  function IsCalleeText(call: CallExpr, nameCandidates: seq<string>): (r: bool)
    ensures r <==> && call.callee.Some? && call.callee.value.ReferenceExpr?
                   && exists i :: 0 <= i < |nameCandidates|
                                  && call.callee.value.referencedName == Some(nameCandidates[i])
    ensures nameCandidates == [] ==> !r
  {
    call.callee.Some? && call.callee.value.ReferenceExpr?
    && AnyNameEquals(nameCandidates, call.callee.value.referencedName)
  }

  /** `PyFunction.Modifier`. */
  datatype Modifier = ClassMethod | StaticMethod

  /** A `PyCallable`, by identity. */
  type Callable = nat

  /** `PyMarkedCallee`: a callable with the way it is called. */
  datatype MarkedCallee = MarkedCallee(
    callable: Callable,
    modifier: Option<Modifier>,
    implicitOffset: int,
    implicitlyResolved: bool)

  datatype NamedParameter = NamedParameter(name: string)
  datatype TupleParameter = TupleParameter(id: nat)
  datatype Parameter = Named(named: NamedParameter) | Tuple(tuple: TupleParameter) | OtherParameter(id: nat)

  /** `PyArgumentsMapping`: how the arguments of a call map to the callee's parameters. */
  datatype ArgumentsMapping = ArgumentsMapping(
    callExpression: CallExpr,
    markedCallee: Option<MarkedCallee>,
    mappedParameters: map<Expr, NamedParameter>,
    unmappedParameters: seq<Parameter>,
    unmappedArguments: seq<Expr>,
    parametersMappedToVariadicPositionalArguments: seq<NamedParameter>,
    parametersMappedToVariadicKeywordArguments: seq<NamedParameter>,
    mappedTupleParameters: map<Expr, TupleParameter>)

  /** The getters of `PyMarkedCallee` give back what the constructor was given. */
  lemma MarkedCalleeGetters(callable: Callable, modifier: Option<Modifier>, offset: int, implicitlyResolved: bool)
    ensures var c := MarkedCallee(callable, modifier, offset, implicitlyResolved);
            c.callable == callable && c.modifier == modifier
            && c.implicitOffset == offset && c.implicitlyResolved == implicitlyResolved
  {
  }

  /** The getters of `PyArgumentsMapping` give back what the constructor was given. */
  lemma ArgumentsMappingGetters(expression: CallExpr, markedCallee: Option<MarkedCallee>,
                                mapped: map<Expr, NamedParameter>, unmappedParameters: seq<Parameter>,
                                unmappedArguments: seq<Expr>, variadicPositional: seq<NamedParameter>,
                                variadicKeyword: seq<NamedParameter>, tupleMapped: map<Expr, TupleParameter>)
    ensures var m := ArgumentsMapping(expression, markedCallee, mapped, unmappedParameters, unmappedArguments,
                                      variadicPositional, variadicKeyword, tupleMapped);
            && m.callExpression == expression && m.markedCallee == markedCallee
            && m.mappedParameters == mapped && m.unmappedParameters == unmappedParameters
            && m.unmappedArguments == unmappedArguments
            && m.parametersMappedToVariadicPositionalArguments == variadicPositional
            && m.parametersMappedToVariadicKeywordArguments == variadicKeyword
            && m.mappedTupleParameters == tupleMapped
  {
  }
}
