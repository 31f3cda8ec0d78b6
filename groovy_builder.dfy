/**
 * The state that the Groovy parser helpers of parserUtils.kt read and
 * update on the `PsiBuilder`: the cursor over the token stream, the
 * stack of enclosing class names, and the boolean user-data keys of the
 * "definitely a type" protocol.  Markers and the tree are not modelled.
 */
module GroovyBuilder {
  import opened Common
  import opened GroovyTokens
  import opened GroovyCast

  /** A snapshot of everything a `Builder` holds that can change. */
  datatype BuilderState = BuilderState(
    pos: nat,
    classNames: seq<string>,
    definitelyTypeParsing: bool,
    anyTypeParsing: bool,
    typeWasPrimitive: bool,
    referenceHadTypeArguments: bool,
    referenceWasQualified: bool)

  /** One run of a grammar rule: whether it parsed, and the state it left behind. */
  datatype ParseStep = ParseStep(parsed: bool, after: BuilderState)

  /** A grammar rule handed to a helper, seen through its effect on the state. */
  type Parser = BuilderState -> ParseStep

  /** `wasDefinitelyTypeElement`: one of the three type-info flags is set. */
  predicate TypeInfoSet(s: BuilderState): (r: bool)
    ensures r <==> s != s.(typeWasPrimitive := false, referenceHadTypeArguments := false, referenceWasQualified := false)
  {
    s.typeWasPrimitive || s.referenceHadTypeArguments || s.referenceWasQualified
  }

  /** `clearTypeInfo`: the three type-info flags reset, nothing else touched. */
  function ClearedTypeInfo(s: BuilderState): (c: BuilderState)
    ensures !TypeInfoSet(c)
    ensures c.pos == s.pos && c.classNames == s.classNames
    ensures c.definitelyTypeParsing == s.definitelyTypeParsing && c.anyTypeParsing == s.anyTypeParsing
  {
    s.(typeWasPrimitive := false, referenceHadTypeArguments := false, referenceWasQualified := false)
  }

  /** Outcome of a helper that may throw (`Deque.pop` on an empty deque). */
  datatype Completion = Normal(result: bool) | NoSuchElement

  /** The completion dummy identifier with its trailing space trimmed. */
  const DUMMY_IDENTIFIER_TRIMMED: string := "IntellijIdeaRulezzz"

  /** Upper-case letters, restricted to ASCII. */
  predicate IsUpperCase(c: char)
  {
    'A' <= c <= 'Z'
  }

  /**
   * `isNextTokenCapitalized`, given the current token's text (null at
   * end of input): a non-empty text starting with an upper-case letter
   * that is not the completion dummy identifier.
   */
  function IsNextTokenCapitalized(tokenText: Option<string>): (r: bool)
    ensures r <==> tokenText.Some? && tokenText.value != [] && IsUpperCase(tokenText.value[0])
                   && tokenText.value != DUMMY_IDENTIFIER_TRIMMED
    ensures tokenText == Some(DUMMY_IDENTIFIER_TRIMMED) ==> !r
  {
    match tokenText
    case None => false
    case Some(text) => |text| > 0 && text != DUMMY_IDENTIFIER_TRIMMED && IsUpperCase(text[0])
  }

  class Builder {
    /** The lexer's output, whitespace and comments already skipped. */
    const tokens: seq<Token>
    /** Index of the current token; `|tokens|` or beyond is end of input. */
    var pos: nat
    /** `currentClassNames`, top of the deque first. */
    var classNames: seq<string>
    /** `parseDefinitelyTypeElement`. */
    var definitelyTypeParsing: bool
    /** `parseAnyTypeElement`. */
    var anyTypeParsing: bool
    var typeWasPrimitive: bool
    var referenceHadTypeArguments: bool
    var referenceWasQualified: bool

    constructor (tokens: seq<Token>)
      ensures this.tokens == tokens
      ensures State() == BuilderState(0, [], false, false, false, false, false)
    {
      this.tokens := tokens;
      pos := 0;
      classNames := [];
      definitelyTypeParsing, anyTypeParsing := false, false;
      typeWasPrimitive, referenceHadTypeArguments, referenceWasQualified := false, false, false;
    }

    function State(): BuilderState
      reads this
    {
      BuilderState(pos, classNames, definitelyTypeParsing, anyTypeParsing,
                   typeWasPrimitive, referenceHadTypeArguments, referenceWasQualified)
    }

    method Load(s: BuilderState)
      modifies this
      ensures State() == s
    {
      pos, classNames := s.pos, s.classNames;
      definitelyTypeParsing, anyTypeParsing := s.definitelyTypeParsing, s.anyTypeParsing;
      typeWasPrimitive := s.typeWasPrimitive;
      referenceHadTypeArguments := s.referenceHadTypeArguments;
      referenceWasQualified := s.referenceWasQualified;
    }

    /** The current token; `None` (a null token type and text) at end of input. */
    function Current(): (t: Option<Token>)
      reads this
      ensures t.Some? <==> pos < |tokens|
      ensures t.Some? ==> t.value == tokens[pos]
    {
      if pos < |tokens| then Some(tokens[pos]) else None
    }

    /** `advanceLexer`: one token forward, nothing at end of input. */
    method AdvanceLexer()
      modifies this`pos
      ensures pos == if old(pos) < |tokens| then old(pos) + 1 else old(pos)
    {
      if pos < |tokens| {
        pos := pos + 1;
      }
    }

    /** `advanceIf`: advance exactly when the condition holds of the current token. */
    method AdvanceIf(condition: Option<Token> -> bool) returns (r: bool)
      modifies this`pos
      ensures r == condition(old(Current()))
      ensures pos == if r && old(pos) < |tokens| then old(pos) + 1 else old(pos)
    {
      if condition(Current()) {
        AdvanceLexer();
        return true;
      } else {
        return false;
      }
    }

    /**
     * `advanceIf(tokenSet)`, behind `parseKeyword`, `parsePrimitiveType`,
     * `assignmentOperator` and `equalityOperator`.
     */
    method AdvanceIfIn(tokenSet: set<TokenType>) returns (r: bool)
      modifies this`pos
      ensures r <==> old(pos) < |tokens| && tokens[old(pos)].tokenType in tokenSet
      ensures r ==> pos == old(pos) + 1
      ensures !r ==> pos == old(pos)
    {
      r := AdvanceIf((t: Option<Token>) => t.Some? && t.value.tokenType in tokenSet);
    }

    /** `classIdentifier`: an identifier is pushed as the current class name and consumed. */
    method ClassIdentifier() returns (r: bool)
      modifies this`pos, this`classNames
      ensures r <==> old(pos) < |tokens| && tokens[old(pos)].tokenType == Identifier
      ensures r ==> classNames == [tokens[old(pos)].text] + old(classNames) && pos == old(pos) + 1
      ensures !r ==> classNames == old(classNames) && pos == old(pos)
    {
      var t := Current();
      if t.Some? && t.value.tokenType == Identifier {
        classNames := [t.value.text] + classNames;
        AdvanceLexer();
        return true;
      } else {
        return false;
      }
    }

    /** `popClassIdentifier`: the top class name is removed; an empty deque throws. */
    method PopClassIdentifier() returns (r: Completion)
      modifies this`classNames
      ensures old(classNames) == [] ==> r == NoSuchElement && classNames == []
      ensures old(classNames) != [] ==> r == Normal(true) && classNames == old(classNames)[1..]
    {
      if classNames == [] {
        return NoSuchElement;
      }
      classNames := classNames[1..];
      return Normal(true);
    }

    /**
     * `constructorIdentifier`: an identifier spelled like the innermost
     * class name is consumed; `peek` on an empty deque gives null, which
     * no token text equals.
     */
    method ConstructorIdentifier() returns (r: bool)
      modifies this`pos
      ensures r <==> && old(pos) < |tokens|
                     && tokens[old(pos)].tokenType == Identifier
                     && classNames != []
                     && tokens[old(pos)].text == classNames[0]
      ensures pos == if r then old(pos) + 1 else old(pos)
    {
      var top: Option<string> := if classNames == [] then None else Some(classNames[0]);
      r := AdvanceIf((t: Option<Token>) => t.Some? && t.value.tokenType == Identifier && top == Some(t.value.text));
    }

    /** `definitelyTypeElementParsing`: inside `definitelyTypeElement`, not inside `anyTypeElement`. */
    predicate DefinitelyTypeElementParsing(): (r: bool)
      reads this
      ensures r <==> definitelyTypeParsing && !anyTypeParsing
    {
      definitelyTypeParsing && !anyTypeParsing
    }

    /** `setTypeWasPrimitive`: records a primitive type, only in definitely-type mode. */
    method SetTypeWasPrimitive() returns (r: bool)
      modifies this`typeWasPrimitive
      ensures r
      ensures typeWasPrimitive == (old(typeWasPrimitive) || DefinitelyTypeElementParsing())
    {
      if DefinitelyTypeElementParsing() {
        typeWasPrimitive := true;
      }
      return true;
    }

    /** `setRefWasQualified`: records a qualified reference, only in definitely-type mode. */
    method SetRefWasQualified() returns (r: bool)
      modifies this`referenceWasQualified
      ensures r
      ensures referenceWasQualified == (old(referenceWasQualified) || DefinitelyTypeElementParsing())
    {
      if DefinitelyTypeElementParsing() {
        referenceWasQualified := true;
      }
      return true;
    }

    /** `setRefHadTypeArguments`: records type arguments, only in definitely-type mode. */
    method SetRefHadTypeArguments() returns (r: bool)
      modifies this`referenceHadTypeArguments
      ensures r
      ensures referenceHadTypeArguments == (old(referenceHadTypeArguments) || DefinitelyTypeElementParsing())
    {
      if DefinitelyTypeElementParsing() {
        referenceHadTypeArguments := true;
      }
      return true;
    }

    /** `clearTypeInfo`. */
    method ClearTypeInfo()
      modifies this`typeWasPrimitive, this`referenceHadTypeArguments, this`referenceWasQualified
      ensures State() == ClearedTypeInfo(old(State()))
    {
      typeWasPrimitive, referenceHadTypeArguments, referenceWasQualified := false, false, false;
    }

    /**
     * `definitelyTypeElement`: parse a type element with the
     * definitely-type key set (restored afterwards, as `withKey` does);
     * if it parsed and none of the type-info flags was raised, the
     * `check` rule must parse as well.  The flags are cleared whatever
     * the outcome.
     */
    method DefinitelyTypeElement(typeElement: Parser, check: Parser) returns (r: bool)
      modifies this
      ensures !TypeInfoSet(State())
      ensures var s0 := old(State());
              var t := typeElement(s0.(definitelyTypeParsing := true));
              var mid := t.after.(definitelyTypeParsing := s0.definitelyTypeParsing);
              var checkRuns := t.parsed && !TypeInfoSet(mid);
              && r == (t.parsed && (TypeInfoSet(mid) || check(mid).parsed))
              && State() == ClearedTypeInfo(if checkRuns then check(mid).after else mid)
    {
      var saved := definitelyTypeParsing;
      definitelyTypeParsing := true;
      var t := typeElement(State());
      Load(t.after);
      definitelyTypeParsing := saved;
      r := t.parsed;
      if r && !TypeInfoSet(State()) {
        var c := check(State());
        Load(c.after);
        r := c.parsed;
      }
      ClearTypeInfo();
    }

    /**
     * `castOperandCheckInner`: from the opening parenthesis, advance
     * token by token keeping the depth of inner parentheses; a `)` at
     * depth zero answers true, a `,` at depth zero or end of input false.
     */
    method CastOperandCheckInner() returns (r: bool)
      modifies this`pos
      ensures r == CastScan(tokens, old(pos) + 1, 0)
    {
      var parenCount := 0;
      while pos < |tokens|
        invariant parenCount >= 0
        invariant CastScan(tokens, pos + 1, parenCount) == CastScan(tokens, old(pos) + 1, 0)
        decreases |tokens| - pos
      {
        AdvanceLexer();
        var t := Current();
        if t.Some? {
          match t.value.tokenType {
            case LParen =>
              parenCount := parenCount + 1;
            case RParen =>
              if parenCount == 0 {
                // a closing parenthesis before any comma
                return true;
              }
              parenCount := parenCount - 1;
            case Comma =>
              if parenCount == 0 {
                // a comma at the outer level: an argument list
                return false;
              }
            case _ =>
          }
        }
      }
      return false;
    }

    /**
     * `castOperandCheck`: true unless the current token is `(`; then the
     * inner scan runs as a lookahead and the cursor is rolled back.
     */
    method CastOperandCheck() returns (r: bool)
      modifies this`pos
      ensures pos == old(pos)
      ensures r <==> !(pos < |tokens| && tokens[pos].tokenType == LParen) || CastScan(tokens, pos + 1, 0)
    {
      var t := Current();
      if !(t.Some? && t.value.tokenType == LParen) {
        return true;
      }
      var marker := pos;
      r := CastOperandCheckInner();
      pos := marker;
    }
  }
}
