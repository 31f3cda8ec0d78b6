/**
 * `isBlockParseable` (parserUtils.kt): decides whether a text that the
 * lexer splits into `tokens` is one brace block whose braces and
 * parentheses are properly nested, by running a stack of unclosed
 * openers over the tokens.
 */
module GroovyBlocks {
  import opened Common
  import opened GroovyTokens

  /**
   * What the loop of `isBlockParseable` answers when `toks` remain and
   * `stack` holds the unclosed openers, top first.
   */
  function BlockScan(toks: seq<Token>, stack: seq<TokenType>): bool
    decreases |toks|
  {
    if toks == [] then stack == []
    else if stack == [] then false
    else
      var t := toks[0].tokenType;
      if IsOpener(t) then BlockScan(toks[1..], [t] + stack)
      else if IsCloser(t) then stack[0] == OpenerOf(t) && BlockScan(toks[1..], stack[1..])
      else BlockScan(toks[1..], stack)
  }

  /** The answer `isBlockParseable` gives for a whole token stream. */
  predicate BlockParseable(toks: seq<Token>)
  {
    |toks| > 0 && toks[0].tokenType == LBrace && BlockScan(toks[1..], [LBrace])
  }

  /**
   * The loop of `isBlockParseable`, with the `LinkedList` stack as a
   * sequence whose head is the top.
   */
  method IsBlockParseable(tokens: seq<Token>) returns (r: bool)
    ensures r == BlockParseable(tokens)
    ensures r ==> tokens[0].tokenType == LBrace
  {
    if |tokens| == 0 || tokens[0].tokenType != LBrace {
      return false;
    }
    var i := 1;
    var leftStack: seq<TokenType> := [LBrace];
    while true
      invariant 1 <= i <= |tokens|
      invariant BlockScan(tokens[i..], leftStack) == BlockScan(tokens[1..], [LBrace])
      decreases |tokens| - i
    {
      if i == |tokens| {
        return leftStack == [];
      }
      if leftStack == [] {
        return false;
      }
      var t := tokens[i].tokenType;
      match t {
        case LBrace =>
          leftStack := [t] + leftStack;
        case LParen =>
          leftStack := [t] + leftStack;
        case RBrace =>
          // the stack is non-empty here, so the `leftStack.isEmpty()` test before `pop` cannot succeed
          var top := leftStack[0];
          leftStack := leftStack[1..];
          if top != LBrace {
            return false;
          }
        case RParen =>
          var top := leftStack[0];
          leftStack := leftStack[1..];
          if top != LParen {
            return false;
          }
        case _ =>
      }
      i := i + 1;
    }
  }

  /**
   * The stack after `toks` have been consumed starting from `stack`,
   * or `None` when the scan rejects on the way (a token met with an
   * empty stack, or a closer whose popped opener does not match).
   */
  function StackAfter(toks: seq<Token>, stack: seq<TokenType>): Option<seq<TokenType>>
    decreases |toks|
  {
    if toks == [] then Some(stack)
    else if stack == [] then None
    else
      var t := toks[0].tokenType;
      if IsOpener(t) then StackAfter(toks[1..], [t] + stack)
      else if IsCloser(t) then
        if stack[0] == OpenerOf(t) then StackAfter(toks[1..], stack[1..]) else None
      else StackAfter(toks[1..], stack)
  }

  /** The scan of `a + b` is the scan of `b` from wherever `a` leaves the stack. */
  lemma {:induction false} ScanSplit(a: seq<Token>, b: seq<Token>, stack: seq<TokenType>)
    ensures BlockScan(a + b, stack) ==
            (StackAfter(a, stack).Some? && BlockScan(b, StackAfter(a, stack).value))
    decreases |a|
  {
    if a == [] {
      assert a + b == b;
    } else if stack == [] {
    } else {
      assert (a + b)[0] == a[0];
      assert (a + b)[1..] == a[1..] + b;
      var t := a[0].tokenType;
      if IsOpener(t) {
        ScanSplit(a[1..], b, [t] + stack);
      } else if IsCloser(t) {
        ScanSplit(a[1..], b, stack[1..]);
      } else {
        ScanSplit(a[1..], b, stack);
      }
    }
  }

  /** The scan accepts exactly when it consumes every token and ends with an empty stack. */
  lemma AcceptsIffStackEmpties(toks: seq<Token>, stack: seq<TokenType>)
    ensures BlockScan(toks, stack) <==> StackAfter(toks, stack) == Some([])
  {
    ScanSplit(toks, [], stack);
    assert toks + [] == toks;
  }

  /** A block token stream is rejected once any token follows its closing brace. */
  lemma TrailingTokensRejected(toks: seq<Token>, rest: seq<Token>)
    requires BlockParseable(toks)
    requires rest != []
    ensures !BlockParseable(toks + rest)
  {
    AcceptsIffStackEmpties(toks[1..], [LBrace]);
    ScanSplit(toks[1..], rest, [LBrace]);
    assert (toks + rest)[1..] == toks[1..] + rest;
  }

  /**
   * A closer whose popped opener is of the other kind makes the whole
   * stream unparseable, whatever follows it.
   */
  lemma MismatchedCloserRejected(open: Token, a: seq<Token>, closer: Token, b: seq<Token>)
    requires open.tokenType == LBrace && IsCloser(closer.tokenType)
    requires StackAfter(a, [LBrace]).Some? && StackAfter(a, [LBrace]).value != []
    requires StackAfter(a, [LBrace]).value[0] != OpenerOf(closer.tokenType)
    ensures !BlockParseable([open] + a + [closer] + b)
  {
    var toks := [open] + a + [closer] + b;
    assert toks[1..] == a + ([closer] + b);
    ScanSplit(a, [closer] + b, [LBrace]);
  }

  /** Number of tokens of type `t`. */
  function Count(toks: seq<Token>, t: TokenType): nat
    decreases |toks|
  {
    if toks == [] then 0 else (if toks[0].tokenType == t then 1 else 0) + Count(toks[1..], t)
  }

  /** Number of stack entries equal to `t`. */
  function Occurrences(stack: seq<TokenType>, t: TokenType): nat
    decreases |stack|
  {
    if stack == [] then 0 else (if stack[0] == t then 1 else 0) + Occurrences(stack[1..], t)
  }

  lemma {:induction false} ScanBalancesCounts(toks: seq<Token>, stack: seq<TokenType>)
    requires BlockScan(toks, stack)
    ensures Count(toks, LBrace) + Occurrences(stack, LBrace) == Count(toks, RBrace)
    ensures Count(toks, LParen) + Occurrences(stack, LParen) == Count(toks, RParen)
    decreases |toks|
  {
    if toks != [] {
      var t := toks[0].tokenType;
      if IsOpener(t) {
        ScanBalancesCounts(toks[1..], [t] + stack);
        assert ([t] + stack)[1..] == stack;
      } else if IsCloser(t) {
        ScanBalancesCounts(toks[1..], stack[1..]);
      } else {
        ScanBalancesCounts(toks[1..], stack);
      }
    }
  }

  /** An accepted block has as many `{` as `}` and as many `(` as `)`. */
  lemma AcceptedIsBalanced(toks: seq<Token>)
    requires BlockParseable(toks)
    ensures Count(toks, LBrace) == Count(toks, RBrace)
    ensures Count(toks, LParen) == Count(toks, RParen)
  {
    ScanBalancesCounts(toks[1..], [LBrace]);
    assert [LBrace][1..] == [];
  }

  /**
   * Properly nested token structure: a non-bracket token, or a bracket
   * pair around a sequence of nested structures.
   */
  datatype Nest = Leaf(token: Token) | Group(opener: TokenType, children: seq<Nest>)

  predicate WellFormed(n: Nest)
  {
    match n
    case Leaf(tok) => !IsBracket(tok.tokenType)
    case Group(o, cs) => IsOpener(o) && forall c | c in cs :: WellFormed(c)
  }

  function CloserOf(o: TokenType): (c: TokenType)
    requires IsOpener(o)
    ensures IsCloser(c) && OpenerOf(c) == o
  {
    if o == LBrace then RBrace else RParen
  }

  function BracketToken(t: TokenType): Token
    requires IsBracket(t)
  {
    Token(t, match t case LBrace => "{" case RBrace => "}" case LParen => "(" case _ => ")")
  }

  /** The tokens a nested structure is written as. */
  function Flatten(n: Nest): seq<Token>
    requires WellFormed(n)
    decreases n
  {
    match n
    case Leaf(tok) => [tok]
    case Group(o, cs) => [BracketToken(o)] + FlattenAll(cs) + [BracketToken(CloserOf(o))]
  }

  function FlattenAll(ns: seq<Nest>): seq<Token>
    requires forall c | c in ns :: WellFormed(c)
    decreases ns
  {
    if ns == [] then [] else Flatten(ns[0]) + FlattenAll(ns[1..])
  }

  lemma {:induction false} NestScan(n: Nest, rest: seq<Token>, stack: seq<TokenType>)
    requires WellFormed(n) && stack != []
    ensures BlockScan(Flatten(n) + rest, stack) == BlockScan(rest, stack)
    decreases n
  {
    match n
    case Leaf(tok) =>
      assert ([tok] + rest)[1..] == rest;
    case Group(o, cs) =>
      var close := BracketToken(CloserOf(o));
      var toks := [BracketToken(o)] + FlattenAll(cs) + [close] + rest;
      assert Flatten(n) + rest == toks;
      assert toks[1..] == FlattenAll(cs) + ([close] + rest);
      NestsScan(cs, [close] + rest, [o] + stack);
      assert ([close] + rest)[1..] == rest;
  }

  lemma {:induction false} NestsScan(ns: seq<Nest>, rest: seq<Token>, stack: seq<TokenType>)
    requires forall c | c in ns :: WellFormed(c)
    requires stack != []
    ensures BlockScan(FlattenAll(ns) + rest, stack) == BlockScan(rest, stack)
    decreases ns
  {
    if ns == [] {
      assert FlattenAll(ns) + rest == rest;
    } else {
      assert FlattenAll(ns) + rest == Flatten(ns[0]) + (FlattenAll(ns[1..]) + rest);
      NestScan(ns[0], FlattenAll(ns[1..]) + rest, stack);
      NestsScan(ns[1..], rest, stack);
    }
  }

  /** Every properly nested brace block is accepted. */
  lemma WellNestedBlockAccepted(cs: seq<Nest>)
    requires forall c | c in cs :: WellFormed(c)
    ensures BlockParseable(Flatten(Group(LBrace, cs)))
  {
    var close := BracketToken(RBrace);
    var toks := Flatten(Group(LBrace, cs));
    assert toks[1..] == FlattenAll(cs) + [close];
    NestsScan(cs, [close], [LBrace]);
    assert [close][1..] == [];
  }
}
