/**
 * The part of the Groovy lexer's output that the parser helpers look at:
 * a token is its type and its text.  The lexer itself is not modelled;
 * every helper takes the token stream it would produce.
 */
module GroovyTokens {

  /** Token types the helpers test for; every other type is `OtherToken`. */
  datatype TokenType =
    | LBrace        // T_LBRACE
    | RBrace        // T_RBRACE
    | LParen        // T_LPAREN
    | RParen        // T_RPAREN
    | Comma         // T_COMMA
    | Identifier    // IDENTIFIER
    | OtherToken(name: string)

  datatype Token = Token(tokenType: TokenType, text: string)

  predicate IsOpener(t: TokenType) { t == LBrace || t == LParen }

  predicate IsCloser(t: TokenType) { t == RBrace || t == RParen }

  predicate IsBracket(t: TokenType) { IsOpener(t) || IsCloser(t) }

  /** The opener that a closer must pop. */
  function OpenerOf(t: TokenType): TokenType
    requires IsCloser(t)
  {
    if t == RBrace then LBrace else LParen
  }
}
