/**
 * The decision made by `castOperandCheckInner` (parserUtils.kt): after
 * an opening parenthesis, do the following tokens close it before any
 * comma at the same depth (a cast, `(Type) expr`), or is there a comma
 * first or no closing parenthesis at all (an argument list)?
 */
module GroovyCast {
  import opened GroovyTokens

  /**
   * What the scan answers when it is about to look at token `i` with
   * `depth` unclosed inner parentheses.
   */
  function CastScan(toks: seq<Token>, i: nat, depth: nat): bool
    decreases |toks| - i
  {
    if i >= |toks| then false
    else match toks[i].tokenType
      case LParen => CastScan(toks, i + 1, depth + 1)
      case RParen => if depth == 0 then true else CastScan(toks, i + 1, depth - 1)
      case Comma => if depth == 0 then false else CastScan(toks, i + 1, depth)
      case _ => CastScan(toks, i + 1, depth)
  }

  /** How a token changes the parenthesis depth. */
  function Delta(t: Token): int
  {
    if t.tokenType == LParen then 1 else if t.tokenType == RParen then -1 else 0
  }

  /** Net depth change over the tokens `toks[i..j]`. */
  function Depth(toks: seq<Token>, i: nat, j: nat): int
    requires i <= j <= |toks|
    decreases j - i
  {
    if i == j then 0 else Delta(toks[i]) + Depth(toks, i + 1, j)
  }

  /**
   * Independent statement of the expected answer: token `j` is the
   * parenthesis that brings the depth, started at `d` before token `i`,
   * back below zero for the first time, and no comma before it sits at
   * depth zero.
   */
  ghost predicate ClosesAt(toks: seq<Token>, i: nat, d: int, j: nat)
  {
    && i <= j < |toks|
    && toks[j].tokenType == RParen
    && d + Depth(toks, i, j) == 0
    && (forall k :: i < k <= j ==> d + Depth(toks, i, k) >= 0)
    && (forall k :: i <= k < j && toks[k].tokenType == Comma ==> d + Depth(toks, i, k) > 0)
  }

  /** Dropping the first token of the window shifts the start depth by its delta. */
  lemma ClosesAtShift(toks: seq<Token>, i: nat, d: int, j: nat)
    requires i < j < |toks|
    ensures ClosesAt(toks, i, d, j) <==>
            && d + Delta(toks[i]) >= 0
            && (toks[i].tokenType == Comma ==> d > 0)
            && ClosesAt(toks, i + 1, d + Delta(toks[i]), j)
  {
    var d' := d + Delta(toks[i]);
    forall k | i < k <= j
      ensures d + Depth(toks, i, k) == d' + Depth(toks, i + 1, k)
    {
    }
    assert Depth(toks, i, i + 1) == Delta(toks[i]);
    assert Depth(toks, i, i) == 0;
    if ClosesAt(toks, i, d, j) {
      assert d + Depth(toks, i, i + 1) >= 0;
      assert d' + Depth(toks, i + 1, j) == 0 by {
        assert d + Depth(toks, i, j) == d' + Depth(toks, i + 1, j);
      }
      var next := i + 1;
      forall k | next < k <= j ensures d' + Depth(toks, next, k) >= 0 {
        assert d + Depth(toks, i, k) >= 0;
      }
      forall k | i + 1 <= k < j && toks[k].tokenType == Comma ensures d' + Depth(toks, i + 1, k) > 0 {
        assert d + Depth(toks, i, k) > 0;
      }
    }
    if && d' >= 0
       && (toks[i].tokenType == Comma ==> d > 0)
       && ClosesAt(toks, i + 1, d', j)
    {
      forall k | i < k <= j ensures d + Depth(toks, i, k) >= 0 {
        if k > i + 1 {
          assert d' + Depth(toks, i + 1, k) >= 0;
        }
      }
      forall k | i <= k < j && toks[k].tokenType == Comma ensures d + Depth(toks, i, k) > 0 {
        if k > i {
          assert d' + Depth(toks, i + 1, k) > 0;
        }
      }
    }
  }

  /**
   * The scan returns true exactly when some token closes the parenthesis
   * in the sense of `ClosesAt`: a depth-zero `)` with no depth-zero `,`
   * before it.  End of input and a depth-zero `,` both give false.
   */
  lemma {:induction false} CastScanIff(toks: seq<Token>, i: nat, d: nat)
    ensures CastScan(toks, i, d) <==> exists j :: ClosesAt(toks, i, d, j)
    decreases |toks| - i
  {
    if i >= |toks| {
      return;
    }
    var t := toks[i].tokenType;
    if t == RParen && d == 0 {
      assert ClosesAt(toks, i, d, i);
      return;
    }
    // no answer can close at i itself
    assert !ClosesAt(toks, i, d, i);
    var d' := d + Delta(toks[i]);
    if t == Comma && d == 0 {
      forall j | ClosesAt(toks, i, d, j) ensures false {
        ClosesAtShift(toks, i, d, j);
      }
      return;
    }
    assert d' >= 0;
    CastScanIff(toks, i + 1, d');
    assert CastScan(toks, i, d) == CastScan(toks, i + 1, d');
    if CastScan(toks, i, d) {
      var j :| ClosesAt(toks, i + 1, d', j);
      ClosesAtShift(toks, i, d, j);
    } else {
      forall j | ClosesAt(toks, i, d, j) ensures false {
        ClosesAtShift(toks, i, d, j);
      }
    }
  }
}
