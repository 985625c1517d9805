/*
 * The ChaCha20 block function used by the screenshot scheduler as a
 * deterministic pseudo-random generator (PISS.c, ROTL/QR and chacha_block).
 * It is the quarter round of section 2.1 and the block function of
 * section 2.3 of RFC 8439: twenty rounds, grouped as ten double rounds of
 * four column quarter rounds followed by four diagonal quarter rounds, and
 * a final word-wise addition of the input ("feed-forward").
 *
 * The pure functions below are the specification; ChaChaBlock is the
 * imperative routine of the source (a local working array updated in place
 * over ten iterations, then written to `out`), proved against them.
 */
module ChaCha20 {

  /** A C `uint32_t`: `+` wraps modulo 2^32, `^` is exclusive or. */
  type Word = bv32

  /** Number of words in a ChaCha state. */
  const STATE_WORDS := 16
  /** ROUNDS in the source: the block runs ROUNDS / 2 double rounds. */
  const ROUNDS := 20

  /** A ChaCha state: sixteen 32-bit words. */
  predicate IsState(s: seq<Word>) {
    |s| == STATE_WORDS
  }

  /** `a + b` on two `uint32_t`: addition modulo 2^32. */
  function Add(a: Word, b: Word): Word {
    a + b
  }

  /**
   * The ROTL macro: `(a << b) | (a >> (32 - b))` on a 32-bit word.
   * The shift count is a 32-bit word too, as the four call sites pass the
   * constants 16, 12, 8 and 7.
   */
  function Rotl(v: Word, n: Word): (r: Word)
    requires 0 < n < 32
  {
    (v << n) | (v >> (32 - n))
  }

  /**
   * No bit is lost: rotating the result left by the remaining `32 - n`
   * positions gives back the original word.
   */
  lemma RotlInverse(v: Word, n: Word)
    requires 0 < n < 32
    ensures Rotl(Rotl(v, n), 32 - n) == v
  {
  }

  /** Four words handed to one quarter round, in the order (a, b, c, d). */
  datatype Quad = Quad(a: Word, b: Word, c: Word, d: Word)

  /**
   * The QR macro: the twelve add-xor-rotate steps of the ChaCha quarter
   * round (section 2.1 of RFC 8439), in the source's order.
   */
  function QuarterRound(q: Quad): (r: Quad)
  {
    var a1 := q.a + q.b;  var d1 := Rotl(q.d ^ a1, 16);
    var c1 := q.c + d1;   var b1 := Rotl(q.b ^ c1, 12);
    var a2 := a1 + b1;    var d2 := Rotl(d1 ^ a2, 8);
    var c2 := c1 + d2;    var b2 := Rotl(b1 ^ c2, 7);
    Quad(a2, b2, c2, d2)
  }

  /** Four distinct word positions of a state. */
  predicate Positions(a: nat, b: nat, c: nat, d: nat) {
    a < STATE_WORDS && b < STATE_WORDS && c < STATE_WORDS && d < STATE_WORDS &&
    a != b && a != c && a != d && b != c && b != d && c != d
  }

  /**
   * `QR(x[a], x[b], x[c], x[d])`: the quarter round applied to four words
   * of a state; the other twelve words are untouched.
   */
  function QuarterRoundAt(s: seq<Word>, a: nat, b: nat, c: nat, d: nat): (r: seq<Word>)
    requires IsState(s) && Positions(a, b, c, d)
    ensures IsState(r)
    ensures forall i :: 0 <= i < STATE_WORDS && i != a && i != b && i != c && i != d ==> r[i] == s[i]
  {
    var q := QuarterRound(Quad(s[a], s[b], s[c], s[d]));
    s[a := q.a][b := q.b][c := q.c][d := q.d]
  }

  /**
   * The first `n` column quarter rounds, left to right: column `j` is the
   * words j, j + 4, j + 8 and j + 12.
   */
  function Columns(s: seq<Word>, n: nat): (r: seq<Word>)
    requires IsState(s) && n <= 4
    ensures IsState(r)
  {
    if n == 0 then s
    else
      var j := n - 1;
      QuarterRoundAt(Columns(s, j), j, j + 4, j + 8, j + 12)
  }

  /**
   * The first `n` diagonal quarter rounds: diagonal `j` starts at word j of
   * the first row and moves one column to the right, cyclically, per row.
   */
  function Diagonals(s: seq<Word>, n: nat): (r: seq<Word>)
    requires IsState(s) && n <= 4
    ensures IsState(r)
  {
    if n == 0 then s
    else
      var j := n - 1;
      QuarterRoundAt(Diagonals(s, j), j, 4 + (j + 1) % 4, 8 + (j + 2) % 4, 12 + (j + 3) % 4)
  }

  /** The odd round: the four column quarter rounds. */
  function ColumnRound(s: seq<Word>): (r: seq<Word>)
    requires IsState(s)
    ensures IsState(r)
  {
    Columns(s, 4)
  }

  /** The even round: the four diagonal quarter rounds. */
  function DiagonalRound(s: seq<Word>): (r: seq<Word>)
    requires IsState(s)
    ensures IsState(r)
  {
    Diagonals(s, 4)
  }

  /** One iteration of the source's round loop: a column round, then a diagonal round. */
  function DoubleRound(s: seq<Word>): (r: seq<Word>)
    requires IsState(s)
    ensures IsState(r)
  {
    DiagonalRound(ColumnRound(s))
  }

  /** The state after `n` double rounds. */
  function DoubleRounds(s: seq<Word>, n: nat): (r: seq<Word>)
    requires IsState(s)
    ensures IsState(r)
  {
    if n == 0 then s else DoubleRound(DoubleRounds(s, n - 1))
  }

  /** Word-wise addition modulo 2^32 of two states (the feed-forward). */
  function AddStates(x: seq<Word>, y: seq<Word>): (r: seq<Word>)
    requires IsState(x) && IsState(y)
    ensures IsState(r)
  {
    seq(STATE_WORDS, i requires 0 <= i < STATE_WORDS => Add(x[i], y[i]))
  }

  /** The block function: ROUNDS / 2 double rounds, then the input added back. */
  function Block(s: seq<Word>): (r: seq<Word>)
    requires IsState(s)
    ensures IsState(r)
  {
    AddStates(DoubleRounds(s, ROUNDS / 2), s)
  }

  /**
   * The QR macro run on the array elements x[a], x[b], x[c], x[d] in place.
   * The twelve steps are those of QuarterRound; the method loads the four
   * words, applies them and stores the results back.
   */
  method QuarterRoundInPlace(x: array<Word>, a: nat, b: nat, c: nat, d: nat)
    requires x.Length == STATE_WORDS && Positions(a, b, c, d)
    modifies x
    ensures x[..] == QuarterRoundAt(old(x[..]), a, b, c, d)
  {
    var q := QuarterRound(Quad(x[a], x[b], x[c], x[d]));
    x[a], x[b], x[c], x[d] := q.a, q.b, q.c, q.d;
  }

  /** The odd round of the loop body: the four column quarter rounds, in place. */
  method ColumnRoundInPlace(x: array<Word>)
    requires x.Length == STATE_WORDS
    modifies x
    ensures x[..] == ColumnRound(old(x[..]))
  {
    ghost var s := x[..];
    QuarterRoundInPlace(x, 0, 4, 8, 12);
    assert x[..] == Columns(s, 1);
    QuarterRoundInPlace(x, 1, 5, 9, 13);
    assert x[..] == Columns(s, 2);
    QuarterRoundInPlace(x, 2, 6, 10, 14);
    assert x[..] == Columns(s, 3);
    QuarterRoundInPlace(x, 3, 7, 11, 15);
  }

  /** The even round of the loop body: the four diagonal quarter rounds, in place. */
  method DiagonalRoundInPlace(x: array<Word>)
    requires x.Length == STATE_WORDS
    modifies x
    ensures x[..] == DiagonalRound(old(x[..]))
  {
    ghost var s := x[..];
    QuarterRoundInPlace(x, 0, 5, 10, 15);
    assert x[..] == Diagonals(s, 1);
    QuarterRoundInPlace(x, 1, 6, 11, 12);
    assert x[..] == Diagonals(s, 2);
    QuarterRoundInPlace(x, 2, 7, 8, 13);
    assert x[..] == Diagonals(s, 3);
    QuarterRoundInPlace(x, 3, 4, 9, 14);
  }

  /** One iteration of the round loop: the odd round, then the even round. */
  method DoubleRoundInPlace(x: array<Word>)
    requires x.Length == STATE_WORDS
    modifies x
    ensures x[..] == DoubleRound(old(x[..]))
  {
    ColumnRoundInPlace(x);
    DiagonalRoundInPlace(x);
  }

  /** The first loop of chacha_block: the working array starts as a copy of `in`. */
  method CopyState(inp: array<Word>) returns (x: array<Word>)
    requires inp.Length == STATE_WORDS
    ensures fresh(x) && x[..] == inp[..]
  {
    x := new Word[STATE_WORDS];
    var i := 0;
    while i < STATE_WORDS
      invariant 0 <= i <= STATE_WORDS
      invariant x[..i] == inp[..i]
    {
      x[i] := inp[i];
      i := i + 1;
    }
    assert x[..] == x[..STATE_WORDS];
  }

  /**
   * The round loop of chacha_block: `for (i = 0; i < ROUNDS; i += 2)`, each
   * iteration a column round and a diagonal round, so ROUNDS / 2 double
   * rounds in all.
   */
  method RoundsInPlace(x: array<Word>)
    requires x.Length == STATE_WORDS
    modifies x
    ensures x[..] == DoubleRounds(old(x[..]), ROUNDS / 2)
  {
    ghost var s := x[..];
    ghost var k: nat := 0;
    var i := 0;
    while i < ROUNDS
      invariant i == k + k && k <= ROUNDS / 2
      invariant x[..] == DoubleRounds(s, k)
    {
      DoubleRoundInPlace(x);
      i := i + 2;
      k := k + 1;
    }
    assert k == ROUNDS / 2;
  }

  /**
   * The last loop of chacha_block: `out[i] = x[i] + in[i]`. `out` may be
   * `in` itself: each `in[i]` is read before `out[i]` is written.
   */
  method FeedForward(out: array<Word>, x: array<Word>, inp: array<Word>)
    requires out.Length == STATE_WORDS && x.Length == STATE_WORDS && inp.Length == STATE_WORDS
    requires x != out && x != inp
    modifies out
    ensures out[..] == AddStates(old(x[..]), old(inp[..]))
  {
    var i := 0;
    while i < STATE_WORDS
      invariant 0 <= i <= STATE_WORDS
      invariant forall j :: i <= j < STATE_WORDS ==> inp[j] == old(inp[j])
      invariant forall j :: 0 <= j < i ==> out[j] == Add(old(x[j]), old(inp[j]))
    {
      out[i] := Add(x[i], inp[i]);
      i := i + 1;
    }
  }

  /**
   * chacha_block(out, in): copy `in` into a local array, run the rounds on
   * it in place, then store the feed-forward sum into `out`. `in` is only
   * read, and `out` may be the same array as `in`.
   */
  method ChaChaBlock(out: array<Word>, inp: array<Word>)
    requires out.Length == STATE_WORDS && inp.Length == STATE_WORDS
    modifies out
    ensures out[..] == Block(old(inp[..]))
    ensures out != inp ==> inp[..] == old(inp[..])
  {
    var x := CopyState(inp);
    RoundsInPlace(x);
    FeedForward(out, x, inp);
  }
}
