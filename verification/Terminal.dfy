/**
 One row of the remote terminal that the fallback shell paints: cells, a cursor, and the two cursor
 movements the shell uses, CUF and CUB (sections 8.3.20 and 8.3.18 of ECMA-48). The row has no right
 margin, and a line feed starts a blank one.
 */
module Terminal {
  import opened Wrappers
  import I = InputStreams

  const BLANK: byte := 32
  const LF: byte := 10

  datatype Mode = Ground | Escape | Control

  datatype Term = Term(row: seq<byte>, col: nat, mode: Mode)

  predicate Printable(b: byte) { 32 <= b <= 126 }

  predicate AllPrintable(s: seq<byte>) {
    forall i :: 0 <= i < |s| ==> Printable(s[i])
  }

  function Blanks(n: nat): seq<byte> { seq(n, i => BLANK) }

  /** What the row shows in column k: beyond what was ever printed it is blank. */
  function Cell(row: seq<byte>, k: nat): byte {
    if k < |row| then row[k] else BLANK
  }

  function Put(row: seq<byte>, col: nat, b: byte): (r: seq<byte>)
    ensures forall k: nat :: Cell(r, k) == if k == col then b else Cell(row, k)
  {
    if col < |row| then row[col := b] else row + Blanks(col - |row|) + [b]
  }

  function Feed(t: Term, b: byte): Term {
    match t.mode
    case Ground =>
      if b == I.ESC then t.(mode := Escape)
      else if b == I.CR then t.(col := 0)
      else if b == LF then t.(row := [])
      else if Printable(b) then Term(Put(t.row, t.col, b), t.col + 1, Ground)
      else t
    case Escape => t.(mode := if b == I.BRACKET then Control else Ground)
    case Control =>
      if b == 67 then t.(col := t.col + 1, mode := Ground)
      else if b == 68 then t.(col := if t.col == 0 then 0 else t.col - 1, mode := Ground)
      else t.(mode := Ground)
  }

  function FeedAll(t: Term, s: seq<byte>): Term
    decreases s
  {
    if s == [] then t else FeedAll(Feed(t, s[0]), s[1..])
  }

  function Repeat(s: seq<byte>, n: nat): seq<byte> {
    if n == 0 then [] else s + Repeat(s, n - 1)
  }

  function Left(n: nat): seq<byte> { Repeat(I.ToBytes(I.LeftArrow), n) }

  function Right(n: nat): seq<byte> { Repeat(I.ToBytes(I.RightArrow), n) }

  /** The pieces in which the output reaches the terminal make no difference. */
  lemma {:induction false} FeedSplits(t: Term, a: seq<byte>, b: seq<byte>)
    ensures FeedAll(t, a + b) == FeedAll(FeedAll(t, a), b)
    decreases a
  {
    if a == [] {
      assert a + b == b;
    } else {
      assert (a + b)[1..] == a[1..] + b;
      FeedSplits(Feed(t, a[0]), a[1..], b);
    }
  }

  lemma {:induction false} FeedText(t: Term, s: seq<byte>)
    requires t.mode == Ground && AllPrintable(s)
    ensures var t' := FeedAll(t, s);
            && t'.mode == Ground && t'.col == t.col + |s|
            && (forall k: nat :: Cell(t'.row, k) == if t.col <= k < t.col + |s| then s[k - t.col] else Cell(t.row, k))
    decreases s
  {
    if s != [] {
      assert Printable(s[0]) && AllPrintable(s[1..]);
      FeedText(Feed(t, s[0]), s[1..]);
    }
  }

  lemma FeedArrow(t: Term, arrow: I.Token)
    requires t.mode == Ground && (arrow.LeftArrow? || arrow.RightArrow?)
    ensures FeedAll(t, I.ToBytes(arrow)) ==
              t.(col := if arrow.RightArrow? then t.col + 1 else if t.col == 0 then 0 else t.col - 1)
  {
    var s := I.ToBytes(arrow);
    assert s[1..][1..] == [s[2]] && s[1..][0] == s[1] && s[2..] == [s[2]];
    assert FeedAll(t, s) == FeedAll(Feed(Feed(t, s[0]), s[1]), [s[2]]);
    assert FeedAll(Feed(Feed(t, s[0]), s[1]), [s[2]]) == FeedAll(Feed(Feed(Feed(t, s[0]), s[1]), s[2]), []);
  }

  lemma {:induction false} FeedLeft(t: Term, n: nat)
    requires t.mode == Ground && n <= t.col
    ensures FeedAll(t, Left(n)) == t.(col := t.col - n)
    decreases n
  {
    if n > 0 {
      FeedSplits(t, I.ToBytes(I.LeftArrow), Left(n - 1));
      FeedArrow(t, I.LeftArrow);
      FeedLeft(t.(col := t.col - 1), n - 1);
    }
  }

  lemma {:induction false} FeedRight(t: Term, n: nat)
    requires t.mode == Ground
    ensures FeedAll(t, Right(n)) == t.(col := t.col + n)
    decreases n
  {
    if n > 0 {
      FeedSplits(t, I.ToBytes(I.RightArrow), Right(n - 1));
      FeedArrow(t, I.RightArrow);
      FeedRight(t.(col := t.col + 1), n - 1);
    }
  }

  lemma FeedNewLine(t: Term)
    requires t.mode == Ground
    ensures FeedAll(t, [I.CR, LF]) == Term([], 0, Ground)
  {
    assert [I.CR, LF][1..] == [LF];
    assert FeedAll(Feed(t, I.CR), [LF]) == FeedAll(Feed(Feed(t, I.CR), LF), []);
  }

  /** The row shows pre and then line, blank after them, with the cursor at pos in line. */
  predicate ShowsCell(t: Term, text: seq<byte>, k: nat) {
    Cell(t.row, k) == Cell(text, k)
  }

  ghost predicate Shows(t: Term, pre: seq<byte>, line: seq<byte>, pos: nat) {
    && t.mode == Ground && t.col == |pre| + pos
    && forall k: nat :: ShowsCell(t, pre + line, k)
  }

  /** The terminal is ready for a prompt: nothing is shown at or after the cursor. */
  ghost predicate Tidy(t: Term) {
    t.mode == Ground && forall k: nat :: k >= t.col ==> Cell(t.row, k) == BLANK
  }

  function RowUpTo(row: seq<byte>, n: nat): seq<byte> {
    if n <= |row| then row[..n] else row + Blanks(n - |row|)
  }

  lemma PromptShown(t: Term, prompt: seq<byte>)
    requires Tidy(t) && AllPrintable(prompt)
    ensures Shows(FeedAll(t, prompt), RowUpTo(t.row, t.col) + prompt, [], 0)
  {
    FeedText(t, prompt);
    var t', pre := FeedAll(t, prompt), RowUpTo(t.row, t.col) + prompt;
    assert pre + [] == pre;
    forall k: nat ensures ShowsCell(t', pre + [], k) {
    }
  }
}
