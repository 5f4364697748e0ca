/**
 Line editing of the fallback shell (tunshell-client/src/shell/server/fallback/interpreter.rs) as
 functions from an editor and a token to an editor and the bytes it prints, and the proof that
 what the remote terminal shows is always the line being edited.
 */
module Editor {
  import opened Wrappers
  import opened Terminal
  import I = InputStreams
  import L = LineEndings

  const NEW_LINE: seq<byte> := [13, 10]

  datatype Editor = Editor(line: seq<byte>, cursor: nat, history: seq<seq<byte>>, historyPos: nat)

  type Edit = (Editor, seq<byte>)

  function Min(a: nat, b: nat): nat { if a < b then a else b }

  function Max(a: nat, b: nat): nat { if a < b then b else a }

  /** Both positions stay inside what they point into. */
  predicate InRange(e: Editor) {
    e.cursor <= |e.line| && e.historyPos <= |e.history|
  }

  /** Repaints the line: cursor to the start, the new line padded to cover the old, cursor back. */
  function Refreshed(e: Editor, e': Editor): Edit
    requires e'.cursor <= |e'.line|
  {
    var n := Max(|e.line|, |e'.line|);
    (e', Left(e.cursor) + (e'.line + Blanks(n - |e'.line|)) + Left(n - e'.cursor))
  }

  function InsertBytes(e: Editor, bytes: seq<byte>): Edit
    requires InRange(e)
  {
    if e.cursor == |e.line| then (e.(line := e.line + bytes, cursor := e.cursor + |bytes|), bytes)
    else Refreshed(e, e.(line := e.line[..e.cursor] + bytes + e.line[e.cursor..], cursor := e.cursor + |bytes|))
  }

  function AdvanceCursor(e: Editor, offset: nat): Edit
    requires InRange(e)
  {
    var n := Min(offset, |e.line| - e.cursor);
    (e.(cursor := e.cursor + n), Right(n))
  }

  function RetractCursor(e: Editor, offset: nat): Edit {
    var n := Min(offset, e.cursor);
    (e.(cursor := e.cursor - n), Left(n))
  }

  function BackspaceKey(e: Editor): Edit
    requires InRange(e)
  {
    if e.cursor == 0 then (e, [])
    else if e.cursor == |e.line| then
      (e.(line := e.line[..|e.line| - 1], cursor := e.cursor - 1), Left(1) + [BLANK] + Left(1))
    else
      Refreshed(e, e.(line := e.line[..e.cursor - 1] + e.line[e.cursor..], cursor := e.cursor - 1))
  }

  function PreviousInHistory(e: Editor): Edit
    requires InRange(e)
  {
    if e.historyPos == 0 || |e.history| == 0 then (e, []) else
    var line := e.history[e.historyPos - 1];
    Refreshed(e, e.(line := line, cursor := |line|, historyPos := e.historyPos - 1))
  }

  function NextInHistory(e: Editor): Edit
    requires InRange(e)
  {
    if e.historyPos >= |e.history| then (e, []) else
    var at := e.historyPos + 1;
    var line := if at == |e.history| then [] else e.history[at];
    Refreshed(e, e.(line := line, cursor := |line|, historyPos := at))
  }

  function InterruptLine(e: Editor, prompt: seq<byte>): Edit {
    (e.(line := [], cursor := 0), NEW_LINE + prompt)
  }

  /** A token other than Enter. */
  function Key(e: Editor, prompt: seq<byte>, token: I.Token): Edit
    requires InRange(e) && !token.Enter?
  {
    match token
    case Bytes(bytes) => InsertBytes(e, bytes)
    case UpArrow => PreviousInHistory(e)
    case LeftArrow => RetractCursor(e, 1)
    case RightArrow => AdvanceCursor(e, 1)
    case DownArrow => NextInHistory(e)
    case Backspace => BackspaceKey(e)
    case ControlC => InterruptLine(e, prompt)
  }

  /** Enter: the line becomes the newest history entry and a new line starts. */
  function Entered(e: Editor): Edit {
    (Editor([], 0, e.history + [e.line], |e.history| + 1), NEW_LINE)
  }

  lemma KeyInRange(e: Editor, prompt: seq<byte>, token: I.Token)
    requires InRange(e) && !token.Enter?
    ensures InRange(Key(e, prompt, token).0) && Key(e, prompt, token).0.history == e.history
  {
  }

  /** The edits of tokens without Enter, one after the other. */
  function Keys(e: Editor, prompt: seq<byte>, tokens: seq<I.Token>): Edit
    requires InRange(e) && forall i :: 0 <= i < |tokens| ==> !tokens[i].Enter?
    decreases |tokens|, 0
  {
    if tokens == [] then (e, []) else
    var (e', out) := Keys(e, prompt, tokens[..|tokens| - 1]);
    KeysInRange(e, prompt, tokens[..|tokens| - 1]);
    var (e'', more) := Key(e', prompt, tokens[|tokens| - 1]);
    (e'', out + more)
  }

  lemma {:induction false} KeysInRange(e: Editor, prompt: seq<byte>, tokens: seq<I.Token>)
    requires InRange(e) && forall i :: 0 <= i < |tokens| ==> !tokens[i].Enter?
    ensures InRange(Keys(e, prompt, tokens).0)
    decreases |tokens|, 1
  {
    if tokens != [] {
      var front := tokens[..|tokens| - 1];
      KeysInRange(e, prompt, front);
      KeyInRange(Keys(e, prompt, front).0, prompt, tokens[|tokens| - 1]);
    }
  }

  // What the keys undo

  function Backspaces(e: Editor, n: nat): Editor
    requires InRange(e)
    decreases n
  {
    if n == 0 then e else Backspaces(BackspaceKey(e).0, n - 1)
  }

  lemma BackspaceUndoesLast(e: Editor, front: seq<byte>, last: byte)
    requires InRange(e)
    ensures BackspaceKey(InsertBytes(e, front + [last]).0).0 == InsertBytes(e, front).0
  {
    hide Left;
    var before, after, bytes := e.line[..e.cursor], e.line[e.cursor..], front + [last];
    if after == [] {
      assert (e.line + bytes)[..|e.line| + |front|] == e.line + front;
    } else {
      assert (before + bytes + after)[..e.cursor + |front|] == before + front;
      assert (before + bytes + after)[e.cursor + |bytes|..] == after;
    }
  }

  /** As many backspaces as bytes were inserted restore the editor, wherever the cursor was. */
  lemma {:induction false} BackspacesUndoInsert(e: Editor, bytes: seq<byte>)
    requires InRange(e)
    ensures InRange(InsertBytes(e, bytes).0) && Backspaces(InsertBytes(e, bytes).0, |bytes|) == e
    decreases |bytes|
  {
    hide Left, Right;
    if bytes == [] {
      InsertedNothing(e);
    } else {
      var front := bytes[..|bytes| - 1];
      assert bytes == front + [bytes[|bytes| - 1]];
      BackspaceUndoesLast(e, front, bytes[|bytes| - 1]);
      hide BackspaceKey;
      BackspacesUndoInsert(e, front);
    }
  }

  lemma InsertedNothing(e: Editor)
    requires InRange(e)
    ensures InsertBytes(e, []).0 == e
  {
    hide Left;
    assert e.line[..e.cursor] + [] + e.line[e.cursor..] == e.line && e.line + [] == e.line;
  }

  function Ups(e: Editor, n: nat): (r: Editor)
    requires InRange(e)
    ensures InRange(r)
  {
    if n == 0 then e else PreviousInHistory(Ups(e, n - 1)).0
  }

  function Downs(e: Editor, n: nat): (r: Editor)
    requires InRange(e)
    ensures InRange(r)
  {
    if n == 0 then e else NextInHistory(Downs(e, n - 1)).0
  }

  /** From a new line, n steps up show the n-th newest entry, and n steps down from there the empty line. */
  lemma {:induction false} HistoryWalk(e: Editor, n: nat)
    requires InRange(e) && e.historyPos == |e.history| && n <= |e.history|
    ensures var up := Ups(e, n);
            && up.history == e.history && up.historyPos == |e.history| - n
            && (n > 0 ==> up.line == e.history[|e.history| - n] && up.cursor == |up.line|)
  {
    hide Left, Right;
    if n > 0 {
      HistoryWalk(e, n - 1);
    }
  }

  lemma {:induction false} HistoryReturns(e: Editor, n: nat, k: nat)
    requires InRange(e) && e.historyPos == |e.history| && k <= n <= |e.history| && n > 0
    ensures var back := Downs(Ups(e, n), k);
            && back.history == e.history && back.historyPos == |e.history| - n + k
            && back.cursor == |back.line|
            && back.line == if k == n then [] else e.history[|e.history| - n + k]
    decreases k
  {
    hide Left, Right, Ups;
    HistoryWalk(e, n);
    if k > 0 {
      HistoryReturns(e, n, k - 1);
    }
  }

  /** The line entered last is the first that the history shows. */
  lemma EnteredIsRecalled(e: Editor)
    ensures var e' := Entered(e).0;
            && InRange(e') && e'.line == [] && e'.cursor == 0 && |e'.history| == |e.history| + 1
            && PreviousInHistory(e').0.line == e.line
  {
  }

  // The screen

  ghost predicate AllLinesPrintable(e: Editor) {
    AllPrintable(e.line) && forall i :: 0 <= i < |e.history| ==> AllPrintable(e.history[i])
  }

  lemma FeedThree(t: Term, a: seq<byte>, b: seq<byte>, c: seq<byte>)
    ensures FeedAll(t, a + b + c) == FeedAll(FeedAll(FeedAll(t, a), b), c)
  {
    FeedSplits(t, a + b, c);
    FeedSplits(t, a, b);
  }

  lemma RefreshShows(t: Term, pre: seq<byte>, e: Editor, e': Editor)
    requires Shows(t, pre, e.line, e.cursor) && e.cursor <= |e.line| && e'.cursor <= |e'.line| && AllPrintable(e'.line)
    ensures Shows(FeedAll(t, Refreshed(e, e').1), pre, e'.line, e'.cursor)
  {
    var n := Max(|e.line|, |e'.line|);
    var text := e'.line + Blanks(n - |e'.line|);
    FeedThree(t, Left(e.cursor), text, Left(n - e'.cursor));
    FeedLeft(t, e.cursor);
    var t1 := t.(col := |pre|);
    var t2 := FeedAll(t1, text);
    FeedText(t1, text);
    FeedLeft(t2, n - e'.cursor);
    var t3 := t2.(col := |pre| + e'.cursor);
    assert FeedAll(t, Left(e.cursor)) == t1 && FeedAll(t2, Left(n - e'.cursor)) == t3;
    assert FeedAll(t, Refreshed(e, e').1) == t3;
    hide FeedAll, Left, Refreshed;
    forall k: nat ensures ShowsCell(t3, pre + e'.line, k) {
      assert ShowsCell(t, pre + e.line, k);
    }
  }

  lemma InsertShows(t: Term, pre: seq<byte>, e: Editor, bytes: seq<byte>)
    requires Shows(t, pre, e.line, e.cursor) && InRange(e) && AllPrintable(e.line) && AllPrintable(bytes)
    ensures var (e', out) := InsertBytes(e, bytes); Shows(FeedAll(t, out), pre, e'.line, e'.cursor)
  {
    if e.cursor == |e.line| {
      FeedText(t, bytes);
      hide FeedAll;
      forall k: nat ensures ShowsCell(FeedAll(t, bytes), pre + (e.line + bytes), k) {
        assert ShowsCell(t, pre + e.line, k);
      }
    } else {
      RefreshShows(t, pre, e, InsertBytes(e, bytes).0);
    }
  }

  lemma BackspaceShows(t: Term, pre: seq<byte>, e: Editor)
    requires Shows(t, pre, e.line, e.cursor) && InRange(e) && AllPrintable(e.line)
    ensures var (e', out) := BackspaceKey(e); Shows(FeedAll(t, out), pre, e'.line, e'.cursor)
  {
    if e.cursor == 0 {
    } else if e.cursor == |e.line| {
      FeedThree(t, Left(1), [BLANK], Left(1));
      FeedLeft(t, 1);
      var t1 := t.(col := t.col - 1);
      FeedText(t1, [BLANK]);
      var t2 := FeedAll(t1, [BLANK]);
      FeedLeft(t2, 1);
      hide FeedAll, Left;
      var t3, text := t2.(col := t2.col - 1), pre + e.line[..|e.line| - 1];
      forall k: nat ensures ShowsCell(t3, text, k) {
        assert ShowsCell(t, pre + e.line, k);
      }
    } else {
      RefreshShows(t, pre, e, BackspaceKey(e).0);
    }
  }

  lemma CursorShows(t: Term, pre: seq<byte>, e: Editor, n: nat)
    requires Shows(t, pre, e.line, e.cursor) && InRange(e)
    ensures var (e', out) := AdvanceCursor(e, n); Shows(FeedAll(t, out), pre, e'.line, e'.cursor)
    ensures var (e', out) := RetractCursor(e, n); Shows(FeedAll(t, out), pre, e'.line, e'.cursor)
  {
    var right, left := Min(n, |e.line| - e.cursor), Min(n, e.cursor);
    FeedRight(t, right);
    FeedLeft(t, left);
    hide FeedAll, Left, Right;
    var t1, t2, text := t.(col := t.col + right), t.(col := t.col - left), pre + e.line;
    forall k: nat ensures ShowsCell(t1, text, k) && ShowsCell(t2, text, k) {
      assert ShowsCell(t, pre + e.line, k);
    }
  }

  lemma HistoryShows(t: Term, pre: seq<byte>, e: Editor)
    requires Shows(t, pre, e.line, e.cursor) && InRange(e) && AllLinesPrintable(e)
    ensures var (e', out) := PreviousInHistory(e); Shows(FeedAll(t, out), pre, e'.line, e'.cursor)
    ensures var (e', out) := NextInHistory(e); Shows(FeedAll(t, out), pre, e'.line, e'.cursor)
  {
    if e.historyPos > 0 && |e.history| > 0 {
      RefreshShows(t, pre, e, PreviousInHistory(e).0);
    }
    if e.historyPos < |e.history| {
      RefreshShows(t, pre, e, NextInHistory(e).0);
    }
  }

  lemma NewLineTidy(t: Term)
    requires t.mode == Ground
    ensures Tidy(FeedAll(t, NEW_LINE)) && RowUpTo(FeedAll(t, NEW_LINE).row, FeedAll(t, NEW_LINE).col) == []
  {
    FeedNewLine(t);
  }

  lemma InterruptShows(t: Term, e: Editor, prompt: seq<byte>)
    requires t.mode == Ground && AllPrintable(prompt)
    ensures Shows(FeedAll(t, InterruptLine(e, prompt).1), prompt, [], 0)
  {
    FeedSplits(t, NEW_LINE, prompt);
    NewLineTidy(t);
    PromptShown(FeedAll(t, NEW_LINE), prompt);
    assert [] + prompt == prompt;
  }

  predicate PrintableToken(token: I.Token) {
    token.Bytes? ==> AllPrintable(token.bytes)
  }

  /** The terminal shows some row that ends with the prompt, then the line, then blanks, with the
      cursor at its place in the line. */
  ghost predicate ShowsLine(t: Term, prompt: seq<byte>, e: Editor) {
    exists before: seq<byte> :: Shows(t, before + prompt, e.line, e.cursor)
  }

  lemma KeyShows(t: Term, e: Editor, prompt: seq<byte>, token: I.Token)
    requires InRange(e) && AllLinesPrintable(e) && AllPrintable(prompt) && ShowsLine(t, prompt, e)
    requires !token.Enter? && PrintableToken(token)
    ensures var (e', out) := Key(e, prompt, token);
            ShowsLine(FeedAll(t, out), prompt, e') && AllLinesPrintable(e')
  {
    var before: seq<byte> :| Shows(t, before + prompt, e.line, e.cursor);
    var pre := before + prompt;
    var (e', out) := Key(e, prompt, token);
    hide Shows, FeedAll, Refreshed, Left, Right;
    match token {
      case Bytes(bytes) => InsertShows(t, pre, e, bytes);
      case UpArrow => HistoryShows(t, pre, e);
      case LeftArrow => CursorShows(t, pre, e, 1);
      case RightArrow => CursorShows(t, pre, e, 1);
      case DownArrow => HistoryShows(t, pre, e);
      case Backspace => BackspaceShows(t, pre, e);
      case ControlC =>
        assert t.mode == Ground by { ShownGround(t, pre, e); }
        InterruptShows(t, e, prompt);
        assert [] + prompt == prompt;
        assert Shows(FeedAll(t, out), [] + prompt, e'.line, e'.cursor);
    }
    KeyPrintable(e, prompt, token);
  }

  lemma ShownGround(t: Term, pre: seq<byte>, e: Editor)
    requires Shows(t, pre, e.line, e.cursor)
    ensures t.mode == Ground
  {
  }

  lemma KeyPrintable(e: Editor, prompt: seq<byte>, token: I.Token)
    requires InRange(e) && AllLinesPrintable(e) && !token.Enter? && PrintableToken(token)
    ensures AllLinesPrintable(Key(e, prompt, token).0)
  {
    hide Left, Right;
  }

  // Through the line ending conversion

  predicate NoLf(s: seq<byte>) {
    forall i :: 0 <= i < |s| ==> s[i] != LF
  }

  lemma {:induction false} NoLfUnchanged(prev: byte, s: seq<byte>)
    requires NoLf(s)
    ensures L.Convert(prev, s) == s
    decreases s
  {
    if s != [] {
      assert NoLf(s[1..]);
      NoLfUnchanged(s[0], s[1..]);
    }
  }

  lemma {:induction false} ArrowsNoLf(n: nat)
    ensures NoLf(Left(n)) && NoLf(Right(n))
    decreases n
  {
    if n > 0 {
      ArrowsNoLf(n - 1);
      assert Left(n) == I.ToBytes(I.LeftArrow) + Left(n - 1) && Right(n) == I.ToBytes(I.RightArrow) + Right(n - 1);
    }
  }

  lemma RefreshNoLf(e: Editor, e': Editor)
    requires e'.cursor <= |e'.line| && AllPrintable(e'.line)
    ensures NoLf(Refreshed(e, e').1)
  {
    ArrowsNoLf(e.cursor);
    ArrowsNoLf(Max(|e.line|, |e'.line|) - e'.cursor);
    hide Left;
  }

  lemma NewLineUnchanged(prev: byte, s: seq<byte>)
    requires NoLf(s)
    ensures L.Convert(prev, NEW_LINE + s) == NEW_LINE + s
  {
    L.ConvertSplits(prev, NEW_LINE, s);
    assert NEW_LINE[1..] == [10] && NEW_LINE[1..][1..] == [];
    assert L.Convert(prev, NEW_LINE) == [13] + ([10] + L.Convert(10, []));
    NoLfUnchanged(10, s);
  }

  /** What the editor prints passes the conversion unchanged. */
  lemma KeyUnchanged(e: Editor, prompt: seq<byte>, token: I.Token, prev: byte)
    requires InRange(e) && AllLinesPrintable(e) && AllPrintable(prompt) && !token.Enter? && PrintableToken(token)
    ensures L.Convert(prev, Key(e, prompt, token).1) == Key(e, prompt, token).1
  {
    KeyPrintable(e, prompt, token);
    ArrowsNoLf(1);
    ArrowsNoLf(0);
    var (e', out) := Key(e, prompt, token);
    if token.ControlC? {
      NewLineUnchanged(prev, prompt);
    } else {
      assert NoLf(out) by {
        RefreshNoLf(e, e');
        hide Left, Right, L.Convert;
        assert out == Refreshed(e, e').1 || NoLf(out);
      }
      NoLfUnchanged(prev, out);
    }
  }

  // Sessions

  datatype Event =
    | Typed(token: I.Token)
    | Ran(output: seq<byte>, prompt: seq<byte>) // Enter, then what the command printed and the next prompt

  datatype Session = Session(e: Editor, prompt: seq<byte>)

  predicate EventOk(ev: Event) {
    match ev
    case Typed(token) => !token.Enter? && PrintableToken(token)
    case Ran(_, prompt) => AllPrintable(prompt)
  }

  function Happen(s: Session, ev: Event): (Session, seq<byte>)
    requires InRange(s.e) && EventOk(ev)
  {
    match ev
    case Typed(token) => var (e', out) := Key(s.e, s.prompt, token); (Session(e', s.prompt), out)
    case Ran(output, prompt) => (Session(Entered(s.e).0, prompt), Entered(s.e).1 + output + prompt)
  }

  function Play(s: Session, events: seq<Event>): (Session, seq<byte>)
    requires InRange(s.e) && forall i :: 0 <= i < |events| ==> EventOk(events[i])
    decreases events
  {
    if events == [] then (s, []) else
    var (s', out) := Happen(s, events[0]);
    HappenInRange(s, events[0]);
    var (s'', rest) := Play(s', events[1..]);
    (s'', out + rest)
  }

  lemma HappenInRange(s: Session, ev: Event)
    requires InRange(s.e) && EventOk(ev)
    ensures InRange(Happen(s, ev).0.e)
  {
    if ev.Typed? {
      KeyInRange(s.e, s.prompt, ev.token);
    }
  }

  /** Every command leaves nothing on the row at or after the cursor. */
  ghost predicate CommandsTidy(t: Term, prev: byte, s: Session, events: seq<Event>)
    requires InRange(s.e) && forall i :: 0 <= i < |events| ==> EventOk(events[i])
    decreases events
  {
    events == [] ||
    var (s', out) := Happen(s, events[0]);
    HappenInRange(s, events[0]);
    && (events[0].Ran? ==> Tidy(FeedAll(t, L.Convert(prev, NEW_LINE + events[0].output))))
    && CommandsTidy(FeedAll(t, L.Convert(prev, out)), L.LastByte(prev, out), s', events[1..])
  }

  lemma RanShows(t: Term, prev: byte, e: Editor, output: seq<byte>, prompt: seq<byte>)
    requires InRange(e) && AllLinesPrintable(e) && AllPrintable(prompt)
    requires Tidy(FeedAll(t, L.Convert(prev, NEW_LINE + output)))
    ensures ShowsLine(FeedAll(t, L.Convert(prev, NEW_LINE + output + prompt)), prompt, Entered(e).0)
    ensures AllLinesPrintable(Entered(e).0)
  {
    var out := NEW_LINE + output;
    L.ConvertSplits(prev, out, prompt);
    NoLfUnchanged(L.LastByte(prev, out), prompt);
    FeedSplits(t, L.Convert(prev, out), prompt);
    PromptShown(FeedAll(t, L.Convert(prev, out)), prompt);
  }

  lemma HappenShows(t: Term, prev: byte, s: Session, ev: Event)
    requires InRange(s.e) && AllLinesPrintable(s.e) && AllPrintable(s.prompt) && EventOk(ev)
    requires ShowsLine(t, s.prompt, s.e)
    requires ev.Ran? ==> Tidy(FeedAll(t, L.Convert(prev, NEW_LINE + ev.output)))
    ensures var (s', out) := Happen(s, ev);
            && ShowsLine(FeedAll(t, L.Convert(prev, out)), s'.prompt, s'.e)
            && AllLinesPrintable(s'.e) && AllPrintable(s'.prompt)
  {
    match ev
    case Typed(token) =>
      KeyUnchanged(s.e, s.prompt, token, prev);
      KeyShows(t, s.e, s.prompt, token);
    case Ran(output, prompt) => RanShows(t, prev, s.e, output, prompt);
  }

  /** After any printable session, however its output was cut and converted on the way, the terminal
      shows the line being edited and its cursor. */
  lemma {:induction false} SessionShows(t: Term, prev: byte, s: Session, events: seq<Event>)
    requires InRange(s.e) && AllLinesPrintable(s.e) && AllPrintable(s.prompt) && ShowsLine(t, s.prompt, s.e)
    requires (forall i :: 0 <= i < |events| ==> EventOk(events[i])) && CommandsTidy(t, prev, s, events)
    ensures var (s', out) := Play(s, events);
            InRange(s'.e) && ShowsLine(FeedAll(t, L.Convert(prev, out)), s'.prompt, s'.e)
    decreases events
  {
    hide ShowsLine, Happen, Tidy, FeedAll, AllLinesPrintable, AllPrintable, L.Convert, L.LastByte;
    if events == [] {
      NothingFed(t, prev);
    } else {
      var (s', out) := Happen(s, events[0]);
      HappenInRange(s, events[0]);
      HappenShows(t, prev, s, events[0]);
      var t', prev', rest := FeedAll(t, L.Convert(prev, out)), L.LastByte(prev, out), Play(s', events[1..]).1;
      SessionShows(t', prev', s', events[1..]);
      L.ConvertSplits(prev, out, rest);
      FeedSplits(t, L.Convert(prev, out), L.Convert(prev', rest));
    }
  }

  lemma NothingFed(t: Term, prev: byte)
    ensures FeedAll(t, L.Convert(prev, [])) == t
  {
  }

  /** A session starts on a tidy terminal, with the first prompt. */
  lemma StartShows(t: Term, prev: byte, prompt: seq<byte>)
    requires Tidy(t) && AllPrintable(prompt)
    ensures ShowsLine(FeedAll(t, L.Convert(prev, prompt)), prompt, Editor([], 0, [], 0))
  {
    NoLfUnchanged(prev, prompt);
    PromptShown(t, prompt);
  }
}
