/**
 What the keys of the line editor do, whatever it prints (tunshell-client/src/shell/server/fallback/
 interpreter.rs): a reference that keeps the text before and after the cursor, and laws about what is
 typed.
 */
module EditorLaws {
  import opened Wrappers
  import opened Editor
  import opened Terminal
  import I = InputStreams

  // The text on both sides of the cursor, and the history entry shown last
  datatype Buffer = Buffer(before: seq<byte>, after: seq<byte>, history: seq<seq<byte>>, shown: nat)
  {
    function Line(): seq<byte> { before + after }
  }

  function Split(e: Editor): Buffer
    requires InRange(e)
  {
    Buffer(e.line[..e.cursor], e.line[e.cursor..], e.history, e.historyPos)
  }

  function Typed(b: Buffer, token: I.Token): Buffer
    requires b.shown <= |b.history| && !token.Enter?
  {
    match token
    case Bytes(bytes) => b.(before := b.before + bytes)
    case LeftArrow =>
      if b.before == [] then b
      else b.(before := b.before[..|b.before| - 1], after := [b.before[|b.before| - 1]] + b.after)
    case RightArrow => if b.after == [] then b else b.(before := b.before + [b.after[0]], after := b.after[1..])
    case Backspace => if b.before == [] then b else b.(before := b.before[..|b.before| - 1])
    case ControlC => b.(before := [], after := [])
    case UpArrow =>
      if b.shown == 0 then b else b.(before := b.history[b.shown - 1], after := [], shown := b.shown - 1)
    case DownArrow =>
      if b.shown == |b.history| then b
      else
        var line := if b.shown + 1 == |b.history| then [] else b.history[b.shown + 1];
        b.(before := line, after := [], shown := b.shown + 1)
  }

  function TypedAll(b: Buffer, tokens: seq<I.Token>): (r: Buffer)
    requires b.shown <= |b.history| && forall i :: 0 <= i < |tokens| ==> !tokens[i].Enter?
    ensures r.shown <= |r.history|
    decreases |tokens|
  {
    if tokens == [] then b else Typed(TypedAll(b, tokens[..|tokens| - 1]), tokens[|tokens| - 1])
  }

  lemma BytesRefine(e: Editor, bytes: seq<byte>)
    requires InRange(e)
    ensures Split(InsertBytes(e, bytes).0) == Typed(Split(e), I.Bytes(bytes))
  {
    hide Left, Right, Blanks;
    EndsOfLine(e);
    var e' := InsertBytes(e, bytes).0;
    assert e'.line[..e'.cursor] == e.line[..e.cursor] + bytes && e'.line[e'.cursor..] == e.line[e.cursor..];
  }

  lemma ArrowsRefine(e: Editor)
    requires InRange(e)
    ensures Split(RetractCursor(e, 1).0) == Typed(Split(e), I.LeftArrow)
    ensures Split(AdvanceCursor(e, 1).0) == Typed(Split(e), I.RightArrow)
  {
    hide Left, Right, Blanks;
    if e.cursor > 0 {
      assert e.line[..e.cursor][..e.cursor - 1] == e.line[..e.cursor - 1];
      assert e.line[e.cursor - 1..] == [e.line[e.cursor - 1]] + e.line[e.cursor..];
    }
    if e.cursor < |e.line| {
      assert e.line[..e.cursor + 1] == e.line[..e.cursor] + [e.line[e.cursor]];
      assert e.line[e.cursor..][1..] == e.line[e.cursor + 1..];
    }
  }

  lemma BackspaceRefines(e: Editor)
    requires InRange(e)
    ensures Split(BackspaceKey(e).0) == Typed(Split(e), I.Backspace)
  {
    hide Left, Right, Blanks;
    var e' := BackspaceKey(e).0;
    if e.cursor > 0 {
      assert e'.line[..e'.cursor] == e.line[..e.cursor][..e.cursor - 1];
      assert e'.line[e'.cursor..] == e.line[e.cursor..];
    }
  }

  lemma HistoryRefines(e: Editor)
    requires InRange(e)
    ensures Split(PreviousInHistory(e).0) == Typed(Split(e), I.UpArrow)
    ensures Split(NextInHistory(e).0) == Typed(Split(e), I.DownArrow)
  {
    hide Left, Right, Blanks;
    EndsOfLine(PreviousInHistory(e).0);
    EndsOfLine(NextInHistory(e).0);
  }

  /** Every key edits the line as the reference does. */
  lemma KeyRefines(e: Editor, prompt: seq<byte>, token: I.Token)
    requires InRange(e) && !token.Enter?
    ensures InRange(Key(e, prompt, token).0) && Split(Key(e, prompt, token).0) == Typed(Split(e), token)
  {
    KeyInRange(e, prompt, token);
    match token
    case Bytes(bytes) => BytesRefine(e, bytes);
    case LeftArrow => ArrowsRefine(e);
    case RightArrow => ArrowsRefine(e);
    case Backspace => BackspaceRefines(e);
    case UpArrow => HistoryRefines(e);
    case DownArrow => HistoryRefines(e);
    case ControlC =>
      hide Split;
      InterruptRefines(e, prompt);
  }

  lemma InterruptRefines(e: Editor, prompt: seq<byte>)
    requires InRange(e)
    ensures Split(InterruptLine(e, prompt).0) == Typed(Split(e), I.ControlC)
  {
  }

  lemma EndsOfLine(e: Editor)
    requires InRange(e)
    ensures e.line[..e.cursor] + e.line[e.cursor..] == e.line
    ensures e.cursor == |e.line| ==> e.line[..e.cursor] == e.line && e.line[e.cursor..] == []
  {
  }

  /** Any keys edit the line as the reference does. */
  lemma {:induction false} KeysRefine(e: Editor, prompt: seq<byte>, tokens: seq<I.Token>)
    requires InRange(e) && forall i :: 0 <= i < |tokens| ==> !tokens[i].Enter?
    ensures InRange(Keys(e, prompt, tokens).0)
    ensures Split(Keys(e, prompt, tokens).0) == TypedAll(Split(e), tokens)
    ensures Keys(e, prompt, tokens).0.line == TypedAll(Split(e), tokens).Line()
    decreases |tokens|
  {
    hide Key, Typed;
    if tokens != [] {
      var front := tokens[..|tokens| - 1];
      KeysRefine(e, prompt, front);
      KeyRefines(Keys(e, prompt, front).0, prompt, tokens[|tokens| - 1]);
    }
    EndsOfLine(Keys(e, prompt, tokens).0);
  }

  // What is typed

  function Many(token: I.Token, n: nat): (r: seq<I.Token>)
    ensures |r| == n && forall i :: 0 <= i < n ==> r[i] == token
  {
    seq(n, _ => token)
  }

  lemma NoKeys(e: Editor, prompt: seq<byte>)
    requires InRange(e)
    ensures Keys(e, prompt, []).0 == e
  {
  }

  lemma OneMore(e: Editor, prompt: seq<byte>, tokens: seq<I.Token>, token: I.Token)
    requires InRange(e) && !token.Enter? && forall i :: 0 <= i < |tokens| ==> !tokens[i].Enter?
    ensures InRange(Keys(e, prompt, tokens).0)
    ensures Keys(e, prompt, tokens + [token]).0 == Key(Keys(e, prompt, tokens).0, prompt, token).0
  {
    KeysInRange(e, prompt, tokens);
    assert (tokens + [token])[..|tokens|] == tokens;
    hide Key;
  }

  function LeftBy(e: Editor, n: nat): Editor { e.(cursor := if n <= e.cursor then e.cursor - n else 0) }

  function RightBy(e: Editor, n: nat): Editor
    requires InRange(e)
  {
    e.(cursor := if n <= |e.line| - e.cursor then e.cursor + n else |e.line|)
  }

  lemma OneStep(e: Editor, prompt: seq<byte>, n: nat)
    requires InRange(e) && n > 0
    ensures Key(LeftBy(e, n - 1), prompt, I.LeftArrow).0 == LeftBy(e, n)
    ensures Key(RightBy(e, n - 1), prompt, I.RightArrow).0 == RightBy(e, n)
  {
    hide Left, Right;
  }

  /** n times the left arrow goes n places to the left, and the right arrow to the right, but not past the
      ends of the line; nothing else changes. */
  lemma {:induction false} ArrowsMove(e: Editor, prompt: seq<byte>, n: nat)
    requires InRange(e)
    ensures Keys(e, prompt, Many(I.LeftArrow, n)).0 == e.(cursor := if n <= e.cursor then e.cursor - n else 0)
    ensures Keys(e, prompt, Many(I.RightArrow, n)).0 ==
              e.(cursor := if n <= |e.line| - e.cursor then e.cursor + n else |e.line|)
    decreases n
  {
    hide Key;
    if n > 0 {
      hide Keys;
      ArrowsMove(e, prompt, n - 1);
      assert Many(I.LeftArrow, n) == Many(I.LeftArrow, n - 1) + [I.LeftArrow];
      assert Many(I.RightArrow, n) == Many(I.RightArrow, n - 1) + [I.RightArrow];
      OneMore(e, prompt, Many(I.LeftArrow, n - 1), I.LeftArrow);
      OneMore(e, prompt, Many(I.RightArrow, n - 1), I.RightArrow);
      OneStep(e, prompt, n);
    }
  }

  /** Left and right undo each other away from the ends. */
  lemma ArrowsUndo(e: Editor, prompt: seq<byte>)
    requires InRange(e)
    ensures e.cursor > 0 ==> Keys(e, prompt, [I.LeftArrow, I.RightArrow]).0 == e
    ensures e.cursor < |e.line| ==> Keys(e, prompt, [I.RightArrow, I.LeftArrow]).0 == e
  {
    ArrowsMove(e, prompt, 1);
    assert Many(I.LeftArrow, 1) == [I.LeftArrow] && Many(I.RightArrow, 1) == [I.RightArrow];
    OneMore(e, prompt, [I.LeftArrow], I.RightArrow);
    OneMore(e, prompt, [I.RightArrow], I.LeftArrow);
    assert [I.LeftArrow] + [I.RightArrow] == [I.LeftArrow, I.RightArrow];
    assert [I.RightArrow] + [I.LeftArrow] == [I.RightArrow, I.LeftArrow];
    hide Left, Right, Keys;
  }

  /** What is typed n places before the end of the line is put there, and the cursor goes behind it. */
  lemma TypedInside(e: Editor, prompt: seq<byte>, n: nat, bytes: seq<byte>)
    requires InRange(e) && e.cursor == |e.line| && n <= |e.line|
    ensures Keys(e, prompt, Many(I.LeftArrow, n) + [I.Bytes(bytes)]).0 ==
              e.(line := e.line[..|e.line| - n] + bytes + e.line[|e.line| - n..], cursor := |e.line| - n + |bytes|)
  {
    ArrowsMove(e, prompt, n);
    OneMore(e, prompt, Many(I.LeftArrow, n), I.Bytes(bytes));
    var m := |e.line| - n;
    assert n == 0 ==> e.line[..m] + bytes + e.line[m..] == e.line + bytes;
    hide Left, Keys;
  }

  function Without(e: Editor, n: nat): Editor
    requires InRange(e) && n <= e.cursor
  {
    e.(line := e.line[..e.cursor - n] + e.line[e.cursor..], cursor := e.cursor - n)
  }

  lemma OneTaken(e: Editor, prompt: seq<byte>, n: nat)
    requires InRange(e) && 0 < n <= e.cursor
    ensures Key(Without(e, n - 1), prompt, I.Backspace).0 == Without(e, n)
  {
    hide Left, Blanks;
    var line := e.line[..e.cursor - n + 1] + e.line[e.cursor..];
    assert line[..e.cursor - n] + line[e.cursor - n + 1..] == e.line[..e.cursor - n] + e.line[e.cursor..];
    assert e.cursor == |e.line| ==> line[..|line| - 1] == e.line[..e.cursor - n] + e.line[e.cursor..];
  }

  /** n backspaces take away the n bytes before the cursor. */
  lemma {:induction false} BackspacesTake(e: Editor, prompt: seq<byte>, n: nat)
    requires InRange(e) && n <= e.cursor
    ensures Keys(e, prompt, Many(I.Backspace, n)).0 ==
              e.(line := e.line[..e.cursor - n] + e.line[e.cursor..], cursor := e.cursor - n)
    decreases n
  {
    hide Key;
    EndsOfLine(e);
    if n > 0 {
      hide Keys;
      BackspacesTake(e, prompt, n - 1);
      assert Many(I.Backspace, n) == Many(I.Backspace, n - 1) + [I.Backspace];
      OneMore(e, prompt, Many(I.Backspace, n - 1), I.Backspace);
      OneTaken(e, prompt, n);
    }
  }

  /** An interrupt empties the line; history and the place in it stay. */
  lemma InterruptEmpties(e: Editor, prompt: seq<byte>)
    requires InRange(e)
    ensures Keys(e, prompt, [I.ControlC]).0 == e.(line := [], cursor := 0)
  {
    OneMore(e, prompt, [], I.ControlC);
    assert [] + [I.ControlC] == [I.ControlC];
  }

  // At the entry n places before the end of the history, or on the new line after it
  predicate Shown(e: Editor, n: nat, r: Editor) {
    && n <= |e.history| && r.history == e.history && r.historyPos == |e.history| - n && r.cursor == |r.line|
    && (n > 0 ==> r.line == e.history[|e.history| - n])
  }

  lemma OneUp(e: Editor, n: nat, r: Editor, prompt: seq<byte>)
    requires r.history == e.history && r.historyPos == |e.history| - n && n < |e.history| && r.cursor <= |r.line|
    ensures Shown(e, n + 1, Key(r, prompt, I.UpArrow).0)
  {
    hide Left, Blanks;
  }

  lemma OneDown(e: Editor, n: nat, r: Editor, prompt: seq<byte>)
    requires Shown(e, n + 1, r)
    ensures Shown(e, n, Key(r, prompt, I.DownArrow).0)
    ensures n == 0 ==> Key(r, prompt, I.DownArrow).0.line == []
  {
    hide Left, Blanks;
  }

  lemma {:induction false} Ups(e: Editor, prompt: seq<byte>, n: nat)
    requires InRange(e) && e.historyPos == |e.history| && 0 < n <= |e.history|
    ensures Shown(e, n, Keys(e, prompt, Many(I.UpArrow, n)).0)
    decreases n
  {
    hide Key, Keys;
    assert Many(I.UpArrow, n) == Many(I.UpArrow, n - 1) + [I.UpArrow];
    OneMore(e, prompt, Many(I.UpArrow, n - 1), I.UpArrow);
    if n > 1 {
      Ups(e, prompt, n - 1);
    } else {
      NoKeys(e, prompt);
      assert Many(I.UpArrow, 0) == [];
    }
    OneUp(e, n - 1, Keys(e, prompt, Many(I.UpArrow, n - 1)).0, prompt);
  }

  /** From a new line, n times up shows the n-th newest entry, and k times down from there goes back k
      entries, to the empty line after the newest. */
  lemma {:induction false} UpsAndDowns(e: Editor, prompt: seq<byte>, n: nat, k: nat)
    requires InRange(e) && e.historyPos == |e.history| && k <= n <= |e.history| && n > 0
    ensures var r := Keys(e, prompt, Many(I.UpArrow, n) + Many(I.DownArrow, k)).0;
            && r.history == e.history && r.historyPos == |e.history| - n + k && r.cursor == |r.line|
            && r.line == if k == n then [] else e.history[|e.history| - n + k]
    decreases k
  {
    hide Key, Keys;
    var ups := Many(I.UpArrow, n);
    if k > 0 {
      UpsAndDowns(e, prompt, n, k - 1);
      assert ups + Many(I.DownArrow, k) == ups + Many(I.DownArrow, k - 1) + [I.DownArrow];
      OneMore(e, prompt, ups + Many(I.DownArrow, k - 1), I.DownArrow);
      OneDown(e, n - k, Keys(e, prompt, ups + Many(I.DownArrow, k - 1)).0, prompt);
    } else {
      assert ups + Many(I.DownArrow, 0) == ups;
      Ups(e, prompt, n);
    }
  }

  // Lines entered one after the other

  function EnterAll(e: Editor, prompt: seq<byte>, lines: seq<seq<byte>>): (r: Editor)
    requires InRange(e)
    ensures InRange(r)
    decreases |lines|
  {
    if lines == [] then e else
    var n := |lines| - 1;
    var before := EnterAll(e, prompt, lines[..n]);
    KeysInRange(before, prompt, [I.Bytes(lines[n])]);
    Entered(Keys(before, prompt, [I.Bytes(lines[n])]).0).0
  }

  /** All lines entered are in the history, in order and repeated ones too, and a new line follows them. */
  lemma {:induction false} LinesAreKept(prompt: seq<byte>, lines: seq<seq<byte>>)
    ensures EnterAll(Editor([], 0, [], 0), prompt, lines) == Editor([], 0, lines, |lines|)
    decreases |lines|
  {
    if lines != [] {
      var n := |lines| - 1;
      var before := Editor([], 0, lines[..n], n);
      LinesAreKept(prompt, lines[..n]);
      OneMore(before, prompt, [], I.Bytes(lines[n]));
      assert [] + [I.Bytes(lines[n])] == [I.Bytes(lines[n])] && [] + lines[n] == lines[n];
      assert lines == lines[..n] + [lines[n]];
    }
  }

  /** n times up after entering lines shows the n-th newest of them. */
  lemma LinesAreRecalled(prompt: seq<byte>, lines: seq<seq<byte>>, n: nat)
    requires 0 < n <= |lines|
    ensures Keys(EnterAll(Editor([], 0, [], 0), prompt, lines), prompt, Many(I.UpArrow, n)).0.line == lines[|lines| - n]
  {
    LinesAreKept(prompt, lines);
    hide Keys;
    Ups(Editor([], 0, lines, |lines|), prompt, n);
  }
}
