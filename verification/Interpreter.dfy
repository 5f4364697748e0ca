/**
 The fallback shell's interpreter as the program has it
 (tunshell-client/src/shell/server/fallback/interpreter.rs): an object that edits its line in place
 and writes to the output stream. Every method is proved to do what `Editor` says.
 */
module Interpreters {
  import opened Wrappers
  import opened Terminal
  import E = Editor
  import EL = EditorLaws
  import I = InputStreams
  import L = LineEndings

  datatype ReadError = OutputClosed | InputEnded | NotUtf8

  class Interpreter {
    const output: L.OutputStream
    var lineBuff: seq<byte>
    var history: seq<seq<byte>>
    var cursorPos: nat
    var historyPos: nat

    ghost function View(): E.Editor
      reads this
    {
      E.Editor(lineBuff, cursorPos, history, historyPos)
    }

    ghost predicate Valid()
      reads this, output, output.inner
    {
      output.Valid() && E.InRange(View())
    }

    /** The edit was made, and its bytes follow what was written before. */
    ghost predicate Did(edit: E.Edit, before: seq<byte>)
      reads this, output
    {
      View() == edit.0 && output.input == before + edit.1
    }

    /** Only a closed output refuses an edit, and only when there is something to print. */
    ghost function Answer(edit: E.Edit): Result<(), ReadError>
      reads this, output, output.inner
    {
      if output.inner.shutdown && edit.1 != [] then Err(OutputClosed) else Ok(())
    }

    constructor (output: L.OutputStream)
      requires output.Valid()
      ensures Valid() && this.output == output && View() == E.Editor([], 0, [], 0)
    {
      this.output := output;
      lineBuff, history, cursorPos, historyPos := [], [], 0, 0;
    }

    method WriteAll(bytes: seq<byte>) returns (r: Result<(), ReadError>)
      requires output.Valid()
      modifies output`lastByte, output`input, output.inner`buff, output.inner`wrote
      ensures output.Valid()
      ensures r.Ok? ==> output.input == old(output.input) + bytes
      ensures r == if output.inner.shutdown && bytes != [] then Err(OutputClosed) else Ok(())
    {
      var w := output.Write(bytes);
      return if w.Ok? then Ok(()) else Err(OutputClosed);
    }

    /** The new line, cursor and history position are what the program's callback puts in place. */
    method RefreshLine(line: seq<byte>, cursor: nat, at: nat) returns (r: Result<(), ReadError>)
      requires Valid() && cursor <= |line| && at <= |history|
      modifies this`lineBuff, this`cursorPos, this`historyPos
      modifies output`lastByte, output`input, output.inner`buff, output.inner`wrote
      ensures Valid()
      ensures var e := old(View());
              && r == Answer(E.Refreshed(e, E.Editor(line, cursor, e.history, at)))
              && (r.Ok? ==> Did(E.Refreshed(e, E.Editor(line, cursor, e.history, at)), old(output.input)))
    {
      var originalLen, originalPos := |lineBuff|, cursorPos;
      ghost var before := output.input;
      lineBuff, cursorPos, historyPos := line, cursor, at;
      var refreshLen := E.Max(originalLen, |lineBuff|);
      var shown := lineBuff + Blanks(refreshLen - |lineBuff|);
      r := WriteAll(Left(originalPos));
      if r.Err? { return; }
      r := WriteAll(shown);
      if r.Err? { return; }
      r := WriteAll(Left(refreshLen - cursorPos));
      if r.Err? { return; }
      ThreeWrites(before, Left(originalPos), shown, Left(refreshLen - cursorPos));
    }

    method InsertBytes(bytes: seq<byte>) returns (r: Result<(), ReadError>)
      requires Valid()
      modifies this`lineBuff, this`cursorPos, this`historyPos
      modifies output`lastByte, output`input, output.inner`buff, output.inner`wrote
      ensures r == Answer(E.InsertBytes(old(View()), bytes))
      ensures r.Ok? ==> Valid() && Did(E.InsertBytes(old(View()), bytes), old(output.input))
    {
      if cursorPos == |lineBuff| {
        lineBuff := lineBuff + bytes;
        r := WriteAll(bytes);
        if r.Err? { return; }
        cursorPos := cursorPos + |bytes|;
      } else {
        r := RefreshLine(lineBuff[..cursorPos] + bytes + lineBuff[cursorPos..], cursorPos + |bytes|, historyPos);
      }
    }

    method AdvanceCursor(offset: nat) returns (r: Result<(), ReadError>)
      requires Valid()
      modifies this`cursorPos, output`lastByte, output`input, output.inner`buff, output.inner`wrote
      ensures r == Answer(E.AdvanceCursor(old(View()), offset))
      ensures r.Ok? ==> Valid() && Did(E.AdvanceCursor(old(View()), offset), old(output.input))
    {
      var advanceChars := E.Min(offset, |lineBuff| - cursorPos);
      r := WriteAll(Right(advanceChars));
      if r.Err? { return; }
      cursorPos := cursorPos + advanceChars;
    }

    method RetractCursor(offset: nat) returns (r: Result<(), ReadError>)
      requires Valid()
      modifies this`cursorPos, output`lastByte, output`input, output.inner`buff, output.inner`wrote
      ensures r == Answer(E.RetractCursor(old(View()), offset))
      ensures r.Ok? ==> Valid() && Did(E.RetractCursor(old(View()), offset), old(output.input))
    {
      var retractChars := E.Min(offset, cursorPos);
      r := WriteAll(Left(retractChars));
      if r.Err? { return; }
      cursorPos := cursorPos - retractChars;
    }

    method InterruptLine(prompt: seq<byte>) returns (r: Result<(), ReadError>)
      requires Valid()
      modifies this`lineBuff, this`cursorPos, output`lastByte, output`input, output.inner`buff, output.inner`wrote
      ensures r == Answer(E.InterruptLine(old(View()), prompt))
      ensures r.Ok? ==> Valid() && Did(E.InterruptLine(old(View()), prompt), old(output.input))
    {
      r := WriteAll(E.NEW_LINE);
      if r.Err? { return; }
      r := WriteAll(prompt);
      if r.Err? { return; }
      AppendAssociates(old(output.input), E.NEW_LINE, prompt);
      lineBuff := [];
      cursorPos := 0;
    }

    method Backspace() returns (r: Result<(), ReadError>)
      requires Valid()
      modifies this`lineBuff, this`cursorPos, this`historyPos
      modifies output`lastByte, output`input, output.inner`buff, output.inner`wrote
      ensures r == Answer(E.BackspaceKey(old(View())))
      ensures r.Ok? ==> Valid() && Did(E.BackspaceKey(old(View())), old(output.input))
    {
      if cursorPos == 0 {
        return Ok(());
      }
      if cursorPos == |lineBuff| {
        lineBuff := lineBuff[..|lineBuff| - 1];
        r := WriteAll(Left(1) + [BLANK] + Left(1));
        if r.Err? { return; }
        cursorPos := cursorPos - 1;
      } else {
        r := RefreshLine(lineBuff[..cursorPos - 1] + lineBuff[cursorPos..], cursorPos - 1, historyPos);
      }
    }

    method PreviousInHistory() returns (r: Result<(), ReadError>)
      requires Valid()
      modifies this`lineBuff, this`cursorPos, this`historyPos
      modifies output`lastByte, output`input, output.inner`buff, output.inner`wrote
      ensures r == Answer(E.PreviousInHistory(old(View())))
      ensures r.Ok? ==> Valid() && Did(E.PreviousInHistory(old(View())), old(output.input))
    {
      if historyPos == 0 || |history| == 0 {
        return Ok(());
      }
      var line := history[historyPos - 1];
      r := RefreshLine(line, |line|, historyPos - 1);
    }

    method NextInHistory() returns (r: Result<(), ReadError>)
      requires Valid()
      modifies this`lineBuff, this`cursorPos, this`historyPos
      modifies output`lastByte, output`input, output.inner`buff, output.inner`wrote
      ensures r == Answer(E.NextInHistory(old(View())))
      ensures r.Ok? ==> Valid() && Did(E.NextInHistory(old(View())), old(output.input))
    {
      if historyPos >= |history| {
        return Ok(());
      }
      var at := historyPos + 1;
      var line := if at == |history| then [] else history[at];
      r := RefreshLine(line, |line|, at);
    }

    /** One turn of the loop in `ReadLine`. */
    method HandleKey(token: I.Token, prompt: seq<byte>) returns (r: Result<(), ReadError>)
      requires Valid() && !token.Enter?
      modifies this`lineBuff, this`cursorPos, this`historyPos
      modifies output`lastByte, output`input, output.inner`buff, output.inner`wrote
      ensures r == Answer(E.Key(old(View()), prompt, token))
      ensures r.Ok? ==> Valid() && Did(E.Key(old(View()), prompt, token), old(output.input))
    {
      match token
      case Bytes(bytes) => r := InsertBytes(bytes);
      case UpArrow => r := PreviousInHistory();
      case LeftArrow => r := RetractCursor(1);
      case RightArrow => r := AdvanceCursor(1);
      case DownArrow => r := NextInHistory();
      case Backspace => r := Backspace();
      case ControlC => r := InterruptLine(prompt);
    }

    method HandleNewLine() returns (r: Result<seq<byte>, ReadError>)
      requires Valid()
      modifies this`lineBuff, output`lastByte, output`input, output.inner`buff, output.inner`wrote
      ensures r.Ok? ==> output.Valid() && r.value == old(lineBuff) && lineBuff == []
      ensures r.Ok? ==> output.input == old(output.input) + E.NEW_LINE
      ensures r.Err? <==> output.inner.shutdown
    {
      var w := WriteAll(E.NEW_LINE);
      if w.Err? { return Err(w.error); }
      var line := lineBuff;
      lineBuff := [];
      return Ok(line);
    }

    /** The end of `ReadLine`: the line is taken and becomes the newest history entry. */
    method FinishLine(utf8: seq<byte> -> bool) returns (r: Result<seq<byte>, ReadError>)
      requires Valid()
      modifies this, output`lastByte, output`input, output.inner`buff, output.inner`wrote
      ensures r == if output.inner.shutdown then Err(OutputClosed)
                   else if utf8(old(lineBuff)) then Ok(old(lineBuff)) else Err(NotUtf8)
      ensures r.Ok? ==> Valid() && Did(E.Entered(old(View())), old(output.input))
    {
      var line := HandleNewLine();
      if line.Err? {
        return Err(OutputClosed);
      }
      if !utf8(line.value) {
        return Err(NotUtf8);
      }
      history := history + [line.value];
      cursorPos := 0;
      historyPos := |history|;
      return Ok(line.value);
    }

    /** Reads tokens up to Enter; the tokens are those the input stream gives while it is open. */
    method ReadLine(tokens: seq<I.Token>, prompt: seq<byte>, utf8: seq<byte> -> bool)
      returns (r: Result<seq<byte>, ReadError>, used: nat)
      requires Valid()
      modifies this, output`lastByte, output`input, output.inner`buff, output.inner`wrote
      ensures r == LineRead(old(View()), prompt, tokens, output.inner.shutdown, utf8)
      ensures used <= LineEnd(tokens) && (r.Ok? ==> used == LineEnd(tokens))
      ensures r.Ok? ==>
                var (e, out) := E.Keys(old(View()), prompt, tokens[..used]);
                && Valid() && View() == E.Entered(e).0
                && output.input == old(output.input) + out + E.Entered(e).1
    {
      used := 0;
      ghost var e0, before := View(), output.input;
      NothingRead(e0, prompt, tokens, before);
      hide ReadSoFar, E.Key, E.Keys, LineRead;
      while true
        invariant Valid() && used <= LineEnd(tokens)
        invariant ReadSoFar(e0, prompt, tokens, used, before, View(), output.input)
        invariant output.inner.shutdown ==> E.Keys(e0, prompt, tokens[..used]).1 == []
        decreases |tokens| - used
      {
        if used == |tokens| {
          ReadToEnd(e0, prompt, tokens, used, before, View(), output.input, output.inner.shutdown, utf8);
          return Err(InputEnded), used;
        }
        if tokens[used].Enter? {
          break;
        }
        ghost var e, input := View(), output.input;
        var k := HandleKey(tokens[used], prompt);
        if k.Err? {
          Refused(e0, prompt, tokens, used, before, e, input, utf8);
          return Err(OutputClosed), used;
        }
        ReadMore(e0, prompt, tokens, used, before, e, input);
        used := used + 1;
      }
      AllRead(e0, prompt, tokens, used, before, View(), output.input);
      ReadToEnd(e0, prompt, tokens, used, before, View(), output.input, output.inner.shutdown, utf8);
      r := FinishLine(utf8);
    }
  }

  // What a line read is

  /** The place of the first Enter, or the end. */
  function LineEnd(tokens: seq<I.Token>): (n: nat)
    ensures n <= |tokens| && (n < |tokens| ==> tokens[n].Enter?)
    ensures forall i :: 0 <= i < n ==> !tokens[i].Enter?
    ensures forall i :: 0 <= i < |tokens| && tokens[i].Enter? ==> n <= i
  {
    if tokens == [] || tokens[0].Enter? then 0 else 1 + LineEnd(tokens[1..])
  }

  /** The line typed before the first Enter. A closed output is noticed at the first byte to print, at the
      latest at Enter. */
  ghost function LineRead(e: E.Editor, prompt: seq<byte>, tokens: seq<I.Token>, closed: bool, utf8: seq<byte> -> bool):
    Result<seq<byte>, ReadError>
    requires E.InRange(e)
  {
    var n := LineEnd(tokens);
    var line := EL.TypedAll(EL.Split(e), tokens[..n]).Line();
    if closed && (n < |tokens| || E.Keys(e, prompt, tokens[..n]).1 != []) then Err(OutputClosed)
    else if n == |tokens| then Err(InputEnded)
    else if utf8(line) then Ok(line)
    else Err(NotUtf8)
  }

  /** What was printed stays printed. */
  lemma {:induction false} PrintedGrows(e: E.Editor, prompt: seq<byte>, tokens: seq<I.Token>, n: nat)
    requires E.InRange(e) && n <= |tokens| && forall i :: 0 <= i < |tokens| ==> !tokens[i].Enter?
    ensures E.Keys(e, prompt, tokens[..n]).1 <= E.Keys(e, prompt, tokens).1
    decreases |tokens|
  {
    hide E.Key;
    assert n == |tokens| ==> tokens[..n] == tokens;
    if n < |tokens| {
      var front := tokens[..|tokens| - 1];
      assert front[..n] == tokens[..n];
      PrintedGrows(e, prompt, front, n);
    }
  }

  lemma Refused(e0: E.Editor, prompt: seq<byte>, tokens: seq<I.Token>, n: nat, before: seq<byte>, e: E.Editor,
                input: seq<byte>, utf8: seq<byte> -> bool)
    requires E.InRange(e0) && E.InRange(e) && n < LineEnd(tokens)
    requires ReadSoFar(e0, prompt, tokens, n, before, e, input) && E.Key(e, prompt, tokens[n]).1 != []
    ensures LineRead(e0, prompt, tokens, true, utf8) == Err(OutputClosed)
  {
    ReadMore(e0, prompt, tokens, n, before, e, input);
    hide E.Key, E.Keys;
    var line := tokens[..LineEnd(tokens)];
    assert line[..n + 1] == tokens[..n + 1];
    PrintedGrows(e0, prompt, line, n + 1);
    KeyPrints(e0, prompt, tokens, n, e);
  }

  lemma KeyPrints(e0: E.Editor, prompt: seq<byte>, tokens: seq<I.Token>, n: nat, e: E.Editor)
    requires E.InRange(e0) && n < |tokens| && forall i :: 0 <= i <= n ==> !tokens[i].Enter?
    requires E.InRange(e) && E.Keys(e0, prompt, tokens[..n]).0 == e && E.Key(e, prompt, tokens[n]).1 != []
    ensures E.Keys(e0, prompt, tokens[..n + 1]).1 != []
  {
    hide E.Key;
    assert tokens[..n + 1][..n] == tokens[..n];
  }

  lemma ReadToEnd(e0: E.Editor, prompt: seq<byte>, tokens: seq<I.Token>, n: nat, before: seq<byte>, e: E.Editor,
                  input: seq<byte>, closed: bool, utf8: seq<byte> -> bool)
    requires E.InRange(e0) && n <= LineEnd(tokens) && (n < |tokens| ==> tokens[n].Enter?)
    requires ReadSoFar(e0, prompt, tokens, n, before, e, input)
    requires closed ==> E.Keys(e0, prompt, tokens[..n]).1 == []
    ensures LineRead(e0, prompt, tokens, closed, utf8) ==
            if n == |tokens| then Err(InputEnded)
            else if closed then Err(OutputClosed)
            else if utf8(e.line) then Ok(e.line)
            else Err(NotUtf8)
  {
    assert n == LineEnd(tokens);
    EL.KeysRefine(e0, prompt, tokens[..n]);
    hide E.Key, E.Keys, EL.TypedAll;
  }

  lemma ThreeWrites(before: seq<byte>, a: seq<byte>, b: seq<byte>, c: seq<byte>)
    ensures before + a + b + c == before + (a + b + c)
  {
  }

  /** Where the loop in `ReadLine` stands. */
  ghost predicate ReadSoFar(e0: E.Editor, prompt: seq<byte>, tokens: seq<I.Token>, used: nat, before: seq<byte>,
                            e: E.Editor, input: seq<byte>)
    requires E.InRange(e0) && used <= |tokens| && forall i :: 0 <= i < used ==> !tokens[i].Enter?
  {
    E.Keys(e0, prompt, tokens[..used]).0 == e && input == before + E.Keys(e0, prompt, tokens[..used]).1
  }

  lemma NothingRead(e: E.Editor, prompt: seq<byte>, tokens: seq<I.Token>, before: seq<byte>)
    requires E.InRange(e)
    ensures ReadSoFar(e, prompt, tokens, 0, before, e, before) && E.Keys(e, prompt, tokens[..0]).1 == []
  {
    assert tokens[..0] == [];
  }

  lemma ReadMore(e0: E.Editor, prompt: seq<byte>, tokens: seq<I.Token>, n: nat, before: seq<byte>, e: E.Editor,
                 input: seq<byte>)
    requires E.InRange(e0) && E.InRange(e) && n < |tokens| && forall i :: 0 <= i <= n ==> !tokens[i].Enter?
    requires ReadSoFar(e0, prompt, tokens, n, before, e, input)
    ensures var (e', more) := E.Key(e, prompt, tokens[n]);
            && ReadSoFar(e0, prompt, tokens, n + 1, before, e', input + more)
            && E.Keys(e0, prompt, tokens[..n + 1]).1 == E.Keys(e0, prompt, tokens[..n]).1 + more
  {
    E.KeysInRange(e0, prompt, tokens[..n]);
    assert tokens[..n + 1][..n] == tokens[..n];
    AppendAssociates(before, E.Keys(e0, prompt, tokens[..n]).1, E.Key(e, prompt, tokens[n]).1);
  }

  lemma AllRead(e0: E.Editor, prompt: seq<byte>, tokens: seq<I.Token>, n: nat, before: seq<byte>, e: E.Editor,
                input: seq<byte>)
    requires E.InRange(e0) && n <= |tokens| && forall i :: 0 <= i < n ==> !tokens[i].Enter?
    requires ReadSoFar(e0, prompt, tokens, n, before, e, input)
    ensures E.Keys(e0, prompt, tokens[..n]).0 == e && input == before + E.Keys(e0, prompt, tokens[..n]).1
  {
  }
}
