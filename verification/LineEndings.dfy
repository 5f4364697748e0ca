/**
 Line endings of the terminal's output (tunshell-client/src/shell/server/fallback/output_stream.rs):
 a carriage return before every line feed that does not have one, however the output is cut into
 writes.
 */
module LineEndings {
  import opened Wrappers
  import opened ByteChannels

  const CR: byte := 13
  const LF: byte := 10

  /** Byte by byte: prev is the byte before s. */
  function Convert(prev: byte, s: seq<byte>): seq<byte>
    decreases s
  {
    if s == [] then []
    else (if s[0] == LF && prev != CR then [CR, LF] else [s[0]]) + Convert(s[0], s[1..])
  }

  function LastByte(prev: byte, s: seq<byte>): byte {
    if s == [] then prev else s[|s| - 1]
  }

  predicate NoBareLf(prev: byte, s: seq<byte>)
    decreases s
  {
    s == [] || ((s[0] == LF ==> prev == CR) && NoBareLf(s[0], s[1..]))
  }

  lemma {:induction false} NoBareLfGrows(prev: byte, s: seq<byte>, x: byte)
    requires NoBareLf(prev, s) && (x == LF ==> LastByte(prev, s) == CR)
    ensures NoBareLf(prev, s + [x])
    decreases s
  {
    if s != [] {
      NoBareLfGrows(s[0], s[1..], x);
      assert (s + [x])[1..] == s[1..] + [x];
    }
  }

  /** How the output is cut into writes makes no difference. */
  lemma {:induction false} ConvertSplits(prev: byte, a: seq<byte>, b: seq<byte>)
    ensures Convert(prev, a + b) == Convert(prev, a) + Convert(LastByte(prev, a), b)
    decreases a
  {
    if a == [] {
      assert a + b == b;
    } else {
      ConvertSplits(a[0], a[1..], b);
      assert (a + b)[1..] == a[1..] + b;
      var first := if a[0] == LF && prev != CR then [CR, LF] else [a[0]];
      AppendAssociates(first, Convert(a[0], a[1..]), Convert(LastByte(prev, a), b));
    }
  }

  lemma {:induction false} LongerWhenConverted(prev: byte, s: seq<byte>)
    ensures |Convert(prev, s)| >= |s|
    ensures NoBareLf(prev, s) <==> |Convert(prev, s)| == |s|
    ensures |Convert(prev, s)| == |s| ==> Convert(prev, s) == s
    decreases s
  {
    if s != [] {
      LongerWhenConverted(s[0], s[1..]);
    }
  }

  /** Exactly the texts without a bare line feed are left alone. */
  lemma ConvertFixes(prev: byte, s: seq<byte>)
    ensures Convert(prev, s) == s <==> NoBareLf(prev, s)
  {
    LongerWhenConverted(prev, s);
  }

  lemma {:induction false} ConvertedHasNoBareLf(prev: byte, s: seq<byte>)
    ensures NoBareLf(prev, Convert(prev, s))
    decreases s
  {
    if s != [] {
      ConvertedHasNoBareLf(s[0], s[1..]);
      var rest := Convert(s[0], s[1..]);
      if s[0] == LF && prev != CR {
        assert ([CR, LF] + rest)[1..] == [LF] + rest && ([LF] + rest)[1..] == rest;
      } else {
        assert ([s[0]] + rest)[1..] == rest;
      }
    }
  }

  lemma ConvertIdempotent(prev: byte, s: seq<byte>)
    ensures Convert(prev, Convert(prev, s)) == Convert(prev, s)
  {
    ConvertedHasNoBareLf(prev, s);
    ConvertFixes(prev, Convert(prev, s));
  }

  function WithoutCr(s: seq<byte>): seq<byte> {
    if s == [] then [] else (if s[0] == CR then [] else [s[0]]) + WithoutCr(s[1..])
  }

  lemma WithoutCrFirst(x: byte, rest: seq<byte>)
    ensures WithoutCr([x] + rest) == if x == CR then WithoutCr(rest) else [x] + WithoutCr(rest)
  {
    assert ([x] + rest)[1..] == rest;
  }

  /** Nothing but carriage returns is added, and nothing is taken away or moved. */
  lemma {:induction false} OnlyCrAdded(prev: byte, s: seq<byte>)
    ensures WithoutCr(Convert(prev, s)) == WithoutCr(s)
    decreases s
  {
    if s != [] {
      OnlyCrAdded(s[0], s[1..]);
      var rest := Convert(s[0], s[1..]);
      WithoutCrFirst(s[0], rest);
      WithoutCrFirst(s[0], s[1..]);
      assert [s[0]] + s[1..] == s;
      hide WithoutCr;
      if s[0] == LF && prev != CR {
        WithoutCrFirst(CR, [LF] + rest);
        assert [CR] + ([LF] + rest) == [CR, LF] + rest;
      }
    }
  }

  predicate BareAt(prev: byte, s: seq<byte>, i: nat) {
    i < |s| && s[i] == LF && (if i == 0 then prev else s[i - 1]) != CR
  }

  /** How many line feeds have no carriage return before them. */
  function BareLfs(prev: byte, s: seq<byte>): nat {
    |set i | 0 <= i < |s| && BareAt(prev, s, i)|
  }

  lemma BareLfsGrow(prev: byte, s: seq<byte>, x: byte)
    ensures BareLfs(prev, s + [x]) == BareLfs(prev, s) + if x == LF && LastByte(prev, s) != CR then 1 else 0
  {
    var t := s + [x];
    var before := set i | 0 <= i < |s| && BareAt(prev, s, i);
    var after := set i | 0 <= i < |t| && BareAt(prev, t, i);
    assert after == before + if x == LF && LastByte(prev, s) != CR then {|s|} else {};
  }

  /** One carriage return is added for every bare line feed. */
  lemma {:induction false} OneCrForEach(prev: byte, s: seq<byte>)
    ensures |Convert(prev, s)| == |s| + BareLfs(prev, s)
    decreases |s|
  {
    if s != [] {
      var (front, x) := (s[..|s| - 1], s[|s| - 1]);
      assert s == front + [x];
      OneCrForEach(prev, front);
      ConvertSplits(prev, front, [x]);
      BareLfsGrow(prev, front, x);
      var last := LastByte(prev, front);
      assert Convert(last, [x]) == (if x == LF && last != CR then [CR, LF] else [x]) + Convert(x, []);
    }
  }

  function WithLine(wrote: seq<byte>, text: seq<byte>): seq<byte> { wrote + text + [CR, LF] }

  class OutputStream {
    const inner: ByteChannel
    var lastByte: Option<byte>
    ghost var input: seq<byte> // everything accepted so far

    /** The inner channel has been given the converted input, whatever the writes were. */
    ghost predicate Valid()
      reads this, inner
    {
      && inner.Valid() && inner.wrote == Convert(0, input)
      && lastByte == if input == [] then None else Some(input[|input| - 1])
    }

    constructor ()
      ensures Valid() && fresh(inner) && input == [] && inner.taken == [] && !inner.shutdown
    {
      inner := new ByteChannel();
      lastByte, input := None, [];
    }

    /** The two writes for a line feed that has no carriage return: the text before it, then both. */
    method WriteLine(text: seq<byte>) returns (r: Result<(), ChannelError>)
      requires inner.Valid()
      modifies inner`buff, inner`wrote
      ensures inner.Valid() && r == if inner.shutdown then Err(BrokenPipe) else Ok(())
      ensures inner.wrote == if r.Ok? then WithLine(old(inner.wrote), text) else old(inner.wrote)
    {
      r := inner.WriteAll(text);
      if r.Ok? {
        r := inner.WriteAll([CR, LF]);
      }
    }

    /** The rest of `Write`, from its loop on. */
    method WriteLines(buf: seq<byte>, start: nat, ghost prev: byte, ghost before: seq<byte>)
      returns (r: Result<(), ChannelError>)
      requires buf != [] && start <= |buf| && inner.Valid() && Progress(before, inner.wrote, prev, buf, start, start)
      requires if start > 0 then !inner.shutdown else inner.wrote == before && (buf[0] == LF ==> prev == CR)
      modifies inner`buff, inner`wrote
      ensures inner.Valid() && r == if inner.shutdown then Err(BrokenPipe) else Ok(())
      ensures inner.wrote == if r.Ok? then before + Convert(prev, buf) else before
    {
      var written, i := start, start;
      hide *;
      while i < |buf|
        invariant start <= written <= i <= |buf| && inner.Valid()
        invariant if written > 0 then !inner.shutdown else inner.wrote == before && (buf[0] == LF ==> prev == CR)
        invariant Progress(before, inner.wrote, prev, buf, written, i)
      {
        if i > 0 && buf[i] == LF && buf[i - 1] != CR {
          LineFeed(before, inner.wrote, prev, buf, written, i);
          r := WriteLine(buf[written..i]);
          if r.Err? { return; }
          written := i + 1;
        } else {
          OtherByte(before, inner.wrote, prev, buf, written, i);
        }
        i := i + 1;
      }
      Finished(before, inner.wrote, prev, buf, written);
      r := inner.WriteAll(buf[written..]);
    }

    method Write(buf: seq<byte>) returns (r: Result<nat, ChannelError>)
      requires Valid()
      modifies this`lastByte, this`input, inner`buff, inner`wrote
      ensures Valid() && r == if buf != [] && inner.shutdown then Err(BrokenPipe) else Ok(|buf|)
      ensures input == if r.Ok? then old(input) + buf else old(input)
    {
      if |buf| == 0 {
        return Ok(0);
      }
      var prev := if lastByte.Some? then lastByte.value else 0;
      ghost var before := inner.wrote;
      hide Convert, Progress, NoBareLf;
      FirstByte(before, prev, buf);
      WrittenAfter(input, buf, prev);
      var written := 0;
      if buf[0] == LF && prev != CR {
        var w := inner.WriteAll([CR, LF]);
        if w.Err? { return Err(w.error); }
        written := 1;
      }
      var lines := WriteLines(buf, written, prev, before);
      if lines.Err? { return Err(lines.error); }
      lastByte, input := Some(buf[|buf| - 1]), input + buf;
      return Ok(|buf|);
    }

    method Shutdown()
      requires Valid()
      modifies inner`shutdown
      ensures Valid() && inner.shutdown
    {
      inner.Shutdown();
    }
  }

  lemma WrittenAfter(input: seq<byte>, buf: seq<byte>, prev: byte)
    requires buf != [] && prev == if input == [] then 0 else input[|input| - 1]
    ensures Convert(0, input + buf) == Convert(0, input) + Convert(prev, buf)
    ensures input + buf != [] && (input + buf)[|input + buf| - 1] == buf[|buf| - 1]
  {
    ConvertSplits(0, input, buf);
  }

  /** Where the write loop stands: buf[..written] is written, and from there to i nothing needs a
      carriage return. */
  ghost predicate Progress(before: seq<byte>, wrote: seq<byte>, prev: byte, buf: seq<byte>, written: nat, i: nat) {
    && written <= i <= |buf|
    && wrote == before + Convert(prev, buf[..written])
    && NoBareLf(LastByte(prev, buf[..written]), buf[written..i])
  }

  lemma FirstByte(before: seq<byte>, prev: byte, buf: seq<byte>)
    requires buf != []
    ensures Progress(before, before, prev, buf, 0, 0)
    ensures buf[0] == LF && prev != CR ==> Progress(before, before + [CR, LF], prev, buf, 1, 1)
  {
    assert buf[..1] == [buf[0]];
  }

  lemma Finished(before: seq<byte>, wrote: seq<byte>, prev: byte, buf: seq<byte>, written: nat)
    requires Progress(before, wrote, prev, buf, written, |buf|)
    ensures wrote + buf[written..] == before + Convert(prev, buf)
  {
    assert buf[..|buf|] == buf && buf[written..|buf|] == buf[written..];
    PassedThrough(before, wrote, prev, buf, written, |buf|);
  }

  lemma PassedThrough(before: seq<byte>, wrote: seq<byte>, prev: byte, buf: seq<byte>, written: nat, i: nat)
    requires Progress(before, wrote, prev, buf, written, i)
    ensures wrote + buf[written..i] == before + Convert(prev, buf[..i])
  {
    assert buf[..i] == buf[..written] + buf[written..i];
    ConvertSplits(prev, buf[..written], buf[written..i]);
    ConvertFixes(LastByte(prev, buf[..written]), buf[written..i]);
    AppendAssociates(before, Convert(prev, buf[..written]), buf[written..i]);
  }

  lemma LineFeed(before: seq<byte>, wrote: seq<byte>, prev: byte, buf: seq<byte>, written: nat, i: nat)
    requires Progress(before, wrote, prev, buf, written, i) && 0 < i < |buf| && buf[i] == LF && buf[i - 1] != CR
    ensures Progress(before, WithLine(wrote, buf[written..i]), prev, buf, i + 1, i + 1)
  {
    PassedThrough(before, wrote, prev, buf, written, i);
    assert buf[..i + 1] == buf[..i] + [LF];
    ConvertSplits(prev, buf[..i], [LF]);
    assert Convert(buf[i - 1], [LF]) == [CR, LF] + Convert(LF, []);
    AppendAssociates(before, Convert(prev, buf[..i]), [CR, LF]);
  }

  lemma OtherByte(before: seq<byte>, wrote: seq<byte>, prev: byte, buf: seq<byte>, written: nat, i: nat)
    requires Progress(before, wrote, prev, buf, written, i) && i < |buf|
    requires buf[i] == LF ==> (if i == 0 then prev else buf[i - 1]) == CR
    ensures Progress(before, wrote, prev, buf, written, i + 1)
  {
    assert buf[written..i + 1] == buf[written..i] + [buf[i]];
    hide Convert, NoBareLf;
    NoBareLfGrows(LastByte(prev, buf[..written]), buf[written..i], buf[i]);
  }
}
