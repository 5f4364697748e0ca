/**
 The framed message stream (tunshell-shared/src/message_stream.rs). The reference is `Decode`, which
 takes all the bytes at once; the stream is proved to give its messages, in order, then its error if
 there is one, and then nothing more, however the bytes arrive.
 */
module MessageStreams {
  import opened Wrappers
  import opened Messages

  datatype Failure = BadMessage(error: MessageError) | Incomplete | Io

  type Item<O> = Result<O, Failure>

  type Deserialise<!O> = RawMessage -> Result<O, MessageError>

  function FrameLength(s: seq<byte>): nat
    requires |s| >= 3
  {
    s[1] as int * 0x100 + s[2] as int
  }

  predicate HasFrame(s: seq<byte>) {
    |s| >= 3 && |s| >= 3 + FrameLength(s)
  }

  /** The message in the frame at the front. */
  function FrontItem<O>(d: Deserialise<O>, s: seq<byte>): Item<O>
    requires HasFrame(s)
  {
    match NewRaw(s[0], s[3..3 + FrameLength(s)])
    case Err(e) => Err(BadMessage(e))
    case Ok(raw) =>
      match d(raw)
      case Err(e) => Err(BadMessage(e))
      case Ok(m) => Ok(m)
  }

  // What is decoded, what is left, and whether decoding stopped at an error
  datatype Decoded<O> = Decoded(items: seq<Item<O>>, rest: seq<byte>, broken: bool)

  function Decode<O>(d: Deserialise<O>, s: seq<byte>): Decoded<O> {
    if !HasFrame(s) then Decoded([], s, false) else
    var item := FrontItem(d, s);
    if item.Err? then Decoded([item], [], true) else
    var r := Decode(d, s[3 + FrameLength(s)..]);
    r.(items := [item] + r.items)
  }

  /** All the results of a stream that ends after these bytes. */
  function Results<O>(d: Deserialise<O>, s: seq<byte>): seq<Item<O>> {
    var r := Decode(d, s);
    if r.broken || r.rest == [] then r.items else r.items + [Err(Incomplete)]
  }

  lemma FrameStays<O>(d: Deserialise<O>, a: seq<byte>, b: seq<byte>)
    requires HasFrame(a)
    ensures HasFrame(a + b) && FrontItem(d, a + b) == FrontItem(d, a) && FrameLength(a + b) == FrameLength(a)
    ensures (a + b)[3 + FrameLength(a)..] == a[3 + FrameLength(a)..] + b
  {
    assert (a + b)[3..3 + FrameLength(a)] == a[3..3 + FrameLength(a)];
  }

  /** Decoding can stop anywhere and go on with what is left; after an error it is over. */
  lemma {:induction false} DecodeSplits<O>(d: Deserialise<O>, a: seq<byte>, b: seq<byte>)
    ensures var r := Decode(d, a);
            Decode(d, a + b) ==
              if r.broken then r
              else var r' := Decode(d, r.rest + b); r'.(items := r.items + r'.items)
    decreases |a|
  {
    hide HasFrame, FrontItem;
    if HasFrame(a) {
      FrameStays(d, a, b);
      DecodeFront(d, a);
      DecodeFront(d, a + b);
      hide Decode, FrameLength;
      if FrontItem(d, a).Ok? {
        var rest := a[3 + FrameLength(a)..];
        DecodeSplits(d, rest, b);
        var r := Decode(d, rest);
        AppendAssociates([FrontItem(d, a)], r.items, Decode(d, r.rest + b).items);
      }
    } else {
      assert Decode(d, a) == Decoded([], a, false);
    }
  }

  lemma DecodeFront<O>(d: Deserialise<O>, s: seq<byte>)
    requires HasFrame(s)
    ensures Decode(d, s) ==
              if FrontItem(d, s).Err? then Decoded([FrontItem(d, s)], [], true)
              else var r := Decode(d, s[3 + FrameLength(s)..]); r.(items := [FrontItem(d, s)] + r.items)
  {
  }

  /** At most one error, and nothing after it. */
  lemma {:induction false} OneError<O>(d: Deserialise<O>, s: seq<byte>)
    ensures var r := Decode(d, s);
            && (forall i :: 0 <= i < |r.items| && r.items[i].Err? ==> i == |r.items| - 1)
            && (r.broken <==> r.items != [] && r.items[|r.items| - 1].Err?)
            && !HasFrame(r.rest)
    decreases |s|
  {
    if HasFrame(s) && FrontItem(d, s).Ok? {
      OneError(d, s[3 + FrameLength(s)..]);
    }
  }

  // Frames

  ghost predicate FromNew(raw: RawMessage) {
    raw.length == |raw.data| <= MAX_DATA
  }

  function Frames(raws: seq<RawMessage>): seq<byte> {
    if raws == [] then [] else ToVec(raws[0]) + Frames(raws[1..])
  }

  lemma FrameDecodes<O>(d: Deserialise<O>, raw: RawMessage, rest: seq<byte>)
    requires FromNew(raw) && d(raw).Ok?
    ensures var s := ToVec(raw) + rest;
            HasFrame(s) && FrontItem(d, s) == Ok(d(raw).value) && s[3 + FrameLength(s)..] == rest
  {
    var n, s := |raw.data|, ToVec(raw) + rest;
    assert n / 0x100 < 0x100 && n == n / 0x100 * 0x100 + n % 0x100;
    assert FrameLength(s) == n && s[3..3 + n] == raw.data && s[3 + n..] == rest;
  }

  /** What the front of any bytes decodes to: nothing until the frame is complete; an error that ends the
      stream, if the data is too long or is refused; otherwise its message and then the rest. */
  lemma DecodeExact<O>(d: Deserialise<O>, typeId: byte, length: u16, data: seq<byte>, rest: seq<byte>)
    requires rest != [] ==> |data| == length as nat
    requires |data| <= length
    ensures var (r, raw) := (Decode(d, [typeId, length / 0x100, length % 0x100] + data + rest),
                             RawMessage(typeId, length, data));
            if |data| < length then r.items == [] && !r.broken
            else if length > MAX_DATA then r.items == [Err(BadMessage(TooLong(length)))] && r.broken
            else if d(raw).Err? then r.items == [Err(BadMessage(d(raw).error))] && r.broken
            else r == Decode(d, rest).(items := [Ok(d(raw).value)] + Decode(d, rest).items)
  {
    var s := [typeId, length / 0x100, length % 0x100] + data + rest;
    assert FrameLength(s) == length;
    if |data| == length as nat {
      assert s[3..3 + |data|] == data && s[3 + |data|..] == rest;
    }
  }

  /** The printed frames of any list of messages decode to that list. */
  lemma {:induction false} FramesDecode<O>(d: Deserialise<O>, raws: seq<RawMessage>, ms: seq<O>)
    requires |raws| == |ms| && forall i :: 0 <= i < |ms| ==> FromNew(raws[i]) && d(raws[i]) == Ok(ms[i])
    ensures var r := Decode(d, Frames(raws));
            && r.rest == [] && !r.broken && |r.items| == |ms|
            && forall i :: 0 <= i < |ms| ==> r.items[i] == Ok(ms[i])
    decreases |raws|
  {
    if raws != [] {
      FrameDecodes(d, raws[0], Frames(raws[1..]));
      FramesDecode(d, raws[1..], ms[1..]);
      hide HasFrame, FrontItem, ToVec;
      var r := Decode(d, Frames(raws[1..]));
      assert Decode(d, Frames(raws)).items == [Ok(ms[0])] + r.items;
      forall i | 0 <= i < |ms| ensures ([Ok(ms[0])] + r.items)[i] == Ok(ms[i]) {
        assert i > 0 ==> ms[1..][i - 1] == ms[i] && r.items[i - 1] == Ok(ms[1..][i - 1]);
      }
    }
  }

  /** Any list of messages that can be serialised arrives as it was sent, once all its bytes have. */
  lemma ServerMessagesArrive(j: RelayJson, ms: seq<ServerMessage>, raws: seq<RawMessage>)
    requires FaithfulJson(j) && |raws| == |ms|
    requires forall i :: 0 <= i < |ms| ==> SerialiseServer(j, ms[i]) == Ok(raws[i])
    ensures var given := Results((raw: RawMessage) => DeserialiseServer(j, raw), Frames(raws));
            |given| == |ms| && forall i :: 0 <= i < |ms| ==> given[i] == Ok(ms[i])
  {
    var d := (raw: RawMessage) => DeserialiseServer(j, raw);
    forall i | 0 <= i < |ms| ensures FromNew(raws[i]) && d(raws[i]) == Ok(ms[i]) {
      ServerRoundTrip(j, ms[i]);
    }
    FramesDecode(d, raws, ms);
  }

  lemma ClientMessagesArrive(j: RelayJson, ms: seq<ClientMessage>, raws: seq<RawMessage>)
    requires FaithfulJson(j) && |raws| == |ms|
    requires forall i :: 0 <= i < |ms| ==> SerialiseClient(j, ms[i]) == Ok(raws[i])
    ensures var given := Results((raw: RawMessage) => DeserialiseClient(j, raw), Frames(raws));
            |given| == |ms| && forall i :: 0 <= i < |ms| ==> given[i] == Ok(ms[i])
  {
    var d := (raw: RawMessage) => DeserialiseClient(j, raw);
    forall i | 0 <= i < |ms| ensures FromNew(raws[i]) && d(raws[i]) == Ok(ms[i]) {
      ClientRoundTrip(j, ms[i]);
    }
    FramesDecode(d, raws, ms);
  }

  // The stream

  // What polling the inner stream gives
  datatype Read = Chunk(bytes: seq<byte>) | NotReady | Eof | Fail

  const READ_SIZE := 1024

  predicate ReadOk(r: Read) {
    r.Chunk? ==> 1 <= |r.bytes| <= READ_SIZE
  }

  function Received(rs: seq<Read>): seq<byte> {
    if rs == [] then []
    else Received(rs[..|rs| - 1]) +
         (if rs[|rs| - 1].Chunk? then rs[|rs| - 1].bytes else [])
  }

  /** The items given out so far, for the bytes received so far. */
  ghost predicate InStep<O>(d: Deserialise<O>, received: seq<byte>, given: seq<Item<O>>, readBuff: seq<byte>) {
    var r := Decode(d, readBuff);
    Decode(d, received) == r.(items := given + r.items)
  }

  lemma ReadInStep<O>(d: Deserialise<O>, received: seq<byte>, given: seq<Item<O>>, readBuff: seq<byte>, more: seq<byte>)
    requires InStep(d, received, given, readBuff) && !HasFrame(readBuff)
    ensures InStep(d, received + more, given, readBuff + more)
  {
    DecodeSplits(d, received, more);
    assert given + [] == given;
  }

  lemma TakeInStep<O>(d: Deserialise<O>, received: seq<byte>, given: seq<Item<O>>, readBuff: seq<byte>)
    requires InStep(d, received, given, readBuff) && HasFrame(readBuff)
    ensures var item := FrontItem(d, readBuff);
            && (item.Ok? ==> InStep(d, received, given + [item], readBuff[3 + FrameLength(readBuff)..]))
            && (item.Err? ==> Decode(d, received).broken && Decode(d, received).items == given + [item])
  {
    var item := FrontItem(d, readBuff);
    hide HasFrame, FrontItem;
    if item.Ok? {
      AppendAssociates(given, [item], Decode(d, readBuff[3 + FrameLength(readBuff)..]).items);
    }
  }

  lemma EndInStep<O>(d: Deserialise<O>, received: seq<byte>, given: seq<Item<O>>, readBuff: seq<byte>)
    requires InStep(d, received, given, readBuff) && !HasFrame(readBuff)
    ensures Decode(d, received).items == given
    ensures Results(d, received) == if readBuff == [] then given else given + [Err(Incomplete)]
  {
    assert given + [] == given;
  }

  class MessageStream<!O> {
    const deserialise: Deserialise<O>
    var inner: seq<Read>          // what the inner stream gives when polled; then it is not ready
    var readBuff: seq<byte>
    var closed: bool
    ghost var polled: seq<Read>   // what it has given
    ghost var given: seq<Item<O>> // what this stream has given

    ghost predicate Valid()
      reads this
    {
      && (forall i :: 0 <= i < |inner| ==> ReadOk(inner[i]))
      && (!closed ==> InStep(deserialise, Received(polled), given, readBuff) && Eof !in polled && Fail !in polled)
      && (closed ==> given == Ending(polled))
    }

    /** What a closed stream has given. */
    ghost function Ending(rs: seq<Read>): seq<Item<O>>
      reads this
    {
      if Fail in rs then Decode(deserialise, Received(rs)).items + [Err(Io)]
      else if Eof in rs then Results(deserialise, Received(rs))
      else Decode(deserialise, Received(rs)).items
    }

    constructor (deserialise: Deserialise<O>, inner: seq<Read>)
      requires forall i :: 0 <= i < |inner| ==> ReadOk(inner[i])
      ensures Valid() && !closed && polled == [] && given == [] && this.inner == inner
      ensures this.deserialise == deserialise
    {
      this.deserialise, this.inner := deserialise, inner;
      readBuff, closed, polled, given := [], false, [], [];
    }

    method PollReadInner() returns (r: Read)
      requires Valid() && !closed && !HasFrame(readBuff)
      modifies this`inner, this`readBuff, this`polled
      ensures old(inner) == (if old(inner) == [] then [] else [r]) + inner && (old(inner) == [] ==> r == NotReady)
      ensures ReadOk(r) && (forall i :: 0 <= i < |inner| ==> ReadOk(inner[i])) && polled == old(polled) + [r]
      ensures readBuff == old(readBuff) + (if r.Chunk? then r.bytes else [])
      ensures InStep(deserialise, Received(polled), given, readBuff)
    {
      hide HasFrame, InStep;
      r := NotReady;
      if inner != [] {
        r, inner := inner[0], inner[1..];
      }
      ghost var more := if r.Chunk? then r.bytes else [];
      ReadInStep(deserialise, Received(polled), given, readBuff, more);
      polled := polled + [r];
      assert polled[..|polled| - 1] == old(polled);
      if r.Chunk? {
        readBuff := readBuff + r.bytes;
      }
      assert readBuff == old(readBuff) + more;
    }

    /** The end of `PollNext`: the frame at the front of the buffer. */
    method TakeFrame() returns (item: Item<O>)
      requires Valid() && !closed && HasFrame(readBuff)
      modifies this`readBuff, this`closed, this`given
      ensures Valid() && given == old(given) + [item] && (closed <==> item.Err?)
    {
      hide InStep, Results, Decode, Received;
      item := FrontItem(deserialise, readBuff);
      TakeInStep(deserialise, Received(polled), given, readBuff);
      given := given + [item];
      if item.Err? {
        closed := true;
      } else {
        readBuff := readBuff[3 + FrameLength(readBuff)..];
      }
    }

    method PollNext() returns (r: Poll<Option<Item<O>>>)
      requires Valid()
      modifies this`inner, this`readBuff, this`closed, this`polled, this`given
      ensures Valid() && old(polled) <= polled && (old(closed) ==> closed && r == Ready(None) && polled == old(polled))
      ensures r.Ready? && r.value.Some? ==> given == old(given) + [r.value.value] && (closed <==> r.value.value.Err?)
      ensures r.Pending? || r == Ready(None) ==> given == old(given)
      ensures r == Ready(None) ==> closed
      ensures r.Pending? ==> !closed && !HasFrame(readBuff) && polled != [] && polled[|polled| - 1] == NotReady
    {
      if closed {
        return Ready(None);
      }
      hide InStep, Results, Decode, HasFrame, FrontItem, Received, FrameLength, ReadOk;
      while !HasFrame(readBuff)
        invariant Valid() && !closed && given == old(given) && old(polled) <= polled
        decreases |inner|
      {
        var read := PollReadInner();
        match read {
          case Chunk(_) =>
          case Eof =>
            EndInStep(deserialise, Received(polled), given, readBuff);
            closed := true;
            if readBuff == [] {
              return Ready(None);
            }
            given := given + [Err(Incomplete)];
            return Ready(Some(Err(Incomplete)));
          case Fail =>
            EndInStep(deserialise, Received(polled), given, readBuff);
            closed := true;
            given := given + [Err(Io)];
            return Ready(Some(Err(Io)));
          case NotReady =>
            return Pending;
        }
      }
      var item := TakeFrame();
      return Ready(Some(item));
    }
  }
}
