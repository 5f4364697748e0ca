/**
 The in-memory channel under the terminal's output
 (tunshell-client/src/shell/server/fallback/byte_channel.rs): what is read is what was written, in
 order.
 */
module ByteChannels {
  import opened Wrappers

  datatype ChannelError = BrokenPipe

  class ByteChannel {
    var buff: seq<byte>
    var shutdown: bool
    ghost var wrote: seq<byte> // everything ever written
    ghost var taken: seq<byte> // everything ever read

    ghost predicate Valid()
      reads this
    {
      wrote == taken + buff
    }

    constructor ()
      ensures Valid() && wrote == [] && taken == [] && !shutdown
    {
      buff, shutdown, wrote, taken := [], false, [], [];
    }

    method Write(buf: seq<byte>) returns (r: Result<nat, ChannelError>)
      requires Valid()
      modifies this`buff, this`wrote
      ensures Valid() && r == if buf != [] && shutdown then Err(BrokenPipe) else Ok(|buf|)
      ensures wrote == if r.Ok? then old(wrote) + buf else old(wrote)
    {
      if |buf| == 0 {
        return Ok(0);
      }
      if shutdown {
        return Err(BrokenPipe);
      }
      buff, wrote := buff + buf, wrote + buf;
      return Ok(|buf|);
    }

    /** Writes until nothing is left, so an empty buffer is written even after shutdown. */
    method WriteAll(buf: seq<byte>) returns (r: Result<(), ChannelError>)
      requires Valid()
      modifies this`buff, this`wrote
      ensures Valid() && r == if buf != [] && shutdown then Err(BrokenPipe) else Ok(())
      ensures wrote == if r.Ok? then old(wrote) + buf else old(wrote)
    {
      var at := 0;
      while at < |buf|
        invariant Valid() && 0 <= at <= |buf|
        invariant wrote == old(wrote) + buf[..at] && (at > 0 ==> !shutdown)
      {
        var n := Write(buf[at..]);
        if n.Err? {
          return Err(n.error);
        }
        assert buf[..at] + buf[at..] == buf[..at + n.value];
        at := at + n.value;
      }
      assert buf[..at] == buf;
      return Ok(());
    }

    /** Reads at most len bytes; no bytes at all mean the end. */
    method PollRead(len: nat) returns (r: Poll<seq<byte>>)
      requires Valid()
      modifies this`buff, this`taken
      ensures Valid()
      ensures r == Pending <==> old(buff) == [] && !shutdown
      ensures r.Ready? ==> taken == old(taken) + r.value && |r.value| == if |old(buff)| < len then |old(buff)| else len
      ensures r.Pending? ==> taken == old(taken)
    {
      if |buff| == 0 {
        return if shutdown then Ready([]) else Pending;
      }
      var n := if len < |buff| then len else |buff|;
      var bytes := buff[..n];
      AppendAssociates(taken, bytes, buff[n..]);
      assert bytes + buff[n..] == buff;
      buff, taken := buff[n..], taken + bytes;
      return Ready(bytes);
    }

    method Shutdown()
      modifies this`shutdown
      ensures shutdown
    {
      shutdown := true;
    }
  }
}
