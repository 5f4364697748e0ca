/**
 One network peer as the program has it (tunshell-client/src/shell/network.rs): an object that
 updates its maps in place and sends on its channel. Every method is proved to do what `Tunnel` says.
 */
module NetworkPeers {
  import opened Wrappers
  import opened SeqNumber
  import opened ShellProto
  import M = Messages
  import T = Tunnel

  class NetworkPeer {
    const first: u32
    var tx: seq<NetworkMessage>                      // what it has sent
    var tcpPending: set<u32>
    var tcpPendingWrites: map<u32, seq<seq<byte>>>
    var tcpConnections: set<u32>
    var tcpReads: multiset<u32>
    var nextTcpConId: nat
    var written: map<u32, seq<byte>>                 // what the sockets were given
    ghost var issued: nat
    ghost var known: set<u32>
    ghost var read: map<u32, seq<byte>>

    ghost function View(): T.Peer
      reads this
    {
      T.Peer(first, tcpPending, tcpPendingWrites, tcpConnections, tcpReads, nextTcpConId, issued, known, read, written)
    }

    /** The step was made, and its messages follow what was sent before. */
    ghost predicate Did(step: (T.Peer, seq<NetworkMessage>), sent: seq<NetworkMessage>)
      reads this
    {
      View() == step.0 && tx == sent + step.1
    }

    constructor (client: bool)
      ensures View() == T.NewPeer(if client then 1 else 2) && tx == []
    {
      first := if client then 1 else 2;
      tx, tcpPending, tcpPendingWrites, tcpConnections, tcpReads := [], {}, map[], {}, multiset{};
      nextTcpConId, written := if client then 1 else 2, map[];
      issued, known, read := 0, {}, map[];
    }

    /** The program's numbers are 32-bit: it demands a free one before they run out. */
    method NextTcpConId() returns (conId: u32)
      requires T.FirstFree(nextTcpConId, tcpPending + tcpConnections) < TWO32
      modifies this`nextTcpConId
      ensures conId == T.FirstFree(old(nextTcpConId), tcpPending + tcpConnections) && nextTcpConId == conId + 2
    {
      var id := nextTcpConId;
      ghost var busy := tcpPending + tcpConnections;
      ghost var ahead: set<u32> := busy; // those in use that may still be met
      while id in tcpPending || id in tcpConnections
        invariant T.FirstFree(id, ahead) == T.FirstFree(old(nextTcpConId), busy)
        invariant ahead <= busy && forall x :: x in busy && x !in ahead ==> x < id
        decreases |ahead|
      {
        assert id in busy && id in ahead;
        assert |ahead - {id}| < |ahead|;
        ahead := ahead - {id as u32};
        id := id + 2;
      }
      assert id !in ahead;
      conId := id;
      nextTcpConId := id + 2;
    }

    method Write(id: u32, payload: seq<byte>)
      modifies this`written
      ensures written == T.Append(old(written), id, payload)
    {
      written := written[id := T.Log(written, id) + payload];
    }

    method FlushWrites(conId: u32, pendingWrites: seq<seq<byte>>)
      modifies this`written
      ensures written == T.Append(old(written), conId, T.Concat(pendingWrites))
    {
      Write(conId, []); // a new socket has been given nothing
      for i := 0 to |pendingWrites|
        invariant written == T.Append(old(written), conId, T.Concat(pendingWrites[..i]))
      {
        Write(conId, pendingWrites[i]);
        assert pendingWrites[..i + 1][..i] == pendingWrites[..i];
        AppendAssociates(T.Log(old(written), conId), T.Concat(pendingWrites[..i]), pendingWrites[i]);
      }
      assert pendingWrites[..|pendingWrites|] == pendingWrites;
    }

    method ActivateTcpConnection(conId: u32)
      modifies this`tcpConnections, this`tcpPendingWrites, this`tcpReads, this`written, this`known
      ensures View() == T.Activate(old(View()), conId)
    {
      hide T.Append, T.Concat;
      tcpConnections := tcpConnections + {conId};
      known := known + {conId};
      var pendingWrites := T.Queue(tcpPendingWrites, conId);
      tcpPendingWrites := tcpPendingWrites - {conId};
      FlushWrites(conId, pendingWrites);
      tcpReads := tcpReads + multiset{conId};
    }

    method Send(m: NetworkMessage)
      modifies this`tx
      ensures tx == old(tx) + [m]
    {
      tx := tx + [m];
    }

    method Accept(host: string, port: M.u16)
      requires T.FirstFree(nextTcpConId, tcpPending + tcpConnections) < TWO32
      modifies this
      ensures Did(T.DoAccept(old(View()), host, port), old(tx))
    {
      var conId := NextTcpConId();
      issued, known := issued + 1, known + {conId};
      tcpPending := tcpPending + {conId};
      Send(TcpConnect(conId, host, port));
    }

    /** error is how connecting goes, if the message asks for that, and notice the text of a notice. */
    method HandleMessage(message: NetworkMessage, error: Option<string>, notice: string)
      modifies this
      ensures Did(T.DoHandle(old(View()), message, error, notice), old(tx))
    {
      match message
      case TcpConnect(conId, _, _) =>
        if error.None? {
          ActivateTcpConnection(conId);
          Send(TcpConnectResult(conId, None));
        } else {
          Send(TcpConnectResult(conId, error));
        }
      case TcpConnectResult(conId, err) =>
        if conId !in tcpPending {
          return;
        }
        tcpPending := tcpPending - {conId};
        if err.None? {
          ActivateTcpConnection(conId);
        } else {
          tcpPendingWrites := tcpPendingWrites - {conId};
          Send(Notice(notice));
        }
      case TcpSend(conId, payload) => HandlePayload(conId, payload, notice);
      case TcpRecv(conId, payload) => HandlePayload(conId, payload, notice);
      case TcpClose(conId) =>
        tcpPending := tcpPending - {conId};
        tcpPendingWrites := tcpPendingWrites - {conId};
        tcpConnections := tcpConnections - {conId};
      case _ =>
    }

    method HandlePayload(conId: u32, payload: seq<byte>, notice: string)
      modifies this
      ensures Did(T.Deliver(old(View()), conId, payload, notice), old(tx))
    {
      if conId in tcpConnections {
        Write(conId, payload);
      } else if conId in tcpPending {
        tcpPendingWrites := tcpPendingWrites[conId := T.Queue(tcpPendingWrites, conId) + [payload]];
      } else {
        Send(Notice(notice));
      }
    }

    /** A read has ended; its reader comes with it, and starts the next read if there was data. */
    method HandleTcpRead(conId: u32, result: Result<seq<byte>, ()>)
      requires conId in tcpReads
      modifies this
      ensures Did(if result.Ok? && result.value != [] then T.DoRead(old(View()), conId, result.value)
                  else T.DoReadEnd(old(View()), conId), old(tx))
    {
      tcpReads := tcpReads - multiset{conId};
      match result
      case Ok(payload) =>
        if |payload| == 0 {
          tcpConnections := tcpConnections - {conId};
          Send(TcpClose(conId));
        } else {
          tcpReads := tcpReads + multiset{conId};
          read := T.Append(read, conId, payload);
          Send(TcpSend(conId, payload));
        }
      case Err(_) =>
        tcpConnections := tcpConnections - {conId};
        Send(TcpClose(conId));
    }
  }
}
