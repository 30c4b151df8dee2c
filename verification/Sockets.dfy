/** The socket handlers as the program runs them, on Windows and on Posix. */
module Sockets {
  import opened SocketTypes
  import S = SendQueue
  import R = ReceiveQueue
  import P = PosixSend
  import Q = PosixReceive

  class WindowsSocket {
    var blocking: bool
    // the send side
    var sendQueue: seq<S.Chunk>
    var bufferAvailable: bool
    var sendScript: seq<Answer<nat>>
    var wire: seq<Byte>
    var sendSettled: seq<S.Settled>
    var sendIssued: nat
    // the receive side
    var requests: seq<nat>
    var chunk: seq<Byte>
    var dataAvailable: bool
    var receiveScript: seq<Answer<R.Packet>>
    var received: seq<Byte>
    var receiveSettled: seq<R.Settled>
    var receiveIssued: nat

    ghost function Sending(): S.State
      reads this
    {
      S.State(sendQueue, bufferAvailable, blocking, sendScript, wire, sendSettled, sendIssued)
    }

    ghost function Receiving(): R.State
      reads this
    {
      R.State(requests, chunk, dataAvailable, blocking, receiveScript, received, receiveSettled, receiveIssued)
    }

    constructor (blocking: bool, sendScript: seq<Answer<nat>>, receiveScript: seq<Answer<R.Packet>>)
      ensures Sending() == S.State([], true, blocking, sendScript, [], [], 0) && S.Conserved(Sending())
      ensures Receiving() == R.State([], [], false, blocking, receiveScript, [], [], 0) && R.Balanced(Receiving())
    {
      this.blocking := blocking;
      sendQueue, bufferAvailable, this.sendScript, wire, sendSettled, sendIssued := [], true, sendScript, [], [], 0;
      requests, chunk, dataAvailable, this.receiveScript := [], [], false, receiveScript;
      received, receiveSettled, receiveIssued := [], [], 0;
    }

    method SetBlockingMode(isBlocking: bool)
      requires S.Valid(Sending())
      modifies this`blocking
      ensures Sending() == S.Handle(Windows, old(Sending()), S.SetBlocking(isBlocking))
      ensures Receiving() == R.Handle(Windows, old(Receiving()), R.SetBlocking(isBlocking))
    {
      blocking := isBlocking;
    }

    /** `WSASend` on the unsent part of the front chunk. */
    method SystemSend() returns (reading: S.Reading)
      requires S.Valid(Sending()) && sendQueue != []
      modifies this`sendQueue, this`bufferAvailable, this`sendScript, this`wire
      ensures (Sending(), reading) == S.Call(Windows, old(Sending()))
    {
      var front := sendQueue[0];
      var answer := if sendScript == [] then WouldBlock else sendScript[0];
      sendScript := if sendScript == [] then [] else sendScript[1..];
      reading := S.Read(Windows, |front.data| - front.sent, answer);
      match reading
      case Sent(k) =>
        sendQueue := [front.(sent := front.sent + k)] + sendQueue[1..];
        wire := wire + front.data[front.sent..front.sent + k];
      case Nothing =>
        bufferAvailable := false;
      case Failed(_) =>
    }

    method SendDataTo()
      requires S.Valid(Sending()) && sendQueue != []
      modifies this`sendQueue, this`bufferAvailable, this`sendScript, this`wire, this`sendSettled
      ensures Sending() == S.SendFront(Windows, old(Sending()))
    {
      var reading := SystemSend();
      while reading.Sent? && !blocking && sendQueue[0].sent < |sendQueue[0].data|
        invariant S.Valid(Sending()) && sendQueue != [] && sendSettled == old(sendSettled)
        invariant S.Transmit(Windows, old(Sending())) ==
          if reading.Sent? && !blocking && sendQueue[0].sent < |sendQueue[0].data|
          then S.Transmit(Windows, Sending()) else (Sending(), reading)
        decreases |sendScript|, reading.Sent?
      {
        reading := SystemSend();
      }
      var front := sendQueue[0];
      if reading.Failed? {
        sendSettled := sendSettled + [S.Settled(front.promise, front.data, front.sent, S.Error(reading.error))];
        sendQueue := sendQueue[1..];
      } else if front.sent == |front.data| {
        sendSettled := sendSettled + [S.Settled(front.promise, front.data, front.sent, S.Success)];
        sendQueue := sendQueue[1..];
      }
    }

    method OnSocketBufferAvailable()
      requires S.Valid(Sending())
      modifies this`sendQueue, this`bufferAvailable, this`sendScript, this`wire, this`sendSettled
      ensures Sending() == S.OnBufferAvailable(Windows, old(Sending()))
    {
      bufferAvailable := true;
      ghost var entry := Sending();
      var cut := false;
      while sendQueue != [] && !cut
        invariant S.Valid(Sending())
        invariant S.SendAll(Windows, entry) == if cut then Sending() else S.SendAll(Windows, Sending())
        decreases |sendScript|, !cut
      {
        cut := blocking || sendScript == [];
        SendDataTo();
      }
    }

    method EnqueueChunk(data: seq<Byte>)
      requires S.Valid(Sending())
      modifies this`sendQueue, this`sendIssued
      ensures Sending() == S.Enqueue(old(Sending()), data)
    {
      sendQueue := sendQueue + [S.Chunk(data, sendIssued, 0)];
      sendIssued := sendIssued + 1;
    }

    method SendAsync(data: seq<Byte>)
      requires S.Valid(Sending())
      modifies this`sendQueue, this`bufferAvailable, this`sendScript, this`wire, this`sendSettled, this`sendIssued
      ensures Sending() == S.SendAsync(Windows, old(Sending()), data)
    {
      EnqueueChunk(data);
      if bufferAvailable {
        SendDataTo();
      }
    }

    /** `WSARecv` into the collecting buffer. */
    method SystemReceive() returns (reading: R.Reading)
      modifies this`chunk, this`dataAvailable, this`receiveScript, this`received
      ensures (Receiving(), reading) == R.Call(Windows, old(Receiving()))
    {
      var answer := if receiveScript == [] then WouldBlock else receiveScript[0];
      receiveScript := if receiveScript == [] then [] else receiveScript[1..];
      reading := R.Read(Windows, answer);
      match reading
      case Received(bytes) =>
        chunk := chunk + bytes;
        received := received + bytes;
      case Nothing =>
        dataAvailable := false;
      case Failed(_) =>
    }

    method ReadDataFrom()
      requires requests != []
      modifies this`requests, this`chunk, this`dataAvailable, this`receiveScript, this`received, this`receiveSettled
      ensures Receiving() == R.ReadFront(Windows, old(Receiving()))
    {
      var promise := requests[0];
      var reading := SystemReceive();
      while reading.Received? && !blocking
        invariant R.Collect(Windows, old(Receiving())) ==
          if reading.Received? && !blocking then R.Collect(Windows, Receiving()) else (Receiving(), reading)
        invariant requests == old(requests) && receiveSettled == old(receiveSettled)
        decreases |receiveScript|, reading.Received?
      {
        reading := SystemReceive();
      }
      if reading.Failed? {
        receiveSettled := receiveSettled + [R.Error(promise, reading.error, chunk)];
        chunk := [];
        requests := requests[1..];
      } else if chunk != [] {
        receiveSettled := receiveSettled + [R.Value(promise, chunk)];
        chunk := [];
        requests := requests[1..];
      }
    }

    method OnSocketDataAvailable()
      modifies this`requests, this`chunk, this`dataAvailable, this`receiveScript, this`received, this`receiveSettled
      ensures Receiving() == R.Handle(Windows, old(Receiving()), R.DataAvailable)
    {
      dataAvailable := true;
      ghost var entry := Receiving();
      var cut := false;
      while requests != [] && !cut
        invariant R.ReadAll(Windows, entry) == if cut then Receiving() else R.ReadAll(Windows, Receiving())
        decreases |receiveScript|, !cut
      {
        cut := blocking || receiveScript == [];
        ReadDataFrom();
      }
    }

    method ReceiveAsync()
      modifies this`requests, this`chunk, this`dataAvailable, this`receiveScript, this`received
      modifies this`receiveSettled, this`receiveIssued
      ensures Receiving() == R.Handle(Windows, old(Receiving()), R.Async)
    {
      requests := requests + [receiveIssued];
      receiveIssued := receiveIssued + 1;
      if dataAvailable {
        ReadDataFrom();
      }
    }
  }

  /** All Posix sockets of a process, with the variable their send handlers share. */
  class PosixSockets {
    var sockets: seq<S.State>
    var currentSentChunkDataSize: nat

    ghost function View(): P.Net
      reads this
    {
      P.Net(sockets, currentSentChunkDataSize)
    }

    constructor (sockets: seq<S.State>)
      requires P.NetValid(P.Net(sockets, 0))
      ensures View() == P.Net(sockets, 0)
    {
      this.sockets := sockets;
      currentSentChunkDataSize := 0;
    }

    method SendAsync(i: nat, data: seq<Byte>)
      requires P.NetValid(View()) && i < |sockets|
      modifies this`sockets
      ensures View() == P.Happen(old(View()), P.NetEvent.Async(i, data))
    {
      var s := sockets[i];
      sockets := sockets[i := s.(queue := s.queue + [S.Chunk(data, s.issued, 0)], issued := s.issued + 1)];
    }

    method SetBlockingMode(i: nat, isBlocking: bool)
      requires P.NetValid(View()) && i < |sockets|
      modifies this`sockets
      ensures View() == P.Happen(old(View()), P.NetEvent.SetBlocking(i, isBlocking))
    {
      sockets := sockets[i := sockets[i].(blocking := isBlocking)];
    }

    /** `send` on the part of the front chunk behind the shared offset. `overrun`: the offset lies
        beyond the end of the chunk, where the source reads outside of it; the model stops there. */
    method SystemSend(i: nat) returns (overrun: bool, reading: S.Reading)
      requires i < |sockets| && P.Unmarked(sockets[i]) && sockets[i].queue != []
      modifies this
      ensures |sockets| == |old(sockets)| && sockets == old(sockets)[i := sockets[i]]
      ensures overrun <==> !P.Fits(old(sockets)[i], old(currentSentChunkDataSize))
      ensures if overrun then View() == old(View())
              else (sockets[i], currentSentChunkDataSize, reading)
                   == P.Call(old(sockets)[i], old(currentSentChunkDataSize))
    {
      var s := sockets[i];
      var data := s.queue[0].data;
      overrun, reading := currentSentChunkDataSize > |data|, S.Nothing;
      if overrun {
        return;
      }
      reading := S.Read(Posix, |data| - currentSentChunkDataSize, S.NextAnswer(s));
      match reading {
        case Sent(k) =>
          s := S.Rest(s).(wire := s.wire + data[currentSentChunkDataSize..currentSentChunkDataSize + k]);
          currentSentChunkDataSize := currentSentChunkDataSize + k;
        case Nothing =>
          s := S.Rest(s).(available := false);
        case Failed(_) =>
          s := S.Rest(s);
      }
      sockets := sockets[i := s];
    }

    /** The body of the handler's outer loop: write to the front chunk, then settle its promise. */
    method SendFront(i: nat) returns (overrun: bool)
      requires i < |sockets| && P.Unmarked(sockets[i]) && sockets[i].queue != []
      modifies this
      ensures |sockets| == |old(sockets)| && sockets == old(sockets)[i := sockets[i]]
      ensures overrun <==> !P.Fits(old(sockets)[i], old(currentSentChunkDataSize))
      ensures if overrun then View() == old(View())
              else (sockets[i], currentSentChunkDataSize)
                   == P.SendFront(old(sockets)[i], old(currentSentChunkDataSize))
    {
      var front := sockets[i].queue[0];
      var reading;
      overrun, reading := SystemSend(i);
      if overrun {
        return;
      }
      while reading.Sent? && !sockets[i].blocking && currentSentChunkDataSize < |front.data|
        invariant |sockets| == |old(sockets)| && sockets == old(sockets)[i := sockets[i]]
        invariant P.Unmarked(sockets[i]) && sockets[i].queue == old(sockets)[i].queue
        invariant currentSentChunkDataSize <= |front.data| && !overrun
        invariant P.Transmit(old(sockets)[i], old(currentSentChunkDataSize)) ==
          if reading.Sent? && !sockets[i].blocking && currentSentChunkDataSize < |front.data|
          then P.Transmit(sockets[i], currentSentChunkDataSize)
          else (sockets[i], currentSentChunkDataSize, reading)
        decreases |sockets[i].script|, reading.Sent?
      {
        overrun, reading := SystemSend(i);
      }
      var s := sockets[i];
      var sent := currentSentChunkDataSize;
      if reading.Failed? {
        currentSentChunkDataSize := 0;
        s := s.(queue := s.queue[1..],
                settled := s.settled + [S.Settled(front.promise, front.data, sent, S.Error(reading.error))]);
      } else if sent == |front.data| {
        currentSentChunkDataSize := 0;
        s := s.(queue := s.queue[1..],
                settled := s.settled + [S.Settled(front.promise, front.data, sent, S.Success)]);
      }
      sockets := sockets[i := s];
    }

    /** `onSocketBufferAvailable`; it overruns exactly when the offset another socket left behind
        exceeds the front chunk. */
    method OnSocketBufferAvailable(i: nat) returns (overrun: bool)
      requires P.NetValid(View()) && i < |sockets|
      modifies this
      ensures overrun <==> !P.Runnable(old(View()), P.NetEvent.BufferAvailable(i))
      ensures View() == if overrun then P.Net(old(sockets)[i := old(sockets)[i].(available := true)],
                                              old(currentSentChunkDataSize))
                        else P.Happen(old(View()), P.NetEvent.BufferAvailable(i))
    {
      sockets := sockets[i := sockets[i].(available := true)];
      ghost var entry, offset := sockets[i], currentSentChunkDataSize;
      overrun := false;
      var cut := false;
      while sockets[i].queue != [] && !cut
        invariant |sockets| == |old(sockets)| && sockets == old(sockets)[i := sockets[i]]
        invariant P.Unmarked(sockets[i]) && !overrun
        invariant if P.Fits(entry, offset)
                  then P.Fits(sockets[i], currentSentChunkDataSize)
                       && P.SendAll(entry, offset) == if cut then (sockets[i], currentSentChunkDataSize)
                                                      else P.SendAll(sockets[i], currentSentChunkDataSize)
                  else sockets[i] == entry && currentSentChunkDataSize == offset && !cut
        decreases |sockets[i].script|, !cut
      {
        cut := sockets[i].blocking || sockets[i].script == [];
        overrun := SendFront(i);
        if overrun {
          return;
        }
      }
    }
  }

  /** The receive sides of all Posix sockets, with the variable their handlers share. */
  class PosixReceivers {
    var sockets: seq<R.State>
    var chunk: seq<Byte>

    ghost function View(): Q.Net
      reads this
    {
      Q.Net(sockets, chunk)
    }

    /** The fields of the sockets leave what is being collected to the shared variable. */
    ghost predicate Valid()
      reads this
    {
      forall i :: 0 <= i < |sockets| ==> sockets[i].chunk == []
    }

    constructor (sockets: seq<R.State>)
      requires Q.Calm(Q.Net(sockets, []))
      ensures View() == Q.Net(sockets, []) && Valid()
    {
      this.sockets, chunk := sockets, [];
    }

    method ReceiveAsync(i: nat)
      requires Valid() && i < |sockets|
      modifies this`sockets
      ensures View() == Q.Happen(old(View()), Q.Async(i)) && Valid()
    {
      var s := sockets[i];
      sockets := sockets[i := s.(requests := s.requests + [s.issued], issued := s.issued + 1)];
    }

    method SetBlockingMode(i: nat, isBlocking: bool)
      requires Valid() && i < |sockets|
      modifies this`sockets
      ensures View() == Q.Happen(old(View()), Q.SetBlocking(i, isBlocking)) && Valid()
    {
      sockets := sockets[i := sockets[i].(blocking := isBlocking)];
    }

    /** `recv` into the shared variable. */
    method SystemReceive(i: nat) returns (reading: R.Reading)
      requires Valid() && i < |sockets|
      modifies this
      ensures Valid() && |sockets| == |old(sockets)| && sockets == old(sockets)[i := sockets[i]]
      ensures (Q.View(View(), i), reading) == R.Call(Posix, old(Q.View(View(), i)))
    {
      var s := sockets[i];
      reading := R.Read(Posix, if s.script == [] then WouldBlock else s.script[0]);
      s := s.(script := if s.script == [] then [] else s.script[1..]);
      match reading {
        case Received(bytes) =>
          chunk := chunk + bytes;
          s := s.(received := s.received + bytes);
        case Nothing =>
          s := s.(available := false);
        case Failed(_) =>
      }
      sockets := sockets[i := s];
    }

    /** The body of the handler's outer loop. */
    method ReadFront(i: nat)
      requires Valid() && i < |sockets| && sockets[i].requests != []
      modifies this
      ensures Valid() && |sockets| == |old(sockets)| && sockets == old(sockets)[i := sockets[i]]
      ensures Q.View(View(), i) == R.ReadFront(Posix, old(Q.View(View(), i)))
    {
      ghost var entry := Q.View(View(), i);
      var promise := sockets[i].requests[0];
      var reading := SystemReceive(i);
      while reading.Received? && !sockets[i].blocking
        invariant Valid() && |sockets| == |old(sockets)| && sockets == old(sockets)[i := sockets[i]]
        invariant R.Collect(Posix, entry) ==
          if reading.Received? && !sockets[i].blocking then R.Collect(Posix, Q.View(View(), i))
          else (Q.View(View(), i), reading)
        invariant sockets[i].requests == old(sockets[i].requests) && sockets[i].settled == old(sockets[i].settled)
        decreases |sockets[i].script|, reading.Received?
      {
        reading := SystemReceive(i);
      }
      hide R.Collect, R.Call;
      var s := sockets[i];
      if reading.Failed? {
        s := s.(requests := s.requests[1..], settled := s.settled + [R.Error(promise, reading.error, chunk)]);
        chunk := [];
      } else if chunk != [] {
        s := s.(requests := s.requests[1..], settled := s.settled + [R.Value(promise, chunk)]);
        chunk := [];
      }
      sockets := sockets[i := s];
    }

    /** `onSocketDataAvailable`. */
    method OnSocketDataAvailable(i: nat)
      requires Valid() && i < |sockets|
      modifies this
      ensures View() == Q.Happen(old(View()), Q.DataAvailable(i)) && Valid()
    {
      sockets := sockets[i := sockets[i].(available := true)];
      ghost var entry := Q.View(View(), i);
      var cut := false;
      while sockets[i].requests != [] && !cut
        invariant Valid() && |sockets| == |old(sockets)| && sockets == old(sockets)[i := sockets[i]]
        invariant R.ReadAll(Posix, entry) ==
          if cut then Q.View(View(), i) else R.ReadAll(Posix, Q.View(View(), i))
        decreases |sockets[i].script|, !cut
      {
        cut := sockets[i].blocking || sockets[i].script == [];
        ReadFront(i);
      }
      assert sockets[i] == Q.View(View(), i).(chunk := []);
    }
  }
}
