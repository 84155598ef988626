/** proxy/socket.go and proxy/socket_manager.go as objects. */
module Sockets {
  import opened Basics
  import opened Protobuf

  /** What one Read of the connection returns: bytes, or an error, which can come with bytes too. A
      connection that has nothing more to say errs. */
  datatype ReadResult = Data(bytes: seq<byte>) | ReadError(dropped: seq<byte>)

  /** What the reader of a socket does: it passes on what was read, which the listener accepts or
      refuses, or it reports that a read failed. */
  datatype Event = OnReadData(bytes: seq<byte>, accepted: bool) | OnReadError

  /** Whether the listener takes what the i-th read gave; it need not have an answer to all of them. */
  predicate IsAccepted(answers: seq<bool>, i: nat) {
    i < |answers| && answers[i]
  }

  /** The reads from `pos` on, and the answers of the listener to the calls they lead to. */
  function Trace(results: seq<ReadResult>, answers: seq<bool>, pos: nat): (t: seq<Event>)
    decreases |results| - pos
  {
    if pos >= |results| || results[pos].ReadError? then [OnReadError]
    else
      var accepted := IsAccepted(answers, pos);
      var event := OnReadData(results[pos].bytes, accepted);
      if accepted then [event] + Trace(results, answers, pos + 1) else [event]
  }

  function PassedOn(t: seq<Event>): seq<byte> {
    if t == [] then []
    else (if t[0].OnReadData? then t[0].bytes else []) + PassedOn(t[1..])
  }

  /** The bytes of those of the reads i..j that succeed. */
  function BytesRead(results: seq<ReadResult>, i: nat, j: nat): seq<byte>
    requires j <= |results|
    decreases j - i
  {
    if i >= j then []
    else (if results[i].Data? then results[i].bytes else []) + BytesRead(results, i + 1, j)
  }

  /** How many of the reads were successful. */
  function DataEvents(t: seq<Event>): nat {
    if t == [] then 0 else (if t[0].OnReadData? then 1 else 0) + DataEvents(t[1..])
  }

  /** A run passes on the bytes of the reads that succeed, all of them, once and in order. What comes
      with the error of the last read is dropped, as the program drops it. */
  lemma {:induction false} TracePassesOnWhatIsRead(results: seq<ReadResult>, answers: seq<bool>, pos: nat)
    requires pos <= |results|
    ensures var t := Trace(results, answers, pos);
            && pos + DataEvents(t) <= |results|
            && PassedOn(t) == BytesRead(results, pos, pos + DataEvents(t))
    decreases |results| - pos
  {
    if pos < |results| && results[pos].Data? {
      var accepted := IsAccepted(answers, pos);
      var event := OnReadData(results[pos].bytes, accepted);
      if accepted {
        TracePassesOnWhatIsRead(results, answers, pos + 1);
        assert ([event] + Trace(results, answers, pos + 1))[1..] == Trace(results, answers, pos + 1);
      } else {
        assert [event][1..] == [];
        assert BytesRead(results, pos + 1, pos + 1) == [];
      }
    }
  }

  /** Each call passes on what its read gave, and the listener answered as it did. */
  ghost predicate OneCallPerRead(results: seq<ReadResult>, answers: seq<bool>, pos: nat, t: seq<Event>) {
    && pos + DataEvents(t) <= |results| && DataEvents(t) <= |t|
    && forall p :: pos <= p < pos + DataEvents(t) ==>
         results[p].Data? && t[p - pos] == OnReadData(results[p].bytes, IsAccepted(answers, p))
  }

  /** All calls but the last are accepted reads; the last is a refused one, or the report of an error,
      and that because the next read failed. */
  ghost predicate EndsAsItShould(results: seq<ReadResult>, pos: nat, t: seq<Event>) {
    && t != []
    && (forall i :: 0 <= i < |t| - 1 ==> t[i].OnReadData? && t[i].accepted)
    && match t[|t| - 1]
       case OnReadData(_, accepted) => !accepted && DataEvents(t) == |t|
       case OnReadError =>
         && DataEvents(t) == |t| - 1 && pos + DataEvents(t) <= |results|
         && (pos + DataEvents(t) == |results| || results[pos + DataEvents(t)].ReadError?)
  }

  lemma OneCallMore(results: seq<ReadResult>, answers: seq<bool>, pos: nat, rest: seq<Event>)
    requires pos < |results| && results[pos].Data? && OneCallPerRead(results, answers, pos + 1, rest)
    ensures OneCallPerRead(results, answers, pos, [OnReadData(results[pos].bytes, IsAccepted(answers, pos))] + rest)
  {
    var t := [OnReadData(results[pos].bytes, IsAccepted(answers, pos))] + rest;
    assert t[1..] == rest;
    forall p | pos <= p < pos + DataEvents(t)
      ensures results[p].Data? && t[p - pos] == OnReadData(results[p].bytes, IsAccepted(answers, p))
    {
      assert p > pos ==> t[p - pos] == rest[p - (pos + 1)];
    }
  }

  lemma GoesOnToItsEnd(results: seq<ReadResult>, pos: nat, event: Event, rest: seq<Event>)
    requires event.OnReadData? && event.accepted && EndsAsItShould(results, pos + 1, rest)
    ensures EndsAsItShould(results, pos, [event] + rest)
  {
    assert ([event] + rest)[1..] == rest;
  }

  /** A run of the reader: one call for each read, in order, and an end only at the first refusal or at
      the first read that fails. */
  lemma {:induction false} TraceEnds(results: seq<ReadResult>, answers: seq<bool>, pos: nat)
    requires pos <= |results|
    ensures OneCallPerRead(results, answers, pos, Trace(results, answers, pos))
    ensures EndsAsItShould(results, pos, Trace(results, answers, pos))
    decreases |results| - pos
  {
    if pos < |results| && results[pos].Data? {
      var event := OnReadData(results[pos].bytes, IsAccepted(answers, pos));
      if event.accepted {
        TraceEnds(results, answers, pos + 1);
        OneCallMore(results, answers, pos, Trace(results, answers, pos + 1));
        GoesOnToItsEnd(results, pos, event, Trace(results, answers, pos + 1));
      } else {
        assert [event][1..] == [];
      }
    }
  }

  /** The reader does not give up: as long as reads succeed and are accepted it goes on. */
  lemma TraceGoesOn(results: seq<ReadResult>, answers: seq<bool>, pos: nat, j: nat)
    requires pos <= j <= |results|
    requires forall i :: pos <= i < j ==> results[i].Data? && IsAccepted(answers, i)
    ensures DataEvents(Trace(results, answers, pos)) >= j - pos
  {
    TraceEnds(results, answers, pos);
    var t := Trace(results, answers, pos);
    if t[|t| - 1].OnReadData? {
      assert t[pos + |t| - 1 - pos].accepted == IsAccepted(answers, pos + |t| - 1);
    }
  }

  /** The trace of a reader whose connection was closed after some reads, or not at all. */
  ghost predicate ReadSoFar(trace: seq<Event>, results: seq<ReadResult>, answers: seq<bool>) {
    exists limit :: 0 <= limit <= |results| && trace == Trace(results[..limit], answers, 0)
  }

  class LocalSocket {
    const streamID: int32
    /** What the connection and the listener will answer to this socket. */
    const results: seq<ReadResult>
    const answers: seq<bool>
    var closed: bool
    var terminated: bool
    var trace: seq<Event>
    ghost var handed: seq<seq<byte>>

    /** A reader that has ended has read so far, and then an error: that of the connection, or that of
        its being closed. */
    ghost predicate Valid()
      reads this
    {
      terminated ==> closed && ReadSoFar(trace, results, answers)
    }

    constructor (streamID: int32, results: seq<ReadResult>, answers: seq<bool>)
      ensures Valid() && !closed && !terminated && handed == []
      ensures this.streamID == streamID && this.results == results && this.answers == answers
    {
      this.streamID := streamID;
      this.results := results;
      this.answers := answers;
      closed := false;
      terminated := false;
      trace := [];
      handed := [];
    }

    /** suck: read and pass on until a read or the listener fails; `pos` counts the reads, of which
        those from `limit` on are made on a connection that has been closed. */
    method Suck(limit: nat)
      requires limit <= |results|
      modifies this`trace
      ensures trace == Trace(results[..limit], answers, 0)
    {
      trace := [];
      var pos := 0;
      while true
        invariant pos <= limit
        invariant trace + Trace(results[..limit], answers, pos) == Trace(results[..limit], answers, 0)
        decreases limit - pos
      {
        if pos == limit || results[pos].ReadError? {
          trace := trace + [OnReadError];
          return;
        }
        var readBuf := results[pos].bytes;
        var accepted := IsAccepted(answers, pos);
        trace := trace + [OnReadData(readBuf, accepted)];
        if !accepted {
          return;
        }
        pos := pos + 1;
      }
    }

    /** The goroutine of Start: suck, close the connection, close chTerminate. */
    method RunReader(limit: nat)
      requires Valid() && !terminated && limit <= |results|
      modifies this
      ensures Valid() && terminated && closed
      ensures trace == Trace(results[..limit], answers, 0)
      ensures handed == old(handed)
    {
      Suck(limit);
      closed := true;
      terminated := true;
    }

    /** The payload is handed to the connection, which takes it or fails. */
    method Write(p: seq<byte>, taken: bool) returns (ok: bool)
      requires Valid()
      modifies this`handed
      ensures Valid() && handed == old(handed) + [p] && ok == taken
    {
      handed := handed + [p];
      ok := taken;
    }

    /** Close the connection, which lets its pending and later reads fail, and wait for the reader. It may
        have made any number of reads before. */
    method Stop()
      requires Valid()
      modifies this
      ensures Valid() && terminated && closed
      ensures handed == old(handed)
      ensures old(terminated) ==> trace == old(trace)
    {
      closed := true;
      if !terminated {
        var made :| 0 <= made <= |results|;
        RunReader(made);
      }
    }
  }

  class LocalSocketManager {
    var socketMap: map<int32, LocalSocket>

    ghost predicate Valid()
      reads this, socketMap.Values
    {
      && (forall id :: id in socketMap ==> socketMap[id].Valid() && socketMap[id].streamID == id)
    }

    constructor ()
      ensures Valid() && socketMap == map[]
    {
      socketMap := map[];
    }

    /** An id that is taken is refused, and nothing changes; otherwise a new socket on the connection is
        registered. */
    method StartSocket(streamID: int32, results: seq<ReadResult>, answers: seq<bool>) returns (ok: bool)
      requires Valid()
      modifies this
      ensures Valid()
      ensures ok <==> streamID !in old(socketMap)
      ensures !ok ==> socketMap == old(socketMap)
      ensures ok ==>
                && streamID in socketMap && socketMap == old(socketMap)[streamID := socketMap[streamID]]
                && var socket := socketMap[streamID];
                   && fresh(socket) && socket.results == results && socket.answers == answers
                   && !socket.terminated && socket.handed == []
    {
      var socket := new LocalSocket(streamID, results, answers);
      if streamID in socketMap {
        return false;
      }
      socketMap := socketMap[streamID := socket];
      return true;
    }

    /** Only the socket of the stream is written to; the call fails if there is none, or if its
        connection fails. */
    method Write(streamID: int32, data: seq<byte>, taken: bool) returns (ok: bool)
      requires Valid()
      modifies set id | id in socketMap :: socketMap[id]
      ensures Valid() && socketMap == old(socketMap)
      ensures ok <==> streamID in socketMap && taken
      ensures streamID in socketMap ==> socketMap[streamID].handed == old(socketMap[streamID].handed) + [data]
      ensures forall id :: id in socketMap && id != streamID ==> socketMap[id].handed == old(socketMap[id].handed)
    {
      if streamID !in socketMap {
        return false;
      }
      ok := socketMap[streamID].Write(data, taken);
    }

    method StopSocket(streamID: int32)
      requires Valid()
      modifies this, socketMap.Values
      ensures Valid() && socketMap == old(socketMap) - {streamID}
      ensures streamID in old(socketMap) ==> old(socketMap)[streamID].terminated && old(socketMap)[streamID].closed
      ensures forall id :: id in socketMap ==> socketMap[id].terminated == old(socketMap[id].terminated)
    {
      if streamID in socketMap {
        socketMap[streamID].Stop();
        socketMap := socketMap - {streamID};
      }
    }

    /** Stop and delete one after another, in any order, until the map is empty. */
    method StopAll()
      requires Valid()
      modifies this, socketMap.Values
      ensures Valid() && socketMap == map[]
      ensures forall id :: id in old(socketMap) ==> old(socketMap)[id].terminated && old(socketMap)[id].closed
    {
      ghost var all := socketMap;
      while socketMap != map[]
        invariant Valid()
        invariant socketMap.Values <= all.Values
        invariant forall id :: id in socketMap ==> id in all && all[id] == socketMap[id]
        invariant forall id :: id in all ==> all[id].streamID == id
        invariant forall id :: id in all && id !in socketMap ==> all[id].terminated && all[id].closed
        decreases socketMap.Keys
      {
        var streamID :| streamID in socketMap;
        socketMap[streamID].Stop();
        socketMap := socketMap - {streamID};
      }
    }
  }
}
