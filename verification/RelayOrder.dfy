/** What the relay puts on a wire and in which order, over any run. */
module RelayOrder {
  import opened Protobuf
  import opened Relay
  import RelayPairing

  // ---------------------------------------------------------------------------
  //  One connection: queue, writer, wire
  // ---------------------------------------------------------------------------

  function Frames(entries: seq<Entry>): seq<Frame> {
    if entries == [] then []
    else Frames(entries[..|entries| - 1]) + [Relayed(entries[|entries| - 1].message)]
  }

  lemma FramesOfMore(entries: seq<Entry>, e: Entry)
    ensures Frames(entries + [e]) == Frames(entries) + [Relayed(e.message)]
  {
    assert (entries + [e])[..|entries|] == entries;
  }

  /** The entry a writer has taken and not written, or never will. */
  function Hand(pc: WriterPc): seq<Entry> {
    match pc
    case WWriting(e) => [e]
    case WEnded(lost) => lost
    case _ => []
  }

  /** Before SERVICE_IDS is written. */
  predicate Early(pc: MainPc) {
    pc.CWant? || pc.CClose? || pc.CSelf? || pc.COther? || pc.CPut? || pc.RIds?
  }

  /** Everything queued is written, in the writer's hand, or still in the channel, in this order;
      the wire is empty, or SERVICE_IDS and then what was written. */
  predicate FlowOf(ch: Channel, o: Out, writer: WriterPc, pc: MainPc) {
    && ch.queued == o.written + Hand(writer) + ch.queue
    && |ch.queue| <= CH_SIZE
    && (o.wire == [] ==> writer.WOff?)
    && (o.wire != [] ==> o.wire == [ServiceIds] + Frames(o.written))
    && (writer.WOff? ==> o.written == [])
    && (Early(pc) ==> o.wire == [])
    && (pc.RSpawn? ==> o.wire == [ServiceIds] && writer.WOff?)
  }

  ghost predicate Flow(channels: seq<Channel>, outs: seq<Out>, writers: seq<WriterPc>, mains: seq<MainPc>) {
    forall c :: 0 <= c < |channels| && c < |outs| && c < |writers| && c < |mains| ==>
      FlowOf(channels[c], outs[c], writers[c], mains[c])
  }

  // ---------------------------------------------------------------------------
  //  A sender and a target
  // ---------------------------------------------------------------------------

  /** The places of a target in a log, and of a sender in a queue. */
  function Positions(log: seq<Target>, t: nat): seq<nat> {
    if log == [] then []
    else
      var n := |log| - 1;
      Positions(log[..n], t) + if log[n] == Peer(t) then [n] else []
  }

  function FromSender(queued: seq<Entry>, sender: nat): seq<nat> {
    if queued == [] then []
    else
      var n := |queued| - 1;
      FromSender(queued[..n], sender) + if queued[n].sender == sender then [queued[n].index] else []
  }

  lemma PositionsOfMore(log: seq<Target>, target: Target, t: nat)
    ensures Positions(log + [target], t) == Positions(log, t) + if target == Peer(t) then [|log|] else []
  {
    assert (log + [target])[..|log|] == log;
  }

  lemma FromSenderOfMore(queued: seq<Entry>, e: Entry, sender: nat)
    ensures FromSender(queued + [e], sender)
         == FromSender(queued, sender) + if e.sender == sender then [e.index] else []
  {
    assert (queued + [e])[..|queued|] == queued;
  }

  /** The log without the message that its reader is just sending. */
  function Posted(log: seq<Target>, reader: ReaderPc): seq<Target> {
    if reader.RSending? && log != [] then log[..|log| - 1] else log
  }

  /** What a reader has read and what it has disposed of. */
  predicate ReadOf(i: In, reader: ReaderPc, pc: MainPc) {
    && |i.heard| == |i.log| + (if reader.RForward? then 1 else 0)
    && (reader.RSending? ==> i.log != [] && i.log[|i.log| - 1] == reader.target)
    && (Early(pc) || pc.RSpawn? ==> reader.ROff?)
    && (reader.ROff? ==> i.log == [])
  }

  ghost predicate Reads(ins: seq<In>, readers: seq<ReaderPc>, mains: seq<MainPc>) {
    forall c :: 0 <= c < |ins| && c < |readers| && c < |mains| ==> ReadOf(ins[c], readers[c], mains[c])
  }

  predicate SliceOf(sender: nat, i: In, reader: ReaderPc, t: nat, queued: seq<Entry>) {
    FromSender(queued, sender) == Positions(Posted(i.log, reader), t)
  }

  /** A queue holds, of each sender, what that sender has posted to it, in order. */
  ghost predicate Slices(channels: seq<Channel>, ins: seq<In>, readers: seq<ReaderPc>) {
    forall x, t :: 0 <= x < |ins| && x < |readers| && 0 <= t < |channels| ==>
      SliceOf(x, ins[x], readers[x], t, channels[t].queued)
  }

  /** Every entry is a message its sender has read. */
  predicate EntryOf(e: Entry, ins: seq<In>) {
    e.sender < |ins| && e.index < |ins[e.sender].heard| && e.message == ins[e.sender].heard[e.index]
  }

  ghost predicate Entries(channels: seq<Channel>, ins: seq<In>) {
    forall t, i :: 0 <= t < |channels| && 0 <= i < |channels[t].queued| ==> EntryOf(channels[t].queued[i], ins)
  }

  // ---------------------------------------------------------------------------
  //  Targets come and go once
  // ---------------------------------------------------------------------------

  /** A connection nobody has been associated with yet. */
  predicate Fresh(x: nat, mains: seq<MainPc>) {
    x >= |mains| || mains[x].CWant? || mains[x].CClose? || mains[x].CSelf? || mains[x].COther?
  }

  predicate Contiguous(log: seq<Target>) {
    forall i, j, k :: 0 <= i <= j <= k < |log| && log[i].Peer? && log[i] == log[k] ==> log[j] == log[i]
  }

  /** Once a target has been left it does not come back; if it is the present one it has been so
      since it first was. */
  predicate LogOf(log: seq<Target>, assoc: Target) {
    && Contiguous(log)
    && (forall i, j :: 0 <= i <= j < |log| && assoc.Peer? && log[i] == assoc ==> log[j] == assoc)
  }

  ghost predicate Logs(ins: seq<In>, assoc: seq<Target>) {
    forall c :: 0 <= c < |ins| && c < |assoc| ==> LogOf(ins[c].log, assoc[c])
  }

  ghost predicate NoFresh(ins: seq<In>, assoc: seq<Target>, mains: seq<MainPc>) {
    && (forall c :: 0 <= c < |assoc| && assoc[c].Peer? ==> !Fresh(assoc[c].c, mains))
    && (forall c, i :: 0 <= c < |ins| && 0 <= i < |ins[c].log| && ins[c].log[i].Peer? ==>
          !Fresh(ins[c].log[i].c, mains))
  }

  ghost predicate FlowOk(s: State) {
    Flow(s.channels, s.outs, s.writers, s.mains)
  }

  ghost predicate ReadsOk(s: State) {
    Reads(s.ins, s.readers, s.mains)
  }

  ghost predicate SlicesOk(s: State) {
    Slices(s.channels, s.ins, s.readers)
  }

  ghost predicate EntriesOk(s: State) {
    Entries(s.channels, s.ins)
  }

  ghost predicate LogsOk(s: State) {
    Logs(s.ins, s.assoc) && NoFresh(s.ins, s.assoc, s.mains)
  }

  ghost predicate Inv(s: State) {
    RelayPairing.Inv(s) && FlowOk(s) && ReadsOk(s) && SlicesOk(s) && EntriesOk(s) && LogsOk(s)
  }

  lemma InvInit()
    ensures Inv(INIT)
  {
  }

  // ---------------------------------------------------------------------------
  //  Steps of a reader
  // ---------------------------------------------------------------------------

  lemma ReaderKeepsFlow(s: State, c: nat, ok: bool, m: TunnelMessage)
    requires RelayPairing.SameLengths(s) && FlowOk(s) && Exists(s, c)
    ensures FlowOk(ReaderStep(s, c, ok, m))
  {
    var n := ReaderStep(s, c, ok, m);
    forall x | 0 <= x < |n.channels| ensures FlowOf(n.channels[x], n.outs[x], n.writers[x], n.mains[x]) {
      assert FlowOf(s.channels[x], s.outs[x], s.writers[x], s.mains[x]);
    }
  }

  lemma ReaderKeepsReads(s: State, c: nat, ok: bool, m: TunnelMessage)
    requires RelayPairing.SameLengths(s) && ReadsOk(s) && Exists(s, c)
    ensures ReadsOk(ReaderStep(s, c, ok, m))
  {
    var n := ReaderStep(s, c, ok, m);
    forall x | 0 <= x < |n.ins| ensures ReadOf(n.ins[x], n.readers[x], n.mains[x]) {
      assert ReadOf(s.ins[x], s.readers[x], s.mains[x]);
    }
  }

  lemma ReaderKeepsLogs(s: State, c: nat, ok: bool, m: TunnelMessage)
    requires RelayPairing.SameLengths(s) && LogsOk(s) && Exists(s, c)
    ensures LogsOk(ReaderStep(s, c, ok, m))
  {
    var n := ReaderStep(s, c, ok, m);
    forall x | 0 <= x < |n.ins| ensures LogOf(n.ins[x].log, n.assoc[x]) {
      assert LogOf(s.ins[x].log, s.assoc[x]);
    }
  }

  /** The four ways a reader moves that matter to what it has posted. */
  lemma PostedOnLook(log: seq<Target>, target: Target)
    ensures Posted(log + [target], RSending(target)) == log
  {
  }

  lemma PostedOnDone(log: seq<Target>, target: Target, t: nat)
    requires log != [] && log[|log| - 1] == target
    ensures Positions(Posted(log, RReading), t)
         == Positions(Posted(log, RSending(target)), t) + if target == Peer(t) then [|log| - 1] else []
  {
    var rest := log[..|log| - 1];
    assert log == rest + [target];
    PositionsOfMore(rest, target, t);
  }

  /** A reader that is not sending. */
  lemma ReadingEffect(s: State, c: nat, ok: bool, m: TunnelMessage)
    requires Exists(s, c) && !s.readers[c].RSending?
    ensures var n := ReaderStep(s, c, ok, m);
            && n.channels == s.channels
            && if s.readers[c].RForward? then
                 n.ins[c].log == s.ins[c].log + [s.assoc[c]] && n.readers[c] == RSending(s.assoc[c])
               else n.ins[c].log == s.ins[c].log && !n.readers[c].RSending?
  {
    assert s.channels[c := s.channels[c]] == s.channels;
  }

  /** A reader that is sending either stays there, or has put its message into the queue of a target, or
      has had the nil writer. */
  lemma SendingEffect(s: State, c: nat, ok: bool, m: TunnelMessage, t: nat)
    requires Exists(s, c) && s.readers[c].RSending? && t < |s.channels|
    ensures var n, target := ReaderStep(s, c, ok, m), s.readers[c].target;
            var queued, log, heard := s.channels[t].queued, s.ins[c].log, s.ins[c].heard;
            && n.ins[c].log == log
            && if n.readers[c].RSending? then n.readers[c] == s.readers[c] && n.channels[t].queued == queued
               else if target == Peer(t) then
                 && n.readers[c] == RReading && log != [] && heard != []
                 && n.channels[t].queued == queued + [Entry(c, |log| - 1, heard[|heard| - 1])]
               else n.readers[c] == RReading && n.channels[t].queued == queued
  {
  }

  lemma ReaderKeepsSlice(s: State, c: nat, ok: bool, m: TunnelMessage, t: nat)
    requires Exists(s, c) && t < |s.channels|
    requires ReadOf(s.ins[c], s.readers[c], s.mains[c])
    requires SliceOf(c, s.ins[c], s.readers[c], t, s.channels[t].queued)
    ensures var n := ReaderStep(s, c, ok, m); SliceOf(c, n.ins[c], n.readers[c], t, n.channels[t].queued)
  {
    var n := ReaderStep(s, c, ok, m);
    if s.readers[c].RSending? {
      SendingEffect(s, c, ok, m, t);
    } else {
      ReadingEffect(s, c, ok, m);
    }
    SliceAcross(c, s.ins[c], s.readers[c], n.ins[c], n.readers[c], t,
                s.channels[t].queued, n.channels[t].queued, s.assoc[c]);
  }

  lemma SliceAcross(c: nat, i: In, r: ReaderPc, i': In, r': ReaderPc, t: nat,
                    queued: seq<Entry>, queued': seq<Entry>, assoc: Target)
    requires SliceOf(c, i, r, t, queued)
    requires r.RSending? ==> i.log != [] && i.log[|i.log| - 1] == r.target
    requires match r
             case RForward => i'.log == i.log + [assoc] && r' == RSending(assoc) && queued' == queued
             case RSending(target) =>
               && i'.log == i.log
               && if r'.RSending? then r' == r && queued' == queued
                  else if target == Peer(t) then
                    && r' == RReading && i.heard != []
                    && queued' == queued + [Entry(c, |i.log| - 1, i.heard[|i.heard| - 1])]
                  else r' == RReading && queued' == queued
             case _ => i'.log == i.log && !r'.RSending? && queued' == queued
    ensures SliceOf(c, i', r', t, queued')
  {
    match r
    case RForward => PostedOnLook(i.log, assoc);
    case RSending(target) =>
      PostedOnDone(i.log, target, t);
      if !r'.RSending? && target == Peer(t) {
        FromSenderOfMore(queued, Entry(c, |i.log| - 1, i.heard[|i.heard| - 1]), c);
      }
    case _ =>
  }

  lemma ReaderKeepsOtherSlice(s: State, c: nat, ok: bool, m: TunnelMessage, x: nat, t: nat)
    requires Exists(s, c) && t < |s.channels| && x != c
    ensures var n := ReaderStep(s, c, ok, m); FromSender(n.channels[t].queued, x) == FromSender(s.channels[t].queued, x)
  {
    if ReaderMove(s, c, ok, m).Go? && ReaderMove(s, c, ok, m).act.Send? {
      FromSenderOfMore(s.channels[t].queued, ReaderMove(s, c, ok, m).act.entry, x);
    }
  }

  lemma ReaderKeepsSlices(s: State, c: nat, ok: bool, m: TunnelMessage)
    requires RelayPairing.SameLengths(s) && ReadsOk(s) && SlicesOk(s) && Exists(s, c)
    ensures SlicesOk(ReaderStep(s, c, ok, m))
  {
    var n := ReaderStep(s, c, ok, m);
    forall x, t | 0 <= x < |n.ins| && 0 <= t < |n.channels|
      ensures SliceOf(x, n.ins[x], n.readers[x], t, n.channels[t].queued)
    {
      assert SliceOf(x, s.ins[x], s.readers[x], t, s.channels[t].queued);
      if x == c {
        assert ReadOf(s.ins[c], s.readers[c], s.mains[c]);
        ReaderKeepsSlice(s, c, ok, m, t);
      } else {
        ReaderKeepsOtherSlice(s, c, ok, m, x, t);
      }
    }
  }

  lemma EntryStays(e: Entry, before: seq<In>, c: nat, i: In)
    requires c < |before| && EntryOf(e, before) && before[c].heard <= i.heard
    ensures EntryOf(e, before[c := i])
  {
  }

  lemma ReaderKeepsEntry(s: State, c: nat, ok: bool, m: TunnelMessage, t: nat, i: nat)
    requires Exists(s, c) && ReadOf(s.ins[c], s.readers[c], s.mains[c])
    requires t < |s.channels| && i < |ReaderStep(s, c, ok, m).channels[t].queued|
    requires i < |s.channels[t].queued| ==> EntryOf(s.channels[t].queued[i], s.ins)
    ensures var n := ReaderStep(s, c, ok, m); EntryOf(n.channels[t].queued[i], n.ins)
  {
    var n := ReaderStep(s, c, ok, m);
    if i < |s.channels[t].queued| {
      assert n.channels[t].queued[i] == s.channels[t].queued[i];
      EntryStays(s.channels[t].queued[i], s.ins, c, n.ins[c]);
    }
  }

  lemma ReaderKeepsEntries(s: State, c: nat, ok: bool, m: TunnelMessage)
    requires RelayPairing.SameLengths(s) && ReadsOk(s) && EntriesOk(s) && Exists(s, c)
    ensures EntriesOk(ReaderStep(s, c, ok, m))
  {
    var n := ReaderStep(s, c, ok, m);
    forall t, i | 0 <= t < |n.channels| && 0 <= i < |n.channels[t].queued|
      ensures EntryOf(n.channels[t].queued[i], n.ins)
    {
      assert ReadOf(s.ins[c], s.readers[c], s.mains[c]);
      ReaderKeepsEntry(s, c, ok, m, t, i);
    }
  }

  // ---------------------------------------------------------------------------
  //  Steps of a writer
  // ---------------------------------------------------------------------------

  lemma TakeKeepsFlow(ch: Channel, o: Out, pc: MainPc)
    requires FlowOf(ch, o, WWaiting, pc) && ch.queue != []
    ensures FlowOf(ChannelAfter(ch, Take), o, WWriting(ch.queue[0]), pc)
  {
    assert ch.queue == [ch.queue[0]] + ch.queue[1..];
  }

  lemma WriteKeepsFlow(ch: Channel, o: Out, e: Entry, pc: MainPc)
    requires FlowOf(ch, o, WWriting(e), pc)
    ensures FlowOf(ch, OutAfter(o, WriteEntry(e)), WWaiting, pc)
  {
    FramesOfMore(o.written, e);
    var written := o.written + [e];
    assert written + [] == written;
    assert [ServiceIds] + Frames(o.written) + [Relayed(e.message)] == [ServiceIds] + Frames(written);
  }

  lemma WriterKeepsFlowOf(s: State, c: nat, ok: bool)
    requires Exists(s, c) && FlowOf(s.channels[c], s.outs[c], s.writers[c], s.mains[c])
    ensures var n := WriterStep(s, c, ok); FlowOf(n.channels[c], n.outs[c], n.writers[c], n.mains[c])
  {
    match WriterMove(s, c, ok)
    case Stuck =>
    case Go(pc, a) =>
      if a.Take? {
        TakeKeepsFlow(s.channels[c], s.outs[c], s.mains[c]);
      } else if a.WriteEntry? {
        WriteKeepsFlow(s.channels[c], s.outs[c], a.entry, s.mains[c]);
      } else {
        assert a.Quiet? && pc == WEnded(Hand(s.writers[c]));
      }
  }

  lemma WriterKeepsFlow(s: State, c: nat, ok: bool)
    requires RelayPairing.SameLengths(s) && FlowOk(s) && Exists(s, c)
    ensures FlowOk(WriterStep(s, c, ok))
  {
    var n := WriterStep(s, c, ok);
    WriterKeepsFlowOf(s, c, ok);
    forall x | 0 <= x < |n.channels| ensures FlowOf(n.channels[x], n.outs[x], n.writers[x], n.mains[x]) {
      assert FlowOf(s.channels[x], s.outs[x], s.writers[x], s.mains[x]);
    }
  }

  /** Queued messages, what was read, and who points where: all that the rest depends on. */
  predicate SameQueued(before: seq<Channel>, after: seq<Channel>) {
    |before| == |after| && forall t :: 0 <= t < |before| ==> after[t].queued == before[t].queued
  }

  lemma SameQueuedKeepsSlices(s: State, n: State)
    requires SlicesOk(s) && SameQueued(s.channels, n.channels) && n.ins == s.ins && |n.readers| == |s.readers|
    requires forall x :: 0 <= x < |s.readers| ==>
               n.readers[x] == s.readers[x] || (!s.readers[x].RSending? && !n.readers[x].RSending?)
    ensures SlicesOk(n)
  {
    forall x, t | 0 <= x < |n.ins| && x < |n.readers| && 0 <= t < |n.channels|
      ensures SliceOf(x, n.ins[x], n.readers[x], t, n.channels[t].queued)
    {
      assert SliceOf(x, s.ins[x], s.readers[x], t, s.channels[t].queued);
    }
  }

  lemma SameQueuedKeepsEntries(s: State, n: State)
    requires EntriesOk(s) && SameQueued(s.channels, n.channels) && n.ins == s.ins
    ensures EntriesOk(n)
  {
  }

  lemma WriterLeavesTheRest(s: State, c: nat, ok: bool)
    requires Exists(s, c)
    ensures var n := WriterStep(s, c, ok);
            && SameQueued(s.channels, n.channels)
            && n.ins == s.ins && n.readers == s.readers && n.mains == s.mains && n.assoc == s.assoc
  {
    assert s.ins[c := s.ins[c]] == s.ins;
  }

  lemma WriterKeepsRest(s: State, c: nat, ok: bool)
    requires Exists(s, c) && ReadsOk(s) && SlicesOk(s) && EntriesOk(s) && LogsOk(s)
    ensures var n := WriterStep(s, c, ok); ReadsOk(n) && SlicesOk(n) && EntriesOk(n) && LogsOk(n)
  {
    var n := WriterStep(s, c, ok);
    WriterLeavesTheRest(s, c, ok);
    SameQueuedKeepsSlices(s, n);
    SameQueuedKeepsEntries(s, n);
  }

  // ---------------------------------------------------------------------------
  //  Steps of connect and run
  // ---------------------------------------------------------------------------

  /** What the flow depends on in a step of connect or run. */
  predicate Edge(pc: MainPc, next: MainPc, a: Act) {
    && (a.WriteIds? <==> next.RSpawn?)
    && (a.WriteIds? ==> pc.RIds?)
    && (a.StartLoops? ==> pc.RSpawn?)
    && (pc.RSpawn? ==> a.StartLoops?)
    && (Early(next) ==> Early(pc))
    && !a.Send? && !a.Take? && !a.WriteEntry?
  }

  lemma MainMovesAlongEdges(s: State, c: nat, ok: bool)
    requires Exists(s, c) && MainMove(s, c, ok).Go?
    ensures Edge(s.mains[c], MainMove(s, c, ok).pc, MainMove(s, c, ok).act)
  {
  }

  lemma EdgeKeepsFlow(ch: Channel, o: Out, writer: WriterPc, pc: MainPc, next: MainPc, a: Act)
    requires FlowOf(ch, o, writer, pc) && Edge(pc, next, a)
    ensures FlowOf(ChannelAfter(ch, a), OutAfter(o, a), if a.StartLoops? then WWaiting else writer, next)
  {
  }

  lemma MainKeepsFlowOf(s: State, c: nat, ok: bool)
    requires Exists(s, c) && FlowOf(s.channels[c], s.outs[c], s.writers[c], s.mains[c])
    ensures var n := MainStep(s, c, ok); FlowOf(n.channels[c], n.outs[c], n.writers[c], n.mains[c])
  {
    match MainMove(s, c, ok)
    case Stuck =>
    case Go(pc, a) =>
      MainMovesAlongEdges(s, c, ok);
      EdgeKeepsFlow(s.channels[c], s.outs[c], s.writers[c], s.mains[c], pc, a);
  }

  lemma MainKeepsFlow(s: State, c: nat, ok: bool)
    requires RelayPairing.SameLengths(s) && FlowOk(s) && Exists(s, c)
    ensures FlowOk(MainStep(s, c, ok))
  {
    assert FlowOf(s.channels[c], s.outs[c], s.writers[c], s.mains[c]);
    MainKeepsFlowOf(s, c, ok);
    MainStaysAtHome(s, c, ok);
    var n := MainStep(s, c, ok);
    var channel, out, writer, main := n.channels[c], n.outs[c], n.writers[c], n.mains[c];
    FlowKeptByOne(s, n, c, channel, out, writer, main);
  }

  lemma FlowKeptByOne(s: State, n: State, c: nat, channel: Channel, out: Out, writer: WriterPc, main: MainPc)
    requires FlowOk(s) && RelayPairing.SameLengths(s) && Exists(s, c) && FlowOf(channel, out, writer, main)
    requires n.channels == s.channels[c := channel] && n.outs == s.outs[c := out]
    requires n.writers == s.writers[c := writer] && n.mains == s.mains[c := main]
    ensures FlowOk(n)
  {
    forall x | 0 <= x < |n.channels| ensures FlowOf(n.channels[x], n.outs[x], n.writers[x], n.mains[x]) {
      assert FlowOf(s.channels[x], s.outs[x], s.writers[x], s.mains[x]);
    }
  }

  /** A step of connect or run touches its own connection only, associations and closes apart. */
  lemma MainStaysAtHome(s: State, c: nat, ok: bool)
    requires Exists(s, c)
    ensures var n := MainStep(s, c, ok);
            && n.channels == s.channels[c := n.channels[c]] && n.channels[c].queued == s.channels[c].queued
            && n.outs == s.outs[c := n.outs[c]] && n.writers == s.writers[c := n.writers[c]]
            && n.mains == s.mains[c := n.mains[c]] && n.ins == s.ins
            && (n.readers == s.readers || (s.mains[c].RSpawn? && n.readers == s.readers[c := RReading]))
  {
    match MainMove(s, c, ok)
    case Stuck =>
    case Go(pc, a) => assert s.ins[c := s.ins[c]] == s.ins;
  }

  lemma MainKeepsReads(s: State, c: nat, ok: bool)
    requires RelayPairing.SameLengths(s) && ReadsOk(s) && Exists(s, c)
    ensures ReadsOk(MainStep(s, c, ok))
  {
    var n := MainStep(s, c, ok);
    assert ReadOf(s.ins[c], s.readers[c], s.mains[c]);
    forall x | 0 <= x < |n.ins| ensures ReadOf(n.ins[x], n.readers[x], n.mains[x]) {
      assert ReadOf(s.ins[x], s.readers[x], s.mains[x]);
    }
  }

  lemma MainKeepsSlices(s: State, c: nat, ok: bool)
    requires RelayPairing.SameLengths(s) && Exists(s, c)
    requires ReadsOk(s) && SlicesOk(s) && EntriesOk(s)
    ensures var n := MainStep(s, c, ok); SlicesOk(n) && EntriesOk(n)
  {
    assert ReadOf(s.ins[c], s.readers[c], s.mains[c]);
    MainStaysAtHome(s, c, ok);
    QueuedKeptByOne(s, MainStep(s, c, ok), c, MainStep(s, c, ok).channels[c]);
  }

  lemma QueuedKeptByOne(s: State, n: State, c: nat, channel: Channel)
    requires RelayPairing.SameLengths(s) && Exists(s, c) && SlicesOk(s) && EntriesOk(s)
    requires channel.queued == s.channels[c].queued && n.channels == s.channels[c := channel] && n.ins == s.ins
    requires n.readers == s.readers || (s.readers[c].ROff? && n.readers == s.readers[c := RReading])
    ensures SlicesOk(n) && EntriesOk(n)
  {
    SameQueuedKeepsSlices(s, n);
    SameQueuedKeepsEntries(s, n);
  }

  /** A target that is not in the log yet, or the nil writer, may be the next. */
  lemma LogOfNew(log: seq<Target>, before: Target, after: Target)
    requires LogOf(log, before) && (after.Peer? ==> after !in log)
    ensures LogOf(log, after)
  {
  }

  lemma FreshGoesDown(s: State, c: nat, ok: bool, x: nat)
    requires Exists(s, c) && Fresh(x, MainStep(s, c, ok).mains)
    ensures Fresh(x, s.mains)
  {
  }

  lemma MainKeepsTargetsKnown(s: State, c: nat, ok: bool, x: nat)
    requires RelayPairing.MapsOk(s) && Exists(s, c) && NoFresh(s.ins, s.assoc, s.mains)
    requires x < |MainStep(s, c, ok).assoc| && MainStep(s, c, ok).assoc[x].Peer?
    ensures var n := MainStep(s, c, ok); !Fresh(n.assoc[x].c, n.mains)
  {
    var n := MainStep(s, c, ok);
    if Fresh(n.assoc[x].c, n.mains) {
      FreshGoesDown(s, c, ok, n.assoc[x].c);
    }
  }

  lemma MainKeepsNoFresh(s: State, c: nat, ok: bool)
    requires RelayPairing.MapsOk(s) && Exists(s, c) && NoFresh(s.ins, s.assoc, s.mains)
    ensures var n := MainStep(s, c, ok); NoFresh(n.ins, n.assoc, n.mains)
  {
    var n := MainStep(s, c, ok);
    MainStaysAtHome(s, c, ok);
    forall x | 0 <= x < |n.assoc| && n.assoc[x].Peer? ensures !Fresh(n.assoc[x].c, n.mains) {
      MainKeepsTargetsKnown(s, c, ok, x);
    }
    forall x, i | 0 <= x < |n.ins| && 0 <= i < |n.ins[x].log| && n.ins[x].log[i].Peer?
      ensures !Fresh(n.ins[x].log[i].c, n.mains)
    {
      if Fresh(n.ins[x].log[i].c, n.mains) {
        FreshGoesDown(s, c, ok, n.ins[x].log[i].c);
      }
    }
  }

  /** Whoever is associated anew has not been a target before. */
  lemma NewTargetIsNew(s: State, c: nat, ok: bool, x: nat)
    requires RelayPairing.SameLengths(s) && Exists(s, c) && x < |s.assoc|
    requires ReadOf(s.ins[c], s.readers[c], s.mains[c]) && NoFresh(s.ins, s.assoc, s.mains)
    ensures var target := MainStep(s, c, ok).assoc[x];
            target == s.assoc[x] || target == Nobody || target !in s.ins[x].log
  {
    forall i | 0 <= i < |s.ins[x].log| && s.ins[x].log[i].Peer? ensures !Fresh(s.ins[x].log[i].c, s.mains) {
    }
  }

  lemma MainKeepsLogs(s: State, c: nat, ok: bool)
    requires RelayPairing.SameLengths(s) && Exists(s, c)
    requires ReadsOk(s) && Logs(s.ins, s.assoc) && NoFresh(s.ins, s.assoc, s.mains)
    ensures var n := MainStep(s, c, ok); Logs(n.ins, n.assoc)
  {
    var n := MainStep(s, c, ok);
    assert ReadOf(s.ins[c], s.readers[c], s.mains[c]);
    MainStaysAtHome(s, c, ok);
    forall x | 0 <= x < |n.ins| && x < |n.assoc| ensures LogOf(n.ins[x].log, n.assoc[x]) {
      NewTargetIsNew(s, c, ok, x);
      assert LogOf(s.ins[x].log, s.assoc[x]);
      if n.assoc[x] != s.assoc[x] {
        LogOfNew(s.ins[x].log, s.assoc[x], n.assoc[x]);
      }
    }
  }

  lemma MainKeepsOrder(s: State, c: nat, ok: bool)
    requires Inv(s) && Exists(s, c)
    ensures Inv(MainStep(s, c, ok))
  {
    RelayPairing.MainKeepsInv(s, c, ok);
    MainKeepsFlow(s, c, ok);
    MainKeepsReads(s, c, ok);
    MainKeepsSlices(s, c, ok);
    MainKeepsNoFresh(s, c, ok);
    MainKeepsLogs(s, c, ok);
  }

  lemma ReaderKeepsOrder(s: State, c: nat, ok: bool, m: TunnelMessage)
    requires Inv(s) && Exists(s, c)
    ensures Inv(ReaderStep(s, c, ok, m))
  {
    RelayPairing.ReaderKeepsInv(s, c, ok, m);
    ReaderKeepsFlow(s, c, ok, m);
    ReaderKeepsReads(s, c, ok, m);
    ReaderKeepsSlices(s, c, ok, m);
    ReaderKeepsEntries(s, c, ok, m);
    ReaderKeepsLogs(s, c, ok, m);
  }

  lemma WriterKeepsOrder(s: State, c: nat, ok: bool)
    requires Inv(s) && Exists(s, c)
    ensures Inv(WriterStep(s, c, ok))
  {
    RelayPairing.WriterKeepsInv(s, c, ok);
    WriterKeepsFlow(s, c, ok);
    WriterKeepsRest(s, c, ok);
  }

  // ---------------------------------------------------------------------------
  //  Arrivals, and every step
  // ---------------------------------------------------------------------------

  lemma {:induction false} NotATarget(log: seq<Target>, t: nat)
    requires Peer(t) !in log
    ensures Positions(log, t) == []
  {
    if log != [] {
      NotATarget(log[..|log| - 1], t);
    }
  }

  lemma {:induction false} NotASender(queued: seq<Entry>, sender: nat)
    requires forall i :: 0 <= i < |queued| ==> queued[i].sender != sender
    ensures FromSender(queued, sender) == []
  {
    if queued != [] {
      NotASender(queued[..|queued| - 1], sender);
    }
  }

  lemma ArriveKeepsSlice(s: State, key: Key, x: nat, t: nat)
    requires Inv(s) && !key.mode.Unknown? && x <= |s.ins| && t <= |s.channels|
    ensures var n := Arrived(s, key);
            && x < |n.ins| && x < |n.readers| && t < |n.channels|
            && SliceOf(x, n.ins[x], n.readers[x], t, n.channels[t].queued)
  {
    var n := Arrived(s, key);
    if x == |s.ins| && t < |s.channels| {
      forall i | 0 <= i < |s.channels[t].queued| ensures s.channels[t].queued[i].sender != x {
        assert EntryOf(s.channels[t].queued[i], s.ins);
      }
      NotASender(s.channels[t].queued, x);
    } else if x < |s.ins| && t == |s.channels| {
      assert Peer(t) !in s.ins[x].log;
      NotATarget(Posted(s.ins[x].log, s.readers[x]), t);
    } else if x < |s.ins| {
      assert SliceOf(x, s.ins[x], s.readers[x], t, s.channels[t].queued);
    }
  }

  lemma ArriveKeepsOrder(s: State, key: Key)
    requires Inv(s)
    ensures Inv(Arrived(s, key))
  {
    var n := Arrived(s, key);
    RelayPairing.ArriveKeepsInv(s, key);
    if !key.mode.Unknown? {
      forall x, t | 0 <= x < |n.ins| && x < |n.readers| && 0 <= t < |n.channels|
        ensures SliceOf(x, n.ins[x], n.readers[x], t, n.channels[t].queued)
      {
        ArriveKeepsSlice(s, key, x, t);
      }
      ArriveKeepsRest(s, n, key);
    }
  }

  lemma ArriveKeepsRest(s: State, n: State, key: Key)
    requires Inv(s) && !key.mode.Unknown? && n == Arrived(s, key)
    ensures FlowOk(n) && ReadsOk(n) && EntriesOk(n) && LogsOk(n)
  {
    ArriveKeepsFlow(s, key);
    ArriveKeepsLogs(s, key);
    forall x | 0 <= x < |n.ins| ensures ReadOf(n.ins[x], n.readers[x], n.mains[x]) {
      if x < |s.ins| {
        assert ReadOf(s.ins[x], s.readers[x], s.mains[x]);
      }
    }
    forall t, i | 0 <= t < |n.channels| && 0 <= i < |n.channels[t].queued|
      ensures EntryOf(n.channels[t].queued[i], n.ins)
    {
      assert EntryOf(s.channels[t].queued[i], s.ins);
    }
  }

  lemma ArriveKeepsFlow(s: State, key: Key)
    requires RelayPairing.SameLengths(s) && FlowOk(s)
    ensures FlowOk(Arrived(s, key))
  {
    var n := Arrived(s, key);
    forall x | 0 <= x < |n.channels| ensures FlowOf(n.channels[x], n.outs[x], n.writers[x], n.mains[x]) {
      if x < |s.channels| {
        assert FlowOf(s.channels[x], s.outs[x], s.writers[x], s.mains[x]);
      }
    }
  }

  lemma ArriveKeepsLogs(s: State, key: Key)
    requires RelayPairing.SameLengths(s) && LogsOk(s)
    ensures LogsOk(Arrived(s, key))
  {
    var n := Arrived(s, key);
    forall x | 0 <= x < |n.ins| && x < |n.assoc| ensures LogOf(n.ins[x].log, n.assoc[x]) {
      if x < |s.ins| {
        assert LogOf(s.ins[x].log, s.assoc[x]);
      }
    }
    forall x, i | 0 <= x < |n.ins| && 0 <= i < |n.ins[x].log| && n.ins[x].log[i].Peer?
      ensures !Fresh(n.ins[x].log[i].c, n.mains)
    {
      assert n.ins[x].log == s.ins[x].log;
    }
  }

  lemma SweepKeepsOrder(s: State, c: nat)
    requires Inv(s) && Exists(s, c)
    ensures Inv(Apply(s, c, CloseCon(c)))
  {
    RelayPairing.SweepKeepsInv(s, c);
    assert s.channels[c := s.channels[c]] == s.channels;
    assert s.outs[c := s.outs[c]] == s.outs && s.ins[c := s.ins[c]] == s.ins;
  }

  lemma StepKeepsOrder(s: State, turn: Turn)
    requires Inv(s)
    ensures Inv(Step(s, turn))
  {
    if !s.crashed {
      match turn
      case Arrive(key) => ArriveKeepsOrder(s, key);
      case MainOf(c, ok) => if Exists(s, c) { MainKeepsOrder(s, c, ok); }
      case ReaderOf(c, ok, m) => if Exists(s, c) { ReaderKeepsOrder(s, c, ok, m); }
      case WriterOf(c, ok) => if Exists(s, c) { WriterKeepsOrder(s, c, ok); }
      case Sweep(c) => if Exists(s, c) { SweepKeepsOrder(s, c); }
    }
  }

  lemma {:induction false} RunKeepsOrder(s: State, turns: seq<Turn>)
    requires Inv(s)
    ensures Inv(Run(s, turns))
    decreases |turns|
  {
    if turns != [] {
      StepKeepsOrder(s, turns[0]);
      RunKeepsOrder(Step(s, turns[0]), turns[1..]);
    }
  }

  // ---------------------------------------------------------------------------
  //  Wire order
  // ---------------------------------------------------------------------------

  /** At every moment of every run, what a peer has been sent is nothing, or SERVICE_IDS followed by
      a prefix of its queue order. Messages may well have been queued before SERVICE_IDS is sent. */
  lemma WireOrder(turns: seq<Turn>, c: nat)
    requires c < |Run(INIT, turns).keys|
    ensures var s := Run(INIT, turns);
            && c < |s.outs| && c < |s.channels|
            && (s.outs[c].wire == [] || s.outs[c].wire == [ServiceIds] + Frames(s.outs[c].written))
            && s.outs[c].written <= s.channels[c].queued
            && |s.channels[c].queue| <= CH_SIZE
  {
    InvInit();
    RunKeepsOrder(INIT, turns);
    var s := Run(INIT, turns);
    assert FlowOf(s.channels[c], s.outs[c], s.writers[c], s.mains[c]);
  }

  // ---------------------------------------------------------------------------
  //  Contiguous slices
  // ---------------------------------------------------------------------------

  /** from, from + 1, ..., to - 1. */
  function Span(from: nat, to: nat): (r: seq<nat>)
    requires from <= to
    ensures |r| == to - from && forall i :: 0 <= i < |r| ==> r[i] == from + i
  {
    seq(to - from, i requires 0 <= i => from + i)
  }

  /** The target fills the log from one place up to another, and is nowhere else in it. */
  predicate Fills(log: seq<Target>, t: nat, from: nat, to: nat) {
    from <= to <= |log| && forall i :: 0 <= i < |log| ==> (log[i] == Peer(t) <==> from <= i < to)
  }

  lemma FillsOfMore(log: seq<Target>, t: nat, from: nat, to: nat) returns (a: nat, b: nat)
    requires log != [] && Fills(log[..|log| - 1], t, from, to) && Contiguous(log)
    ensures Fills(log, t, a, b)
    ensures log[|log| - 1] == Peer(t) ==>
              b == |log| && (if from == to then a == |log| - 1 else a == from && to == |log| - 1)
    ensures log[|log| - 1] != Peer(t) ==> a == from && b == to
  {
    var n := |log| - 1;
    assert forall i :: 0 <= i < n ==> log[i] == log[..n][i];
    if log[n] != Peer(t) {
      a, b := from, to;
    } else if from == to {
      a, b := n, n + 1;
    } else {
      ContiguousToTheEnd(log, from, to, t);
      a, b := from, n + 1;
    }
  }

  lemma ContiguousPrefix(log: seq<Target>)
    requires log != [] && Contiguous(log)
    ensures Contiguous(log[..|log| - 1])
  {
  }

  /** The places of a target are one span when the target is never left and taken up again. */
  lemma {:induction false} PositionsAreASpan(log: seq<Target>, t: nat) returns (from: nat, to: nat)
    requires Contiguous(log)
    ensures Fills(log, t, from, to) && Positions(log, t) == Span(from, to)
  {
    if log == [] {
      from, to := 0, 0;
    } else {
      ContiguousPrefix(log);
      var a, b := PositionsAreASpan(log[..|log| - 1], t);
      from, to := FillsOfMore(log, t, a, b);
      if log[|log| - 1] == Peer(t) {
        assert Span(a, b) + [|log| - 1] == Span(from, to);
      }
    }
  }

  lemma ContiguousToTheEnd(log: seq<Target>, from: nat, to: nat, t: nat)
    requires Contiguous(log) && from < to < |log| && log[|log| - 1] == Peer(t) && log[from] == Peer(t)
    requires to < |log| - 1 ==> log[to] != Peer(t)
    ensures to == |log| - 1
  {
  }

  lemma SliceOfALog(log: seq<Target>, assoc: Target, reader: ReaderPc, t: nat) returns (from: nat, to: nat)
    requires LogOf(log, assoc)
    ensures from <= to <= |log| && Positions(Posted(log, reader), t) == Span(from, to)
  {
    if reader.RSending? && log != [] {
      ContiguousPrefix(log);
    }
    from, to := PositionsAreASpan(Posted(log, reader), t);
  }

  lemma EntriesAreOfSenders(s: State, sender: nat, t: nat)
    requires EntriesOk(s) && sender < |s.ins| && t < |s.channels|
    ensures forall i :: 0 <= i < |s.channels[t].queued| && s.channels[t].queued[i].sender == sender ==>
              var e := s.channels[t].queued[i];
              e.index < |s.ins[sender].heard| && e.message == s.ins[sender].heard[e.index]
  {
    forall i | 0 <= i < |s.channels[t].queued| ensures EntryOf(s.channels[t].queued[i], s.ins) {
    }
  }

  /** What one sender has put into the queue of one target is, at every moment of every run, a
      contiguous slice of what it has read, in order: the entries carry consecutive indices, and each
      the message read at its index. */
  lemma ContiguousSlice(turns: seq<Turn>, sender: nat, t: nat) returns (from: nat, to: nat)
    requires sender < |Run(INIT, turns).keys| && t < |Run(INIT, turns).keys|
    ensures var s := Run(INIT, turns);
            && sender < |s.ins| && t < |s.channels|
            && from <= to <= |s.ins[sender].heard|
            && FromSender(s.channels[t].queued, sender) == Span(from, to)
            && (forall i :: 0 <= i < |s.channels[t].queued| && s.channels[t].queued[i].sender == sender ==>
                  var e := s.channels[t].queued[i];
                  e.index < |s.ins[sender].heard| && e.message == s.ins[sender].heard[e.index])
  {
    InvInit();
    RunKeepsOrder(INIT, turns);
    var s := Run(INIT, turns);
    assert SliceOf(sender, s.ins[sender], s.readers[sender], t, s.channels[t].queued);
    assert ReadOf(s.ins[sender], s.readers[sender], s.mains[sender]);
    assert LogOf(s.ins[sender].log, s.assoc[sender]);
    EntriesAreOfSenders(s, sender, t);
    from, to := SliceOfALog(s.ins[sender].log, s.assoc[sender], s.readers[sender], t);
  }
}
