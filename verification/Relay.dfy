/** The relay of the tunnel server, misc/server/peerconmanager.go and misc/server/peerconnection.go,
    as a transition system over every connection that ever came in: those registered, those
    replaced that still run, and those gone.

    A step moves one goroutine and does one thing to what is shared. The locked sections of connect
    are taken apart into their calls of close and associate, each of which takes a lock of its own. */
module Relay {
  import opened Basics
  import opened Protobuf

  // ---------------------------------------------------------------------------
  //  Modes and keys (aws/mode.go)
  // ---------------------------------------------------------------------------

  datatype Mode = Source | Destination | Unknown

  function OtherMode(mode: Mode): Mode {
    match mode
    case Destination => Source
    case Source => Destination
    case Unknown => Unknown
  }

  datatype Key = Key(tunnelID: string, mode: Mode)

  function OtherKey(key: Key): Key {
    Key(key.tunnelID, OtherMode(key.mode))
  }

  // ---------------------------------------------------------------------------
  //  State
  // ---------------------------------------------------------------------------

  /** The capacity of chMessage. */
  const CH_SIZE := 10

  /** associatedCon: the nil writer, or a connection. */
  datatype Target = Nobody | Peer(c: nat)

  /** A message in a channel: the index-th message that connection `sender` read. */
  datatype Entry = Entry(sender: nat, index: nat, message: TunnelMessage)

  /** `queued` is everything ever sent into the channel. */
  datatype Channel = Channel(open: bool, queue: seq<Entry>, queued: seq<Entry>)

  datatype Frame = ServiceIds | Relayed(message: TunnelMessage)

  /** What was written to the websocket, and the entries that stand behind the relayed part. */
  datatype Out = Out(wire: seq<Frame>, written: seq<Entry>)

  /** What was read from the websocket, and where each message went. */
  datatype In = In(heard: seq<TunnelMessage>, log: seq<Target>)

  /** connect: the first locked section, run, the second locked section. */
  datatype MainPc =
    | CWant
    | CClose
    | CSelf
    | COther(other: nat)
    | CPut
    | RIds
    | RSpawn
    | RSelect
    | RWaitWriter
    | RCloseFirst
    | RWaitReader
    | RClose
    | RCloseChannel
    | DWant
    | DDelete
    | DOther
    | DRelease
    | MDone

  /** startReadingMessage; a reader that is sending holds the read lock of its connection. */
  datatype ReaderPc = ROff | RReading | RForward | RSending(target: Target) | REnded

  /** startWritingMessage. */
  datatype WriterPc = WOff | WWaiting | WWriting(entry: Entry) | WEnded(lost: seq<Entry>)

  datatype State = State(
    keys: seq<Key>,
    assoc: seq<Target>,
    closed: seq<bool>,
    closes: seq<nat>,
    channels: seq<Channel>,
    outs: seq<Out>,
    ins: seq<In>,
    mains: seq<MainPc>,
    readers: seq<ReaderPc>,
    writers: seq<WriterPc>,
    peerConMap: map<Key, nat>,
    holder: Option<nat>,
    crashed: bool)

  const INIT := State([], [], [], [], [], [], [], [], [], [], map[], None, false)

  // ---------------------------------------------------------------------------
  //  Actions
  // ---------------------------------------------------------------------------

  datatype Act =
    | Quiet
    | LockManager
    | UnlockManager
    | CloseCon(c: nat)
    | Associate(c: nat, target: Target)
    | Put(key: Key)                  // and unlock
    | Delete(key: Key)
    | WriteIds
    | StartLoops
    | CloseChannel
    | Hear(message: TunnelMessage)
    | Look                           // take the read lock and read associatedCon
    | Send(to: nat, entry: Entry)
    | Take
    | WriteEntry(entry: Entry)
    | Crash

  function ChannelAfter(ch: Channel, a: Act): Channel {
    match a
    case Send(_, e) => ch.(queue := ch.queue + [e], queued := ch.queued + [e])
    case Take => if ch.queue == [] then ch else ch.(queue := ch.queue[1..])
    case CloseChannel => ch.(open := false)
    case _ => ch
  }

  function OutAfter(o: Out, a: Act): Out {
    match a
    case WriteIds => o.(wire := o.wire + [ServiceIds])
    case WriteEntry(e) => o.(wire := o.wire + [Relayed(e.message)], written := o.written + [e])
    case _ => o
  }

  function InAfter(i: In, a: Act, target: Target): In {
    match a
    case Hear(m) => i.(heard := i.heard + [m])
    case Look => i.(log := i.log + [target])
    case _ => i
  }

  /** The effect of an action of connection c. */
  function Apply(s: State, c: nat, a: Act): State
    requires c < |s.channels| && c < |s.outs| && c < |s.ins| && c < |s.assoc|
    requires c < |s.readers| && c < |s.writers|
  {
    State(
      s.keys,
      if a.Associate? && a.c < |s.assoc| then s.assoc[a.c := a.target] else s.assoc,
      if a.CloseCon? && a.c < |s.closed| then s.closed[a.c := true] else s.closed,
      if a.CloseCon? && a.c < |s.closes| && a.c < |s.closed| && !s.closed[a.c]
        then s.closes[a.c := s.closes[a.c] + 1] else s.closes,
      if a.Send? then
        (if a.to < |s.channels| then s.channels[a.to := ChannelAfter(s.channels[a.to], a)] else s.channels)
        else s.channels[c := ChannelAfter(s.channels[c], a)],
      s.outs[c := OutAfter(s.outs[c], a)],
      s.ins[c := InAfter(s.ins[c], a, s.assoc[c])],
      s.mains,
      if a.StartLoops? then s.readers[c := RReading] else s.readers,
      if a.StartLoops? then s.writers[c := WWaiting] else s.writers,
      if a.Put? then s.peerConMap[a.key := c] else if a.Delete? then s.peerConMap - {a.key} else s.peerConMap,
      if a.LockManager? then Some(c) else if a.UnlockManager? || a.Put? then None else s.holder,
      s.crashed || a.Crash?)
  }

  // ---------------------------------------------------------------------------
  //  Programs
  // ---------------------------------------------------------------------------

  datatype Move<+P> = Stuck | Go(pc: P, act: Act)

  /** Whether the write lock of a connection can be taken: its reader is not sending. */
  predicate Lockable(s: State, c: nat) {
    c < |s.readers| && !s.readers[c].RSending?
  }

  predicate Ended(s: State, c: nat) {
    c < |s.writers| && s.writers[c].WEnded?
  }

  function MainMove(s: State, c: nat, ok: bool): Move<MainPc>
    requires c < |s.keys| && c < |s.mains| && c < |s.readers|
  {
    var key := s.keys[c];
    var other := OtherKey(key);
    match s.mains[c]
    case CWant => if s.holder.Some? then Stuck else Go(CClose, LockManager)
    case CClose =>
      if key !in s.peerConMap then Go(CSelf, Quiet)
      else if Lockable(s, s.peerConMap[key]) then Go(CSelf, CloseCon(s.peerConMap[key]))
      else Stuck
    case CSelf =>
      if other in s.peerConMap then Go(COther(s.peerConMap[other]), Associate(c, Peer(s.peerConMap[other])))
      else Go(CPut, Associate(c, Nobody))
    case COther(o) => if Lockable(s, o) then Go(CPut, Associate(o, Peer(c))) else Stuck
    case CPut => Go(RIds, Put(key))
    case RIds => if ok then Go(RSpawn, WriteIds) else Go(DWant, Quiet)
    case RSpawn => Go(RSelect, StartLoops)
    case RSelect =>
      if ok then if s.readers[c].REnded? then Go(RWaitWriter, Quiet) else Stuck
      else if Ended(s, c) then Go(RCloseFirst, Quiet) else Stuck
    case RWaitWriter => if Ended(s, c) then Go(RClose, Quiet) else Stuck
    case RCloseFirst => if Lockable(s, c) then Go(RWaitReader, CloseCon(c)) else Stuck
    case RWaitReader => if s.readers[c].REnded? then Go(RClose, Quiet) else Stuck
    case RClose => if Lockable(s, c) then Go(RCloseChannel, CloseCon(c)) else Stuck
    case RCloseChannel => Go(DWant, CloseChannel)
    case DWant =>
      if s.holder.Some? then Stuck
      else Go(if key in s.peerConMap && s.peerConMap[key] == c then DDelete else DRelease, LockManager)
    case DDelete => Go(DOther, Delete(key))
    case DOther =>
      if other !in s.peerConMap then Go(DRelease, Quiet)
      else if Lockable(s, s.peerConMap[other]) then Go(DRelease, Associate(s.peerConMap[other], Nobody))
      else Stuck
    case DRelease => Go(MDone, UnlockManager)
    case MDone => Stuck
  }

  /** `message` is what the connection reads if it does not fail. */
  function ReaderMove(s: State, c: nat, ok: bool, message: TunnelMessage): Move<ReaderPc>
    requires c < |s.readers| && c < |s.assoc| && c < |s.ins|
  {
    match s.readers[c]
    case ROff => Stuck
    case RReading => if ok then Go(RForward, Hear(message)) else Go(REnded, Quiet)
    case RForward => Go(RSending(s.assoc[c]), Look)
    case RSending(target) =>
      (match target
       case Nobody => Go(RReading, Quiet)
       case Peer(t) =>
         if t >= |s.channels| || s.ins[c].log == [] || s.ins[c].heard == [] then Stuck
         else if !s.channels[t].open then Go(RSending(target), Crash)
         else if |s.channels[t].queue| >= CH_SIZE then Stuck
         else Go(RReading, Send(t, Entry(c, |s.ins[c].log| - 1, s.ins[c].heard[|s.ins[c].heard| - 1]))))
    case REnded => Stuck
  }

  /** The context of run is cancelled as soon as one of the loops has ended. */
  predicate Cancelled(pc: MainPc) {
    pc.RWaitWriter? || pc.RCloseFirst? || pc.RWaitReader?
  }

  function WriterMove(s: State, c: nat, ok: bool): Move<WriterPc>
    requires c < |s.writers| && c < |s.channels| && c < |s.mains|
  {
    match s.writers[c]
    case WOff => Stuck
    case WWaiting =>
      if ok then if s.channels[c].queue == [] then Stuck else Go(WWriting(s.channels[c].queue[0]), Take)
      else if Cancelled(s.mains[c]) then Go(WEnded([]), Quiet) else Stuck
    case WWriting(e) => if ok then Go(WWaiting, WriteEntry(e)) else Go(WEnded([e]), Quiet)
    case WEnded(_) => Stuck
  }

  // ---------------------------------------------------------------------------
  //  Steps and runs
  // ---------------------------------------------------------------------------

  datatype Turn =
    | Arrive(key: Key)                                    // TunnelConnect calls connect
    | MainOf(c: nat, ok: bool)
    | ReaderOf(c: nat, ok: bool, message: TunnelMessage)
    | WriterOf(c: nat, ok: bool)
    | Sweep(c: nat)                                       // closeExpiredConnection closes one

  predicate Exists(s: State, c: nat) {
    && c < |s.keys| && c < |s.assoc| && c < |s.closed| && c < |s.closes|
    && c < |s.channels| && c < |s.outs| && c < |s.ins|
    && c < |s.mains| && c < |s.readers| && c < |s.writers|
  }

  /** newPeerConnection. Only the two known modes get here: TunnelConnectArgs.Validate. */
  function Arrived(s: State, key: Key): State {
    if key.mode.Unknown? then s
    else State(s.keys + [key], s.assoc + [Nobody], s.closed + [false], s.closes + [0],
               s.channels + [Channel(true, [], [])], s.outs + [Out([], [])], s.ins + [In([], [])],
               s.mains + [CWant], s.readers + [ROff], s.writers + [WOff],
               s.peerConMap, s.holder, s.crashed)
  }

  function MainStep(s: State, c: nat, ok: bool): State
    requires Exists(s, c)
  {
    match MainMove(s, c, ok)
    case Stuck => s
    case Go(pc, a) => Apply(s, c, a).(mains := s.mains[c := pc])
  }

  function ReaderStep(s: State, c: nat, ok: bool, message: TunnelMessage): State
    requires Exists(s, c)
  {
    match ReaderMove(s, c, ok, message)
    case Stuck => s
    case Go(pc, a) => Apply(s, c, a).(readers := s.readers[c := pc])
  }

  function WriterStep(s: State, c: nat, ok: bool): State
    requires Exists(s, c)
  {
    match WriterMove(s, c, ok)
    case Stuck => s
    case Go(pc, a) => Apply(s, c, a).(writers := s.writers[c := pc])
  }

  /** A send on a closed channel ends the process: nothing moves after a crash. */
  function Step(s: State, turn: Turn): State {
    if s.crashed then s
    else match turn
      case Arrive(key) => Arrived(s, key)
      case MainOf(c, ok) => if Exists(s, c) then MainStep(s, c, ok) else s
      case ReaderOf(c, ok, m) => if Exists(s, c) then ReaderStep(s, c, ok, m) else s
      case WriterOf(c, ok) => if Exists(s, c) then WriterStep(s, c, ok) else s
      case Sweep(c) => if Exists(s, c) && Lockable(s, c) then Apply(s, c, CloseCon(c)) else s
  }

  function Run(s: State, turns: seq<Turn>): State
    decreases |turns|
  {
    if turns == [] then s else Run(Step(s, turns[0]), turns[1..])
  }
}
