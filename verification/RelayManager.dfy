/** The relay's objects: peerConnection and peerConManager (misc/server/peerconmanager.go), the
    locked sections of connect and the sweep of expired connections. */
module RelayManager {
  import opened Relay

  // ---------------------------------------------------------------------------
  //  Tunnels and time (misc/server/tunnel.go, store_memory.go)
  // ---------------------------------------------------------------------------

  datatype Tunnel = Tunnel(lifetimeAt: int)

  /** The zero time: the LifetimeAt of the empty Tunnel that GetTunnel returns with its error. */
  const ZERO_TIME := 0

  function GetTunnel(store: map<string, Tunnel>, tunnelID: string): Tunnel {
    if tunnelID in store then store[tunnelID] else Tunnel(ZERO_TIME)
  }

  predicate Open(tunnel: Tunnel, now: int) {
    !(tunnel.lifetimeAt < now)
  }

  /** When the sweep has to close the connections of a tunnel: it has expired, or it does not exist,
      provided that the clock has left the zero time. */
  predicate Due(store: map<string, Tunnel>, tunnelID: string, now: int) {
    if tunnelID in store then store[tunnelID].lifetimeAt < now else ZERO_TIME < now
  }

  // ---------------------------------------------------------------------------
  //  peerConnection
  // ---------------------------------------------------------------------------

  class PeerConnection {
    const key: Key
    var associatedCon: PeerConnection?    // null is the nil writer
    var closed: bool

    constructor (key: Key)
      ensures this.key == key && associatedCon == null && !closed
    {
      this.key := key;
      associatedCon := null;
      closed := false;
    }

    method Associate(other: PeerConnection?)
      modifies this`associatedCon
      ensures associatedCon == other
    {
      associatedCon := other;
    }

    /** Whether the close frame was sent and the connection closed, or it was closed before. */
    method Close() returns (attempted: bool)
      modifies this`closed
      ensures closed && attempted == !old(closed)
    {
      attempted := !closed;
      if attempted {
        closed := true;
      }
    }
  }

  // ---------------------------------------------------------------------------
  //  Groups of connections
  // ---------------------------------------------------------------------------

  ghost predicate OwnKeys(m: map<Key, PeerConnection>) {
    forall k :: k in m ==> m[k].key == k && !k.mode.Unknown?
  }

  predicate NoDuplicates<T(==)>(s: seq<T>) {
    forall i, j :: 0 <= i < j < |s| ==> s[i] != s[j]
  }

  /** The group of a tunnel holds the connections registered under the given keys for it. */
  ghost predicate GroupOf(group: seq<PeerConnection>, id: string, m: map<Key, PeerConnection>, keys: set<Key>) {
    && NoDuplicates(group)
    && (forall con :: con in group ==> con.key.tunnelID == id && con.key in keys && con.key in m && m[con.key] == con)
    && (forall k :: k in keys && k in m && k.tunnelID == id ==> m[k] in group)
  }

  ghost predicate GroupsOf(groups: map<string, seq<PeerConnection>>, m: map<Key, PeerConnection>, keys: set<Key>) {
    && (forall id :: id in groups ==> groups[id] != [] && GroupOf(groups[id], id, m, keys))
    && (forall k :: k in keys ==> k.tunnelID in groups)
  }

  /** Groups by tunnel are a partition: every registered connection is in the group of its tunnel,
      once, and in no other. */
  lemma GroupsPartition(groups: map<string, seq<PeerConnection>>, m: map<Key, PeerConnection>)
    requires OwnKeys(m) && GroupsOf(groups, m, m.Keys)
    ensures forall id, i :: id in groups && 0 <= i < |groups[id]| ==> groups[id][i] in m.Values
    ensures forall con :: con in m.Values ==>
              exists id, i :: id in groups && 0 <= i < |groups[id]| && groups[id][i] == con
    ensures forall id, i, id', j | id in groups && 0 <= i < |groups[id]| && id' in groups && 0 <= j < |groups[id']| ::
              groups[id][i] == groups[id'][j] ==> id == id' && i == j
    ensures groups.Keys == set k | k in m :: k.tunnelID
  {
    forall con | con in m.Values
      ensures exists id, i :: id in groups && 0 <= i < |groups[id]| && groups[id][i] == con
    {
      var k :| k in m && m[k] == con;
      assert con in groups[k.tunnelID];
    }
    forall id, i | id in groups && 0 <= i < |groups[id]|
      ensures groups[id][i] in m.Values && groups[id][i].key.tunnelID == id
    {
      assert groups[id][i] in groups[id];
    }
    forall id | id in groups ensures id in (set k | k in m :: k.tunnelID) {
      assert groups[id][0] in groups[id];
      assert groups[id][0].key in m;
    }
  }

  // ---------------------------------------------------------------------------
  //  peerConManager
  // ---------------------------------------------------------------------------

  class PeerConManager {
    var peerConMap: map<Key, PeerConnection>

    ghost function Registered(): set<PeerConnection>
      reads this
    {
      set k | k in peerConMap :: peerConMap[k]
    }

    /** Registered under their own keys, and paired. */
    ghost predicate Valid()
      reads this, Registered()
    {
      && OwnKeys(peerConMap)
      && forall k :: k in peerConMap ==>
           peerConMap[k].associatedCon == if OtherKey(k) in peerConMap then peerConMap[OtherKey(k)] else null
    }

    constructor ()
      ensures Valid() && peerConMap == map[]
    {
      peerConMap := map[];
    }

    /** The first locked section of connect: a registered connection of the same key is closed and
        replaced, though it keeps the peer it points at; the new one is paired with the opposite
        connection, if there is one. */
    method Register(con: PeerConnection)
      requires Valid() && !con.key.mode.Unknown? && con !in Registered()
      modifies this, con`associatedCon, Registered()`associatedCon, Registered()`closed
      ensures Valid() && peerConMap == old(peerConMap)[con.key := con]
      ensures forall k :: k in old(peerConMap) ==>
                var c := old(peerConMap)[k];
                && c.closed == (old(c.closed) || k == con.key)
                && (k != OtherKey(con.key) ==> c.associatedCon == old(c.associatedCon))
    {
      var key, other := con.key, OtherKey(con.key);
      if key in peerConMap {
        var _ := peerConMap[key].Close();
      }
      if other in peerConMap {
        con.Associate(peerConMap[other]);
        peerConMap[other].Associate(con);
      } else {
        con.Associate(null);
      }
      peerConMap := peerConMap[key := con];
    }

    /** The second locked section of connect: a connection that was replaced changes nothing. */
    method Deregister(con: PeerConnection)
      requires Valid() && !con.key.mode.Unknown?
      modifies this, Registered()`associatedCon
      ensures Valid()
      ensures peerConMap == if con in old(Registered()) then old(peerConMap) - {con.key} else old(peerConMap)
      ensures forall c :: c in old(Registered()) && (con !in old(Registered()) || c.key != OtherKey(con.key)) ==>
                c.associatedCon == old(c.associatedCon)
    {
      var key, other := con.key, OtherKey(con.key);
      if key in peerConMap && peerConMap[key] == con {
        peerConMap := peerConMap - {key};
        if other in peerConMap {
          peerConMap[other].Associate(null);
        }
      }
    }

    /** The grouping loop of the sweep, over the keys in any order. */
    method GroupByTunnel() returns (groups: map<string, seq<PeerConnection>>)
      requires OwnKeys(peerConMap)
      ensures GroupsOf(groups, peerConMap, peerConMap.Keys)
    {
      groups := map[];
      var rest := peerConMap.Keys;
      while rest != {}
        invariant rest <= peerConMap.Keys && GroupsOf(groups, peerConMap, peerConMap.Keys - rest)
      {
        var key :| key in rest;
        var group := if key.tunnelID in groups then groups[key.tunnelID] else [];
        ghost var done := peerConMap.Keys - rest;
        assert GroupOf(group, key.tunnelID, peerConMap, done);
        GroupGrows(group, key, peerConMap, done);
        groups := groups[key.tunnelID := group + [peerConMap[key]]];
        rest := rest - {key};
        assert peerConMap.Keys - rest == done + {key};
      }
    }

    static lemma GroupGrows(group: seq<PeerConnection>, key: Key, m: map<Key, PeerConnection>, keys: set<Key>)
      requires OwnKeys(m) && GroupOf(group, key.tunnelID, m, keys) && key in m && key !in keys
      ensures GroupOf(group + [m[key]], key.tunnelID, m, keys + {key})
    {
      assert m[key] !in group;
    }

    /** The sweep closes exactly the registered connections that were not closed and whose tunnel is
        due when it is looked at, and changes nothing else. `now` is the reading of the clock for
        each tunnel. */
    method CloseExpiredConnection(store: map<string, Tunnel>, now: string -> int)
      returns (attempted: set<PeerConnection>)
      requires OwnKeys(peerConMap)
      modifies Registered()`closed
      ensures attempted
           == set c | c in Registered() && !old(c.closed) && Due(store, c.key.tunnelID, now(c.key.tunnelID))
      ensures forall c :: c in Registered() ==> c.closed == (old(c.closed) || c in attempted)
    {
      var groups := GroupByTunnel();
      attempted := {};
      var rest := groups.Keys;
      while rest != {}
        invariant rest <= groups.Keys
        invariant attempted <= Registered()
        invariant forall c :: c in Registered() ==>
                    && (c in attempted <==>
                          && c.key.tunnelID !in rest && !old(c.closed)
                          && Due(store, c.key.tunnelID, now(c.key.tunnelID)))
                    && c.closed == (old(c.closed) || c in attempted)
      {
        var tunnelID :| tunnelID in rest;
        InGroup(groups, tunnelID);
        if !Open(GetTunnel(store, tunnelID), now(tunnelID)) {
          var more := CloseAll(groups[tunnelID]);
          attempted := attempted + more;
          assert Due(store, tunnelID, now(tunnelID));
        }
        rest := rest - {tunnelID};
      }
    }

    lemma InGroup(groups: map<string, seq<PeerConnection>>, id: string)
      requires OwnKeys(peerConMap) && GroupsOf(groups, peerConMap, peerConMap.Keys) && id in groups
      ensures forall c :: c in groups[id] <==> c in Registered() && c.key.tunnelID == id
    {
      assert GroupOf(groups[id], id, peerConMap, peerConMap.Keys);
    }

    static method CloseAll(group: seq<PeerConnection>) returns (attempted: set<PeerConnection>)
      requires NoDuplicates(group)
      modifies group`closed
      ensures attempted == set c | c in group && !old(c.closed)
      ensures forall c :: c in group ==> c.closed
    {
      attempted := {};
      for i := 0 to |group|
        invariant attempted == set c | c in group[..i] && !old(c.closed)
        invariant forall c :: c in group[..i] ==> c.closed
        invariant forall c :: c in group[i..] ==> c.closed == old(c.closed)
      {
        assert group[i..] == [group[i]] + group[i + 1..];
        assert group[..i + 1] == group[..i] + [group[i]];
        assert group[i] !in group[i + 1..];
        var fresh' := group[i].Close();
        if fresh' {
          attempted := attempted + {group[i]};
        }
      }
      assert group[..|group|] == group;
    }
  }
}
