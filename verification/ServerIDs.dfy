/** Ids of tunnels and connections, misc/server/id.go, and the search for the connections of a tunnel,
    misc/server/store_memory.go and services_connect.go. */
module ServerIDs {
  import opened Basics
  import opened Strings
  import opened Table

  const DIGITS := "0123456789"
  const LOWER := "abcdefghijklmnopqrstuvwxyz"
  const UPPER := "ABCDEFGHIJKLMNOPQRSTUVWXYZ"
  const AVAILABLE_CHARS := DIGITS + LOWER + UPPER
  const SEPARATOR := '_'

  // ---------------------------------------------------------------------------
  //  Generated ids
  // ---------------------------------------------------------------------------

  /** The i-th draw from the random source: below the number of characters, or an error. */
  type Draws = nat -> Option<nat>

  ghost predicate InRange(draws: Draws) {
    forall i :: draws(i).Some? ==> draws(i).value < |AVAILABLE_CHARS|
  }

  predicate Generated(id: string) {
    forall i :: 0 <= i < |id| ==> id[i] in AVAILABLE_CHARS
  }

  /** The first draws, spelt. */
  function Spell(draws: Draws, n: nat): (id: string)
    requires forall i: nat :: i < n ==> draws(i).Some? && draws(i).value < |AVAILABLE_CHARS|
    ensures |id| == n && forall i: nat :: i < n ==> id[i] == AVAILABLE_CHARS[draws(i).value]
  {
    if n == 0 then "" else Spell(draws, n - 1) + [AVAILABLE_CHARS[draws(n - 1).value]]
  }

  ghost predicate AllDrawn(draws: Draws, n: nat) {
    forall i: nat :: i < n ==> draws(i).Some?
  }

  /** An id of the given length that spells the draws, or an error at the first draw that fails. */
  method GenerateID(digit: nat, draws: Draws) returns (id: Option<string>)
    requires InRange(draws)
    ensures id.Some? <==> AllDrawn(draws, digit)
    ensures id.Some? ==> id.value == Spell(draws, digit) && Generated(id.value)
  {
    var bytes := new char[digit](_ => '0');
    for i := 0 to digit
      invariant forall k: nat :: k < i ==> draws(k).Some? && bytes[k] == AVAILABLE_CHARS[draws(k).value]
    {
      var number := draws(i);
      if number.None? {
        return None;
      }
      bytes[i] := AVAILABLE_CHARS[number.value];
    }
    assert bytes[..] == Spell(draws, digit);
    return Some(bytes[..]);
  }

  lemma GeneratedHasNoSeparator(id: string)
    requires Generated(id)
    ensures SEPARATOR !in id
  {
    assert SEPARATOR !in DIGITS && SEPARATOR !in LOWER && SEPARATOR !in UPPER;
  }

  // ---------------------------------------------------------------------------
  //  Tokens and connection ids
  // ---------------------------------------------------------------------------

  /** NewToken and NewConnectionID: the tunnel id, the separator, and a generated id. */
  function WithTunnelID(tunnelID: string, id: string): string {
    tunnelID + [SEPARATOR] + id
  }

  function TunnelID(id: string): string {
    Split(id, [SEPARATOR])[0]
  }

  /** The tunnel id comes back out of a token or a connection id exactly when it has no separator in
      it, whatever follows it. */
  lemma TunnelIDRecoveredIff(tunnelID: string, id: string)
    ensures TunnelID(WithTunnelID(tunnelID, id)) == tunnelID <==> SEPARATOR !in tunnelID
  {
    if SEPARATOR !in tunnelID {
      SplitAtCharacter(tunnelID, SEPARATOR, id);
    }
    PartsAreWithout(WithTunnelID(tunnelID, id), [SEPARATOR], 0);
    NoCharacterWithout(TunnelID(WithTunnelID(tunnelID, id)), SEPARATOR);
  }

  /** The i-th of the digits, the small and the capital letters. */
  lemma CharacterAt(i: nat)
    requires i < 62
    ensures |AVAILABLE_CHARS| == 62
    ensures AVAILABLE_CHARS[i] as int
         == if i < 10 then '0' as int + i else if i < 36 then 'a' as int + (i - 10) else 'A' as int + (i - 36)
  {
  }

  /** Ids made for a tunnel are equal exactly when their draws are. */
  lemma EqualIdsIff(tunnelID: string, draws: Draws, other: Draws, n: nat)
    requires InRange(draws) && InRange(other) && AllDrawn(draws, n) && AllDrawn(other, n)
    ensures WithTunnelID(tunnelID, Spell(draws, n)) == WithTunnelID(tunnelID, Spell(other, n))
       <==> forall i: nat :: i < n ==> draws(i) == other(i)
  {
    var id, id' := Spell(draws, n), Spell(other, n);
    assert WithTunnelID(tunnelID, id)[|tunnelID| + 1..] == id;
    assert WithTunnelID(tunnelID, id')[|tunnelID| + 1..] == id';
    if id == id' {
      forall i: nat | i < n ensures draws(i) == other(i) {
        CharacterAt(draws(i).value);
        CharacterAt(other(i).value);
        assert id[i] == id'[i];
      }
    }
  }

  /** For a generated tunnel id, comparing the prefix is comparing the tunnel id. */
  lemma IndexAgreement(tunnelID: string, id: string, search: string)
    requires Generated(tunnelID)
    ensures TunnelID(WithTunnelID(tunnelID, id)) == search <==> tunnelID == search
  {
    GeneratedHasNoSeparator(tunnelID);
    TunnelIDRecoveredIff(tunnelID, id);
  }

  method NewConnectionID(tunnelID: string, digit: nat, draws: Draws) returns (r: Option<string>)
    requires InRange(draws)
    ensures r.Some? <==> AllDrawn(draws, digit)
    ensures r.Some? ==> r.value == WithTunnelID(tunnelID, Spell(draws, digit))
    ensures r.Some? ==> (TunnelID(r.value) == tunnelID <==> SEPARATOR !in tunnelID)
  {
    var id := GenerateID(digit, draws);
    if id.None? {
      return None;
    }
    TunnelIDRecoveredIff(tunnelID, id.value);
    r := Some(WithTunnelID(tunnelID, id.value));
  }

  // ---------------------------------------------------------------------------
  //  The connection table and its search
  // ---------------------------------------------------------------------------

  /** The id agrees with the field. */
  predicate Indexed(c: Connection<string>) {
    TunnelID(c.id) == c.tunnelID
  }

  class ConnectionStore {
    const table: DataTable<string, Connection<string>>

    ghost predicate Valid()
      reads this, table
    {
      table.op == ConnectionOperator<string>() && table.Valid()
    }

    /** Every stored connection is found under the tunnel that it belongs to. */
    ghost predicate AllIndexed()
      reads this, table
    {
      forall k :: k in table.dataMap ==> Indexed(table.dataMap[k])
    }

    constructor ()
      ensures Valid() && AllIndexed() && fresh(table) && table.dataMap == map[]
    {
      OperatorsAreLawful<string>();
      table := new DataTable(ConnectionOperator<string>());
    }

    /** TunnelConnect makes a connection for the tunnel and adds it; it fails exactly when a draw fails
        or the id is taken. */
    method Connect(tunnelID: string, digit: nat, draws: Draws, rest: string) returns (id: Option<string>)
      requires Valid() && InRange(draws)
      modifies table
      ensures Valid()
      ensures id.Some? <==>
                AllDrawn(draws, digit) && WithTunnelID(tunnelID, Spell(draws, digit)) !in old(table.dataMap)
      ensures match id
              case None => table.dataMap == old(table.dataMap)
              case Some(k) =>
                && k == WithTunnelID(tunnelID, Spell(draws, digit))
                && table.dataMap == old(table.dataMap)[k := Connection(k, 1, tunnelID, rest)]
      ensures old(AllIndexed()) && SEPARATOR !in tunnelID ==> AllIndexed()
    {
      id := NewConnectionID(tunnelID, digit, draws);
      if id.Some? {
        var err := table.Add(Connection(id.value, 1, tunnelID, rest));
        if err.Some? {
          id := None;
        }
      }
    }

    /** When a peer disconnects, TunnelConnect gets the connection, changes its other fields, and
        updates it. */
    method Disconnect(id: string, rest: string) returns (ok: bool)
      requires Valid()
      modifies table
      ensures Valid() && (ok <==> id in old(table.dataMap))
      ensures table.dataMap.Keys == old(table.dataMap.Keys)
      ensures forall k :: k in table.dataMap && k != id ==> table.dataMap[k] == old(table.dataMap[k])
      ensures ok ==> table.dataMap[id].tunnelID == old(table.dataMap[id].tunnelID) && table.dataMap[id].rest == rest
      ensures ok ==> table.dataMap[id].rev == Wrap(old(table.dataMap[id].rev) + 1)
      ensures old(AllIndexed()) ==> AllIndexed()
    {
      var connection := table.GetWithKey(id);
      if connection.None? {
        return false;
      }
      var err := table.Update(connection.value.(rest := rest));
      ok := err.None?;
    }

    /** An update keeps the search right exactly when the new value is indexed. */
    method UpdateConnection(connection: Connection<string>) returns (err: Option<TableError>)
      requires Valid()
      modifies table
      ensures Valid()
      ensures match UpdateIn(old(table.dataMap), table.op, connection)
              case Ok(m) => err.None? && table.dataMap == m
              case Err(e) => err == Some(e) && table.dataMap == old(table.dataMap)
      ensures old(AllIndexed()) ==> (AllIndexed() <==> err.Some? || Indexed(connection))
    {
      err := table.Update(connection);
      assert err.None? ==> table.dataMap[connection.id] == connection.(rev := table.dataMap[connection.id].rev);
    }

    method DeleteConnection(id: string)
      requires Valid()
      modifies table
      ensures Valid() && table.dataMap == old(table.dataMap) - {id}
      ensures old(AllIndexed()) ==> AllIndexed()
    {
      table.Delete(id);
    }

    /** The search compares the prefix of the connection id. When every stored connection is indexed
        it finds exactly those of the tunnel, and with an empty search all. */
    method GetConnections(tunnelID: string) returns (list: seq<Connection<string>>)
      requires Valid()
      ensures forall c :: c in list <==>
                && c.id in table.dataMap && table.dataMap[c.id] == c
                && (tunnelID == "" || TunnelID(c.id) == tunnelID)
      ensures AllIndexed() ==>
                forall c :: c in list <==>
                  && c.id in table.dataMap && table.dataMap[c.id] == c
                  && (tunnelID == "" || c.tunnelID == tunnelID)
      ensures forall i, j :: 0 <= i < j < |list| ==> list[i].id != list[j].id
    {
      list := table.List(Some((c: Connection<string>) => tunnelID == "" || TunnelID(c.id) == tunnelID));
    }
  }
}
