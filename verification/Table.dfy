/** The in-memory table with optimistic concurrency of the tunnel server, misc/server/store_memory.go. */
module Table {
  import opened Basics

  /** A Go uint, which wraps around. */
  const UINT_SIZE := 0x1_0000_0000_0000_0000
  type uint = n: nat | n < UINT_SIZE

  function Wrap(n: nat): uint {
    n % UINT_SIZE
  }

  datatype Operator<!K, !V> = Operator(getKey: V -> K, getRev: V -> uint, setRev: (V, uint) -> V)

  /** Setting the revision sets the revision and leaves the key. */
  ghost predicate Lawful<K, V(!new)>(op: Operator<K, V>) {
    && (forall v, rev :: op.getKey(op.setRev(v, rev)) == op.getKey(v))
    && (forall v, rev :: op.getRev(op.setRev(v, rev)) == rev)
  }

  datatype TableError = AlreadyExists | NotFound | Conflict

  // ---------------------------------------------------------------------------
  //  The operations on values
  // ---------------------------------------------------------------------------

  function AddTo<K, V>(m: map<K, V>, op: Operator<K, V>, v: V): Result<map<K, V>, TableError> {
    if op.getKey(v) in m then Err(AlreadyExists) else Ok(m[op.getKey(v) := v])
  }

  function UpdateIn<K, V>(m: map<K, V>, op: Operator<K, V>, v: V): Result<map<K, V>, TableError> {
    if op.getKey(v) !in m then Err(NotFound)
    else if op.getRev(m[op.getKey(v)]) != op.getRev(v) then Err(Conflict)
    else Ok(m[op.getKey(v) := op.setRev(v, Wrap(op.getRev(v) + 1))])
  }

  /** Every element is stored under its own key. */
  ghost predicate Keyed<K, V>(m: map<K, V>, op: Operator<K, V>) {
    forall k :: k in m ==> op.getKey(m[k]) == k
  }

  // ---------------------------------------------------------------------------
  //  The table
  // ---------------------------------------------------------------------------

  /** Without a filter every element is selected. */
  predicate Selects<V>(filter: Option<V -> bool>, v: V) {
    filter.Some? ==> filter.value(v)
  }

  class DataTable<K(==), V(!new)> {
    const op: Operator<K, V>
    var dataMap: map<K, V>

    ghost predicate Valid()
      reads this
    {
      Lawful(op) && Keyed(dataMap, op)
    }

    constructor (op: Operator<K, V>)
      requires Lawful(op)
      ensures Valid() && this.op == op && dataMap == map[]
    {
      this.op := op;
      dataMap := map[];
    }

    method GetWithKey(key: K) returns (elem: Option<V>)
      requires Valid()
      ensures elem == if key in dataMap then Some(dataMap[key]) else None
      ensures elem.Some? ==> op.getKey(elem.value) == key
    {
      elem := if key in dataMap then Some(dataMap[key]) else None;
    }

    /** The elements that satisfy the predicate, or all when there is none: each once, in any order. */
    method List(filter: Option<V -> bool>) returns (list: seq<V>)
      requires Valid()
      ensures forall v :: v in list <==> op.getKey(v) in dataMap && dataMap[op.getKey(v)] == v && Selects(filter, v)
      ensures forall i, j :: 0 <= i < j < |list| ==> op.getKey(list[i]) != op.getKey(list[j])
    {
      list := [];
      var rest := dataMap.Keys;
      while rest != {}
        invariant rest <= dataMap.Keys
        invariant forall v :: v in list ==>
                    op.getKey(v) in dataMap.Keys - rest && dataMap[op.getKey(v)] == v && Selects(filter, v)
        invariant forall k :: k in dataMap.Keys - rest && Selects(filter, dataMap[k]) ==> dataMap[k] in list
        invariant forall i, j :: 0 <= i < j < |list| ==> op.getKey(list[i]) != op.getKey(list[j])
      {
        var k :| k in rest;
        assert op.getKey(dataMap[k]) == k;
        if Selects(filter, dataMap[k]) {
          list := list + [dataMap[k]];
        }
        rest := rest - {k};
      }
      forall v | op.getKey(v) in dataMap && dataMap[op.getKey(v)] == v && Selects(filter, v) ensures v in list {
        var k := op.getKey(v);
        assert k in dataMap.Keys - rest && Selects(filter, dataMap[k]);
      }
    }

    method Add(value: V) returns (err: Option<TableError>)
      requires Valid()
      modifies this
      ensures Valid()
      ensures match AddTo(old(dataMap), op, value)
              case Ok(m) => err.None? && dataMap == m
              case Err(e) => err == Some(e) && dataMap == old(dataMap)
      ensures err == if op.getKey(value) in old(dataMap) then Some(AlreadyExists) else None
      ensures dataMap == if err.None? then old(dataMap)[op.getKey(value) := value] else old(dataMap)
    {
      var key := op.getKey(value);
      if key in dataMap {
        return Some(AlreadyExists);
      }
      dataMap := dataMap[key := value];
      err := None;
    }

    method Update(value: V) returns (err: Option<TableError>)
      requires Valid()
      modifies this
      ensures Valid()
      ensures match UpdateIn(old(dataMap), op, value)
              case Ok(m) => err.None? && dataMap == m
              case Err(e) => err == Some(e) && dataMap == old(dataMap)
      ensures err == Some(NotFound) <==> op.getKey(value) !in old(dataMap)
      ensures err == Some(Conflict) <==>
                op.getKey(value) in old(dataMap) && op.getRev(old(dataMap)[op.getKey(value)]) != op.getRev(value)
      ensures err.Some? ==> dataMap == old(dataMap)
      ensures err.None? ==>
                var stored := op.setRev(value, (op.getRev(value) + 1) % UINT_SIZE);
                dataMap == old(dataMap)[op.getKey(value) := stored]
    {
      var key := op.getKey(value);
      if key !in dataMap {
        return Some(NotFound);
      }
      var targetRev: nat := op.getRev(dataMap[key]);
      var currentRev: nat := op.getRev(value);
      if targetRev != currentRev {
        return Some(Conflict);
      }
      dataMap := dataMap[key := op.setRev(value, Wrap(targetRev + 1))];
      err := None;
    }

    method Delete(key: K)
      requires Valid()
      modifies this
      ensures Valid() && dataMap == old(dataMap) - {key}
    {
      dataMap := dataMap - {key};
    }
  }

  // ---------------------------------------------------------------------------
  //  The two tables of the server (misc/server/tunnel.go)
  // ---------------------------------------------------------------------------

  /** A tunnel; `rest` are the fields that the table does not look at. */
  datatype Tunnel<R> = Tunnel(id: string, rev: uint, rest: R)

  datatype Connection<R> = Connection(id: string, rev: uint, tunnelID: string, rest: R)

  function TunnelOperator<R>(): Operator<string, Tunnel<R>> {
    Operator((t: Tunnel<R>) => t.id, (t: Tunnel<R>) => t.rev, (t: Tunnel<R>, rev: uint) => t.(rev := rev))
  }

  function ConnectionOperator<R>(): Operator<string, Connection<R>> {
    Operator((c: Connection<R>) => c.id, (c: Connection<R>) => c.rev, (c: Connection<R>, rev: uint) => c.(rev := rev))
  }

  lemma OperatorsAreLawful<R(!new)>()
    ensures Lawful(TunnelOperator<R>()) && Lawful(ConnectionOperator<R>())
  {
  }
}
