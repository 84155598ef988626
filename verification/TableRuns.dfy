/** Clients that get, modify and update the elements of one table, interleaved in any way. The table's
    operations are atomic under its lock, so a run is a sequence of them. */
module TableRuns {
  import opened Table

  // ---------------------------------------------------------------------------
  //  Runs
  // ---------------------------------------------------------------------------

  /** A copy that a client holds, with where it came from: the index-th version of a life of its key. */
  datatype Copy<K, V> = Copy(key: K, life: nat, index: nat, value: V)

  /** `lives` remembers, of each key, its lives from add to delete, and of each life all the versions
      that were stored. */
  datatype State<!K, V> = State(table: map<K, V>, lives: map<K, seq<seq<V>>>, held: map<nat, Copy<K, V>>)

  datatype Turn<K, V> =
    | Get(client: nat, key: K)
    | Add(value: V)
    | Update(value: V)
    | Delete(key: K)

  function LivesOf<K, V>(s: State<K, V>, k: K): seq<seq<V>> {
    if k in s.lives then s.lives[k] else []
  }

  /** The versions of the life that the key is in or was in last. */
  function Versions<K, V>(s: State<K, V>, k: K): seq<V> {
    var lives := LivesOf(s, k);
    if lives == [] then [] else lives[|lives| - 1]
  }

  function Step<K, V>(s: State<K, V>, op: Operator<K, V>, turn: Turn<K, V>): State<K, V> {
    match turn
    case Get(client, k) =>
      var lives, versions := LivesOf(s, k), Versions(s, k);
      if k in s.table && versions != []
      then s.(held := s.held[client := Copy(k, |lives| - 1, |versions| - 1, s.table[k])])
      else s
    case Add(v) =>
      (match AddTo(s.table, op, v)
       case Ok(m) => State(m, s.lives[op.getKey(v) := LivesOf(s, op.getKey(v)) + [[v]]], s.held)
       case Err(_) => s)
    case Update(v) =>
      (match UpdateIn(s.table, op, v)
       case Ok(m) =>
         var k := op.getKey(v);
         var lives := LivesOf(s, k);
         if lives == [] || k !in m then s
         else State(m, s.lives[k := lives[|lives| - 1 := lives[|lives| - 1] + [m[k]]]], s.held)
       case Err(_) => s)
    case Delete(k) => s.(table := s.table - {k})
  }

  function Run<K, V>(s: State<K, V>, op: Operator<K, V>, turns: seq<Turn<K, V>>): State<K, V>
    decreases |turns|
  {
    if turns == [] then s else Run(Step(s, op, turns[0]), op, turns[1..])
  }

  function Init<K, V>(): State<K, V> {
    State(map[], map[], map[])
  }

  predicate Succeeds<K, V>(s: State<K, V>, op: Operator<K, V>, turn: Turn<K, V>, k: K) {
    turn.Update? && op.getKey(turn.value) == k && UpdateIn(s.table, op, turn.value).Ok?
  }

  // ---------------------------------------------------------------------------
  //  The invariant, key by key
  // ---------------------------------------------------------------------------

  /** The revisions of a life count its versions, starting from whatever was added. */
  ghost predicate Life<K, V>(versions: seq<V>, op: Operator<K, V>, k: K) {
    && versions != []
    && forall i :: 0 <= i < |versions| ==>
         op.getKey(versions[i]) == k && op.getRev(versions[i]) == Wrap(op.getRev(versions[0]) + i)
  }

  ghost predicate Lives<K, V>(lives: seq<seq<V>>, op: Operator<K, V>, k: K) {
    forall l :: 0 <= l < |lives| ==> Life(lives[l], op, k)
  }

  /** What is stored is the last version of the last life. */
  predicate Last<V(==)>(lives: seq<seq<V>>, v: V) {
    && lives != [] && lives[|lives| - 1] != []
    && lives[|lives| - 1][|lives[|lives| - 1]| - 1] == v
  }

  ghost predicate KeyOk<K, V>(s: State<K, V>, op: Operator<K, V>, k: K) {
    Lives(LivesOf(s, k), op, k) && (k in s.table ==> op.getKey(s.table[k]) == k && Last(LivesOf(s, k), s.table[k]))
  }

  ghost predicate CopyOk<K, V>(lives: seq<seq<V>>, c: Copy<K, V>) {
    c.life < |lives| && c.index < |lives[c.life]| && lives[c.life][c.index] == c.value
  }

  ghost predicate Inv<K(!new), V(!new)>(s: State<K, V>, op: Operator<K, V>) {
    && (forall k :: KeyOk(s, op, k))
    && (forall client :: client in s.held ==> CopyOk(LivesOf(s, s.held[client].key), s.held[client]))
  }

  /** What a turn does to one key: a success appends a version to its last life, an add begins a life,
      anything else leaves its lives alone. */
  lemma StepOnKey<K, V(!new)>(s: State<K, V>, op: Operator<K, V>, turn: Turn<K, V>, k: K)
    requires Lawful(op) && KeyOk(s, op, k)
    ensures var n := Step(s, op, turn);
            var lives, lives' := LivesOf(s, k), LivesOf(n, k);
            if Succeeds(s, op, turn, k) then
              && k in s.table && k in n.table && Last(lives, s.table[k])
              && op.getKey(n.table[k]) == k && op.getRev(n.table[k]) == Wrap(op.getRev(s.table[k]) + 1)
              && op.getRev(turn.value) == op.getRev(s.table[k])
              && lives' == lives[..|lives| - 1] + [lives[|lives| - 1] + [n.table[k]]]
            else if turn.Add? && op.getKey(turn.value) == k && k !in s.table then
              k in n.table && n.table[k] == turn.value && lives' == lives + [[turn.value]]
            else
              && lives' == lives
              && (k in n.table ==> k in s.table && n.table[k] == s.table[k])
              && (k in s.table && turn != Delete(k) ==> k in n.table)
  {
    match turn
    case Get(client, key) =>
    case Add(v) =>
    case Update(v) => UpdateOnKey(s, op, v, k);
    case Delete(key) =>
  }

  lemma UpdateOnKey<K, V(!new)>(s: State<K, V>, op: Operator<K, V>, v: V, k: K)
    requires Lawful(op) && KeyOk(s, op, k)
    ensures var n := Step(s, op, Update(v));
            var lives, lives' := LivesOf(s, k), LivesOf(n, k);
            if Succeeds(s, op, Update(v), k) then
              && k in s.table && k in n.table && Last(lives, s.table[k])
              && op.getKey(n.table[k]) == k && op.getRev(n.table[k]) == Wrap(op.getRev(s.table[k]) + 1)
              && op.getRev(v) == op.getRev(s.table[k])
              && lives' == lives[..|lives| - 1] + [lives[|lives| - 1] + [n.table[k]]]
            else lives' == lives && (k in n.table <==> k in s.table) && (k in n.table ==> n.table[k] == s.table[k])
  {
    if op.getKey(v) == k && UpdateIn(s.table, op, v).Ok? {
      var lives := LivesOf(s, k);
      var n := Step(s, op, Update(v));
      assert n.lives[k] == lives[|lives| - 1 := lives[|lives| - 1] + [n.table[k]]];
    }
  }

  lemma LifeGrows<K, V>(versions: seq<V>, op: Operator<K, V>, k: K, v: V)
    requires Life(versions, op, k) && op.getKey(v) == k
    requires op.getRev(v) == Wrap(op.getRev(versions[|versions| - 1]) + 1)
    ensures Life(versions + [v], op, k)
  {
    var n := |versions|;
    WrapOfWrap(op.getRev(versions[0]) + n - 1, 1);
    var more := versions + [v];
    forall i | 0 <= i < |more| ensures op.getKey(more[i]) == k && op.getRev(more[i]) == Wrap(op.getRev(more[0]) + i) {
      if i < n {
        assert more[i] == versions[i];
      }
    }
  }

  lemma StepKeepsKey<K, V(!new)>(s: State<K, V>, op: Operator<K, V>, turn: Turn<K, V>, k: K)
    requires Lawful(op) && KeyOk(s, op, k)
    ensures KeyOk(Step(s, op, turn), op, k)
  {
    var n := Step(s, op, turn);
    var lives := LivesOf(s, k);
    StepOnKey(s, op, turn, k);
    if Succeeds(s, op, turn, k) {
      LifeGrows(lives[|lives| - 1], op, k, n.table[k]);
    } else if turn.Add? && op.getKey(turn.value) == k && k !in s.table {
      assert Life([turn.value], op, k);
    }
  }

  /** A copy stays where it came from. */
  lemma StepKeepsCopy<K, V(!new)>(s: State<K, V>, op: Operator<K, V>, turn: Turn<K, V>, c: Copy<K, V>)
    requires Lawful(op) && KeyOk(s, op, c.key) && CopyOk(LivesOf(s, c.key), c)
    ensures CopyOk(LivesOf(Step(s, op, turn), c.key), c)
  {
    StepOnKey(s, op, turn, c.key);
  }

  lemma StepKeepsInv<K(!new), V(!new)>(s: State<K, V>, op: Operator<K, V>, turn: Turn<K, V>)
    requires Lawful(op) && Inv(s, op)
    ensures Inv(Step(s, op, turn), op)
  {
    var n := Step(s, op, turn);
    forall k ensures KeyOk(n, op, k) {
      StepKeepsKey(s, op, turn, k);
    }
    forall client | client in n.held ensures CopyOk(LivesOf(n, n.held[client].key), n.held[client]) {
      if client in s.held && n.held[client] == s.held[client] {
        StepKeepsCopy(s, op, turn, s.held[client]);
      } else {
        assert KeyOk(s, op, turn.key);
      }
    }
  }

  lemma {:induction false} RunKeepsInv<K(!new), V(!new)>(s: State<K, V>, op: Operator<K, V>, turns: seq<Turn<K, V>>)
    requires Lawful(op) && Inv(s, op)
    ensures Inv(Run(s, op, turns), op)
    decreases |turns|
  {
    if turns != [] {
      StepKeepsInv(s, op, turns[0]);
      RunKeepsInv(Step(s, op, turns[0]), op, turns[1..]);
    }
  }

  // ---------------------------------------------------------------------------
  //  Arithmetic of revisions
  // ---------------------------------------------------------------------------

  lemma WrapOfWrap(n: nat, more: nat)
    ensures Wrap(Wrap(n) + more) == Wrap(n + more)
  {
    var q := n / UINT_SIZE;
    assert n + more == UINT_SIZE * q + (Wrap(n) + more);
  }

  lemma SameWrapIff(first: nat, i: nat, j: nat)
    requires i <= j
    ensures Wrap(first + i) == Wrap(first + j) <==> Wrap(j - i) == 0
  {
    var a, b := (first + i) / UINT_SIZE, (first + j) / UINT_SIZE;
    if Wrap(first + i) == Wrap(first + j) {
      assert j - i == UINT_SIZE * (b - a);
    }
    if Wrap(j - i) == 0 {
      WrapOfWrap(j - i, first + i);
    }
  }

  // ---------------------------------------------------------------------------
  //  When an update passes
  // ---------------------------------------------------------------------------

  /** A client holds a copy of a stored key and updates it with the revision of that copy. */
  ghost predicate FromCopy<K, V>(s: State<K, V>, op: Operator<K, V>, client: nat, value: V) {
    && client in s.held && s.held[client].key in s.table
    && op.getKey(value) == s.held[client].key && op.getRev(value) == op.getRev(s.held[client].value)
  }

  /** In any run, whatever life of its key a copy was made in: an update with its revision succeeds
      exactly when the revision that the copy's life began with, advanced by the place of the copy in
      it, is the revision that the present life began with, advanced by the number of its updates. */
  lemma CopyPassesIff<K(!new), V(!new)>(op: Operator<K, V>, turns: seq<Turn<K, V>>, client: nat, value: V)
    requires Lawful(op) && FromCopy(Run(Init(), op, turns), op, client, value)
    ensures var s := Run(Init(), op, turns);
            var copy, k := s.held[client], s.held[client].key;
            var lives, last := LivesOf(s, k), Versions(s, k);
            && copy.life < |lives| && copy.index < |lives[copy.life]| && copy.value == lives[copy.life][copy.index]
            && last != [] && s.table[k] == last[|last| - 1]
            && (Succeeds(s, op, Update(value), k) <==>
                  Wrap(op.getRev(lives[copy.life][0]) + copy.index) == Wrap(op.getRev(last[0]) + |last| - 1))
  {
    RunKeepsInv(Init(), op, turns);
    var s := Run(Init(), op, turns);
    var copy, k := s.held[client], s.held[client].key;
    assert KeyOk(s, op, k) && CopyOk(LivesOf(s, k), copy);
    assert Life(LivesOf(s, k)[copy.life], op, k) && Life(Versions(s, k), op, k);
  }

  lemma WrapOfDistance(i: nat, j: nat, d: nat)
    requires d == if i <= j then j - i else i - j
    ensures Wrap(1 + i) == Wrap(1 + j) <==> Wrap(d) == 0
  {
    if i <= j {
      SameWrapIff(1, i, j);
    } else {
      SameWrapIff(1, j, i);
    }
  }

  /** When every life begins with the same revision, as in the server, whose additions all carry
      revision 1: a copy of any life passes exactly when its place and the place of the present
      version differ by a multiple of the size of a uint. In particular a copy of an earlier life
      passes as soon as the present life has come to the same place. */
  lemma StaleCopyPassesIff<K(!new), V(!new)>(op: Operator<K, V>, turns: seq<Turn<K, V>>, client: nat, value: V)
    requires Lawful(op) && FromCopy(Run(Init(), op, turns), op, client, value)
    requires forall turn :: turn in turns && turn.Add? ==> op.getRev(turn.value) == 1
    ensures var s := Run(Init(), op, turns);
            var copy, k := s.held[client], s.held[client].key;
            var place := |Versions(s, k)| - 1;
            Succeeds(s, op, Update(value), k) <==>
              Wrap(if copy.index <= place then place - copy.index else copy.index - place) == 0
  {
    CopyPassesIff(op, turns, client, value);
    LivesBeginAtOne(Init(), op, turns);
    var s := Run(Init(), op, turns);
    var copy, k := s.held[client], s.held[client].key;
    var place := |Versions(s, k)| - 1;
    assert BeginsAtOne(LivesOf(s, k)[copy.life], op) && BeginsAtOne(Versions(s, k), op);
    WrapOfDistance(copy.index, place, if copy.index <= place then place - copy.index else copy.index - place);
  }

  predicate BeginsAtOne<K, V>(life: seq<V>, op: Operator<K, V>) {
    life != [] && op.getRev(life[0]) == 1
  }

  ghost predicate AllBeginAtOne<K(!new), V>(s: State<K, V>, op: Operator<K, V>) {
    forall k, l :: 0 <= l < |LivesOf(s, k)| ==> BeginsAtOne(LivesOf(s, k)[l], op)
  }

  lemma StepBeginsAtOne<K(!new), V(!new)>(s: State<K, V>, op: Operator<K, V>, turn: Turn<K, V>)
    requires Lawful(op) && Inv(s, op) && AllBeginAtOne(s, op)
    requires turn.Add? ==> op.getRev(turn.value) == 1
    ensures AllBeginAtOne(Step(s, op, turn), op)
  {
    var n := Step(s, op, turn);
    forall k, l | 0 <= l < |LivesOf(n, k)| ensures BeginsAtOne(LivesOf(n, k)[l], op) {
      assert KeyOk(s, op, k);
      StepOnKey(s, op, turn, k);
      if l < |LivesOf(s, k)| {
        assert BeginsAtOne(LivesOf(s, k)[l], op);
      }
    }
  }

  lemma {:induction false} LivesBeginAtOne<K(!new), V(!new)>(s: State<K, V>, op: Operator<K, V>, turns: seq<Turn<K, V>>)
    requires Lawful(op) && Inv(s, op) && AllBeginAtOne(s, op)
    requires forall turn :: turn in turns && turn.Add? ==> op.getRev(turn.value) == 1
    ensures AllBeginAtOne(Run(s, op, turns), op)
    decreases |turns|
  {
    if turns != [] {
      StepKeepsInv(s, op, turns[0]);
      StepBeginsAtOne(s, op, turns[0]);
      LivesBeginAtOne(Step(s, op, turns[0]), op, turns[1..]);
    }
  }

  /** A witness: a copy from before a delete passes for one of the element added afterwards. */
  lemma LivesAreNotToldApart()
    ensures var op := TunnelOperator<int>();
            var turns := [Add(Tunnel("id", 1, 0)), Get(0, "id"), Delete("id"), Add(Tunnel("id", 1, 1))];
            var s := Run(Init(), op, turns);
            && 0 in s.held && s.held[0] == Copy("id", 0, 0, Tunnel("id", 1, 0))
            && LivesOf(s, "id") == [[Tunnel("id", 1, 0)], [Tunnel("id", 1, 1)]]
            && Succeeds(s, op, Update(s.held[0].value.(rest := 2)), "id")
  {
    var op := TunnelOperator<int>();
    var a: Turn<string, Tunnel<int>>, b := Add(Tunnel("id", 1, 0)), Get(0, "id");
    var c, d: Turn<string, Tunnel<int>> := Delete("id"), Add(Tunnel("id", 1, 1));
    var s0 := Init<string, Tunnel<int>>();
    var s1 := Step(s0, op, a);
    var s2 := Step(s1, op, b);
    var s3 := Step(s2, op, c);
    var s4 := Step(s3, op, d);
    assert [a, b, c, d][1..] == [b, c, d] && [b, c, d][1..] == [c, d] && [c, d][1..] == [d] && [d][1..] == [];
    assert Run(s3, op, [d]) == s4;
    assert Run(s2, op, [c, d]) == s4;
    assert Run(s1, op, [b, c, d]) == s4;
    assert LivesOf(s1, "id") == [[Tunnel("id", 1, 0)]];
    assert LivesOf(s4, "id") == [[Tunnel("id", 1, 0)], [Tunnel("id", 1, 1)]];
  }

  // ---------------------------------------------------------------------------
  //  No lost updates
  // ---------------------------------------------------------------------------

  /** Within one life, in any run: a client that updates with the revision of its copy succeeds
      exactly when the number of versions stored since is a multiple of the size of a uint. Short of a
      wrap-around that means exactly when there is none: the update was computed from the version that
      it follows. An update that fails changes nothing. */
  lemma NoLostUpdates<K(!new), V(!new)>(op: Operator<K, V>, turns: seq<Turn<K, V>>, client: nat, value: V)
    requires Lawful(op) && FromCopy(Run(Init(), op, turns), op, client, value)
    requires var s := Run(Init(), op, turns); s.held[client].life == |LivesOf(s, s.held[client].key)| - 1
    ensures var s := Run(Init(), op, turns);
            var copy, k := s.held[client], s.held[client].key;
            var n, versions := Step(s, op, Update(value)), Versions(s, k);
            var since := |versions| - 1 - copy.index;
            && since >= 0 && s.table[k] == versions[|versions| - 1] && copy.value == versions[copy.index]
            && (Succeeds(s, op, Update(value), k) <==> Wrap(since) == 0)
            && (since < UINT_SIZE ==> (Succeeds(s, op, Update(value), k) <==> since == 0))
            && (Succeeds(s, op, Update(value), k) ==> k in n.table && Versions(n, k) == versions + [n.table[k]])
            && (!Succeeds(s, op, Update(value), k) ==> n == s)
  {
    CopyPassesIff(op, turns, client, value);
    RunKeepsInv(Init(), op, turns);
    var s := Run(Init(), op, turns);
    var copy, k := s.held[client], s.held[client].key;
    assert KeyOk(s, op, k);
    SameWrapIff(op.getRev(Versions(s, k)[0]), copy.index, |Versions(s, k)| - 1);
    ShortOfAWrap(|Versions(s, k)| - 1 - copy.index);
    UpdateAddsAVersion(s, op, value, k);
  }

  lemma ShortOfAWrap(since: nat)
    ensures since < UINT_SIZE ==> (Wrap(since) == 0 <==> since == 0)
  {
  }

  lemma UpdateAddsAVersion<K, V(!new)>(s: State<K, V>, op: Operator<K, V>, value: V, k: K)
    requires Lawful(op) && KeyOk(s, op, k) && op.getKey(value) == k && k in s.table
    ensures var n := Step(s, op, Update(value));
            if Succeeds(s, op, Update(value), k) then k in n.table && Versions(n, k) == Versions(s, k) + [n.table[k]]
            else n == s
  {
    UpdateOnKey(s, op, value, k);
  }

  /** Of the versions of a life, the i-th and the j-th carry the same revision exactly when their
      distance is a multiple of the size of a uint, and the (i + 1)-th carries the revision after that
      of the i-th. */
  lemma RevisionsOfALife<K(!new), V(!new)>(op: Operator<K, V>, turns: seq<Turn<K, V>>, k: K, l: nat, i: nat, j: nat)
    requires Lawful(op)
    requires var lives := LivesOf(Run(Init(), op, turns), k); l < |lives| && i < j < |lives[l]|
    ensures var versions := LivesOf(Run(Init(), op, turns), k)[l];
            && (op.getRev(versions[i]) == op.getRev(versions[j]) <==> Wrap(j - i) == 0)
            && op.getRev(versions[i + 1]) == Wrap(op.getRev(versions[i]) + 1)
            && (|versions| <= UINT_SIZE ==> op.getRev(versions[i]) != op.getRev(versions[j]))
  {
    RunKeepsInv(Init(), op, turns);
    var s := Run(Init(), op, turns);
    assert KeyOk(s, op, k);
    var versions := LivesOf(s, k)[l];
    assert Life(versions, op, k);
    SameWrapIff(op.getRev(versions[0]), i, j);
    WrapOfWrap(op.getRev(versions[0]) + i, 1);
  }

  // ---------------------------------------------------------------------------
  //  The revision counts the successes
  // ---------------------------------------------------------------------------

  /** The number of updates of a key that succeed in a run. */
  function Successes<K(==), V>(s: State<K, V>, op: Operator<K, V>, turns: seq<Turn<K, V>>, k: K): nat
    decreases |turns|
  {
    if turns == [] then 0
    else (if Succeeds(s, op, turns[0], k) then 1 else 0) + Successes(Step(s, op, turns[0]), op, turns[1..], k)
  }

  /** From one state to another the key has stayed, and has been given this many versions more. */
  ghost predicate Advanced<K, V>(op: Operator<K, V>, s: State<K, V>, n: State<K, V>, k: K, count: nat) {
    && k in s.table && k in n.table
    && op.getRev(n.table[k]) == Wrap(op.getRev(s.table[k]) + count)
    && |Versions(n, k)| == |Versions(s, k)| + count
  }

  lemma AdvancedTwice<K, V>(op: Operator<K, V>, s: State<K, V>, n: State<K, V>, m: State<K, V>, k: K, i: nat, j: nat)
    requires Advanced(op, s, n, k, i) && Advanced(op, n, m, k, j)
    ensures Advanced(op, s, m, k, i + j)
  {
    WrapOfWrap(op.getRev(s.table[k]) + i, j);
  }

  lemma StepAdvances<K, V(!new)>(s: State<K, V>, op: Operator<K, V>, turn: Turn<K, V>, k: K)
    requires Lawful(op) && KeyOk(s, op, k) && k in s.table && turn != Delete(k)
    ensures Advanced(op, s, Step(s, op, turn), k, if Succeeds(s, op, turn, k) then 1 else 0)
  {
    StepOnKey(s, op, turn, k);
  }

  lemma RunAndSuccessesUnfold<K, V>(s: State<K, V>, op: Operator<K, V>, turns: seq<Turn<K, V>>, k: K)
    requires turns != []
    ensures var n := Step(s, op, turns[0]);
            && Run(s, op, turns) == Run(n, op, turns[1..])
            && Successes(s, op, turns, k)
               == (if Succeeds(s, op, turns[0], k) then 1 else 0) + Successes(n, op, turns[1..], k)
  {
  }

  lemma {:induction false} RunAdvances<K, V(!new)>(s: State<K, V>, op: Operator<K, V>, turns: seq<Turn<K, V>>, k: K)
    requires Lawful(op) && KeyOk(s, op, k) && k in s.table
    requires forall i :: 0 <= i < |turns| ==> turns[i] != Delete(k)
    ensures Advanced(op, s, Run(s, op, turns), k, Successes(s, op, turns, k))
    decreases |turns|
  {
    if turns == [] {
      assert Wrap(op.getRev(s.table[k])) == op.getRev(s.table[k]);
    } else {
      var n, one := Step(s, op, turns[0]), if Succeeds(s, op, turns[0], k) then 1 else 0;
      StepKeepsKey(s, op, turns[0], k);
      StepAdvances(s, op, turns[0], k);
      RunAdvances(n, op, turns[1..], k);
      RunAndSuccessesUnfold(s, op, turns, k);
      AdvancedTwice(op, s, n, Run(n, op, turns[1..]), k, one, Successes(n, op, turns[1..], k));
    }
  }

  /** From any state in which a key is stored, over any further run that does not delete it: its
      revision has advanced by the number of successful updates, which is the number of versions that
      were stored. */
  lemma RevisionCountsSuccesses<K, V(!new)>(s: State<K, V>, op: Operator<K, V>, turns: seq<Turn<K, V>>, k: K)
    requires Lawful(op) && KeyOk(s, op, k) && k in s.table
    requires forall i :: 0 <= i < |turns| ==> turns[i] != Delete(k)
    ensures var n := Run(s, op, turns);
            && k in n.table
            && op.getRev(n.table[k]) == Wrap(op.getRev(s.table[k]) + Successes(s, op, turns, k))
            && |Versions(n, k)| == |Versions(s, k)| + Successes(s, op, turns, k)
  {
    RunAdvances(s, op, turns, k);
  }

  // ---------------------------------------------------------------------------
  //  One success for one revision
  // ---------------------------------------------------------------------------

  lemma SucceedsIff<K, V>(s: State<K, V>, op: Operator<K, V>, v: V)
    ensures Succeeds(s, op, Update(v), op.getKey(v))
       <==> op.getKey(v) in s.table && op.getRev(s.table[op.getKey(v)]) == op.getRev(v)
  {
  }

  lemma BackToTheRevision(rev: uint, now: uint, since: nat)
    requires now == Wrap(rev + since)
    ensures now == rev <==> Wrap(since) == 0
  {
    SameWrapIff(rev, 0, since);
  }

  lemma SuccessAdvances<K, V(!new)>(s: State<K, V>, op: Operator<K, V>, v: V)
    requires Lawful(op) && KeyOk(s, op, op.getKey(v)) && Succeeds(s, op, Update(v), op.getKey(v))
    ensures Advanced(op, s, Step(s, op, Update(v)), op.getKey(v), 1)
    ensures KeyOk(Step(s, op, Update(v)), op, op.getKey(v))
  {
    SucceedsIff(s, op, v);
    StepAdvances(s, op, Update(v), op.getKey(v));
    StepKeepsKey(s, op, Update(v), op.getKey(v));
  }

  lemma SecondPassesIff<K, V>(op: Operator<K, V>, s: State<K, V>, m: State<K, V>, first: V, second: V, since: nat)
    requires Succeeds(s, op, Update(first), op.getKey(first))
    requires op.getKey(second) == op.getKey(first) && op.getRev(second) == op.getRev(first)
    requires Advanced(op, s, m, op.getKey(first), since)
    ensures Succeeds(m, op, Update(second), op.getKey(first)) <==> Wrap(since) == 0
  {
    var k := op.getKey(first);
    SucceedsIff(s, op, first);
    SucceedsIff(m, op, second);
    BackToTheRevision(op.getRev(s.table[k]), op.getRev(m.table[k]), since);
  }

  /** After a success and these turns, a value that carries the same revision passes exactly when the
      successes are a multiple of the size of a uint; short of a wrap-around it does not pass. */
  ghost predicate OncePerUint<K, V>(op: Operator<K, V>, n: State<K, V>, after: seq<Turn<K, V>>, second: V) {
    var k := op.getKey(second);
    var since := 1 + Successes(n, op, after, k);
    && (Succeeds(Run(n, op, after), op, Update(second), k) <==> Wrap(since) == 0)
    && (since < UINT_SIZE ==> !Succeeds(Run(n, op, after), op, Update(second), k))
  }

  lemma OneSuccessFrom<K, V(!new)>(s: State<K, V>, op: Operator<K, V>, first: V, after: seq<Turn<K, V>>, second: V)
    requires Lawful(op) && KeyOk(s, op, op.getKey(first)) && Succeeds(s, op, Update(first), op.getKey(first))
    requires op.getKey(second) == op.getKey(first) && op.getRev(second) == op.getRev(first)
    requires forall i :: 0 <= i < |after| ==> after[i] != Delete(op.getKey(first))
    ensures OncePerUint(op, Step(s, op, Update(first)), after, second)
  {
    var k, n := op.getKey(first), Step(s, op, Update(first));
    var since := Successes(n, op, after, k);
    SuccessAdvances(s, op, first);
    RunAdvances(n, op, after, k);
    AdvancedTwice(op, s, n, Run(n, op, after), k, 1, since);
    SecondPassesIff(op, s, Run(n, op, after), first, second, 1 + since);
  }

  /** After an update that succeeded, over any further turns without a delete of its key: another that
      carries the same revision succeeds exactly when the successes since, the first included, are a
      multiple of the size of a uint. So of two updates that carry the same revision at most one
      succeeds in one life, short of a wrap-around. */
  lemma OneSuccessPerRevision<K(!new), V(!new)>(op: Operator<K, V>, before: seq<Turn<K, V>>, first: V,
                                                after: seq<Turn<K, V>>, second: V)
    requires Lawful(op) && Succeeds(Run(Init(), op, before), op, Update(first), op.getKey(first))
    requires op.getKey(second) == op.getKey(first) && op.getRev(second) == op.getRev(first)
    requires forall i :: 0 <= i < |after| ==> after[i] != Delete(op.getKey(first))
    ensures OncePerUint(op, Step(Run(Init(), op, before), op, Update(first)), after, second)
  {
    RunKeepsInv(Init(), op, before);
    assert KeyOk(Run(Init(), op, before), op, op.getKey(first));
    OneSuccessFrom(Run(Init(), op, before), op, first, after, second);
  }
}
