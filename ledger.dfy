/**
 * The BP ledger as a value: the table `BPTable.bp` of bpbot.py, a Python
 * dict from a case-folded user name to (display name, amount), together
 * with the dict's insertion order, which decides the order of the rows on
 * save and the order of ties in the ranking.
 *
 * The functions here are the reference definitions that the class
 * `LedgerTable.BPTable` is proved against; the lemmas state what the
 * source promises about them.
 */
module Ledger {
  import opened Wrappers
  import opened Text
  import Sorting

  /** The fields of a `BPTable.Entry`: display name and balance. */
  datatype Item = Item(user: string, amount: int)

  /** A dict's contents: its keys in insertion order and its mapping. */
  datatype State = State(order: seq<string>, table: map<string, Item>)

  /** The two exceptions `BPTable` raises. */
  datatype TableError = DuplicateUser | NoUser

  /** One CSV row of the backing store, already split into fields. */
  type Record = seq<string>

  /** Why a row of the backing store cannot be loaded: a missing field or a bad amount. */
  datatype CorruptRow = IndexError | ValueError

  datatype Row = Row(key: string, user: string, amount: int)

  /** The table a load leaves behind, and the error it stopped at, if any. */
  datatype Loaded = Loaded(state: State, error: Option<CorruptRow>)

  predicate Distinct(ks: seq<string>) {
    forall i, j :: 0 <= i < j < |ks| ==> ks[i] != ks[j]
  }

  /** The insertion order lists every key of the table exactly once. */
  predicate WellFormed(s: State) {
    && Distinct(s.order)
    && (forall k :: k in s.order ==> k in s.table)
    && (forall k :: k in s.table ==> k in s.order)
  }

  /** The key of every entry is the case fold of its display name. */
  predicate KeysFolded(s: State, fold: string -> string) {
    forall k :: k in s.table ==> fold(s.table[k].user) == k
  }

  function Empty(): (r: State)
    ensures WellFormed(r) && r.table == map[]
  {
    State([], map[])
  }

  /** `d[k] = it`: a new key goes to the end, an existing key keeps its place. */
  function Put(s: State, k: string, it: Item): (r: State)
    ensures WellFormed(s) ==> WellFormed(r)
  {
    State(if k in s.table then s.order else s.order + [k], s.table[k := it])
  }

  /** The position of the first `k` in `ks`. */
  function IndexOf(ks: seq<string>, k: string): (i: nat)
    requires k in ks
    ensures i < |ks| && ks[i] == k && k !in ks[..i]
  {
    if ks[0] == k then 0
    else
      var j := IndexOf(ks[1..], k);
      assert ks[..j + 1] == [ks[0]] + ks[1..][..j];
      j + 1
  }

  /** `ks` with `k` taken out, the other keys keeping their order. */
  function RemoveKey(ks: seq<string>, k: string): (r: seq<string>)
    ensures forall x :: x in r <==> x in ks && x != k
    ensures Distinct(ks) ==> Distinct(r)
    ensures Distinct(ks) && k in ks ==> |r| == |ks| - 1
    ensures k !in ks ==> r == ks
  {
    if ks == [] then []
    else if ks[0] == k then
      assert Distinct(ks) ==> k !in ks[1..];
      RemoveKey(ks[1..], k)
    else
      var rest := RemoveKey(ks[1..], k);
      assert Distinct(ks) ==> ks[0] !in rest;
      assert ks == [ks[0]] + ks[1..];
      [ks[0]] + rest
  }

  /** Taking a key out of a duplicate-free order cuts out its one position; the rest keep their order. */
  lemma {:induction false} RemoveKeyInPlace(ks: seq<string>, k: string)
    requires Distinct(ks) && k in ks
    ensures RemoveKey(ks, k) == ks[..IndexOf(ks, k)] + ks[IndexOf(ks, k) + 1..]
  {
    if ks[0] == k {
      assert k !in ks[1..];
    } else {
      var tail := ks[1..];
      var j := IndexOf(tail, k);
      assert IndexOf(ks, k) == j + 1;
      assert RemoveKey(ks, k) == [ks[0]] + RemoveKey(tail, k);
      RemoveKeyInPlace(tail, k);
      assert ks[..j + 1] == [ks[0]] + tail[..j];
      assert ks[j + 2..] == tail[j + 1..];
    }
  }

  /** `del d[k]`. */
  function Delete(s: State, k: string): (r: State)
    ensures WellFormed(s) ==> WellFormed(r)
  {
    State(RemoveKey(s.order, k), s.table - {k})
  }

  // The operations of BPTable on the abstract value

  /** `BPTable.addUser`. */
  function AddUser(s: State, fold: string -> string, initial: int, user: string): Result<State, TableError> {
    var k := fold(user);
    if k in s.table then Failure(DuplicateUser) else Success(Put(s, k, Item(user, initial)))
  }

  /** `BPTable.removeUser`. */
  function RemoveUser(s: State, fold: string -> string, user: string): Result<State, TableError> {
    var k := fold(user);
    if k !in s.table then Failure(NoUser) else Success(Delete(s, k))
  }

  /** `BPTable.add`: the entry's amount grows by `v`. */
  function Add(s: State, fold: string -> string, user: string, v: int): Result<State, TableError> {
    var k := fold(user);
    if k !in s.table then Failure(NoUser)
    else Success(Put(s, k, Item(s.table[k].user, s.table[k].amount + v)))
  }

  /** `BPTable.set`: the entry's amount becomes `v`. */
  function Set(s: State, fold: string -> string, user: string, v: int): Result<State, TableError> {
    var k := fold(user);
    if k !in s.table then Failure(NoUser) else Success(Put(s, k, Item(s.table[k].user, v)))
  }

  /** `BPTable.get`. */
  function Get(s: State, fold: string -> string, user: string): Result<Item, TableError> {
    var k := fold(user);
    if k !in s.table then Failure(NoUser) else Success(s.table[k])
  }

  /** `BPTable.reset`: every amount becomes `initial`. */
  function Reset(s: State, initial: int): State {
    State(s.order, map k | k in s.table :: Item(s.table[k].user, initial))
  }

  /** `t` with the amounts of the keys in `ks` set to `initial`: a `reset` part-way through. */
  function ResetKeys(t: map<string, Item>, ks: seq<string>, initial: int): (r: map<string, Item>)
    ensures r.Keys == t.Keys
  {
    map k | k in t :: if k in ks then Item(t[k].user, initial) else t[k]
  }

  /** The sort key of `BPTable.sorted`, `attrgetter('amount')`, looked up by key. */
  function AmountOf(t: map<string, Item>): string -> int {
    k => if k in t then t[k].amount else 0
  }

  /** The keys in the order `BPTable.sorted` lists their entries. */
  function SortedKeys(s: State): seq<string> {
    Sorting.SortBy(s.order, AmountOf(s.table))
  }

  // Persistence

  /** The row `saveTable` writes for one entry. */
  function RecordOf(k: string, it: Item): Record {
    [k, it.user, IntToString(it.amount)]
  }

  /** The rows `saveTable` writes, in insertion order. */
  function Encode(s: State): (r: seq<Record>)
    requires WellFormed(s)
    ensures |r| == |s.order|
  {
    seq(|s.order|, i requires 0 <= i < |s.order| => RecordOf(s.order[i], s.table[s.order[i]]))
  }

  /** One iteration of the `loadTable` loop: `row[0]`, `row[1]`, `int(row[2])`. */
  function DecodeRow(rec: Record): Result<Row, CorruptRow> {
    if |rec| < 3 then Failure(IndexError)
    else match ParseInt(rec[2])
      case None => Failure(ValueError)
      case Some(a) => Success(Row(rec[0], rec[1], a))
  }

  /**
   * The `loadTable` loop over `recs`, starting from an empty dict; it stops
   * at the first row that cannot be decoded, keeping what it has so far.
   */
  function Load(recs: seq<Record>): (r: Loaded)
    ensures WellFormed(r.state)
    decreases |recs|
  {
    if recs == [] then Loaded(Empty(), None)
    else
      var prev := Load(recs[..|recs| - 1]);
      if prev.error.Some? then prev
      else match DecodeRow(recs[|recs| - 1])
        case Failure(e) => Loaded(prev.state, Some(e))
        case Success(row) => Loaded(Put(prev.state, row.key, Item(row.user, row.amount)), None)
  }

  /** `loadTable` given the file's rows, or `None` when there is no file. */
  function LoadFile(file: Option<seq<Record>>): (r: Loaded)
    ensures WellFormed(r.state)
  {
    match file
    case None => Loaded(Empty(), None)
    case Some(recs) => Load(recs)
  }

  // Lemmas

  lemma {:induction false} DistinctCard(ks: seq<string>)
    requires Distinct(ks)
    ensures |set k | k in ks| == |ks|
  {
    if ks != [] {
      var rest := ks[1..];
      assert Distinct(rest);
      DistinctCard(rest);
      assert (set k | k in ks) == (set k | k in rest) + {ks[0]};
      assert ks[0] !in rest;
    }
  }

  /** `len(d)` equals the number of keys in the insertion order. */
  lemma CountMatches(s: State)
    requires WellFormed(s)
    ensures |s.table| == |s.order|
  {
    DistinctCard(s.order);
    assert s.table.Keys == set k | k in s.order;
  }

  /**
   * `addUser` succeeds exactly when the case fold is new; it then adds one
   * entry, under the fold, with the name as typed and the initial amount,
   * at the end of the order, and leaves every other entry alone.
   */
  lemma AddUserSpec(s: State, fold: string -> string, initial: int, user: string)
    requires WellFormed(s)
    ensures AddUser(s, fold, initial, user).Success? <==> fold(user) !in s.table
    ensures AddUser(s, fold, initial, user).Failure? ==> AddUser(s, fold, initial, user).error == DuplicateUser
    ensures AddUser(s, fold, initial, user).Success? ==>
      var r, k := AddUser(s, fold, initial, user).value, fold(user);
      && WellFormed(r)
      && r.order == s.order + [k]
      && r.table.Keys == s.table.Keys + {k}
      && r.table[k] == Item(user, initial)
      && (forall k' :: k' in s.table ==> r.table[k'] == s.table[k'])
      && |r.table| == |s.table| + 1
  {
    var k := fold(user);
    if k !in s.table {
      var r := Put(s, k, Item(user, initial));
      assert AddUser(s, fold, initial, user) == Success(r);
      CountMatches(s);
      CountMatches(r);
      assert r.order == s.order + [k];
      assert |r.order| == |s.order| + 1;
    }
  }

  /**
   * Two spellings with the same case fold ("Alice", "ALICE") name one
   * user: after adding one, adding the other fails and looking up the
   * other finds the first, with the display name as first typed.
   */
  lemma {:induction false} SameFoldSameUser(s: State, fold: string -> string, initial: int, a: string, b: string)
    requires fold(a) == fold(b)
    requires AddUser(s, fold, initial, a).Success?
    ensures AddUser(AddUser(s, fold, initial, a).value, fold, initial, b) == Failure(DuplicateUser)
    ensures Get(AddUser(s, fold, initial, a).value, fold, b) == Success(Item(a, initial))
  {
  }

  /** Every lookup-based operation raises `NoUser` exactly when the fold is absent. */
  lemma MissingUser(s: State, fold: string -> string, user: string, v: int)
    ensures fold(user) !in s.table <==> RemoveUser(s, fold, user) == Failure(NoUser)
    ensures fold(user) !in s.table <==> Add(s, fold, user, v) == Failure(NoUser)
    ensures fold(user) !in s.table <==> Set(s, fold, user, v) == Failure(NoUser)
    ensures fold(user) !in s.table <==> Get(s, fold, user) == Failure(NoUser)
  {
  }

  /** `removeUser` deletes that one key and leaves every other entry untouched and in its place. */
  lemma RemoveUserSpec(s: State, fold: string -> string, user: string)
    requires WellFormed(s) && fold(user) in s.table
    ensures RemoveUser(s, fold, user).Success?
    ensures
      var r, k := RemoveUser(s, fold, user).value, fold(user);
      && WellFormed(r)
      && r.table.Keys == s.table.Keys - {k}
      && (forall k' :: k' in r.table ==> r.table[k'] == s.table[k'])
      && (forall x :: x in r.order <==> x in s.order && x != k)
      && r.order == s.order[..IndexOf(s.order, k)] + s.order[IndexOf(s.order, k) + 1..]
      && |r.table| == |s.table| - 1
  {
    var r := RemoveUser(s, fold, user).value;
    RemoveKeyInPlace(s.order, fold(user));
    CountMatches(s);
    CountMatches(r);
  }

  /** `add` changes only the target's amount, to old + v, keeping its name and place. */
  lemma AddSpec(s: State, fold: string -> string, user: string, v: int)
    requires WellFormed(s) && fold(user) in s.table
    ensures Add(s, fold, user, v).Success?
    ensures
      var r, k := Add(s, fold, user, v).value, fold(user);
      && WellFormed(r)
      && r.order == s.order
      && r.table.Keys == s.table.Keys
      && r.table[k] == Item(s.table[k].user, s.table[k].amount + v)
      && (forall k' :: k' in s.table && k' != k ==> r.table[k'] == s.table[k'])
  {
  }

  /** `add(u, a)` then `add(u, b)` is `add(u, a + b)`. */
  lemma AddAdditive(s: State, fold: string -> string, user: string, a: int, b: int)
    requires Add(s, fold, user, a).Success?
    ensures Add(Add(s, fold, user, a).value, fold, user, b) == Add(s, fold, user, a + b)
  {
    var k := fold(user);
    var it := s.table[k];
    var s1 := Put(s, k, Item(it.user, it.amount + a));
    assert Add(s, fold, user, a) == Success(s1);
    assert k in s1.table && s1.table[k] == Item(it.user, it.amount + a);
    var s2 := Put(s1, k, Item(it.user, (it.amount + a) + b));
    assert Add(s1, fold, user, b) == Success(s2);
    assert s2.order == s.order;
    assert s2.table == s.table[k := Item(it.user, it.amount + (a + b))];
  }

  /** `set` changes only the target's amount, to v, keeping its name and place. */
  lemma SetSpec(s: State, fold: string -> string, user: string, v: int)
    requires WellFormed(s) && fold(user) in s.table
    ensures Set(s, fold, user, v).Success?
    ensures
      var r, k := Set(s, fold, user, v).value, fold(user);
      && WellFormed(r)
      && r.order == s.order
      && r.table.Keys == s.table.Keys
      && r.table[k] == Item(s.table[k].user, v)
      && (forall k' :: k' in s.table && k' != k ==> r.table[k'] == s.table[k'])
  {
  }

  /** Setting the same amount twice is setting it once. */
  lemma SetIdempotent(s: State, fold: string -> string, user: string, v: int)
    requires Set(s, fold, user, v).Success?
    ensures Set(Set(s, fold, user, v).value, fold, user, v) == Set(s, fold, user, v)
  {
    var k := fold(user);
    var s1 := Put(s, k, Item(s.table[k].user, v));
    assert Set(s, fold, user, v) == Success(s1);
    assert k in s1.table && s1.table[k].user == s.table[k].user;
    assert Put(s1, k, Item(s.table[k].user, v)) == s1;
  }

  /** After `reset` every amount is the initial one; keys, order and names are unchanged. */
  lemma ResetSpec(s: State, initial: int)
    requires WellFormed(s)
    ensures
      var r := Reset(s, initial);
      && WellFormed(r)
      && r.order == s.order
      && r.table.Keys == s.table.Keys
      && (forall k :: k in r.table ==> r.table[k].user == s.table[k].user && r.table[k].amount == initial)
      && Reset(r, initial) == r
  {
  }

  /** A `reset` that has visited no key has changed nothing. */
  lemma ResetKeysNone(t: map<string, Item>, initial: int)
    ensures ResetKeys(t, [], initial) == t
  {
  }

  /** One more iteration of the `reset` loop sets one more amount. */
  lemma ResetKeysStep(t: map<string, Item>, ks: seq<string>, k: string, initial: int)
    requires k in t
    ensures ResetKeys(t, ks, initial)[k].user == t[k].user
    ensures ResetKeys(t, ks + [k], initial) == ResetKeys(t, ks, initial)[k := Item(t[k].user, initial)]
  {
    var r := ResetKeys(t, ks + [k], initial);
    var q := ResetKeys(t, ks, initial)[k := Item(t[k].user, initial)];
    assert r.Keys == q.Keys;
    forall x | x in r ensures r[x] == q[x] {
      if x != k {
        assert x in ks + [k] <==> x in ks;
      }
    }
  }

  /** The `reset` loop over the whole insertion order is `Reset`. */
  lemma ResetKeysAll(s: State, initial: int)
    requires WellFormed(s)
    ensures ResetKeys(s.table, s.order, initial) == Reset(s, initial).table
  {
  }

  /** Every operation of the table keeps keys equal to the case folds of the names. */
  lemma KeysFoldedPreserved(s: State, fold: string -> string, initial: int, user: string, v: int)
    requires KeysFolded(s, fold)
    ensures AddUser(s, fold, initial, user).Success? ==> KeysFolded(AddUser(s, fold, initial, user).value, fold)
    ensures RemoveUser(s, fold, user).Success? ==> KeysFolded(RemoveUser(s, fold, user).value, fold)
    ensures Add(s, fold, user, v).Success? ==> KeysFolded(Add(s, fold, user, v).value, fold)
    ensures Set(s, fold, user, v).Success? ==> KeysFolded(Set(s, fold, user, v).value, fold)
    ensures KeysFolded(Reset(s, initial), fold)
  {
  }

  /** `sorted()` lists every entry exactly once (a permutation of the insertion order). */
  lemma SortedKeysPermutation(s: State)
    requires WellFormed(s)
    ensures var ks := SortedKeys(s);
      && multiset(ks) == multiset(s.order)
      && |ks| == |s.table|
      && (forall k :: k in ks <==> k in s.table)
  {
    var ks := SortedKeys(s);
    assert |ks| == |multiset(ks)|;
    assert forall k :: k in ks <==> k in multiset(s.order);
    CountMatches(s);
  }

  /** `sorted()` lists the entries in non-decreasing amount. */
  lemma SortedKeysAscending(s: State)
    requires WellFormed(s)
    ensures var ks := SortedKeys(s);
      && (forall i :: 0 <= i < |ks| ==> ks[i] in s.table)
      && (forall i, j :: 0 <= i < j < |ks| ==> s.table[ks[i]].amount <= s.table[ks[j]].amount)
  {
    var ks := SortedKeys(s);
    Sorting.SortBySorted(s.order, AmountOf(s.table));
    forall i | 0 <= i < |ks| ensures ks[i] in s.table {
      assert ks[i] in multiset(s.order);
    }
  }

  /**
   * `sorted()` is stable: for every amount, the entries holding it appear in
   * the same relative order as in the insertion order.
   */
  lemma SortedKeysStable(s: State)
    ensures forall v :: Sorting.WithKey(SortedKeys(s), AmountOf(s.table), v) == Sorting.WithKey(s.order, AmountOf(s.table), v)
  {
    forall v ensures Sorting.WithKey(SortedKeys(s), AmountOf(s.table), v) == Sorting.WithKey(s.order, AmountOf(s.table), v) {
      Sorting.SortByStable(s.order, AmountOf(s.table), v);
    }
  }

  /** `saveTable` writes as many rows as the table has entries; it returns that count. */
  lemma EncodeCount(s: State)
    requires WellFormed(s)
    ensures |Encode(s)| == |s.table|
  {
    CountMatches(s);
  }

  /** The entries loaded from the first `i` rows of a saved table. */
  function Prefix(s: State, i: nat): State
    requires WellFormed(s) && i <= |s.order|
  {
    State(s.order[..i], map k | k in s.order[..i] :: s.table[k])
  }

  /** Reading back the row written for an entry gives the entry. */
  lemma DecodeRecordOf(k: string, it: Item)
    ensures DecodeRow(RecordOf(k, it)) == Success(Row(k, it.user, it.amount))
  {
    ParseIntToString(it.amount);
  }

  lemma PrefixStep(s: State, i: nat)
    requires WellFormed(s) && 0 < i <= |s.order|
    ensures Prefix(s, i) == Put(Prefix(s, i - 1), s.order[i - 1], s.table[s.order[i - 1]])
  {
    var k := s.order[i - 1];
    var p := Prefix(s, i - 1);
    assert k !in s.order[..i - 1];
    assert k !in p.table;
    assert s.order[..i - 1] + [k] == s.order[..i];
    assert p.table[k := s.table[k]] == Prefix(s, i).table;
  }

  /** One more row on a load that has not failed: the row is put, or the load fails on it. */
  lemma LoadSnoc(recs: seq<Record>, rec: Record)
    requires Load(recs).error.None?
    ensures Load(recs + [rec]) == match DecodeRow(rec)
      case Failure(e) => Loaded(Load(recs).state, Some(e))
      case Success(row) => Loaded(Put(Load(recs).state, row.key, Item(row.user, row.amount)), None)
  {
    assert (recs + [rec])[..|recs|] == recs;
  }

  lemma {:induction false} LoadEncodePrefix(s: State, i: nat)
    requires WellFormed(s) && i <= |s.order|
    ensures Load(Encode(s)[..i]) == Loaded(Prefix(s, i), None)
  {
    var e := Encode(s);
    if i == 0 {
      assert e[..0] == [];
      assert Prefix(s, 0) == Empty();
    } else {
      assert e[..i] == e[..i - 1] + [e[i - 1]];
      LoadEncodePrefix(s, i - 1);
      var k := s.order[i - 1];
      var it := s.table[k];
      assert e[i - 1] == RecordOf(k, it);
      LoadSnoc(e[..i - 1], e[i - 1]);
      DecodeRecordOf(k, it);
      PrefixStep(s, i);
    }
  }

  /** Loading the rows a save writes rebuilds the same table, and no row is corrupt. */
  lemma LoadEncode(s: State)
    requires WellFormed(s)
    ensures Load(Encode(s)) == Loaded(s, None)
  {
    var n := |s.order|;
    LoadEncodePrefix(s, n);
    assert Encode(s)[..n] == Encode(s);
    assert s.order[..n] == s.order;
    assert Prefix(s, n).table == s.table;
  }

  /** A saved table of folded keys stores each key beside the name it folds from. */
  lemma EncodeFolded(s: State, fold: string -> string)
    requires WellFormed(s) && KeysFolded(s, fold)
    ensures forall i :: 0 <= i < |Encode(s)| ==> fold(Encode(s)[i][1]) == Encode(s)[i][0]
  {
  }

  /** Once a row fails to load, the rows after it are never read. */
  lemma {:induction false} LoadStops(recs: seq<Record>, m: nat)
    requires m <= |recs| && Load(recs[..m]).error.Some?
    ensures Load(recs) == Load(recs[..m])
    decreases |recs| - m
  {
    if m < |recs| {
      var init := recs[..|recs| - 1];
      assert init[..m] == recs[..m];
      LoadStops(init, m);
    } else {
      assert recs[..m] == recs;
    }
  }

  /** A load of `init + [rec]` that has not failed loaded `init` without failing and then put `rec`. */
  lemma LoadUnsnoc(init: seq<Record>, rec: Record)
    requires Load(init + [rec]).error.None?
    ensures Load(init).error.None? && DecodeRow(rec).Success?
    ensures var row := DecodeRow(rec).value;
      Load(init + [rec]).state == Put(Load(init).state, row.key, Item(row.user, row.amount))
  {
    assert (init + [rec])[..|init|] == init;
  }

  /**
   * On a file that loads without error every row is well-formed and its
   * key is in the table; where several rows share a key, the last one wins.
   */
  lemma {:induction false} LoadLastWins(recs: seq<Record>, i: nat)
    requires i < |recs| && Load(recs).error.None?
    ensures DecodeRow(recs[i]).Success?
    ensures var row := DecodeRow(recs[i]).value;
      && row.key in Load(recs).state.table
      && ((forall j :: i < j < |recs| ==> DecodeRow(recs[j]).Success? && DecodeRow(recs[j]).value.key != row.key) ==>
            Load(recs).state.table[row.key] == Item(row.user, row.amount))
    decreases |recs|
  {
    var n := |recs|;
    var init := recs[..n - 1];
    var last := recs[n - 1];
    assert recs == init + [last];
    LoadUnsnoc(init, last);
    if i < n - 1 {
      assert init[i] == recs[i];
      LoadLastWins(init, i);
      var row := DecodeRow(recs[i]).value;
      if forall j :: i < j < n ==> DecodeRow(recs[j]).Success? && DecodeRow(recs[j]).value.key != row.key {
        assert DecodeRow(last).value.key != row.key;
        forall j | i < j < n - 1
          ensures DecodeRow(init[j]).Success? && DecodeRow(init[j]).value.key != row.key
        {
          assert init[j] == recs[j];
        }
      }
    }
  }
}
