/**
 * `BPTable` of bpbot.py as a class over mutable `Entry` objects. The dict
 * `self.bp` is the field `bp`; its insertion order, which Python keeps
 * inside the dict, is the field `order`. Every method is proved against
 * the matching function of module `Ledger` applied to `Abs()`, the value
 * of the table.
 */
module LedgerTable {
  import opened Wrappers
  import Text
  import Ledger

  /** `BPTable.Entry`: a display name and an amount; `add` and `set` change it in place. */
  class Entry {
    var user: string
    var amount: int

    constructor (user: string, amount: int)
      ensures this.user == user && this.amount == amount
    {
      this.user := user;
      this.amount := amount;
    }
  }

  /** The values of `m` at the keys `ks`, in the order of `ks`. */
  function Lookup<V>(m: map<string, V>, ks: seq<string>): (r: seq<V>)
    requires forall i :: 0 <= i < |ks| ==> ks[i] in m
    ensures |r| == |ks| && forall i :: 0 <= i < |ks| ==> r[i] == m[ks[i]]
  {
    seq(|ks|, i requires 0 <= i < |ks| => m[ks[i]])
  }

  class BPTable {
    const initialBp: int
    /** `str.casefold`, left uninterpreted. */
    const fold: string -> string
    var bp: map<string, Entry>
    var order: seq<string>
    /** The fields of every Entry, by key. */
    ghost var items: map<string, Ledger.Item>
    /** The key each stored Entry is filed under. */
    ghost var keyOf: map<Entry, string>

    /**
     * The order lists each key once, no two keys share an Entry object (each
     * is filed under one key), and `items` holds the current fields of each
     * Entry.
     */
    ghost predicate Valid()
      reads this, bp.Values
    {
      && KeysValid()
      && forall k :: k in bp ==>
           && bp[k] in keyOf && keyOf[bp[k]] == k
           && items[k] == Ledger.Item(bp[k].user, bp[k].amount)
    }

    /** The part of `Valid` about keys alone. */
    ghost predicate KeysValid()
      reads this
    {
      Ledger.WellFormed(Abs()) && items.Keys == bp.Keys
    }

    /** The contents of the table as a value. */
    ghost function Abs(): Ledger.State
      reads this
    {
      Ledger.State(order, items)
    }

    /** The fields of every Entry, read from the objects. */
    function Snapshot(): (m: map<string, Ledger.Item>)
      reads this, bp.Values
      ensures Valid() ==> m == items
    {
      map k | k in bp :: Ledger.Item(bp[k].user, bp[k].amount)
    }

    /** `BPTable(filename, initial_bp)`, given the file's rows (`None`: no file). */
    constructor (initialBp: int, fold: string -> string, file: Option<seq<Ledger.Record>>)
      ensures Valid() && this.initialBp == initialBp && this.fold == fold
      ensures Abs() == Ledger.LoadFile(file).state
    {
      this.initialBp := initialBp;
      this.fold := fold;
      bp := map[];
      order := [];
      items := map[];
      keyOf := map[];
      new;
      var _ := LoadTable(file);
    }

    /**
     * `loadTable`: empties the table, then (if there is a file) puts each
     * row in turn; a corrupt row stops the loop with the rows before it
     * loaded. Returns `len(self.bp)`.
     */
    method LoadTable(file: Option<seq<Ledger.Record>>) returns (r: Result<nat, Ledger.CorruptRow>)
      modifies this
      ensures Valid() && Abs() == Ledger.LoadFile(file).state
      ensures r == match Ledger.LoadFile(file).error
        case None => Success(|bp|)
        case Some(e) => Failure(e)
    {
      bp := map[];
      order := [];
      items := map[];
      keyOf := map[];
      if file.None? {
        return Success(0);
      }
      var rows := file.value;
      for i := 0 to |rows|
        invariant Valid()
        invariant Ledger.Load(rows[..i]) == Ledger.Loaded(Abs(), None)
      {
        var row := rows[i];
        assert rows[..i + 1] == rows[..i] + [row];
        Ledger.LoadSnoc(rows[..i], row);
        if |row| < 3 {
          Ledger.LoadStops(rows, i + 1);
          return Failure(Ledger.IndexError);
        }
        var amount := Text.ParseInt(row[2]);
        if amount.None? {
          Ledger.LoadStops(rows, i + 1);
          return Failure(Ledger.ValueError);
        }
        Put(row[0], row[1], amount.value);
      }
      assert rows[..|rows|] == rows;
      return Success(|bp|);
    }

    /** `self.bp[key] = BPTable.Entry(user, amount)`, as Python's dict assignment. */
    method Put(key: string, user: string, amount: int)
      requires Valid()
      modifies this
      ensures Valid() && key in bp && fresh(bp[key])
      ensures Abs() == Ledger.Put(old(Abs()), key, Ledger.Item(user, amount))
    {
      var e := new Entry(user, amount);
      Link(key, e);
    }

    /** Files the Entry `e`, which the table does not hold yet, under `key`. */
    method Link(key: string, e: Entry)
      requires Valid() && e !in keyOf
      modifies this
      ensures Valid() && key in bp && bp[key] == e
      ensures Abs() == Ledger.Put(old(Abs()), key, Ledger.Item(e.user, e.amount))
    {
      ghost var s := Ledger.Put(Abs(), key, Ledger.Item(e.user, e.amount));
      if key !in bp {
        order := order + [key];
      }
      bp := bp[key := e];
      items := items[key := Ledger.Item(e.user, e.amount)];
      keyOf := keyOf[e := key];
      assert Abs() == s;
      forall k | k in bp
        ensures bp[k] in keyOf && keyOf[bp[k]] == k && items[k] == Ledger.Item(bp[k].user, bp[k].amount)
      {
        if k != key {
          assert bp[k] == old(bp[k]) && bp[k] != e;
        }
      }
    }

    /** `saveTable`: one `[key, name, amount]` row per entry, in order; returns `len(self.bp)`. */
    method SaveTable() returns (n: nat, recs: seq<Ledger.Record>)
      requires Valid()
      ensures recs == Ledger.Encode(Abs())
      ensures n == |Abs().table| == |recs|
    {
      recs := [];
      for i := 0 to |order|
        invariant recs == Ledger.Encode(Abs())[..i]
      {
        var e := bp[order[i]];
        recs := recs + [[order[i], e.user, Text.IntToString(e.amount)]];
      }
      Ledger.EncodeCount(Abs());
      n := |bp|;
    }

    /** `addUser`: a new Entry under the case fold, or `DuplicateUser`. */
    method AddUser(user: string) returns (r: Outcome<Ledger.TableError>)
      requires Valid()
      modifies this
      ensures Valid()
      ensures match Ledger.AddUser(old(Abs()), fold, initialBp, user)
        case Success(s) => r == Pass && Abs() == s && fold(user) in bp && fresh(bp[fold(user)])
        case Failure(e) => r == Fail(e) && Abs() == old(Abs())
    {
      var luser := fold(user);
      if luser in bp {
        return Fail(Ledger.DuplicateUser);
      }
      Put(luser, user, initialBp);
      return Pass;
    }

    /** `removeUser`: deletes the entry under the case fold, or `NoUser`. */
    method RemoveUser(user: string) returns (r: Outcome<Ledger.TableError>)
      requires Valid()
      modifies this
      ensures Valid()
      ensures match Ledger.RemoveUser(old(Abs()), fold, user)
        case Success(s) => r == Pass && Abs() == s
        case Failure(e) => r == Fail(e) && Abs() == old(Abs())
      ensures forall k :: k in bp ==> k in old(bp) && bp[k] == old(bp[k])
    {
      var luser := fold(user);
      if luser !in bp {
        return Fail(Ledger.NoUser);
      }
      ghost var s := Ledger.Delete(Abs(), luser);
      bp := bp - {luser};
      order := Ledger.RemoveKey(order, luser);
      items := items - {luser};
      assert Abs() == s;
      forall k | k in bp
        ensures bp[k] in keyOf && keyOf[bp[k]] == k && items[k] == Ledger.Item(bp[k].user, bp[k].amount)
      {
        assert k in old(bp) && bp[k] == old(bp[k]) && items[k] == old(items[k]);
      }
      return Pass;
    }

    /** The amount of the Entry under `k` becomes `v`; nothing else changes. */
    method SetAmount(k: string, v: int)
      requires Valid() && k in bp
      modifies this, bp[k]
      ensures Valid() && bp == old(bp) && order == old(order) && keyOf == old(keyOf)
      ensures items == old(items)[k := Ledger.Item(old(items[k]).user, v)]
    {
      var e := bp[k];
      e.amount := v;
      items := items[k := Ledger.Item(e.user, v)];
    }

    /** `add`: raises the stored Entry's amount by `v` and returns that same Entry. */
    method Add(user: string, v: int) returns (r: Result<Entry, Ledger.TableError>)
      requires Valid()
      modifies this, bp.Values
      ensures Valid() && bp == old(bp) && order == old(order)
      ensures match Ledger.Add(old(Abs()), fold, user, v)
        case Success(s) => Abs() == s && fold(user) in bp && r == Success(bp[fold(user)])
        case Failure(e) => Abs() == old(Abs()) && r == Failure(e)
    {
      var luser := fold(user);
      if luser !in bp {
        return Failure(Ledger.NoUser);
      }
      ghost var it := items[luser];
      SetAmount(luser, bp[luser].amount + v);
      assert Abs() == Ledger.Put(old(Abs()), luser, Ledger.Item(it.user, it.amount + v));
      return Success(bp[luser]);
    }

    /** `get`: the stored Entry under the case fold, or `NoUser`. */
    function Get(user: string): (r: Result<Entry, Ledger.TableError>)
      reads this, bp.Values
      requires Valid()
      ensures match Ledger.Get(Abs(), fold, user)
        case Success(it) => fold(user) in bp && r == Success(bp[fold(user)]) && it == Ledger.Item(r.value.user, r.value.amount)
        case Failure(e) => r == Failure(e)
    {
      var luser := fold(user);
      if luser !in bp then Failure(Ledger.NoUser) else Success(bp[luser])
    }

    /** `set`: sets the stored Entry's amount to `v` and returns that same Entry. */
    method Set(user: string, v: int) returns (r: Result<Entry, Ledger.TableError>)
      requires Valid()
      modifies this, bp.Values
      ensures Valid() && bp == old(bp) && order == old(order)
      ensures match Ledger.Set(old(Abs()), fold, user, v)
        case Success(s) => Abs() == s && fold(user) in bp && r == Success(bp[fold(user)])
        case Failure(e) => Abs() == old(Abs()) && r == Failure(e)
    {
      var luser := fold(user);
      if luser !in bp {
        return Failure(Ledger.NoUser);
      }
      ghost var it := items[luser];
      SetAmount(luser, v);
      assert Abs() == Ledger.Put(old(Abs()), luser, Ledger.Item(it.user, v));
      return Success(bp[luser]);
    }

    /**
     * `sorted()`: the stored Entry objects in non-decreasing amount, ties in
     * insertion order (see `Ledger.SortedKeysAscending` and `Ledger.SortedKeysStable`).
     */
    function Sorted(): (r: seq<Entry>)
      reads this, bp.Values
      requires Valid()
      ensures |r| == |Ledger.SortedKeys(Abs())| == |bp|
      ensures forall i :: 0 <= i < |r| ==> Ledger.SortedKeys(Abs())[i] in bp && r[i] == bp[Ledger.SortedKeys(Abs())[i]]
      ensures forall i :: 0 <= i < |r| ==> Ledger.Item(r[i].user, r[i].amount) == items[Ledger.SortedKeys(Abs())[i]]
      ensures forall i, j :: 0 <= i < j < |r| ==> r[i].amount <= r[j].amount
    {
      var ks := Ledger.SortedKeys(Ledger.State(order, Snapshot()));
      assert Ledger.State(order, Snapshot()) == Abs();
      Ledger.SortedKeysPermutation(Abs());
      Ledger.SortedKeysAscending(Abs());
      Lookup(bp, ks)
    }

    /** `reset`: every Entry's amount becomes `initial_bp`. */
    method Reset()
      requires Valid()
      modifies this, bp.Values
      ensures Valid() && bp == old(bp) && order == old(order)
      ensures Abs() == Ledger.Reset(old(Abs()), initialBp)
    {
      Ledger.ResetKeysNone(items, initialBp);
      for i := 0 to |order|
        invariant Valid() && bp == old(bp) && order == old(order)
        invariant items == Ledger.ResetKeys(old(items), order[..i], initialBp)
      {
        assert order[..i + 1] == order[..i] + [order[i]];
        Ledger.ResetKeysStep(old(items), order[..i], order[i], initialBp);
        SetAmount(order[i], initialBp);
      }
      assert order[..|order|] == order;
      Ledger.ResetKeysAll(old(Abs()), initialBp);
    }
  }
}
