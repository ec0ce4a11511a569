/**
 * The chat commands of `BPBot` in bpbot.py. Each handler is a method on the
 * bot, whose `bp` is the ledger; a handler returns what it sends to the chat
 * (or the exception it raises) and the rows it writes when it calls
 * `saveTable`. Messages and the ledger operations are stated against the
 * functions of `Ledger` applied to the table's value `bp.Abs()`.
 */
module BPBot {
  import opened Wrappers
  import opened Text
  import Ledger
  import Sorting
  import opened LedgerTable

  /** How many entries `bp-top` lists. */
  const TopN: nat := 3

  /** The parts of `ChatUser` the handlers use. */
  datatype ChatUser = ChatUser(name: string, badges: map<string, string>)

  /** The parts of `ChatCommand` the handlers use: the command name and the text after it. */
  datatype Command = Command(name: string, parameter: string, user: ChatUser)

  /** An exception a handler lets escape. */
  datatype Fault =
    | AttributeError         // `cmd.set`, which `ChatCommand` does not have
    | Corrupt(row: Ledger.CorruptRow)

  /** The effect of a handler on the chat. */
  datatype Reply = Silent | Send(text: string) | Raise(fault: Fault)

  /** The handlers the bot registers, and the command names it registers them under. */
  datatype Handler = AddH | RemoveH | GiveH | SetH | ResetH | SaveH | LoadH | ShowH | TopH

  function Registered(name: string): Option<Handler> {
    match name
    case "bp-add" => Some(AddH)
    case "bp-remove" => Some(RemoveH)
    case "bp-give" => Some(GiveH)
    case "bp-take" => Some(GiveH)
    case "bp-set" => Some(SetH)
    case "bp-reset" => Some(ResetH)
    case "bp-save" => Some(SaveH)
    case "bp-load" => Some(LoadH)
    case "bp-show" => Some(ShowH)
    case "bp-top" => Some(TopH)
    case _ => None
  }

  /** `is_broadcaster`. */
  predicate IsBroadcaster(u: ChatUser) {
    "broadcaster" in u.badges
  }

  /**
   * The dispatch table: `bp-give` and `bp-take` share one handler, every
   * other handler has exactly one name, and no other name is answered.
   */
  lemma RegisteredNames()
    ensures forall n :: Registered(n).Some? <==>
      n in {"bp-add", "bp-remove", "bp-give", "bp-take", "bp-set", "bp-reset", "bp-save", "bp-load", "bp-show", "bp-top"}
    ensures forall n :: Registered(n) == Some(GiveH) <==> n == "bp-give" || n == "bp-take"
    ensures forall n, m :: Registered(n).Some? && Registered(n) == Registered(m) && n != m ==> Registered(n) == Some(GiveH)
  {
  }

  /**
   * The right to change the ledger comes from a `broadcaster` badge alone,
   * whatever its value; the user's name plays no part.
   */
  lemma BroadcasterBadgeOnly(name: string, badges: map<string, string>, v: string)
    ensures IsBroadcaster(ChatUser(name, badges["broadcaster" := v]))
    ensures !IsBroadcaster(ChatUser(name, badges - {"broadcaster"}))
    ensures IsBroadcaster(ChatUser(name, badges)) == IsBroadcaster(ChatUser("broadcaster", badges))
  {
  }

  /** `[user] = cmd.parameter.split()`: exactly one token. */
  function NameArg(parameter: string): Option<string> {
    var ps := Split(parameter);
    if |ps| == 1 then Some(ps[0]) else None
  }

  /** `[user, amount] = cmd.parameter.split(); amount = int(amount)`. */
  function AmountArgs(parameter: string): Option<(string, int)> {
    var ps := Split(parameter);
    if |ps| != 2 then None
    else match ParseInt(ps[1])
      case None => None
      case Some(a) => Some((ps[0], a))
  }

  /** The amount `bp_give` passes to `add`: negated for `bp-take`. */
  function Signed(name: string, amount: int): int {
    if name == "bp-take" then -amount else amount
  }

  // Reply texts

  function Usage(name: string, args: string): string {
    "usage: !" + name + args
  }

  function NotIn(user: string): string {
    user + " is not in the BP game."
  }

  /** One entry as `bp_top` lists it. */
  function Line(it: Ledger.Item): string {
    it.user + " has " + IntToString(it.amount) + " BP. "
  }

  /** The lines of the entries under `ks`, in that order. */
  function Lines(t: map<string, Ledger.Item>, ks: seq<string>): (r: string)
    requires forall i :: 0 <= i < |ks| ==> ks[i] in t
    ensures ks == [] ==> r == []
    decreases |ks|
  {
    if ks == [] then "" else Lines(t, ks[..|ks| - 1]) + Line(t[ks[|ks| - 1]])
  }

  /** The keys `bp_top` lists: the first `TopN` of `sorted()`, fewer on a smaller table. */
  function TopKeys(s: Ledger.State): (r: seq<string>)
    requires Ledger.WellFormed(s)
    ensures forall i :: 0 <= i < |r| ==> r[i] in s.table
  {
    var ks := Ledger.SortedKeys(s);
    Ledger.SortedKeysAscending(s);
    if |ks| <= TopN then ks else ks[..TopN]
  }

  /** One more key adds its line at the end. */
  lemma LinesSnoc(t: map<string, Ledger.Item>, ks: seq<string>, i: nat)
    requires i < |ks| && forall j :: 0 <= j < |ks| ==> ks[j] in t
    ensures Lines(t, ks[..i + 1]) == Lines(t, ks[..i]) + Line(t[ks[i]])
  {
    assert ks[..i + 1][..i] == ks[..i];
  }

  /** The `bp_top` loop stops after `TopN` entries or at the end of `sorted()`, whichever comes first. */
  lemma TopKeysPrefix(s: Ledger.State, n: nat)
    requires Ledger.WellFormed(s)
    requires n <= TopN && n <= |Ledger.SortedKeys(s)|
    requires n == TopN || n == |Ledger.SortedKeys(s)|
    ensures TopKeys(s) == Ledger.SortedKeys(s)[..n]
  {
    var ks := Ledger.SortedKeys(s);
    if |ks| <= TopN {
      assert n == |ks|;
      assert ks[..n] == ks;
    }
  }

  /** What `bp_top` sends. */
  function TopText(s: Ledger.State): string
    requires Ledger.WellFormed(s)
  {
    Lines(s.table, TopKeys(s))
  }

  /**
   * `bp_top` shows `min(3, len(bp))` entries, each once, with amounts no
   * greater than those of the entries it leaves out; an empty table gives ''.
   */
  lemma TopKeysSpec(s: Ledger.State)
    requires Ledger.WellFormed(s)
    ensures var top := TopKeys(s);
      && |top| == (if |s.table| <= TopN then |s.table| else TopN)
      && top == Ledger.SortedKeys(s)[..|top|]
      && (forall i, j :: 0 <= i < j < |top| ==> s.table[top[i]].amount <= s.table[top[j]].amount)
      && (|s.table| == 0 ==> TopText(s) == "")
  {
    Ledger.SortedKeysPermutation(s);
    Ledger.SortedKeysAscending(s);
  }

  /** No entry that `bp_top` leaves out has a smaller amount than one it shows. */
  lemma TopKeysLowest(s: Ledger.State)
    requires Ledger.WellFormed(s)
    ensures var top := TopKeys(s);
      forall i, k :: 0 <= i < |top| && k in s.table && k !in top ==> s.table[top[i]].amount <= s.table[k].amount
  {
    var ks := Ledger.SortedKeys(s);
    var top := TopKeys(s);
    Sorting.SortBySorted(s.order, Ledger.AmountOf(s.table));
    Ledger.SortedKeysPermutation(s);
    assert top == ks[..|top|];
    forall i, k | 0 <= i < |top| && k in s.table && k !in top
      ensures s.table[top[i]].amount <= s.table[k].amount
    {
      Sorting.PrefixBelowRest(ks, Ledger.AmountOf(s.table), |top|, k);
      assert top[i] == ks[i];
    }
  }

  /**
   * A parameter of whitespace only holds no token: `bp_save`, `bp_load` and
   * `bp_top` treat it as no argument, and the other handlers answer with usage.
   */
  lemma BlankIsNoArgs(p: string)
    requires forall i :: 0 <= i < |p| ==> IsSpace(p[i])
    ensures Split(p) == []
    ensures NameArg(p).None? && AmountArgs(p).None?
  {
    SplitBlank(p);
  }

  /** A single token is read as the name argument. */
  lemma NameArgOf(user: string)
    requires IsToken(user)
    ensures NameArg(user) == Some(user)
  {
    SplitJoin([user]);
  }

  /** `name amount`, typed with one space between, reads back as that name and amount. */
  lemma AmountArgsOf(user: string, amount: int)
    requires IsToken(user)
    ensures AmountArgs(user + " " + IntToString(amount)) == Some((user, amount))
  {
    var ts := [user, IntToString(amount)];
    IntToStringToken(amount);
    assert JoinSpace(ts[1..]) == IntToString(amount);
    SplitJoin(ts);
    ParseIntToString(amount);
  }

  /**
   * An amount holding a character that no integer literal has (a letter,
   * say) is refused, so `bp_give` and `bp_set` answer with their usage.
   */
  lemma AmountArgsRejects(user: string, amount: string, k: nat)
    requires IsToken(user) && IsToken(amount) && k < |amount|
    requires !IsDigit(amount[k]) && amount[k] != '_' && amount[k] != '+' && amount[k] != '-'
    ensures AmountArgs(user + " " + amount) == None
  {
    var ts := [user, amount];
    assert JoinSpace(ts[1..]) == amount;
    SplitJoin(ts);
    ParseIntRejects(amount, k);
  }

  /** `!bp-take name a` undoes `!bp-give name a`. */
  lemma TakeUndoesGive(s: Ledger.State, fold: string -> string, user: string, a: int)
    requires Ledger.WellFormed(s) && fold(user) in s.table
    ensures Ledger.Add(s, fold, user, Signed("bp-give", a)).Success?
    ensures Ledger.Add(Ledger.Add(s, fold, user, Signed("bp-give", a)).value, fold, user, Signed("bp-take", a)) == Success(s)
  {
    var k := fold(user);
    Ledger.AddAdditive(s, fold, user, a, -a);
    assert s.table[k := Ledger.Item(s.table[k].user, s.table[k].amount + (a + -a))] == s.table;
  }

  /** The bot: `self.bp` is its ledger. */
  class BPBot {
    const bp: BPTable

    constructor (bp: BPTable)
      ensures this.bp == bp
    {
      this.bp := bp;
    }

    /** `bp_add`: `!bp-add name` puts a new player in the game and saves. */
    method BpAdd(cmd: Command) returns (reply: Reply, saved: Option<seq<Ledger.Record>>)
      requires bp.Valid()
      modifies bp
      ensures bp.Valid()
      ensures !IsBroadcaster(cmd.user) ==> reply == Silent && saved == None && bp.Abs() == old(bp.Abs())
      ensures IsBroadcaster(cmd.user) && NameArg(cmd.parameter).None? ==>
        reply == Send(Usage(cmd.name, " name")) && saved == None && bp.Abs() == old(bp.Abs())
      ensures IsBroadcaster(cmd.user) && NameArg(cmd.parameter).Some? ==>
        var user := NameArg(cmd.parameter).value;
        match Ledger.AddUser(old(bp.Abs()), bp.fold, bp.initialBp, user)
        case Failure(_) => reply == Send(user + " is already in the BP game.") && saved == None && bp.Abs() == old(bp.Abs())
        case Success(s) => reply == Send(user + " added to the BP game.") && bp.Abs() == s && saved == Some(Ledger.Encode(s))
      ensures saved.Some? ==> Ledger.LoadFile(saved) == Ledger.Loaded(bp.Abs(), None)
    {
      if !IsBroadcaster(cmd.user) {
        return Silent, None;
      }
      var arg := NameArg(cmd.parameter);
      if arg.None? {
        return Send(Usage(cmd.name, " name")), None;
      }
      var user := arg.value;
      var r := bp.AddUser(user);
      if r.Fail? {
        return Send(user + " is already in the BP game."), None;
      }
      var _, recs := bp.SaveTable();
      Ledger.LoadEncode(bp.Abs());
      return Send(user + " added to the BP game."), Some(recs);
    }

    /** `bp_remove`: `!bp-remove name` takes a player out of the game and saves. */
    method BpRemove(cmd: Command) returns (reply: Reply, saved: Option<seq<Ledger.Record>>)
      requires bp.Valid()
      modifies bp
      ensures bp.Valid()
      ensures !IsBroadcaster(cmd.user) ==> reply == Silent && saved == None && bp.Abs() == old(bp.Abs())
      ensures IsBroadcaster(cmd.user) && NameArg(cmd.parameter).None? ==>
        reply == Send(Usage(cmd.name, " name")) && saved == None && bp.Abs() == old(bp.Abs())
      ensures IsBroadcaster(cmd.user) && NameArg(cmd.parameter).Some? ==>
        var user := NameArg(cmd.parameter).value;
        match Ledger.RemoveUser(old(bp.Abs()), bp.fold, user)
        case Failure(_) => reply == Send(NotIn(user)) && saved == None && bp.Abs() == old(bp.Abs())
        case Success(s) => reply == Send(user + " removed from the BP game.") && bp.Abs() == s && saved == Some(Ledger.Encode(s))
      ensures saved.Some? ==> Ledger.LoadFile(saved) == Ledger.Loaded(bp.Abs(), None)
    {
      if !IsBroadcaster(cmd.user) {
        return Silent, None;
      }
      var arg := NameArg(cmd.parameter);
      if arg.None? {
        return Send(Usage(cmd.name, " name")), None;
      }
      var user := arg.value;
      var r := bp.RemoveUser(user);
      if r.Fail? {
        return Send(NotIn(user)), None;
      }
      var _, recs := bp.SaveTable();
      Ledger.LoadEncode(bp.Abs());
      return Send(user + " removed from the BP game."), Some(recs);
    }

    /**
     * `bp_give`, registered as `bp-give` and `bp-take`: `!bp-give name amount`
     * adds the amount, `!bp-take name amount` subtracts it, then saves.
     */
    method BpGive(cmd: Command) returns (reply: Reply, saved: Option<seq<Ledger.Record>>)
      requires bp.Valid()
      modifies bp, bp.bp.Values
      ensures bp.Valid()
      ensures !IsBroadcaster(cmd.user) ==> reply == Silent && saved == None && bp.Abs() == old(bp.Abs())
      ensures IsBroadcaster(cmd.user) && AmountArgs(cmd.parameter).None? ==>
        reply == Send(Usage(cmd.name, " name amount")) && saved == None && bp.Abs() == old(bp.Abs())
      ensures IsBroadcaster(cmd.user) && AmountArgs(cmd.parameter).Some? ==>
        var (user, amount) := AmountArgs(cmd.parameter).value;
        match Ledger.Add(old(bp.Abs()), bp.fold, user, Signed(cmd.name, amount))
        case Failure(_) => reply == Send(NotIn(user)) && saved == None && bp.Abs() == old(bp.Abs())
        case Success(s) =>
          var it := s.table[bp.fold(user)];
          && reply == Send(it.user + " now has " + IntToString(it.amount) + " BP")
          && bp.Abs() == s && saved == Some(Ledger.Encode(s))
      ensures saved.Some? ==> Ledger.LoadFile(saved) == Ledger.Loaded(bp.Abs(), None)
    {
      if !IsBroadcaster(cmd.user) {
        return Silent, None;
      }
      var args := AmountArgs(cmd.parameter);
      if args.None? {
        return Send(Usage(cmd.name, " name amount")), None;
      }
      var (user, amount) := args.value;
      if cmd.name == "bp-take" {
        amount := -amount;
      }
      assert amount == Signed(cmd.name, args.value.1);
      var r := bp.Add(user, amount);
      if r.Failure? {
        return Send(NotIn(user)), None;
      }
      var entry := r.value;
      var _, recs := bp.SaveTable();
      Ledger.LoadEncode(bp.Abs());
      return Send(entry.user + " now has " + IntToString(entry.amount) + " BP"), Some(recs);
    }

    /** `bp_set`: `!bp-set name amount` sets the amount, then saves. */
    method BpSet(cmd: Command) returns (reply: Reply, saved: Option<seq<Ledger.Record>>)
      requires bp.Valid()
      modifies bp, bp.bp.Values
      ensures bp.Valid()
      ensures !IsBroadcaster(cmd.user) ==> reply == Silent && saved == None && bp.Abs() == old(bp.Abs())
      ensures IsBroadcaster(cmd.user) && AmountArgs(cmd.parameter).None? ==>
        reply == Send(Usage(cmd.name, " name amount")) && saved == None && bp.Abs() == old(bp.Abs())
      ensures IsBroadcaster(cmd.user) && AmountArgs(cmd.parameter).Some? ==>
        var (user, amount) := AmountArgs(cmd.parameter).value;
        match Ledger.Set(old(bp.Abs()), bp.fold, user, amount)
        case Failure(_) => reply == Send(NotIn(user)) && saved == None && bp.Abs() == old(bp.Abs())
        case Success(s) =>
          var it := s.table[bp.fold(user)];
          && reply == Send(it.user + " now has " + IntToString(it.amount) + " BP.")
          && bp.Abs() == s && saved == Some(Ledger.Encode(s))
      ensures saved.Some? ==> Ledger.LoadFile(saved) == Ledger.Loaded(bp.Abs(), None)
    {
      if !IsBroadcaster(cmd.user) {
        return Silent, None;
      }
      var args := AmountArgs(cmd.parameter);
      if args.None? {
        return Send(Usage(cmd.name, " name amount")), None;
      }
      var (user, amount) := args.value;
      var r := bp.Set(user, amount);
      if r.Failure? {
        return Send(NotIn(user)), None;
      }
      var entry := r.value;
      var _, recs := bp.SaveTable();
      Ledger.LoadEncode(bp.Abs());
      return Send(entry.user + " now has " + IntToString(entry.amount) + " BP."), Some(recs);
    }

    /** `bp_reset`: `!bp-reset yes` gives every player the initial amount, then saves. */
    method BpReset(cmd: Command) returns (reply: Reply, saved: Option<seq<Ledger.Record>>)
      requires bp.Valid()
      modifies bp, bp.bp.Values
      ensures bp.Valid()
      ensures !IsBroadcaster(cmd.user) ==> reply == Silent && saved == None && bp.Abs() == old(bp.Abs())
      ensures IsBroadcaster(cmd.user) && NameArg(cmd.parameter) != Some("yes") ==>
        reply == Send(Usage(cmd.name, " yes")) && saved == None && bp.Abs() == old(bp.Abs())
      ensures IsBroadcaster(cmd.user) && NameArg(cmd.parameter) == Some("yes") ==>
        var s := Ledger.Reset(old(bp.Abs()), bp.initialBp);
        reply == Send("BP has been reset.") && bp.Abs() == s && saved == Some(Ledger.Encode(s))
      ensures saved.Some? ==> Ledger.LoadFile(saved) == Ledger.Loaded(bp.Abs(), None)
    {
      if !IsBroadcaster(cmd.user) {
        return Silent, None;
      }
      if NameArg(cmd.parameter) != Some("yes") {
        return Send(Usage(cmd.name, " yes")), None;
      }
      bp.Reset();
      var _, recs := bp.SaveTable();
      Ledger.LoadEncode(bp.Abs());
      return Send("BP has been reset."), Some(recs);
    }

    /** `bp_save`: `!bp-save` writes the table and reports how many players it holds. */
    method BpSave(cmd: Command) returns (reply: Reply, saved: Option<seq<Ledger.Record>>)
      requires bp.Valid()
      ensures !IsBroadcaster(cmd.user) ==> reply == Silent && saved == None
      ensures IsBroadcaster(cmd.user) && Split(cmd.parameter) != [] ==> reply == Raise(AttributeError) && saved == None
      ensures IsBroadcaster(cmd.user) && Split(cmd.parameter) == [] ==>
        && reply == Send(IntToString(|bp.Abs().table|) + " players saved")
        && saved == Some(Ledger.Encode(bp.Abs()))
        && Ledger.LoadFile(saved) == Ledger.Loaded(bp.Abs(), None)
    {
      if !IsBroadcaster(cmd.user) {
        return Silent, None;
      }
      if |Split(cmd.parameter)| != 0 {
        return Raise(AttributeError), None;
      }
      var n, recs := bp.SaveTable();
      Ledger.LoadEncode(bp.Abs());
      return Send(IntToString(n) + " players saved"), Some(recs);
    }

    /**
     * `bp_load`: `!bp-load` rereads the file (`None`: there is none) and
     * reports how many players it holds. It does not save. A corrupt row
     * escapes as an exception, leaving the rows before it loaded.
     */
    method BpLoad(cmd: Command, file: Option<seq<Ledger.Record>>) returns (reply: Reply)
      requires bp.Valid()
      modifies bp
      ensures bp.Valid()
      ensures !IsBroadcaster(cmd.user) ==> reply == Silent && bp.Abs() == old(bp.Abs())
      ensures IsBroadcaster(cmd.user) && Split(cmd.parameter) != [] ==> reply == Raise(AttributeError) && bp.Abs() == old(bp.Abs())
      ensures IsBroadcaster(cmd.user) && Split(cmd.parameter) == [] ==>
        && bp.Abs() == Ledger.LoadFile(file).state
        && reply == match Ledger.LoadFile(file).error
          case None => Send(IntToString(|bp.Abs().table|) + " players loaded")
          case Some(e) => Raise(Corrupt(e))
    {
      if !IsBroadcaster(cmd.user) {
        return Silent;
      }
      if |Split(cmd.parameter)| != 0 {
        return Raise(AttributeError);
      }
      var r := bp.LoadTable(file);
      match r {
        case Success(n) =>
          return Send(IntToString(n) + " players loaded");
        case Failure(e) =>
          return Raise(Corrupt(e));
      }
    }

    /**
     * `bp_show`: `!bp-show` shows the caller's own amount, `!bp-show name`
     * someone else's. Anyone may use it.
     */
    method BpShow(cmd: Command) returns (reply: Reply)
      requires bp.Valid()
      ensures |Split(cmd.parameter)| > 1 ==> reply == Send("usage: " + cmd.name + " [name]")
      ensures |Split(cmd.parameter)| <= 1 ==>
        var user := if Split(cmd.parameter) == [] then cmd.user.name else Split(cmd.parameter)[0];
        reply == match Ledger.Get(bp.Abs(), bp.fold, user)
          case Failure(_) => Send(NotIn(user))
          case Success(it) => Send(it.user + " has " + IntToString(it.amount) + " BP")
    {
      var param := Split(cmd.parameter);
      var user: string;
      if |param| == 0 {
        user := cmd.user.name;
      } else if |param| == 1 {
        user := param[0];
      } else {
        return Send("usage: " + cmd.name + " [name]");
      }
      var r := bp.Get(user);
      match r {
        case Success(entry) =>
          return Send(entry.user + " has " + IntToString(entry.amount) + " BP");
        case Failure(_) =>
          return Send(NotIn(user));
      }
    }

    /**
     * `bp_top`: `!bp-top` lists the first three entries of `sorted()`, that
     * is the lowest amounts first. Anyone may use it.
     */
    method BpTop(cmd: Command) returns (reply: Reply)
      requires bp.Valid()
      ensures Split(cmd.parameter) != [] ==> reply == Send(Usage(cmd.name, ""))
      ensures Split(cmd.parameter) == [] ==> reply == Send(TopText(bp.Abs()))
    {
      var param := Split(cmd.parameter);
      if |param| != 0 {
        return Send(Usage(cmd.name, ""));
      }
      ghost var s := bp.Abs();
      ghost var ks := Ledger.SortedKeys(s);
      Ledger.SortedKeysAscending(s);
      var entries := bp.Sorted();
      var i := 0;
      var res := "";
      while i < |entries|
        invariant i <= |entries| && i < TopN
        invariant res == Lines(s.table, ks[..i])
      {
        var entry := entries[i];
        LinesSnoc(s.table, ks, i);
        res := res + Line(Ledger.Item(entry.user, entry.amount));
        i := i + 1;
        if i >= TopN {
          break;
        }
      }
      TopKeysPrefix(s, i);
      return Send(res);
    }
  }
}
