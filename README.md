# BP ledger of bpbot

bpbot is a Twitch chat bot that keeps a ledger of "BP" points per player.
The ledger class `BPTable` stores a dict from the case-folded user name to
an `Entry` (display name, amount). It reads and writes that dict as CSV rows
`[casefold_name, display_name, amount]`. On top of it, the bot's command
handlers `bp_add`, `bp_remove`, `bp_give` (registered as both `bp-give` and
`bp-take`), `bp_set`, `bp_reset`, `bp_save`, `bp_load`, `bp_show` and
`bp_top` parse the chat parameter and call the ledger. Only the broadcaster
may change the ledger. `bp_add`, `bp_remove`, `bp_give`, `bp_set` and
`bp_reset` save the table after a change. `bp_load` replaces the table from
the file and does not save.

The project has six modules:

- `Wrappers` (wrappers.dfy): `Option`, `Result` and `Outcome`.
- `Text` (text.dfy): the Python string operations the handlers depend on.
  These are `str.split()` in `Split`, `int()` in `ParseInt` and `str()` of an
  integer in `IntToString`. Among the lemmas, `split` of single-space-joined
  words gives the words back, and `int(str(i)) == i`.
- `Sorting` (sorting.dfy): a stable insertion sort `SortBy` by an integer key.
  This is the model of Python's `sorted(..., key=...)`. It is proved to be a
  permutation, sorted, and stable: the elements with one key value keep their
  relative order.
- `Ledger` (ledger.dfy): the ledger as a value. A `State` is the dict's
  keys in insertion order plus its mapping. `Ledger` gives the reference
  definitions of `addUser`, `removeUser`, `add`, `set`, `get`, `reset` and
  `sorted`, of the rows `saveTable` writes (`Encode`), and of the
  `loadTable` loop (`Load`, `LoadFile`). The lemmas state what the source
  promises about them.
- `LedgerTable` (table.dfy): `BPTable` as a class over mutable `Entry`
  objects, as in the source. Here `add`/`set`/`reset` change the stored object
  in place, and `add`/`set`/`get` hand that same object back. Every method is
  proved against the `Ledger` function applied to `Abs()`, the table's value.
  The class invariant `Valid()` says several things:
  - the order lists every key exactly once;
  - no Entry object is filed under two keys;
  - the ghost `items` mirror the entries' fields.
- `BPBot` (bot.dfy): `is_broadcaster` as `IsBroadcaster`, the command names
  the bot registers as `Registered`, and one method per handler. A handler
  returns its effect on the chat (`Silent`, `Send(text)` or
  `Raise(fault)`). `bp_save` and the five handlers that change the table
  also return the rows written. Each contract covers those of these cases
  that the handler has:
  - A caller who is not the broadcaster gets silence. `bp_show` and
    `bp_top` are open to everyone, so they have no such case.
  - A malformed parameter gets a usage reply, or `AttributeError` for
    `bp_save` and `bp_load`.
  - `NoUser` or `DuplicateUser` gets its reply and leaves the state alone.
    Only `bp_add`, `bp_remove`, `bp_give`, `bp_set` and `bp_show` can fail
    this way.
  - On success the contract gives the reply text, the new table and the
    saved rows.
  The saved rows load back to exactly the table that was saved.

In several places the code does something other than what a reader would
expect. The model follows the code:

- `bp_top` lists the entries of `sorted()`, which is ascending. The chat
  therefore sees the three LOWEST balances first. A ranking would usually
  list the highest first.
- The usage reply of `bp_show` is `usage: <name> [name]`, without the `!`
  that every other handler puts before the command name.
- With arguments, `bp_save` and `bp_load` call `cmd.set`, which the chat
  command object does not have. The model raises `AttributeError`
  (`Raise(AttributeError)`) and sends no usage text.
- A corrupt row makes `loadTable` raise in the middle of its loop. The rows
  before it stay loaded and the exception escapes the handler
  (`Raise(Corrupt(..))`).

## Model

| member | source | states |
|---|---|---|
| Ledger.AddUserSpec | bpbot.py:262-266 | `addUser` succeeds iff the case fold is not yet a key, and fails with `DuplicateUser` otherwise. On success the new key comes last in the order with `(user, initial_bp)`, every other entry is unchanged, and the size grows by one. |
| Ledger.SameFoldSameUser | bpbot.py:262-266 | After adding `a`, adding any `b` with the same case fold is a `DuplicateUser`. `get(b)` then returns `a`'s entry. |
| Ledger.MissingUser | bpbot.py:268-292 | `removeUser`, `add`, `set` and `get` each fail with `NoUser` exactly when the case fold is not a key. |
| Ledger.RemoveKey | bpbot.py:272 | `del` takes exactly that key out of the insertion order, keeps the other keys distinct, and shortens the order by one when the key was present. |
| Ledger.RemoveKeyInPlace | bpbot.py:272 | In a duplicate-free order, `del` cuts out the key's one position. The keys before and after it keep their order. |
| Ledger.RemoveUserSpec | bpbot.py:268-272 | Removing a present user deletes exactly its key. The remaining entries are unchanged, the order is the old order with that key's position cut out, and the size shrinks by one. |
| Ledger.AddSpec | bpbot.py:274-279 | `add` keeps the order and key set. It raises only that entry's amount by `v` and keeps its display name and every other entry. |
| Ledger.AddAdditive | bpbot.py:274-279 | Adding `a` then `b` equals adding `a + b`. |
| Ledger.SetSpec | bpbot.py:287-292 | `set` keeps the order and key set. Only that entry's amount becomes `v`; the display name and the other entries are untouched. |
| Ledger.SetIdempotent | bpbot.py:287-292 | Setting the same amount twice equals setting it once. |
| Ledger.ResetSpec | bpbot.py:297-299 | `reset` keeps order, keys and display names, and gives every entry `initial_bp`. Resetting again changes nothing. |
| Ledger.KeysFoldedPreserved | bpbot.py:262-299 | Every key stays the case fold of its display name through `addUser`, `removeUser`, `add`, `set` and `reset`. |
| Ledger.SortedKeysPermutation | bpbot.py:294-295 | `sorted()` lists every entry of the table exactly once. |
| Ledger.SortedKeysAscending | bpbot.py:294-295 | `sorted()` lists the amounts in non-decreasing order. |
| Ledger.SortedKeysStable | bpbot.py:294-295 | The entries of each amount come in insertion order, as Python's stable sort keeps them. |
| Ledger.EncodeCount | bpbot.py:253-260 | `saveTable` writes one row per entry and returns that count. |
| Ledger.LoadEncode | bpbot.py:241-260 | Loading the rows `saveTable` writes gives back the same table, insertion order included, with no error. |
| Ledger.EncodeFolded | bpbot.py:258-259 | When every key is the case fold of its name, each saved row's first field is the case fold of its second. |
| Ledger.LoadStops | bpbot.py:246-249 | Once a row fails to decode, the later rows have no effect: the load keeps what it had and the error. |
| Ledger.LoadLastWins | bpbot.py:246-250 | In a clean load every row decodes and its key is in the table. If no later row has the same key, the table holds that row's entry. |
| LedgerTable.Entry.constructor | bpbot.py:226-229 | A new Entry holds the given display name and amount. |
| LedgerTable.BPTable.constructor | bpbot.py:236-239 | A new table keeps `initial_bp` and its content is what `loadTable` leaves. |
| LedgerTable.BPTable.LoadTable | bpbot.py:241-251 | The table becomes `Ledger.LoadFile(file)`: empty without a file, the rows in turn otherwise, stopping at a corrupt row. It returns the entry count or the row error. |
| LedgerTable.BPTable.Put | bpbot.py:250 | Dict assignment of a fresh Entry: the value becomes `Ledger.Put`, so a new key is appended and an existing key keeps its place. |
| LedgerTable.BPTable.SaveTable | bpbot.py:253-260 | The rows written are `Ledger.Encode` of the table, in insertion order. The count returned is the number of entries. |
| LedgerTable.BPTable.AddUser | bpbot.py:262-266 | Either `DuplicateUser` with the table unchanged, or the table becomes `Ledger.AddUser` with a fresh Entry under the case fold. |
| LedgerTable.BPTable.RemoveUser | bpbot.py:268-272 | Either `NoUser` with the table unchanged, or the table becomes `Ledger.RemoveUser`. Every remaining key keeps its very Entry object. |
| LedgerTable.BPTable.Add | bpbot.py:274-279 | Either `NoUser` with the table unchanged, or the table becomes `Ledger.Add`. The dict and order are untouched, and the stored Entry object is returned. |
| LedgerTable.BPTable.Get | bpbot.py:281-285 | `NoUser` iff the case fold is absent. Otherwise it returns the stored Entry object, whose fields are `Ledger.Get`'s item. |
| LedgerTable.BPTable.Set | bpbot.py:287-292 | Either `NoUser` with the table unchanged, or the table becomes `Ledger.Set`. The dict and order are untouched, and the stored Entry object is returned. |
| LedgerTable.BPTable.Sorted | bpbot.py:294-295 | It returns the stored Entry objects, one per entry, in the order of `Ledger.SortedKeys`, with amounts non-decreasing. |
| LedgerTable.BPTable.Reset | bpbot.py:297-299 | The table becomes `Ledger.Reset`: every Entry object gets `initial_bp` in place, and dict and order are unchanged. |
| Sorting.SortBy | bpbot.py:295 | Sorting returns a permutation of its input. |
| Sorting.SortBySorted | bpbot.py:295 | Sorting returns its input in non-decreasing key order. |
| Sorting.SortByStable | bpbot.py:295 | For every key value, sorting keeps the elements with that key in their input order. |
| Text.Split | bpbot.py:59 | Every word of `split()` is non-empty and free of whitespace. |
| Text.SplitJoin | bpbot.py:59 | `split()` of words joined by single spaces gives back those words. |
| Text.IntToStringToken | bpbot.py:259 | `str()` of an integer is a single whitespace-free word. |
| Text.ParseIntToString | bpbot.py:249 | `int(str(i)) == i`, so an amount written by `saveTable` loads back unchanged. |
| Text.ParseIntRejects | bpbot.py:92 | A word holding a character that is not a digit, `_`, `+` or `-` makes `int()` fail. |
| BPBot.BroadcasterBadgeOnly | bpbot.py:26-27 | A user is the broadcaster exactly when the `broadcaster` badge is present, whatever its value. The user's name plays no part. |
| BPBot.RegisteredNames | bpbot.py:35-44 | The bot answers exactly the ten registered command names. `bp-give` and `bp-take` share the `bp_give` handler, and every other handler has one name. |
| BPBot.BlankIsNoArgs | bpbot.py:140 | A parameter of whitespace only splits to no token. `bp_save`, `bp_load` and `bp_top` take it as no argument, and the name and amount readers refuse it. |
| BPBot.NameArgOf | bpbot.py:59 | A single word parameter is read as the one name argument. |
| BPBot.AmountArgsOf | bpbot.py:91-92 | `name amount` reads back as that name and integer. |
| BPBot.AmountArgsRejects | bpbot.py:90-95 | `name word`, where the word holds a non-numeric character, is refused as a usage error. |
| BPBot.TakeUndoesGive | bpbot.py:96-99 | `!bp-take name a` after `!bp-give name a` restores the table. |
| BPBot.TopKeysSpec | bpbot.py:172-184 | `bp_top` shows `min(3, len)` entries: a prefix of `sorted()`, in ascending amount. An empty table sends `''`. |
| BPBot.TopKeysLowest | bpbot.py:177-183 | No entry left out of `bp_top` has a smaller amount than one it shows. |
| BPBot.BPBot.constructor | bpbot.py:31 | The bot's ledger is the given table. |
| BPBot.BPBot.BpAdd | bpbot.py:55-69 | The outcome depends on the caller and the argument. A non-broadcaster gets silence and no change. Not exactly one name gets `usage: !<cmd> name`. A duplicate gets "... is already in the BP game." with no change. Otherwise the table becomes `Ledger.AddUser`, "<user> added to the BP game." is sent, and the saved rows load back to the new table. |
| BPBot.BPBot.BpRemove | bpbot.py:71-85 | The same cases as `BpAdd`, for `Ledger.RemoveUser`. A missing user gets "<user> is not in the BP game.", and success sends "<user> removed from the BP game.". |
| BPBot.BPBot.BpGive | bpbot.py:87-104 | Not exactly one name and one integer gets `usage: !<cmd> name amount`. Otherwise the table becomes `Ledger.Add` with the amount negated for `bp-take`. The reply "<name> now has <n> BP" is read from the new entry, and the table is saved. |
| BPBot.BPBot.BpSet | bpbot.py:106-121 | The same cases as `BpGive`, for `Ledger.Set`. The reply ends in "BP.". |
| BPBot.BPBot.BpReset | bpbot.py:123-135 | Only the one word `yes` resets: the table becomes `Ledger.Reset`, is saved, and "BP has been reset." is sent. Anything else gets `usage: !<cmd> yes`. |
| BPBot.BPBot.BpSave | bpbot.py:137-144 | With arguments it raises `AttributeError`. Otherwise it saves `Ledger.Encode` of the table and sends "<n> players saved" with the entry count. |
| BPBot.BPBot.BpLoad | bpbot.py:146-153 | With arguments it raises `AttributeError` and leaves the table alone. Otherwise the table becomes `Ledger.LoadFile(file)`. The reply is "<n> players loaded", or the row error escapes. |
| BPBot.BPBot.BpShow | bpbot.py:155-170 | No name shows the caller, one name shows that user, and more gets `usage: <cmd> [name]`. The reply is "<name> has <n> BP" from `Ledger.Get`, or "<user> is not in the BP game.". |
| BPBot.BPBot.BpTop | bpbot.py:172-184 | Any argument gets `usage: !<cmd>`. Otherwise the loop over `sorted()` sends exactly `TopText`, which is "<name> has <n> BP. " for each of the first `min(3, len)` entries. |

## Left out

- `run`, OAuth tokens, `is_token_valid`, configuration files and the Twitch connection (bpbot.py:1-18, 22-24, 187-223) are left out: that is network and file I/O outside the ledger.
- `BPBot.__init__`'s event and command registration, `start`, `stop` and `on_ready` (bpbot.py:30-53) are not modelled as calls into the chat library. The command-to-handler map appears as the function `BPBot.Registered`, whose contents `BPBot.RegisteredNames` states. The chat library's dispatch through it is not modelled.
- `async`/`await` are left out: each handler runs to completion on its own, with no interleaving between handlers.
- The file system is modelled through parameters. The file is `Option<seq<Record>>`, `None` meaning `os.path.isfile` is false. `saveTable` returns the rows it writes. The `.old` backup copy (bpbot.py:254-255), CSV quoting and the UTF-8 encoding are not modelled.
- `str.casefold` is the uninterpreted parameter `fold`. No property of Unicode case folding is used.
- Text.ParseInt: models `int()` only on ASCII digits. Python also accepts other Unicode decimal digits. CPython's limit of 4300 digits is not modelled either. Past it, `int(row[2])` raises `ValueError`, but `ParseInt` accepts the string. For the same reason `str()` of such an amount would raise in `saveTable` and in the replies, but `Text.IntToString` does not fail.
- LedgerTable.BPTable.SaveTable: cannot fail. In the source, `os.replace`, `open` and the write can raise OS errors (bpbot.py:254-256). `loadTable`'s `open` and UTF-8 decoding (bpbot.py:245) can raise too. These I/O exceptions are left out: only a corrupt row cuts a load short.
- LedgerTable.BPTable.AddUser: does not state that the old entries keep their very `Entry` objects. It states that their values are unchanged.
- LedgerTable.BPTable.LoadTable: does not state that the new `Entry` objects are fresh. It does state the content and the insertion order.
- LedgerTable.BPTable.Sorted: states ascending order and the key order of `Ledger.SortedKeys`. Stability is stated on the value level, by `Ledger.SortedKeysStable`.
- LedgerTable.BPTable.constructor: has no error channel. A corrupt file given to `BPTable.__init__` would make the constructor raise; the model instead keeps the rows loaded before the corrupt one.
