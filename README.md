# BSC wallet tracker bot: a verified model of its core

The bot tracks Binance Smart Chain wallets for Telegram chats. Four parts of it are modelled
here. They cover everything between an explorer response arriving and a message being sent:

- **The watch task and its registry** (`bot.py`). `watch_wallet` first runs a baseline pass.
  The pass marks every feed entry stamped at or before the task's start time as seen. Then it
  polls. Each poll walks the feed in order and alerts an entry that is newer than the start
  and whose hash is not yet seen, marking that hash seen before the next entry. `WATCH_TASKS` maps a wallet to its task handle.
  `watch_command` adds to it, and the `stop_yes:` branch of `stop_callback` removes from it.
  The button data is parsed by prefix, and the wallet is the text after the first colon.
  `/profile` shapes a token list: it filters, keeps at most ten, and puts BNB in front.
- **The SQLite store** (`db.py`). It has two keyed tables. Rows are upserted, deleted,
  inserted only if absent, updated in place, and read with filtered selects.
- **The Firestore store** (`firebase.py`). It keeps one document per (chat, wallet), with a
  name and a `seen_txs` array. Seen hashes are added with array union.
- **Feed post-processing** (`utils.py`). `get_token_balances` sums the amounts per contract
  address, in order of first appearance. `get_last_transactions` finds the first buy and the
  first sell in the newest-first feed, and stops as soon as it has both.

The explorer response is the input: `Feed.FeedResponse` holds the HTTP status code, the
payload `status`, and the parsed `result` list if there is one. The clock reading
(`start_timestamp`), the task handle that `asyncio.create_task` returns, and a database
failure are parameters too. Amounts are exact reals, `value / 10^tokenDecimal`.

Where the documented intent of the bot and its code disagree, the model follows the code:

- `WATCH_TASKS` is keyed by the wallet string alone, not by (chat, wallet). A second chat
  that asks for a wallet already being watched gets "already being watched".
- The seen set of `watch_wallet` is a local in-memory `set`. This `bot.py` never calls
  `db.py` or `firebase.py`. It has no startup reconciliation and no check that the wallet is
  still stored. Nothing in the poll loop catches exceptions.
- Re-adding a wallet does overwrite the earlier name. `db.py` writes NULL there when no name
  is given, and `firebase.py` writes `''`.
- On unwatch, `db.py` keeps the seen rows, but `firebase.py` deletes them with the document.
  `firebase.py`'s `add_wallet` also resets them to an empty list.
- Alerts are per transaction hash, not per feed entry. The feed has one entry per token
  transfer, so a swap puts several entries under one hash. Only the first newer one in feed
  order is alerted, and the other transfers of that transaction are never reported.
- `get_token_balances` adds every transfer of a token to that token's balance, whatever its
  direction, so outgoing transfers count as if they were incoming.

## Model

| member | source | states |
|---|---|---|
| Text.Lower | bot.py:111 | lower-casing keeps the length, turns each upper-case ASCII letter into its lower-case partner, keeps every other character, and leaves no upper-case letter |
| Text.Upper | bot.py:52 | upper-casing keeps the length, turns each lower-case ASCII letter into its capital, keeps every other character, and leaves no lower-case letter |
| Text.LowerEqualIff | bot.py:111 | comparing lower-cased copies is exactly a character-by-character comparison that ignores case |
| Feed.Amount | utils.py:47-48 | the normalised amount `value / 10^decimals` is never negative |
| Feed.ClassifyBuyIff | bot.py:111 | a transfer is "Buy" exactly when its recipient equals the wallet ignoring case, and "Sell" exactly otherwise |
| Feed.ClassifyIgnoresWalletCase | utils.py:77 | the direction does not change when the wallet address is given upper- or lower-cased |
| Watch.Baseline | bot.py:93-99 | starting from an empty set, the seen set holds exactly the hashes of entries stamped at or before the start; a non-200 or bad-status response leaves it empty |
| Watch.Poll | bot.py:102-121 | a response without data changes nothing and sends nothing; otherwise the new seen set and the alerts are those of scanning the feed in order |
| Watch.ScanSeen | bot.py:106-110 | after a poll the seen set is the old set plus the hash of every entry newer than the start, so it only grows and covers the newer part of the feed |
| Watch.ScanAlertsSound | bot.py:106-111 | every alert is for a feed entry newer than the start whose hash was not seen when the poll began, goes to the task's chat, and has the entry's direction |
| Watch.ScanAlertsDistinct | bot.py:109-110 | a hash repeated within one feed is alerted at most once |
| Watch.ScanSeenIsAlerted | bot.py:109-110 | the seen set grows by exactly the alerted hashes |
| Watch.ScanComplete | bot.py:106-110 | the hash of every newer entry unseen when the poll began is alerted in that poll; which entry reports it is given by `Watch.ScanAlertsFirstCarrier` |
| Watch.ScanAlertsFirstCarrier | bot.py:106-111 | each alert reports the first newer entry of the feed carrying its hash, so the later transfers of a transaction with several under one hash are never the subject of an alert |
| Watch.ScanQuiet | bot.py:109 | when every newer entry's hash is already seen, a poll sends nothing and changes nothing |
| Watch.ReplayIsQuiet | bot.py:106-110 | a second poll of the same feed sends no alert and leaves the seen set unchanged |
| Watch.PollLoop | bot.py:101-122 | running the poll loop over any finite sequence of responses gives the same seen set and alerts as `Cycles` over the feeds of the responses that carried data, the others being skipped; so the two lemmas below hold of the loop |
| Watch.CyclesAlertOnce | bot.py:101-122 | over any run of polls, no hash is alerted twice, none is alerted that was seen before the run (such as a baseline hash), every alerted entry is newer than the start, and the seen set is the starting set plus the alerted hashes |
| Watch.CyclesComplete | bot.py:101-122 | the hash of every newer entry in any polled feed, unseen before the run, is alerted in some poll; each entry is not necessarily alerted itself, since a hash is alerted once |
| Watch.BaselineThenPollScenario | bot.py:93-121 | with start 1000 and a response holding B (stamp 1001, to the wallet) and A (stamp 900): `Baseline` records exactly A, the first `Poll` alerts B once as a buy, and a second `Poll` sends nothing |
| Watch.SharedHashScenario | bot.py:106-111 | of two different newer transfers under one hash, the poll alerts the first only and never the second, leaving the hash seen |
| Registry.FirstColon | bot.py:181 | the index found holds the first ':' of the string, and none is found only when the string has no ':' |
| Registry.SplitOnce | bot.py:190 | like `split(":", 1)`: the whole string when it has no colon, otherwise two parts that rejoin with ':' to the string, the first part having no colon |
| Registry.SplitAfterPrefix | bot.py:198 | after a prefix ending in its only colon, the second part is exactly the rest of the string, colons included |
| Registry.ParseCallbackData | bot.py:160-198 | the data of each button the bot makes (`confirm_stop:`, `stop_yes:`, `stop_no:` plus a wallet) parses back to that action and wallet |
| Registry.ParseCallbackOnlyButtons | bot.py:180-198 | data that parses is exactly the button data of the action it parses to |
| Registry.WatchRegistry.constructor | bot.py:31 | the registry starts empty |
| Registry.WatchRegistry.WatchCommand | bot.py:124-137 | with no argument nothing changes; a wallet already registered is reported and the table is unchanged; otherwise exactly that wallet is added with the new handle and no other key changes |
| Registry.WatchRegistry.StopCallback | bot.py:174-199 | `stop_yes:<w>` removes `w`, hands back its handle for cancelling and reports it stopped when present, else reports "was not being watched" with no change; confirm, no and unknown data change nothing |
| Portfolio.ListedTokens | bot.py:52 | the filter keeps exactly the tokens with a positive balance and a symbol other than BNB, and never grows the list |
| Portfolio.ListedTokensAppend | bot.py:52 | the filter keeps order and repetitions: filtering a concatenation concatenates the filtered parts, and one token is kept exactly when it is listed |
| Portfolio.Holdings | bot.py:51-57 | the list starts with the native BNB balance, has at most 11 entries, and continues with the first ten listed tokens in order (all of them when fewer) |
| Portfolio.BnbInAnyCaseIsDropped | bot.py:52 | a token whose symbol is BNB in any letter case is never listed |
| FeedAnalysis.TokenBalances | utils.py:31-60 | `[]` for a non-200 or bad-status response; otherwise one entry per contract address, in order of first appearance, with the first entry's symbol and the sum of all amounts for that address |
| FeedAnalysis.ContractsMentions | utils.py:50-58 | an address gets an entry exactly when some feed entry has it |
| FeedAnalysis.ContractsDistinct | utils.py:50-58 | no address gets two entries |
| FeedAnalysis.ContractsInFirstAppearanceOrder | utils.py:50-60 | entries follow the order of first appearance: wherever the later address occurs, the earlier one has already occurred |
| FeedAnalysis.FirstSymbolIsFirst | utils.py:51-58 | an entry's symbol is the `tokenSymbol` of the earliest feed entry with that address |
| FeedAnalysis.FirstSymbolAppend | utils.py:51-58 | adding one entry to the end keeps the symbol of an address already seen, and takes that entry's symbol for a new one |
| FeedAnalysis.TotalUnmentioned | utils.py:51-56 | an address that no entry has sums to zero |
| FeedAnalysis.FirstOfIsEarliest | utils.py:76-89 | the buy (or sell) found is the earliest entry of that direction, and none is found exactly when the feed has no entry of that direction |
| FeedAnalysis.FirstOfAppend | utils.py:91-92 | once a prefix of the feed holds an entry of a direction, the rest of the feed cannot change which one is first, so stopping early is safe |
| FeedAnalysis.LastTransactions | utils.py:62-94 | both absent for a non-200 or bad-status response; otherwise the details of the earliest buy and the earliest sell in feed order, each absent when there is none, the same as a full scan despite the early `break` |
| SqliteStore.Database.constructor | db.py:30-53 | a newly initialised database has both tables empty |
| SqliteStore.Database.AddWallet | db.py:67-76 | INSERT OR REPLACE: afterwards (c, w) has exactly one row, with the given name (NULL included); other rows and the seen table are unchanged; on error the tables are unchanged and the error is raised |
| SqliteStore.Database.RemoveWallet | db.py:90-98 | only the (c, w) wallet row is deleted; the seen table is unchanged |
| SqliteStore.Database.GetWallets | db.py:112-129 | exactly the (wallet, name) pairs of chat c's rows, each wallet once; `[]` on a database error |
| SqliteStore.Database.AddSeenTx | db.py:135-144 | INSERT OR IGNORE: the row is added, and adding an existing row changes nothing; the wallet table is unchanged |
| SqliteStore.Database.GetSeenTxs | db.py:158-175 | exactly the hashes recorded for (c, w); the empty set on a database error |
| SqliteStore.Database.UpdateWalletName | db.py:181-189 | the name of an existing (c, w) row changes; when there is none, no row is created and nothing changes |
| FirestoreStore.ArrayUnion | firebase.py:37-39 | the hash is appended only when absent: the elements become the old ones plus the hash, the old list stays a prefix, repeating is a no-op, and a duplicate-free list stays duplicate-free |
| FirestoreStore.Firestore.AddWallet | firebase.py:12-19 | the (c, w) document is replaced by name `custom_name or ''` and an empty seen list, even if it had seen hashes |
| FirestoreStore.Firestore.RemoveWallet | firebase.py:21-25 | the (c, w) document and its seen list are deleted; other documents are unchanged |
| FirestoreStore.Firestore.GetWallets | firebase.py:27-31 | one (id, name) pair per wallet document of chat c, each wallet once, with a missing name read as '' |
| FirestoreStore.Firestore.AddSeenTx | firebase.py:33-39 | the document's seen list becomes its array union with the hash; a missing document raises and nothing changes |
| FirestoreStore.Firestore.GetSeenTxs | firebase.py:41-48 | the stored list when the document exists, `[]` otherwise, and duplicate-free in a valid store |
| FirestoreStore.Firestore.UpdateWalletName | firebase.py:50-56 | only `name` changes and `seen_txs` is kept; a missing document raises and nothing changes |

The methods `Registry.RegistryScenario`, `SqliteStore.ResubscribeScenario` and
`FirestoreStore.ResubscribeScenario` are client checks. Each drives a class through a short
command sequence and asserts what the contracts give the caller:

- `Registry.RegistryScenario` watches one wallet twice, which keeps the first task. It then
  stops a wallet that is not watched, which changes nothing, and finally stops the watched
  wallet, which hands back the first task and empties the table.
- `SqliteStore.ResubscribeScenario` adds a named wallet, records a seen hash, removes the
  wallet and adds it again without a name. The hash is still recorded and the name is NULL.
- `FirestoreStore.ResubscribeScenario` adds a wallet and records one hash twice, which reads
  back once. It re-adds the wallet under a name, which empties the seen list. It then removes
  the wallet, and renaming the missing document raises and leaves the seen list reading
  empty.

## Left out

- HTTP calls to the explorer, the Web3 BNB balance and the CoinGecko price and market-cap
  lookups (`utils.py:8-29`) are network I/O. The parsed response, and for `/profile` the
  native balance, are inputs.
- The `asyncio` machinery is left out: task creation, `task.cancel()`, `asyncio.sleep(30)`
  and the endless `while True`. A task handle is an opaque value. `Watch.PollLoop` runs any
  finite number of turns of the loop, one response per turn; a response without data is a
  turn that changes nothing. The cancelled handle is returned, not cancelled.
- Telegram transport, message text and keyboards are left out. So are `start`, which only
  sends the welcome text, the `watched` and `stopwatch` handlers, which only read the
  registry to build text and buttons, and `main`. Alerts and replies are datatypes that carry the data the text is built from.
- Float rendering and float arithmetic are left out: `:,.2f`, `:,.7f`, the BNB USD value and
  timestamp formatting. Amounts are exact reals, not Python floats.
- Decoding the feed's JSON is left out: `int(...)` on `value`, `tokenDecimal` and `timeStamp`.
  So are the exceptions a malformed entry or payload would raise, which `bot.py` does not
  catch. Records arrive already parsed, with a natural `value` and `tokenDecimal`.
- Text.Lower, Text.Upper: these are ASCII-only case mappings. Python's `str.lower()` and
  `str.upper()` also map non-ASCII letters. That does not matter for hexadecimal addresses and
  only differs for exotic token symbols.
- SQLite connection handling, directory creation and logging (`db.py:12-28`) are I/O. Any
  `sqlite3.Error` or other exception is the `fault` parameter of each operation.
- SqliteStore.Database.constructor: models `init_db` on a new file only. On an existing file,
  `CREATE TABLE IF NOT EXISTS` keeps the existing rows.
- SqliteStore.Database.GetWallets: the row order is left open, because the SELECT has no
  `ORDER BY`. The contract fixes only which rows are returned and that each appears once.
- FirestoreStore.Firestore.GetWallets: Firestore returns documents in document-ID order. The
  model does not fix the order.
- Firestore client initialisation and credentials (`firebase.py:1-10`) and `config.py` are
  environment. Network errors of the Firestore calls are left out. The document ID
  `str(chat_id)` is treated as the chat id itself, which is safe because `str` is injective
  on integers.
- FirestoreStore.Firestore.UpdateWalletName: takes a string name. A `None` name, which would
  store a null field, is not modelled.
