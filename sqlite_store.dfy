/**
 * The SQLite store of db.py, as its two tables: `user_wallets`, keyed by (chat_id,
 * wallet_address) with a nullable `custom_name`, and `seen_transactions`, whose rows are
 * their own key (chat_id, wallet_address, tx_hash). Primary-key uniqueness is the map's.
 *
 * Each function opens a connection and runs one statement; each writer then commits. A
 * `sqlite3.Error` or other exception on the way (connect, execute or commit) is the `fault`
 * parameter: the writers log and re-raise it, having committed nothing; the two readers log
 * it and return an empty result.
 */
module SqliteStore {
  import opened Optional

  datatype WalletKey = WalletKey(chatId: int, wallet: string)
  datatype SeenRow = SeenRow(chatId: int, wallet: string, txHash: string)

  /** One row of `SELECT wallet_address, custom_name FROM user_wallets WHERE chat_id = ?`. */
  datatype WalletRow = WalletRow(wallet: string, customName: Option<string>)

  /** How a writer ends: committed, or the error re-raised to its caller. */
  datatype Outcome = Committed | Raised

  class Database {
    var userWallets: map<WalletKey, Option<string>>
    var seenTransactions: set<SeenRow>

    /** `init_db` on a new database file: both tables exist and are empty. */
    constructor ()
      ensures userWallets == map[] && seenTransactions == {}
    {
      userWallets := map[];
      seenTransactions := {};
    }

    /**
     * `add_wallet`: INSERT OR REPLACE. Afterwards (c, w) has exactly one row, whose name is
     * the one given, also when that is NULL over an earlier name; nothing else changes.
     */
    method AddWallet(chatId: int, wallet: string, customName: Option<string>, fault: bool)
      returns (outcome: Outcome)
      modifies this
      ensures outcome == (if fault then Raised else Committed)
      ensures fault ==> userWallets == old(userWallets)
      ensures !fault ==> userWallets == old(userWallets)[WalletKey(chatId, wallet) := customName]
      ensures seenTransactions == old(seenTransactions)
    {
      if fault {
        return Raised;
      }
      userWallets := userWallets[WalletKey(chatId, wallet) := customName];
      outcome := Committed;
    }

    /** `remove_wallet`: DELETE of the (c, w) wallet row only; the seen transactions stay. */
    method RemoveWallet(chatId: int, wallet: string, fault: bool) returns (outcome: Outcome)
      modifies this
      ensures outcome == (if fault then Raised else Committed)
      ensures fault ==> userWallets == old(userWallets)
      ensures !fault ==> userWallets == old(userWallets) - {WalletKey(chatId, wallet)}
      ensures seenTransactions == old(seenTransactions)
    {
      if fault {
        return Raised;
      }
      userWallets := userWallets - {WalletKey(chatId, wallet)};
      outcome := Committed;
    }

    /**
     * `get_wallets`: one row per wallet row of chat `c`, with its stored name, and nothing
     * else; the order is SQLite's and is not fixed. On a database error, no rows.
     */
    method GetWallets(chatId: int, fault: bool) returns (rows: seq<WalletRow>)
      ensures fault ==> rows == []
      ensures !fault ==> forall w, n :: WalletRow(w, n) in rows <==>
        WalletKey(chatId, w) in userWallets && userWallets[WalletKey(chatId, w)] == n
      ensures forall i, j :: 0 <= i < j < |rows| ==> rows[i].wallet != rows[j].wallet
    {
      if fault {
        return [];
      }
      var pending := set k | k in userWallets && k.chatId == chatId;
      rows := [];
      while pending != {}
        invariant pending <= userWallets.Keys
        invariant forall k :: k in pending ==> k.chatId == chatId
        invariant forall w, n :: WalletRow(w, n) in rows <==>
          WalletKey(chatId, w) in userWallets && WalletKey(chatId, w) !in pending
          && userWallets[WalletKey(chatId, w)] == n
        invariant forall i, j :: 0 <= i < j < |rows| ==> rows[i].wallet != rows[j].wallet
        decreases pending
      {
        var k :| k in pending;
        forall i | 0 <= i < |rows| ensures rows[i].wallet != k.wallet {
          assert WalletRow(rows[i].wallet, rows[i].customName) in rows;
        }
        rows := rows + [WalletRow(k.wallet, userWallets[k])];
        pending := pending - {k};
      }
    }

    /** `add_seen_tx`: INSERT OR IGNORE, so recording a hash twice leaves the table as the first time. */
    method AddSeenTx(chatId: int, wallet: string, txHash: string, fault: bool) returns (outcome: Outcome)
      modifies this
      ensures outcome == (if fault then Raised else Committed)
      ensures fault ==> seenTransactions == old(seenTransactions)
      ensures !fault ==> seenTransactions == old(seenTransactions) + {SeenRow(chatId, wallet, txHash)}
      ensures SeenRow(chatId, wallet, txHash) in old(seenTransactions) ==> seenTransactions == old(seenTransactions)
      ensures userWallets == old(userWallets)
    {
      if fault {
        return Raised;
      }
      seenTransactions := seenTransactions + {SeenRow(chatId, wallet, txHash)};
      outcome := Committed;
    }

    /** `get_seen_txs`: exactly the hashes recorded for (c, w); on a database error, none. */
    method GetSeenTxs(chatId: int, wallet: string, fault: bool) returns (hashes: set<string>)
      ensures fault ==> hashes == {}
      ensures !fault ==> forall h :: h in hashes <==> SeenRow(chatId, wallet, h) in seenTransactions
    {
      if fault {
        return {};
      }
      hashes := set r | r in seenTransactions && r.chatId == chatId && r.wallet == wallet :: r.txHash;
    }

    /**
     * `update_wallet_name`: UPDATE ... WHERE. An existing (c, w) row gets the new name; when
     * there is none, no row is created and nothing changes.
     */
    method UpdateWalletName(chatId: int, wallet: string, customName: Option<string>, fault: bool)
      returns (outcome: Outcome)
      modifies this
      ensures outcome == (if fault then Raised else Committed)
      ensures userWallets.Keys == old(userWallets).Keys
      ensures !fault && WalletKey(chatId, wallet) in old(userWallets) ==>
        userWallets == old(userWallets)[WalletKey(chatId, wallet) := customName]
      ensures fault || WalletKey(chatId, wallet) !in old(userWallets) ==> userWallets == old(userWallets)
      ensures seenTransactions == old(seenTransactions)
    {
      if fault {
        return Raised;
      }
      var key := WalletKey(chatId, wallet);
      if key in userWallets {
        userWallets := userWallets[key := customName];
      }
      outcome := Committed;
    }
  }

  /** Re-watching after an unwatch: the old name is gone, the seen hashes are still there. */
  method ResubscribeScenario(db: Database, chatId: int, wallet: string, h: string)
    modifies db
  {
    var _ := db.AddWallet(chatId, wallet, Some("main"), false);
    var _ := db.AddSeenTx(chatId, wallet, h, false);
    var _ := db.RemoveWallet(chatId, wallet, false);
    var _ := db.AddWallet(chatId, wallet, None, false);
    var seen := db.GetSeenTxs(chatId, wallet, false);
    assert h in seen;
    assert db.userWallets[WalletKey(chatId, wallet)] == None;
  }
}
