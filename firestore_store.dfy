/**
 * The Firestore store of firebase.py: one document `users/{chat_id}/wallets/{wallet}` per
 * watched wallet, holding a `name` and a `seen_txs` array. A field that a document lacks
 * (one written by another client) is `None`; the readers default it as the source does.
 */
module FirestoreStore {
  import opened Optional

  /** The path of a wallet document: user document `str(chat_id)`, wallet document `wallet`. */
  datatype DocPath = DocPath(chatId: int, wallet: string)

  datatype WalletDoc = WalletDoc(name: Option<string>, seenTxs: Option<seq<string>>)

  /** How a write ends: applied, or `update` raised because the document does not exist. */
  datatype Outcome = Applied | NotFound

  predicate NoDuplicates(xs: seq<string>) {
    forall i, j :: 0 <= i < j < |xs| ==> xs[i] != xs[j]
  }

  /** `ArrayUnion([h])` on an array: `h` appended unless already present. */
  function ArrayUnion(xs: seq<string>, h: string): (r: seq<string>)
    ensures forall x :: x in r <==> x in xs || x == h
    ensures |xs| <= |r| <= |xs| + 1 && r[..|xs|] == xs
    ensures h in xs ==> r == xs
    ensures NoDuplicates(xs) ==> NoDuplicates(r)
  {
    if h in xs then xs else xs + [h]
  }

  class Firestore {
    var docs: map<DocPath, WalletDoc>

    /** Every stored seen list is free of duplicates. */
    ghost predicate Valid()
      reads this
    {
      forall p :: p in docs && docs[p].seenTxs.Some? ==> NoDuplicates(docs[p].seenTxs.value)
    }

    constructor ()
      ensures docs == map[] && Valid()
    {
      docs := map[];
    }

    /**
     * `add_wallet`: the document is set afresh, name `custom_name or ''` and an empty seen
     * list, replacing any earlier document and the hashes it had seen.
     */
    method AddWallet(chatId: int, wallet: string, customName: Option<string>)
      modifies this
      ensures docs == old(docs)[DocPath(chatId, wallet) := WalletDoc(Some(customName.GetOr("")), Some([]))]
      ensures old(Valid()) ==> Valid()
    {
      docs := docs[DocPath(chatId, wallet) := WalletDoc(Some(customName.GetOr("")), Some([]))];
    }

    /** `remove_wallet`: the document and its seen list are deleted; deleting a missing document is a no-op. */
    method RemoveWallet(chatId: int, wallet: string)
      modifies this
      ensures docs == old(docs) - {DocPath(chatId, wallet)}
      ensures old(Valid()) ==> Valid()
    {
      docs := docs - {DocPath(chatId, wallet)};
    }

    /** `get_wallets`: one (id, name) pair per wallet document of chat `c`, a missing name read as ''. */
    method GetWallets(chatId: int) returns (rows: seq<(string, string)>)
      ensures forall w, n :: (w, n) in rows <==>
        DocPath(chatId, w) in docs && docs[DocPath(chatId, w)].name.GetOr("") == n
      ensures forall i, j :: 0 <= i < j < |rows| ==> rows[i].0 != rows[j].0
    {
      var pending := set p | p in docs && p.chatId == chatId;
      rows := [];
      while pending != {}
        invariant pending <= docs.Keys
        invariant forall p :: p in pending ==> p.chatId == chatId
        invariant forall w, n :: (w, n) in rows <==>
          DocPath(chatId, w) in docs && DocPath(chatId, w) !in pending
          && docs[DocPath(chatId, w)].name.GetOr("") == n
        invariant forall i, j :: 0 <= i < j < |rows| ==> rows[i].0 != rows[j].0
        decreases pending
      {
        var p :| p in pending;
        forall i | 0 <= i < |rows| ensures rows[i].0 != p.wallet {
          assert (rows[i].0, rows[i].1) in rows;
        }
        rows := rows + [(p.wallet, docs[p].name.GetOr(""))];
        pending := pending - {p};
      }
    }

    /**
     * `add_seen_tx`: `update` with `ArrayUnion`, so the hash is appended only if absent and
     * repeating it changes nothing; on a missing document `update` raises and nothing changes.
     */
    method AddSeenTx(chatId: int, wallet: string, txHash: string) returns (outcome: Outcome)
      modifies this
      ensures DocPath(chatId, wallet) !in old(docs) ==> outcome == NotFound && docs == old(docs)
      ensures DocPath(chatId, wallet) in old(docs) ==>
        var doc := old(docs)[DocPath(chatId, wallet)];
        && outcome == Applied
        && docs == old(docs)[DocPath(chatId, wallet) :=
             doc.(seenTxs := Some(ArrayUnion(doc.seenTxs.GetOr([]), txHash)))]
      ensures old(Valid()) ==> Valid()
    {
      var path := DocPath(chatId, wallet);
      if path !in docs {
        return NotFound;
      }
      var doc := docs[path];
      docs := docs[path := doc.(seenTxs := Some(ArrayUnion(doc.seenTxs.GetOr([]), txHash)))];
      outcome := Applied;
    }

    /** `get_seen_txs`: the stored list when the document exists (empty if it has none), otherwise the empty list. */
    method GetSeenTxs(chatId: int, wallet: string) returns (hashes: seq<string>)
      ensures DocPath(chatId, wallet) !in docs ==> hashes == []
      ensures DocPath(chatId, wallet) in docs ==> hashes == docs[DocPath(chatId, wallet)].seenTxs.GetOr([])
      ensures Valid() ==> NoDuplicates(hashes)
    {
      var path := DocPath(chatId, wallet);
      if path in docs {
        hashes := docs[path].seenTxs.GetOr([]);
      } else {
        hashes := [];
      }
    }

    /** `update_wallet_name`: only `name` changes and `seen_txs` is kept; a missing document raises and nothing changes. */
    method UpdateWalletName(chatId: int, wallet: string, newName: string) returns (outcome: Outcome)
      modifies this
      ensures DocPath(chatId, wallet) !in old(docs) ==> outcome == NotFound && docs == old(docs)
      ensures DocPath(chatId, wallet) in old(docs) ==>
        && outcome == Applied
        && docs == old(docs)[DocPath(chatId, wallet) := old(docs)[DocPath(chatId, wallet)].(name := Some(newName))]
      ensures old(Valid()) ==> Valid()
    {
      var path := DocPath(chatId, wallet);
      if path !in docs {
        return NotFound;
      }
      docs := docs[path := docs[path].(name := Some(newName))];
      outcome := Applied;
    }
  }

  /** Re-adding a wallet clears what it had seen; removing it makes the seen list read back empty. */
  method ResubscribeScenario(store: Firestore, chatId: int, wallet: string, h: string)
    modifies store
  {
    store.AddWallet(chatId, wallet, None);
    var _ := store.AddSeenTx(chatId, wallet, h);
    var _ := store.AddSeenTx(chatId, wallet, h);
    var seen := store.GetSeenTxs(chatId, wallet);
    assert seen == [h];
    store.AddWallet(chatId, wallet, Some("main"));
    seen := store.GetSeenTxs(chatId, wallet);
    assert seen == [];
    store.RemoveWallet(chatId, wallet);
    var outcome := store.UpdateWalletName(chatId, wallet, "renamed");
    seen := store.GetSeenTxs(chatId, wallet);
    assert outcome == NotFound && seen == [];
  }
}
