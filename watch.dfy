/**
 * The background watch task of bot.py (`watch_wallet`): a baseline pass that marks the
 * transactions already in the feed as seen, then poll steps, each of which alerts every
 * transaction that is newer than the task's start time and not yet seen.
 *
 * The seen set is the task's own in-memory `set`; it is passed into each step and the
 * updated set returned. The endless `while True` loop with its 30-second sleep becomes
 * `PollLoop`, a finite run of poll steps over successive responses, which is proved equal to
 * `Cycles`, the same run over the feeds of the responses that carried data.
 */
module Watch {
  import opened Optional
  import opened Feed

  /** The fixed parameters of one watch task: where alerts go, which wallet, and when it started. */
  datatype Subscription = Subscription(chatId: int, wallet: string, start: int)

  /** One `send_message` of a new-transaction alert; the text is rendered from `direction` and `tx`. */
  datatype Alert = Alert(chatId: int, direction: Direction, tx: Transfer)

  /** What a poll leaves behind: the seen set and the alerts sent, in the order sent. */
  datatype PollResult = PollResult(seen: set<string>, alerts: seq<Alert>)

  /** Some entry at or before `start` carries hash `h`. */
  ghost predicate PreExisting(feed: seq<Transfer>, start: int, h: string) {
    exists i :: 0 <= i < |feed| && feed[i].timeStamp <= start && feed[i].hash == h
  }

  /** Some entry after `start` carries hash `h`. */
  ghost predicate Newer(feed: seq<Transfer>, start: int, h: string) {
    exists i :: 0 <= i < |feed| && feed[i].timeStamp > start && feed[i].hash == h
  }

  /** The hashes of the transactions an alert list reports. */
  ghost function AlertedHashes(alerts: seq<Alert>): set<string> {
    set k | 0 <= k < |alerts| :: alerts[k].tx.hash
  }

  /** No two alerts of the list report the same hash. */
  ghost predicate DistinctHashes(alerts: seq<Alert>) {
    forall i, j :: 0 <= i < j < |alerts| ==> alerts[i].tx.hash != alerts[j].tx.hash
  }

  lemma AlertedHashesConcat(x: seq<Alert>, y: seq<Alert>)
    ensures AlertedHashes(x + y) == AlertedHashes(x) + AlertedHashes(y)
  {
    forall h | h in AlertedHashes(x + y) ensures h in AlertedHashes(x) + AlertedHashes(y) {
      var k :| 0 <= k < |x + y| && (x + y)[k].tx.hash == h;
      if k >= |x| {
        assert y[k - |x|].tx.hash == h;
      } else {
        assert x[k].tx.hash == h;
      }
    }
    forall h | h in AlertedHashes(x) ensures h in AlertedHashes(x + y) {
      var k :| 0 <= k < |x| && x[k].tx.hash == h;
      assert (x + y)[k].tx.hash == h;
    }
    forall h | h in AlertedHashes(y) ensures h in AlertedHashes(x + y) {
      var k :| 0 <= k < |y| && y[k].tx.hash == h;
      assert (x + y)[k + |x|].tx.hash == h;
    }
  }

  lemma DistinctConcat(x: seq<Alert>, y: seq<Alert>)
    requires DistinctHashes(x) && DistinctHashes(y)
    requires forall k :: 0 <= k < |y| ==> y[k].tx.hash !in AlertedHashes(x)
    ensures DistinctHashes(x + y)
  {
    var all := x + y;
    forall i, j | 0 <= i < j < |all| ensures all[i].tx.hash != all[j].tx.hash {
      if i >= |x| {
        assert all[i] == y[i - |x|] && all[j] == y[j - |x|];
      } else if j >= |x| {
        assert all[j] == y[j - |x|];
        assert all[i].tx.hash in AlertedHashes(x);
      }
    }
  }

  /**
   * The baseline pass: starting from an empty set, every entry stamped at or before the
   * start time is recorded as seen, whatever its hash; nothing newer is recorded. A
   * response without data leaves the set empty.
   */
  method Baseline(resp: FeedResponse, start: int) returns (seen: set<string>)
    ensures Entries(resp).None? ==> seen == {}
    ensures Entries(resp).Some? ==>
      forall h :: h in seen <==> PreExisting(Entries(resp).value, start, h)
  {
    seen := {};
    if resp.statusCode == 200 {
      if resp.status == "1" && resp.result.Some? {
        var feed := resp.result.value;
        for i := 0 to |feed|
          invariant forall h :: h in seen <==> PreExisting(feed[..i], start, h)
        {
          if feed[i].timeStamp <= start {
            seen := seen + {feed[i].hash};
          }
          assert forall j :: 0 <= j < i ==> feed[..i + 1][j] == feed[..i][j];
        }
        assert feed[..|feed|] == feed;
      }
    }
  }

  /**
   * The effect of scanning `feed` in order with seen set `seen`: an entry is alerted when it
   * is newer than the start and its hash is not yet seen, and its hash is added to the set
   * before the next entry is looked at.
   */
  function Scan(sub: Subscription, feed: seq<Transfer>, seen: set<string>): PollResult
    decreases |feed|
  {
    if feed == [] then PollResult(seen, [])
    else
      var tx := feed[0];
      if tx.timeStamp > sub.start && tx.hash !in seen then
        var rest := Scan(sub, feed[1..], seen + {tx.hash});
        PollResult(rest.seen, [Alert(sub.chatId, Classify(tx, sub.wallet), tx)] + rest.alerts)
      else
        Scan(sub, feed[1..], seen)
  }

  /** One poll step: a response without data changes nothing; otherwise the feed is scanned. */
  method Poll(resp: FeedResponse, sub: Subscription, seen: set<string>)
    returns (seen': set<string>, alerts: seq<Alert>)
    ensures Entries(resp).None? ==> seen' == seen && alerts == []
    ensures Entries(resp).Some? ==>
      PollResult(seen', alerts) == Scan(sub, Entries(resp).value, seen)
  {
    seen', alerts := seen, [];
    if resp.statusCode == 200 {
      if resp.status == "1" && resp.result.Some? {
        var feed := resp.result.value;
        for i := 0 to |feed|
          invariant Scan(sub, feed, seen) ==
            var r := Scan(sub, feed[i..], seen'); PollResult(r.seen, alerts + r.alerts)
        {
          var tx := feed[i];
          assert feed[i..][1..] == feed[i + 1..];
          if tx.timeStamp > sub.start && tx.hash !in seen' {
            seen' := seen' + {tx.hash};
            alerts := alerts + [Alert(sub.chatId, Classify(tx, sub.wallet), tx)];
          }
        }
      }
    }
  }

  lemma NewerCons(feed: seq<Transfer>, start: int, h: string)
    requires feed != []
    ensures Newer(feed, start, h) <==>
      (feed[0].timeStamp > start && feed[0].hash == h) || Newer(feed[1..], start, h)
  {
    if Newer(feed, start, h) {
      var i :| 0 <= i < |feed| && feed[i].timeStamp > start && feed[i].hash == h;
      if i > 0 {
        assert feed[1..][i - 1] == feed[i];
      }
    }
    if Newer(feed[1..], start, h) {
      var i :| 0 <= i < |feed[1..]| && feed[1..][i].timeStamp > start && feed[1..][i].hash == h;
      assert feed[i + 1] == feed[1..][i];
    }
  }

  /** After a poll the seen set is the old set plus the hash of every entry newer than the start: it only grows, and covers the whole newer part of the feed. */
  lemma {:induction false} ScanSeen(sub: Subscription, feed: seq<Transfer>, seen: set<string>)
    ensures forall h :: h in Scan(sub, feed, seen).seen <==> h in seen || Newer(feed, sub.start, h)
    decreases |feed|
  {
    if feed != [] {
      var tx := feed[0];
      forall h ensures Newer(feed, sub.start, h) <==>
        (tx.timeStamp > sub.start && tx.hash == h) || Newer(feed[1..], sub.start, h) {
        NewerCons(feed, sub.start, h);
      }
      if tx.timeStamp > sub.start && tx.hash !in seen {
        ScanSeen(sub, feed[1..], seen + {tx.hash});
      } else {
        ScanSeen(sub, feed[1..], seen);
      }
    }
  }

  /**
   * Every alert reports an entry of the feed that is newer than the start and whose hash was
   * not in the seen set the poll began with; it goes to the task's chat and is a "Buy" exactly
   * when the entry's recipient is the watched wallet.
   */
  lemma {:induction false} ScanAlertsSound(sub: Subscription, feed: seq<Transfer>, seen: set<string>)
    ensures forall k :: 0 <= k < |Scan(sub, feed, seen).alerts| ==>
      var a := Scan(sub, feed, seen).alerts[k];
      && a.tx in feed
      && a.tx.timeStamp > sub.start
      && a.tx.hash !in seen
      && a.chatId == sub.chatId
      && a.direction == Classify(a.tx, sub.wallet)
    decreases |feed|
  {
    if feed != [] {
      var tx := feed[0];
      if tx.timeStamp > sub.start && tx.hash !in seen {
        ScanAlertsSound(sub, feed[1..], seen + {tx.hash});
      } else {
        ScanAlertsSound(sub, feed[1..], seen);
      }
    }
  }

  /** No hash is alerted twice in one poll, even when the feed repeats it. */
  lemma {:induction false} ScanAlertsDistinct(sub: Subscription, feed: seq<Transfer>, seen: set<string>)
    ensures DistinctHashes(Scan(sub, feed, seen).alerts)
    decreases |feed|
  {
    if feed != [] {
      var tx := feed[0];
      if tx.timeStamp > sub.start && tx.hash !in seen {
        var rest := Scan(sub, feed[1..], seen + {tx.hash});
        ScanAlertsDistinct(sub, feed[1..], seen + {tx.hash});
        ScanAlertsSound(sub, feed[1..], seen + {tx.hash});
        var a := Alert(sub.chatId, Classify(tx, sub.wallet), tx);
        DistinctConcat([a], rest.alerts);
      } else {
        ScanAlertsDistinct(sub, feed[1..], seen);
      }
    }
  }

  /** Entry `i` is newer than the start, and no earlier newer entry carries its hash. */
  ghost predicate FirstNewerCarrier(feed: seq<Transfer>, start: int, i: int) {
    && 0 <= i < |feed|
    && feed[i].timeStamp > start
    && forall j :: 0 <= j < i ==> !(feed[j].timeStamp > start && feed[j].hash == feed[i].hash)
  }

  /** A first newer carrier of the tail stays one in the whole feed unless the head is a newer entry with its hash. */
  lemma FirstNewerCarrierShift(feed: seq<Transfer>, start: int, i: int)
    requires feed != [] && FirstNewerCarrier(feed[1..], start, i)
    requires feed[0].timeStamp > start ==> feed[0].hash != feed[i + 1].hash
    ensures FirstNewerCarrier(feed, start, i + 1) && feed[i + 1] == feed[1..][i]
  {
    forall j | 0 <= j < i + 1
      ensures !(feed[j].timeStamp > start && feed[j].hash == feed[i + 1].hash)
    {
      if j > 0 {
        assert feed[j] == feed[1..][j - 1];
      }
    }
  }

  /** `tx` is the entry at a first newer carrier of its hash in `feed`. */
  ghost predicate ReportedByFirstCarrier(feed: seq<Transfer>, start: int, tx: Transfer) {
    exists i :: FirstNewerCarrier(feed, start, i) && feed[i] == tx
  }

  /** Every alert of the list reports a first newer carrier of its hash in `feed`. */
  ghost predicate ReportsFirstCarriers(feed: seq<Transfer>, start: int, alerts: seq<Alert>) {
    forall k :: 0 <= k < |alerts| ==> ReportedByFirstCarrier(feed, start, alerts[k].tx)
  }

  /** Alerts that report first carriers of the tail report first carriers of the whole feed, when the head does not carry their hashes. */
  lemma ReportsFirstCarriersTail(sub: Subscription, feed: seq<Transfer>, seen1: set<string>)
    requires feed != []
    requires feed[0].timeStamp > sub.start ==> feed[0].hash in seen1
    requires ReportsFirstCarriers(feed[1..], sub.start, Scan(sub, feed[1..], seen1).alerts)
    ensures ReportsFirstCarriers(feed, sub.start, Scan(sub, feed[1..], seen1).alerts)
  {
    var tail := feed[1..];
    var rest := Scan(sub, tail, seen1).alerts;
    assert ReportsFirstCarriers(tail, sub.start, rest);
    ScanAlertsSound(sub, tail, seen1);
    forall k | 0 <= k < |rest|
      ensures ReportedByFirstCarrier(feed, sub.start, rest[k].tx)
    {
      assert ReportedByFirstCarrier(tail, sub.start, rest[k].tx);
      var i' :| FirstNewerCarrier(tail, sub.start, i') && tail[i'] == rest[k].tx;
      assert rest[k].tx.hash !in seen1;
      assert feed[i' + 1] == tail[i'];
      FirstNewerCarrierShift(feed, sub.start, i');
    }
  }

  /**
   * Which entry an alert reports: the first newer entry of the feed that carries its hash.
   * A transaction with several transfers under one hash is therefore reported once, by the
   * first of them in feed order; the later transfers of that transaction are never alerted.
   */
  lemma {:induction false} ScanAlertsFirstCarrier(sub: Subscription, feed: seq<Transfer>, seen: set<string>)
    ensures ReportsFirstCarriers(feed, sub.start, Scan(sub, feed, seen).alerts)
    decreases |feed|
  {
    if feed != [] {
      var tx := feed[0];
      if tx.timeStamp > sub.start && tx.hash !in seen {
        var seen1 := seen + {tx.hash};
        var rest := Scan(sub, feed[1..], seen1).alerts;
        var all := [Alert(sub.chatId, Classify(tx, sub.wallet), tx)] + rest;
        ScanAlertsFirstCarrier(sub, feed[1..], seen1);
        ReportsFirstCarriersTail(sub, feed, seen1);
        assert FirstNewerCarrier(feed, sub.start, 0);
        assert forall k :: 1 <= k < |all| ==> all[k] == rest[k - 1];
        assert ReportsFirstCarriers(feed, sub.start, all);
      } else {
        ScanAlertsFirstCarrier(sub, feed[1..], seen);
        ReportsFirstCarriersTail(sub, feed, seen);
      }
    }
  }

  /** The seen set grows by exactly the hashes that were alerted. */
  lemma {:induction false} ScanSeenIsAlerted(sub: Subscription, feed: seq<Transfer>, seen: set<string>)
    ensures Scan(sub, feed, seen).seen == seen + AlertedHashes(Scan(sub, feed, seen).alerts)
    decreases |feed|
  {
    if feed != [] {
      var tx := feed[0];
      if tx.timeStamp > sub.start && tx.hash !in seen {
        var rest := Scan(sub, feed[1..], seen + {tx.hash});
        ScanSeenIsAlerted(sub, feed[1..], seen + {tx.hash});
        var a := Alert(sub.chatId, Classify(tx, sub.wallet), tx);
        AlertedHashesConcat([a], rest.alerts);
        assert AlertedHashes([a]) == {tx.hash} by {
          assert [a][0].tx.hash == tx.hash;
        }
      } else {
        ScanSeenIsAlerted(sub, feed[1..], seen);
      }
    }
  }

  /** The hash of every entry newer than the start and not yet seen is alerted in this poll (by its first newer carrier). */
  lemma ScanComplete(sub: Subscription, feed: seq<Transfer>, seen: set<string>, i: int)
    requires 0 <= i < |feed| && feed[i].timeStamp > sub.start && feed[i].hash !in seen
    ensures feed[i].hash in AlertedHashes(Scan(sub, feed, seen).alerts)
  {
    ScanSeen(sub, feed, seen);
    ScanSeenIsAlerted(sub, feed, seen);
  }

  /** A poll whose newer entries are all already seen changes nothing and sends nothing. */
  lemma {:induction false} ScanQuiet(sub: Subscription, feed: seq<Transfer>, seen: set<string>)
    requires forall i :: 0 <= i < |feed| && feed[i].timeStamp > sub.start ==> feed[i].hash in seen
    ensures Scan(sub, feed, seen) == PollResult(seen, [])
    decreases |feed|
  {
    if feed != [] {
      assert forall i :: 0 <= i < |feed[1..]| ==> feed[1..][i] == feed[i + 1];
      ScanQuiet(sub, feed[1..], seen);
    }
  }

  /** Polling the same feed a second time sends no alert and leaves the seen set as it was. */
  lemma ReplayIsQuiet(sub: Subscription, feed: seq<Transfer>, seen: set<string>)
    ensures var first := Scan(sub, feed, seen);
      Scan(sub, feed, first.seen) == PollResult(first.seen, [])
  {
    var first := Scan(sub, feed, seen);
    ScanSeen(sub, feed, seen);
    forall i | 0 <= i < |feed| && feed[i].timeStamp > sub.start
      ensures feed[i].hash in first.seen
    {
      assert Newer(feed, sub.start, feed[i].hash);
    }
    ScanQuiet(sub, feed, first.seen);
  }

  /** Successive scans of one task, over the feeds of the responses that carried data, in turn. */
  function Cycles(sub: Subscription, feeds: seq<seq<Transfer>>, seen: set<string>): PollResult
    decreases |feeds|
  {
    if feeds == [] then PollResult(seen, [])
    else
      var first := Scan(sub, feeds[0], seen);
      var rest := Cycles(sub, feeds[1..], first.seen);
      PollResult(rest.seen, first.alerts + rest.alerts)
  }

  /**
   * Across any number of poll cycles, no transaction is alerted twice, none is alerted that
   * was seen at the start (in particular none recorded by the baseline), every alerted one is
   * newer than the start, and the seen set holds exactly what it began with plus the alerted hashes.
   */
  lemma {:induction false} CyclesAlertOnce(sub: Subscription, feeds: seq<seq<Transfer>>, seen: set<string>)
    ensures var r := Cycles(sub, feeds, seen);
      && DistinctHashes(r.alerts)
      && (forall k :: 0 <= k < |r.alerts| ==> r.alerts[k].tx.hash !in seen && r.alerts[k].tx.timeStamp > sub.start)
      && r.seen == seen + AlertedHashes(r.alerts)
    decreases |feeds|
  {
    if feeds != [] {
      var first := Scan(sub, feeds[0], seen);
      var rest := Cycles(sub, feeds[1..], first.seen);
      var all := first.alerts + rest.alerts;
      ScanAlertsSound(sub, feeds[0], seen);
      ScanAlertsDistinct(sub, feeds[0], seen);
      ScanSeenIsAlerted(sub, feeds[0], seen);
      CyclesAlertOnce(sub, feeds[1..], first.seen);
      DistinctConcat(first.alerts, rest.alerts);
      AlertedHashesConcat(first.alerts, rest.alerts);
      forall k | 0 <= k < |all| ensures all[k].tx.hash !in seen && all[k].tx.timeStamp > sub.start {
        if k >= |first.alerts| {
          assert all[k] == rest.alerts[k - |first.alerts|];
        }
      }
    }
  }

  /** The hash of every entry newer than the start in any fetched feed, not seen at the start, is alerted in some cycle. */
  lemma {:induction false} CyclesComplete(sub: Subscription, feeds: seq<seq<Transfer>>, seen: set<string>, m: int, i: int)
    requires 0 <= m < |feeds| && 0 <= i < |feeds[m]|
    requires feeds[m][i].timeStamp > sub.start && feeds[m][i].hash !in seen
    ensures feeds[m][i].hash in AlertedHashes(Cycles(sub, feeds, seen).alerts)
    decreases |feeds|
  {
    var h := feeds[m][i].hash;
    var first := Scan(sub, feeds[0], seen);
    var rest := Cycles(sub, feeds[1..], first.seen);
    var all := first.alerts + rest.alerts;
    if m == 0 || h in first.seen {
      ScanSeen(sub, feeds[0], seen);
      ScanSeenIsAlerted(sub, feeds[0], seen);
      if m == 0 {
        assert Newer(feeds[0], sub.start, h);
      }
      assert h in AlertedHashes(first.alerts);
      var k :| 0 <= k < |first.alerts| && first.alerts[k].tx.hash == h;
      assert all[k].tx.hash == h;
    } else {
      assert feeds[1..][m - 1] == feeds[m];
      CyclesComplete(sub, feeds[1..], first.seen, m - 1, i);
      var k :| 0 <= k < |rest.alerts| && rest.alerts[k].tx.hash == h;
      assert all[k + |first.alerts|].tx.hash == h;
    }
  }

  /** The feeds of the responses that carry data, in the order fetched; the others are skipped. */
  function DataFeeds(resps: seq<FeedResponse>): seq<seq<Transfer>>
    decreases |resps|
  {
    if resps == [] then []
    else
      match Entries(resps[0])
      case None => DataFeeds(resps[1..])
      case Some(feed) => [feed] + DataFeeds(resps[1..])
  }

  /** Running the cycles over one more feed in front: that feed's poll, then the rest from its seen set. */
  lemma CyclesCons(sub: Subscription, feed: seq<Transfer>, feeds: seq<seq<Transfer>>, seen: set<string>)
    ensures Cycles(sub, [feed] + feeds, seen) ==
      var first := Scan(sub, feed, seen);
      var rest := Cycles(sub, feeds, first.seen);
      PollResult(rest.seen, first.alerts + rest.alerts)
  {
    assert ([feed] + feeds)[0] == feed && ([feed] + feeds)[1..] == feeds;
  }

  /** The data feeds from position `i` on: that response's feed, if it has one, then the rest. */
  lemma DataFeedsFrom(resps: seq<FeedResponse>, i: nat)
    requires i < |resps|
    ensures Entries(resps[i]).None? ==> DataFeeds(resps[i..]) == DataFeeds(resps[i + 1..])
    ensures Entries(resps[i]).Some? ==>
      DataFeeds(resps[i..]) == [Entries(resps[i]).value] + DataFeeds(resps[i + 1..])
  {
    assert resps[i..][0] == resps[i] && resps[i..][1..] == resps[i + 1..];
  }

  /** One turn of the loop, seen from the cycles: the poll of response `i`, then the cycles over the later responses. */
  lemma CyclesStep(sub: Subscription, resps: seq<FeedResponse>, i: nat, seen: set<string>,
                   stepSeen: set<string>, stepAlerts: seq<Alert>)
    requires i < |resps|
    requires Entries(resps[i]).None? ==> stepSeen == seen && stepAlerts == []
    requires Entries(resps[i]).Some? ==>
      PollResult(stepSeen, stepAlerts) == Scan(sub, Entries(resps[i]).value, seen)
    ensures Cycles(sub, DataFeeds(resps[i..]), seen) ==
      var r := Cycles(sub, DataFeeds(resps[i + 1..]), stepSeen); PollResult(r.seen, stepAlerts + r.alerts)
  {
    DataFeedsFrom(resps, i);
    if Entries(resps[i]).Some? {
      CyclesCons(sub, Entries(resps[i]).value, DataFeeds(resps[i + 1..]), seen);
    } else {
      assert stepAlerts + Cycles(sub, DataFeeds(resps[i + 1..]), stepSeen).alerts
        == Cycles(sub, DataFeeds(resps[i + 1..]), stepSeen).alerts;
    }
  }

  /**
   * The `while True` loop of the task over the responses of successive fetches: each turn is
   * one poll step. The outcome is that of running `Cycles` over the responses that carried
   * data, so the lemmas about `Cycles` hold of the loop itself.
   */
  method PollLoop(resps: seq<FeedResponse>, sub: Subscription, seen: set<string>)
    returns (seen': set<string>, alerts: seq<Alert>)
    ensures PollResult(seen', alerts) == Cycles(sub, DataFeeds(resps), seen)
  {
    seen', alerts := seen, [];
    assert resps[0..] == resps;
    for i := 0 to |resps|
      invariant Cycles(sub, DataFeeds(resps), seen) ==
        var r := Cycles(sub, DataFeeds(resps[i..]), seen'); PollResult(r.seen, alerts + r.alerts)
    {
      var stepSeen, stepAlerts := Poll(resps[i], sub, seen');
      CyclesStep(sub, resps, i, seen', stepSeen, stepAlerts);
      var r := Cycles(sub, DataFeeds(resps[i + 1..]), stepSeen);
      assert alerts + (stepAlerts + r.alerts) == (alerts + stepAlerts) + r.alerts;
      seen', alerts := stepSeen, alerts + stepAlerts;
    }
    assert resps[|resps|..] == [];
  }

  /**
   * A wallet watched from time 1000 whose feed, newest first, holds B (stamped 1001, sent to
   * the wallet) and A (stamped 900). The baseline pass records exactly A; the first poll
   * alerts B once, as a buy; a second poll of the same response sends nothing.
   */
  method BaselineThenPollScenario(chatId: int, wallet: string, a: Transfer, b: Transfer)
    returns (baseline: set<string>, firstAlerts: seq<Alert>, secondAlerts: seq<Alert>)
    requires a.hash == "A" && a.timeStamp == 900
    requires b.hash == "B" && b.timeStamp == 1001 && b.to == wallet
    ensures baseline == {"A"}
    ensures firstAlerts == [Alert(chatId, Buy, b)]
    ensures secondAlerts == []
  {
    var feed := [b, a];
    var resp := FeedResponse(200, "1", Some(feed));
    var sub := Subscription(chatId, wallet, 1000);
    baseline := Baseline(resp, 1000);
    forall h ensures h in baseline <==> h == "A" {
      if h == "A" {
        assert feed[1].timeStamp <= 1000 && feed[1].hash == h;
      }
    }
    assert feed[1..] == [a] && [a][1..] == [];
    assert Classify(b, wallet) == Buy;
    assert Scan(sub, [], {"A", "B"}) == PollResult({"A", "B"}, []);
    assert Scan(sub, [a], {"A", "B"}) == PollResult({"A", "B"}, []);
    assert {"A"} + {b.hash} == {"A", "B"};
    assert Scan(sub, feed, {"A"}) == PollResult({"A", "B"}, [Alert(chatId, Buy, b)]);
    var seen;
    seen, firstAlerts := Poll(resp, sub, baseline);
    ReplayIsQuiet(sub, feed, baseline);
    seen, secondAlerts := Poll(resp, sub, seen);
  }

  /**
   * A swap: two different transfers of one transaction, so under one hash, both newer than
   * the start. The poll alerts the first of them only; the second is never reported.
   */
  method SharedHashScenario(chatId: int, wallet: string, t1: Transfer, t2: Transfer)
    returns (seen: set<string>, alerts: seq<Alert>)
    requires t1 != t2 && t1.hash == t2.hash
    requires t1.timeStamp > 1000 && t2.timeStamp > 1000
    ensures seen == {t1.hash}
    ensures alerts == [Alert(chatId, Classify(t1, wallet), t1)]
    ensures forall k :: 0 <= k < |alerts| ==> alerts[k].tx != t2
  {
    var feed := [t1, t2];
    var sub := Subscription(chatId, wallet, 1000);
    assert feed[1..] == [t2] && [t2][1..] == [];
    assert Scan(sub, [t2], {t1.hash}) == PollResult({t1.hash}, []);
    assert {} + {t1.hash} == {t1.hash};
    assert Scan(sub, feed, {}) == PollResult({t1.hash}, [Alert(chatId, Classify(t1, wallet), t1)]);
    seen, alerts := Poll(FeedResponse(200, "1", Some(feed)), sub, {});
  }
}
