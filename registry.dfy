/**
 * The process-wide task table of bot.py (`WATCH_TASKS`) and the two handlers that change it:
 * `watch_command`, which starts a task for a wallet, and `stop_callback`, which dispatches on
 * the inline-button data and, for a confirmed stop, cancels and removes the task.
 *
 * The table is keyed by the wallet string alone: the chat that asked is not part of the key.
 */
module Registry {
  import opened Optional

  /** An opaque handle to a running asyncio task. */
  datatype Handle = Handle(id: nat)

  /** The three kinds of inline-button data the bot emits. */
  datatype Callback = ConfirmStop(wallet: string) | StopYes(wallet: string) | StopNo(wallet: string)

  predicate StartsWith(s: string, prefix: string) {
    |prefix| <= |s| && s[..|prefix|] == prefix
  }

  /** The index of the first ':' in `s`, if any. */
  function FirstColon(s: string): (r: Option<nat>)
    ensures r.Some? ==> r.value < |s| && s[r.value] == ':'
    ensures r.Some? ==> forall j :: 0 <= j < r.value ==> s[j] != ':'
    ensures r.None? ==> forall j :: 0 <= j < |s| ==> s[j] != ':'
  {
    if s == [] then None
    else if s[0] == ':' then Some(0)
    else match FirstColon(s[1..])
      case None => None
      case Some(i) => Some(i + 1)
  }

  /** Python's `s.split(":", 1)`: the whole string when it has no colon, else the parts before and after the first colon. */
  function SplitOnce(s: string): (parts: seq<string>)
    ensures |parts| == 1 || |parts| == 2
    ensures |parts| == 1 <==> ':' !in s
    ensures |parts| == 1 ==> parts[0] == s
    ensures |parts| == 2 ==> parts[0] + ":" + parts[1] == s && ':' !in parts[0]
  {
    match FirstColon(s)
    case None => [s]
    case Some(i) =>
      assert s[..i] + ":" + s[i + 1..] == s by {
        assert s == s[..i] + [s[i]] + s[i + 1..];
      }
      [s[..i], s[i + 1..]]
  }

  /** The string after the first colon of a string that has one. */
  function AfterColon(data: string, prefix: string): string
    requires StartsWith(data, prefix) && |prefix| > 0 && prefix[|prefix| - 1] == ':'
  {
    assert data[|prefix| - 1] == prefix[|prefix| - 1];
    SplitOnce(data)[1]
  }

  /** The dispatch of `stop_callback`: the first prefix that matches decides, the wallet is the text after the first colon. */
  function ParseCallback(data: string): Option<Callback> {
    if StartsWith(data, "confirm_stop:") then Some(ConfirmStop(AfterColon(data, "confirm_stop:")))
    else if StartsWith(data, "stop_yes:") then Some(StopYes(AfterColon(data, "stop_yes:")))
    else if StartsWith(data, "stop_no:") then Some(StopNo(AfterColon(data, "stop_no:")))
    else None
  }

  /** The `callback_data` the bot attaches to its buttons: `f"confirm_stop:{wa}"`, `f"stop_yes:{wallet_address}"`, `f"stop_no:{wallet_address}"`. */
  function CallbackData(c: Callback): string {
    match c
    case ConfirmStop(w) => "confirm_stop:" + w
    case StopYes(w) => "stop_yes:" + w
    case StopNo(w) => "stop_no:" + w
  }

  /** The wallet read back after a colon-terminated prefix with no other colon is exactly what followed it, colons included. */
  lemma SplitAfterPrefix(prefix: string, w: string)
    requires |prefix| > 0 && prefix[|prefix| - 1] == ':'
    requires ':' !in prefix[..|prefix| - 1]
    ensures SplitOnce(prefix + w) == [prefix[..|prefix| - 1], w]
  {
    var s := prefix + w;
    var n := |prefix| - 1;
    assert s[n] == ':';
    assert forall j :: 0 <= j < n ==> s[j] == prefix[..n][j];
    var i := FirstColon(s).value;
    assert i == n;
    assert s[..n] == prefix[..n];
    assert s[n + 1..] == w;
  }

  lemma StartsWithConcat(p: string, w: string)
    ensures StartsWith(p + w, p)
  {
    assert (p + w)[..|p|] == p;
  }

  lemma ParseConfirmStop(w: string)
    ensures ParseCallback("confirm_stop:" + w) == Some(ConfirmStop(w))
  {
    StartsWithConcat("confirm_stop:", w);
    SplitAfterPrefix("confirm_stop:", w);
  }

  lemma ParseStopYes(w: string)
    ensures ParseCallback("stop_yes:" + w) == Some(StopYes(w))
  {
    var d := "stop_yes:" + w;
    assert d[0] == 's';
    StartsWithConcat("stop_yes:", w);
    SplitAfterPrefix("stop_yes:", w);
  }

  lemma ParseStopNo(w: string)
    ensures ParseCallback("stop_no:" + w) == Some(StopNo(w))
  {
    var d := "stop_no:" + w;
    assert d[0] == 's' && d[5] == 'n';
    StartsWithConcat("stop_no:", w);
    SplitAfterPrefix("stop_no:", w);
  }

  /** Parsing the data of a button the bot made gives back that button's action and wallet, for every wallet string. */
  lemma ParseCallbackData(c: Callback)
    ensures ParseCallback(CallbackData(c)) == Some(c)
  {
    match c
    case ConfirmStop(w) => ParseConfirmStop(w);
    case StopYes(w) => ParseStopYes(w);
    case StopNo(w) => ParseStopNo(w);
  }

  /** Any data that parses is the data of the button it parses to: nothing else is accepted. */
  lemma ParseCallbackOnlyButtons(data: string)
    ensures ParseCallback(data).Some? ==> CallbackData(ParseCallback(data).value) == data
  {
    if StartsWith(data, "confirm_stop:") {
      SplitAfterPrefix("confirm_stop:", data[13..]);
      assert data == "confirm_stop:" + data[13..];
    } else if StartsWith(data, "stop_yes:") {
      SplitAfterPrefix("stop_yes:", data[9..]);
      assert data == "stop_yes:" + data[9..];
    } else if StartsWith(data, "stop_no:") {
      SplitAfterPrefix("stop_no:", data[8..]);
      assert data == "stop_no:" + data[8..];
    }
  }

  /** The reply of `watch_command`. */
  datatype WatchReply = MissingAddress | AlreadyWatched(wallet: string) | Started(wallet: string)

  /** The message `stop_callback` edits in; `NoReply` for data that matches no prefix. */
  datatype StopReply =
    | AskConfirm(wallet: string)
    | Stopped(wallet: string)
    | NotWatched(wallet: string)
    | Continuing(wallet: string)
    | NoReply

  class WatchRegistry {
    /** `WATCH_TASKS`: wallet address to the handle of its watch task. */
    var tasks: map<string, Handle>

    constructor ()
      ensures tasks == map[]
    {
      tasks := map[];
    }

    /**
     * `/watch <wallet>`: without an argument nothing changes; a wallet already in the table
     * (asked for by any chat) is reported as watched and the table is left alone; otherwise the
     * task just spawned is registered under that wallet and no other key changes. The asking
     * chat's id goes only into that task, so here it is part of the opaque `spawned` handle.
     */
    method WatchCommand(args: seq<string>, spawned: Handle) returns (reply: WatchReply)
      modifies this
      ensures args == [] ==> reply == MissingAddress && tasks == old(tasks)
      ensures args != [] && args[0] in old(tasks) ==>
        reply == AlreadyWatched(args[0]) && tasks == old(tasks)
      ensures args != [] && args[0] !in old(tasks) ==>
        reply == Started(args[0]) && tasks == old(tasks)[args[0] := spawned]
      ensures forall w :: w in old(tasks) ==> w in tasks && tasks[w] == old(tasks)[w]
    {
      if args == [] {
        return MissingAddress;
      }
      var wallet := args[0];
      if wallet in tasks {
        reply := AlreadyWatched(wallet);
      } else {
        tasks := tasks[wallet := spawned];
        reply := Started(wallet);
      }
    }

    /**
     * A button press. `stop_yes:<w>` removes `w` and hands back its handle to be cancelled
     * when `w` is watched, and otherwise reports that it was not; every other press leaves the
     * table unchanged and cancels nothing.
     */
    method StopCallback(data: string) returns (reply: StopReply, cancelled: Option<Handle>)
      modifies this
      ensures match ParseCallback(data)
        case None => reply == NoReply && cancelled == None && tasks == old(tasks)
        case Some(ConfirmStop(w)) => reply == AskConfirm(w) && cancelled == None && tasks == old(tasks)
        case Some(StopNo(w)) => reply == Continuing(w) && cancelled == None && tasks == old(tasks)
        case Some(StopYes(w)) =>
          if w in old(tasks) then
            reply == Stopped(w) && cancelled == Some(old(tasks)[w]) && tasks == old(tasks) - {w}
          else
            reply == NotWatched(w) && cancelled == None && tasks == old(tasks)
    {
      var parsed := ParseCallback(data);
      cancelled := None;
      match parsed
      case None =>
        reply := NoReply;
      case Some(ConfirmStop(w)) =>
        reply := AskConfirm(w);
      case Some(StopYes(w)) =>
        if w in tasks {
          cancelled := Some(tasks[w]);
          tasks := tasks - {w};
          reply := Stopped(w);
        } else {
          reply := NotWatched(w);
        }
      case Some(StopNo(w)) =>
        reply := Continuing(w);
    }
  }

  /** Watching a wallet twice keeps one task; stopping an unwatched wallet changes nothing; stopping a watched one hands back its task. */
  method RegistryScenario(first: Handle, second: Handle)
  {
    var registry := new WatchRegistry();
    var r1 := registry.WatchCommand(["0xabc"], first);
    var r2 := registry.WatchCommand(["0xabc"], second);
    assert r1 == Started("0xabc") && r2 == AlreadyWatched("0xabc");
    assert registry.tasks == map["0xabc" := first];
    ParseCallbackData(StopYes("0xdef"));
    var r3, c3 := registry.StopCallback(CallbackData(StopYes("0xdef")));
    assert r3 == NotWatched("0xdef") && c3 == None;
    assert registry.tasks == map["0xabc" := first];
    ParseCallbackData(StopYes("0xabc"));
    var r4, c4 := registry.StopCallback(CallbackData(StopYes("0xabc")));
    assert r4 == Stopped("0xabc") && c4 == Some(first) && registry.tasks == map[];
  }
}
