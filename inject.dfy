/** inject.js: the copy of the scan that runs in Discord's page and answers a
    `DISCORD_LATTICE_SCAN` window message with `DISCORD_LATTICE_PROGRESS`
    messages, one per friend, and a single `DISCORD_LATTICE_RESULT` message.
    The token comes from Discord's webpack modules and is a parameter here. */
module Inject {
  import opened JsValues
  import opened OrderedMap
  import opened Scan

  const ScanType := "DISCORD_LATTICE_SCAN"
  const NoTokenError := "No token found"

  /** `API error: ${res.status}`. */
  function StatusError(status: nat): string {
    "API error: " + NatToString(status)
  }

  /** The RESULT message the handler posts for a scan request. */
  function ResultOf(token: Option<string>, input: ScanInput): LatticeMessage
    requires Aligned(input)
  {
    if !Truthy(token) then ResultError(NoTokenError)
    else match input.root
      case RootNotOk(status) => ResultError(StatusError(status))
      case RootThrows(message) => ResultError(message)
      case RootOk(_) =>
        if Reached(input) < |FriendsOf(input)| then ResultError(input.mutuals[Reached(input)].message)
        else ResultData(DataAfter(Inject, input, |FriendsOf(input)|))
  }

  /** What follows the loop: the request that rejected (when one did), then
      the RESULT message. */
  function Ending(w: Walk, k: nat, result: LatticeMessage): seq<Event>
    requires w.Valid() && k <= |w.keys|
  {
    if k < |w.keys| then [Fetched(UserRelationships(w.keys[k])), Posted(result)] else [Posted(result)]
  }

  /** The effects of one scan request, in order. */
  function Trace(token: Option<string>, input: ScanInput): seq<Event>
    requires Aligned(input)
  {
    if !Truthy(token) then [Posted(ResultOf(token, input))]
    else if !input.root.RootOk? then [Fetched(OwnRelationships), Posted(ResultOf(token, input))]
    else
      var w, k := WalkOf(Inject, input), Reached(input);
      [Fetched(OwnRelationships)] + LoopEvents(Inject, w, k) + Ending(w, k, ResultOf(token, input))
  }

  /** The window `message` listener; messages of another type are ignored. */
  method HandleMessage(win: EffectLog, messageType: Option<string>, token: Option<string>, input: ScanInput)
    requires Aligned(input)
    modifies win
    ensures win.events == old(win.events) + (if messageType == Some(ScanType) then Trace(token, input) else [])
  {
    if messageType != Some(ScanType) {
      return;
    }
    if !Truthy(token) {
      win.PostMessage(ResultError(NoTokenError));
      return;
    }
    win.Fetch(OwnRelationships);
    match input.root
    case RootNotOk(status) =>
      win.PostMessage(ResultError(StatusError(status)));
    case RootThrows(message) =>
      // the `catch` posts the rejection's message
      win.PostMessage(ResultError(message));
    case RootOk(relationships) =>
      ghost var w := WalkOf(Inject, input);
      var data, failure := FriendLoop(win, input);
      var result := if failure.Some? then ResultError(failure.value) else ResultData(data);
      win.PostMessage(result);
      assert result == ResultOf(token, input);
      if failure.Some? {
        Regroup(old(win.events), [Fetched(OwnRelationships)], LoopEvents(Inject, w, Reached(input)),
          [Fetched(UserRelationships(w.keys[Reached(input)]))]);
        assert [Fetched(UserRelationships(w.keys[Reached(input)]))] + [Posted(result)]
            == Ending(w, Reached(input), result);
        Regroup(old(win.events), [Fetched(OwnRelationships)] + LoopEvents(Inject, w, Reached(input)),
          [Fetched(UserRelationships(w.keys[Reached(input)]))], [Posted(result)]);
      } else {
        Regroup(old(win.events), [Fetched(OwnRelationships)], LoopEvents(Inject, w, Reached(input)), [Posted(result)]);
      }
  }

  /** The `for` loop. A rejected mutual request ends it (`failure` holds
      the message the `catch` posts); a non-2xx one leaves the friend's
      connections empty. */
  method FriendLoop(win: EffectLog, input: ScanInput) returns (data: FriendMap, failure: Option<string>)
    requires Aligned(input) && input.root.RootOk?
    modifies win
    ensures var w, k := WalkOf(Inject, input), Reached(input);
      if k < |w.keys| then
        && failure == Some(input.mutuals[k].message)
        && win.events == old(win.events) + LoopEvents(Inject, w, k) + [Fetched(UserRelationships(w.keys[k]))]
      else
        && failure == None
        && data == DataAfter(Inject, input, k)
        && win.events == old(win.events) + LoopEvents(Inject, w, k)
  {
    var friends := Friends(input.root.relationships);
    ghost var w := WalkOf(Inject, input);
    ghost var start := win.events;
    data := [];
    var i := 0;
    assert LoopEvents(Inject, w, 0) == [] && start + [] == start;
    assert Entries(Inject, input)[..0] == [];
    while i < |friends|
      invariant 0 <= i <= |friends| == |w.keys|
      invariant i <= Reached(input)
      invariant data == DataAfter(Inject, input, i)
      invariant win.events == start + LoopEvents(Inject, w, i)
    {
      data, failure := VisitFriend(win, input, i, data);
      if failure.Some? {
        assert i == Reached(input);
        return;
      }
      LoopEventsAppend(Inject, w, i, start);
      i := i + 1;
    }
    return data, None;
  }

  /** One iteration of the loop, for the i-th friend. */
  method VisitFriend(win: EffectLog, input: ScanInput, i: nat, data: FriendMap)
    returns (next: FriendMap, failure: Option<string>)
    requires Aligned(input) && input.root.RootOk? && i < |FriendsOf(input)|
    requires i <= Reached(input) && data == DataAfter(Inject, input, i)
    modifies win
    ensures var w, m := WalkOf(Inject, input), input.mutuals[i];
      if m.MutualThrows? then
        && i == Reached(input)
        && failure == Some(m.message)
        && win.events == old(win.events) + [Fetched(UserRelationships(w.keys[i]))]
      else
        && i < Reached(input)
        && failure == None
        && next == DataAfter(Inject, input, i + 1)
        && win.events == old(win.events) + StepEvents(Inject, w, i)
  {
    ghost var w := WalkOf(Inject, input);
    var friends := Friends(input.root.relationships);
    var friend := friends[i];
    var id := friend.id;
    var avatarUrl := AvatarUrl(id, friend.user, input.defaultAvatarIndex);
    var blank := FriendRecord(friend.user.username, avatarUrl, id, []);
    ScanStep(Inject, input, i);
    next := Put(data, id, blank);
    win.Fetch(UserRelationships(id));
    assert w.keys[i] == id;
    var mutuals := input.mutuals[i];
    if mutuals.MutualThrows? {
      return next, Some(mutuals.message);
    }
    next := if mutuals.MutualOk? then Put(next, id, blank.(connections := mutuals.ids)) else next;
    var progress := Progress(i + 1, |friends|);
    win.PostMessage(ProgressMessage(progress));
    if i < |friends| - 1 {
      win.Sleep();
    }
    assert ReportEvent(Inject, w, i) == Posted(ProgressMessage(progress));
    StepEventsShape(Inject, w, i, old(win.events));
    return next, None;
  }
}

module InjectProperties {
  import opened JsValues
  import opened OrderedMap
  import opened Scan
  import opened Inject

  /** The friends whose PROGRESS message went out. */
  function Finished(token: Option<string>, input: ScanInput): (k: nat)
    requires Aligned(input)
    ensures k <= |FriendsOf(input)|
  {
    if Truthy(token) && input.root.RootOk? then Reached(input) else 0
  }

  lemma CollectTwo<U>(a: Event, b: Event, pick: Event -> seq<U>)
    ensures Collect([a, b], pick) == pick(a) + pick(b)
  {
    assert [a, b] == [a] + [b];
    CollectAppend([a], [b], pick);
    CollectOne(a, pick);
    CollectOne(b, pick);
  }

  lemma EndingCollect<U>(w: Walk, k: nat, result: LatticeMessage, pick: Event -> seq<U>)
    requires w.Valid() && k <= |w.keys|
    ensures Collect([Fetched(OwnRelationships)] + LoopEvents(Inject, w, k) + Ending(w, k, result), pick)
         == pick(Fetched(OwnRelationships)) + Collect(LoopEvents(Inject, w, k), pick)
            + (if k < |w.keys| then pick(Fetched(UserRelationships(w.keys[k]))) else []) + pick(Posted(result))
  {
    CollectAround(Fetched(OwnRelationships), LoopEvents(Inject, w, k), Ending(w, k, result), pick);
    EndingOnlyCollect(w, k, result, pick);
  }

  lemma EndingOnlyCollect<U>(w: Walk, k: nat, result: LatticeMessage, pick: Event -> seq<U>)
    requires w.Valid() && k <= |w.keys|
    ensures Collect(Ending(w, k, result), pick)
         == (if k < |w.keys| then pick(Fetched(UserRelationships(w.keys[k]))) else []) + pick(Posted(result))
  {
    if k < |w.keys| {
      CollectTwo(Fetched(UserRelationships(w.keys[k])), Posted(result), pick);
    } else {
      CollectOne(Posted(result), pick);
    }
  }

  /** Every scan request is answered by exactly one RESULT message, and it
      is the last message posted: no PROGRESS message follows it. */
  lemma {:induction false} OneResultLast(token: Option<string>, input: ScanInput)
    requires Aligned(input)
    ensures var t := Trace(token, input);
      && Results(t) == [ResultOf(token, input)]
      && t[|t| - 1] == Posted(ResultOf(token, input))
  {
    var t, r := Trace(token, input), ResultOf(token, input);
    if !Truthy(token) {
      CollectOne(Posted(r), ResultPick);
    } else if !input.root.RootOk? {
      CollectTwo(Fetched(OwnRelationships), Posted(r), ResultPick);
    } else {
      var w, k := WalkOf(Inject, input), Reached(input);
      EndingCollect(w, k, r, ResultPick);
      LoopResults(Inject, w, k);
    }
  }

  /** The RESULT carries data exactly when a token was found, the own
      relationships arrived and no mutual request rejected; the data then
      holds one record per distinct `friend.id`, in the order first met,
      each the last one built under that id. */
  lemma ResultCarriesData(token: Option<string>, input: ScanInput)
    requires Aligned(input)
    ensures ResultOf(token, input).ResultData? <==>
      Truthy(token) && input.root.RootOk? && forall j :: 0 <= j < |input.mutuals| ==> !input.mutuals[j].MutualThrows?
    ensures ResultOf(token, input).ResultData? ==>
      var d, keys := ResultOf(token, input).data, FriendKeys(Inject, input);
      && Keys(d) == Distinct(keys)
      && forall j :: 0 <= j < |keys| && (forall l :: j < l < |keys| ==> keys[l] != keys[j])
           ==> Get(d, keys[j]) == Some(ScannedRecord(Inject, input, j))
  {
    if ResultOf(token, input).ResultData? {
      var n, keys := |FriendsOf(input)|, FriendKeys(Inject, input);
      DataAfterKeys(Inject, input, n);
      assert keys[..n] == keys;
      forall j | 0 <= j < n && (forall l :: j < l < n ==> keys[l] != keys[j])
        ensures Get(DataAfter(Inject, input, n), keys[j]) == Some(ScannedRecord(Inject, input, j))
      {
        DataAfterValues(Inject, input, n, j);
      }
    }
  }

  /** PROGRESS messages count (1, n), ..., (k, n) over the finished friends,
      with one wait between two of them and none after the last friend. */
  lemma ProgressAndWaits(token: Option<string>, input: ScanInput)
    requires Aligned(input)
    ensures var k, n := Finished(token, input), |FriendsOf(input)|;
      && PostedProgress(Trace(token, input)) == Counting(k, n)
      && Waits(Trace(token, input)) == if k < n then k else Max0(n - 1)
  {
    ProgressPosted(token, input);
    WaitsIssued(token, input);
  }

  lemma {:induction false} ProgressPosted(token: Option<string>, input: ScanInput)
    requires Aligned(input)
    ensures PostedProgress(Trace(token, input)) == Counting(Finished(token, input), |FriendsOf(input)|)
  {
    var r := ResultOf(token, input);
    if !Truthy(token) {
      CollectOne(Posted(r), PostedProgressPick);
    } else if !input.root.RootOk? {
      CollectTwo(Fetched(OwnRelationships), Posted(r), PostedProgressPick);
    } else {
      var w, k := WalkOf(Inject, input), Reached(input);
      EndingCollect(w, k, r, PostedProgressPick);
      LoopPostedProgress(Inject, w, k);
    }
  }

  lemma {:induction false} WaitsIssued(token: Option<string>, input: ScanInput)
    requires Aligned(input)
    ensures var k, n := Finished(token, input), |FriendsOf(input)|;
      Waits(Trace(token, input)) == if k < n then k else Max0(n - 1)
  {
    var r := ResultOf(token, input);
    if !Truthy(token) {
      CollectOne(Posted(r), WaitPick);
    } else if !input.root.RootOk? {
      CollectTwo(Fetched(OwnRelationships), Posted(r), WaitPick);
    } else {
      var w, k := WalkOf(Inject, input), Reached(input);
      EndingCollect(w, k, r, WaitPick);
      LoopWaits(Inject, w, k);
    }
  }

  /** Without a token nothing is requested; otherwise the own relationships
      are requested first, then each friend's (by `friend.id`) in order, up to
      and including the one that rejected. */
  lemma {:induction false} ScanFetches(token: Option<string>, input: ScanInput)
    requires Aligned(input)
    ensures var keys, k := FriendKeys(Inject, input), Finished(token, input);
      Fetches(Trace(token, input)) ==
        if !Truthy(token) then []
        else if !input.root.RootOk? then [OwnRelationships]
        else [OwnRelationships] + Targets(if k < |keys| then keys[..k + 1] else keys)
  {
    if !Truthy(token) {
      CollectOne(Posted(ResultOf(token, input)), FetchPick);
    } else if !input.root.RootOk? {
      CollectTwo(Fetched(OwnRelationships), Posted(ResultOf(token, input)), FetchPick);
    } else {
      ScannedFetches(token, input);
    }
  }

  lemma ScannedFetches(token: Option<string>, input: ScanInput)
    requires Aligned(input) && Truthy(token) && input.root.RootOk?
    ensures var keys, k := FriendKeys(Inject, input), Reached(input);
      Fetches(Trace(token, input)) == [OwnRelationships] + Targets(if k < |keys| then keys[..k + 1] else keys)
  {
    LoopFetchesUpTo(WalkOf(Inject, input), Reached(input), ResultOf(token, input));
  }

  /** The page script never writes to extension storage: its progress and
      its result are posted. */
  lemma {:induction false} NothingStored(token: Option<string>, input: ScanInput)
    requires Aligned(input)
    ensures Writes(Trace(token, input)) == []
    ensures StoredMaps(Trace(token, input)) == [] && Clears(Trace(token, input)) == 0
  {
    var r := ResultOf(token, input);
    if !Truthy(token) {
      CollectOne(Posted(r), StorePick);
      CollectOne(Posted(r), MapPick);
      CollectOne(Posted(r), ClearPick);
    } else if !input.root.RootOk? {
      CollectTwo(Fetched(OwnRelationships), Posted(r), StorePick);
      CollectTwo(Fetched(OwnRelationships), Posted(r), MapPick);
      CollectTwo(Fetched(OwnRelationships), Posted(r), ClearPick);
    } else {
      var w, k := WalkOf(Inject, input), Reached(input);
      EndingCollect(w, k, r, StorePick);
      EndingCollect(w, k, r, MapPick);
      EndingCollect(w, k, r, ClearPick);
      LoopChannels(Inject, w, k);
      LoopStoresNoMap(Inject, w, k);
      LoopClears(Inject, w, k);
    }
  }


  lemma {:induction false} LoopFetchesUpTo(w: Walk, k: nat, r: LatticeMessage)
    requires w.Valid() && k <= |w.keys|
    ensures Fetches([Fetched(OwnRelationships)] + LoopEvents(Inject, w, k) + Ending(w, k, r))
         == [OwnRelationships] + Targets(if k < |w.keys| then w.keys[..k + 1] else w.keys)
  {
    EndingCollect(w, k, r, FetchPick);
    LoopFetches(Inject, w, k);
    if k < |w.keys| {
      assert w.keys[..k + 1][..k] == w.keys[..k];
    } else {
      assert w.keys[..k] == w.keys;
    }
  }
}
