/** content.js: the content script's scan, run on a `scan` message from the
    popup. It stores the map together with the progress after every friend,
    stops at the first mutual request that rejects, and clears the progress
    only when the loop ran to the end. */
module Content {
  import opened JsValues
  import opened OrderedMap
  import opened Scan

  const NotLoggedInError := "Not logged into Discord"

  /** The error thrown when the own relationships answer is not 2xx. */
  function RootError(status: nat): string {
    "Failed to fetch relationships (" + NatToString(status) + ")"
  }

  /** How `scanFriends` settles: it resolves with the map or rejects. */
  datatype Outcome = Returned(data: FriendMap) | Threw(message: string)

  /** The write after the loop: `scanProgress: null`, map untouched. */
  const ClearWrite := Stored(StorageWrite(None, None))

  /** The effects of one `scanFriends(token)` call. */
  function Trace(input: ScanInput): seq<Event>
    requires Aligned(input)
  {
    if !input.root.RootOk? then [Fetched(OwnRelationships)]
    else
      var w, k := WalkOf(Content, input), Reached(input);
      [Fetched(OwnRelationships)] + LoopEvents(Content, w, k) + [LastEvent(w, k)]
  }

  /** What ends a scan whose own relationships arrived: the mutual request
      that rejected, or the write that clears the progress. */
  function LastEvent(w: Walk, k: nat): Event
    requires w.Valid() && k <= |w.keys|
  {
    if k < |w.keys| then Fetched(UserRelationships(w.keys[k])) else ClearWrite
  }

  function OutcomeOf(input: ScanInput): Outcome
    requires Aligned(input)
  {
    match input.root
    case RootNotOk(status) => Threw(RootError(status))
    case RootThrows(message) => Threw(message)
    case RootOk(_) =>
      if Reached(input) < |FriendsOf(input)| then Threw(input.mutuals[Reached(input)].message)
      else Returned(DataAfter(Content, input, |FriendsOf(input)|))
  }

  /** `scanFriends(token)`: the token only goes into the request headers. */
  method ScanFriends(log: EffectLog, input: ScanInput) returns (outcome: Outcome)
    requires Aligned(input)
    modifies log
    ensures log.events == old(log.events) + Trace(input)
    ensures outcome == OutcomeOf(input)
  {
    log.Fetch(OwnRelationships);
    match input.root
    case RootNotOk(status) =>
      return Threw(RootError(status));
    case RootThrows(message) =>
      return Threw(message);
    case RootOk(relationships) =>
      ghost var w := WalkOf(Content, input);
      var data, failure := FriendLoop(log, input);
      if failure.Some? {
        Regroup(old(log.events), [Fetched(OwnRelationships)], LoopEvents(Content, w, Reached(input)),
          [Fetched(UserRelationships(w.keys[Reached(input)]))]);
        return Threw(failure.value);
      }
      log.Store(StorageWrite(None, None));
      Regroup(old(log.events), [Fetched(OwnRelationships)], LoopEvents(Content, w, Reached(input)), [ClearWrite]);
      return Returned(data);
  }

  /** The `for` loop of `scanFriends`. A rejected mutual request rejects the
      whole scan at once (`failure` holds its message); a non-2xx one leaves
      the friend's connections empty. */
  method FriendLoop(log: EffectLog, input: ScanInput) returns (data: FriendMap, failure: Option<string>)
    requires Aligned(input) && input.root.RootOk?
    modifies log
    ensures var w, k := WalkOf(Content, input), Reached(input);
      if k < |w.keys| then
        && failure == Some(input.mutuals[k].message)
        && log.events == old(log.events) + LoopEvents(Content, w, k) + [Fetched(UserRelationships(w.keys[k]))]
      else
        && failure == None
        && data == DataAfter(Content, input, k)
        && log.events == old(log.events) + LoopEvents(Content, w, k)
  {
    var friends := Friends(input.root.relationships);
    ghost var w := WalkOf(Content, input);
    ghost var start := log.events;
    data := [];
    var i := 0;
    assert LoopEvents(Content, w, 0) == [] && start + [] == start;
    assert Entries(Content, input)[..0] == [];
    while i < |friends|
      invariant 0 <= i <= |friends| == |w.keys|
      invariant i <= Reached(input)
      invariant data == DataAfter(Content, input, i)
      invariant log.events == start + LoopEvents(Content, w, i)
    {
      data, failure := VisitFriend(log, input, i, data);
      if failure.Some? {
        assert i == Reached(input);
        return;
      }
      LoopEventsAppend(Content, w, i, start);
      i := i + 1;
    }
    return data, None;
  }

  /** One iteration of the loop, for the i-th friend. */
  method VisitFriend(log: EffectLog, input: ScanInput, i: nat, data: FriendMap)
    returns (next: FriendMap, failure: Option<string>)
    requires Aligned(input) && input.root.RootOk? && i < |FriendsOf(input)|
    requires i <= Reached(input) && data == DataAfter(Content, input, i)
    modifies log
    ensures var w, m := WalkOf(Content, input), input.mutuals[i];
      if m.MutualThrows? then
        && i == Reached(input)
        && failure == Some(m.message)
        && log.events == old(log.events) + [Fetched(UserRelationships(w.keys[i]))]
      else
        && i < Reached(input)
        && failure == None
        && next == DataAfter(Content, input, i + 1)
        && log.events == old(log.events) + StepEvents(Content, w, i)
  {
    ghost var w := WalkOf(Content, input);
    var friends := Friends(input.root.relationships);
    var friend := friends[i];
    var id := friend.id;
    var avatarUrl := AvatarUrl(id, friend.user, input.defaultAvatarIndex);
    var blank := FriendRecord(friend.user.username, avatarUrl, id, []);
    ScanStep(Content, input, i);
    next := Put(data, id, blank);
    log.Fetch(UserRelationships(id));
    assert w.keys[i] == id;
    var mutuals := input.mutuals[i];
    if mutuals.MutualThrows? {
      return next, Some(mutuals.message);
    }
    // on a 2xx answer, `data[id].connections = ...` on the record just stored
    next := if mutuals.MutualOk? then Put(next, id, blank.(connections := mutuals.ids)) else next;
    var progress := Progress(i + 1, |friends|);
    log.Store(StorageWrite(Some(next), Some(progress)));
    if i < |friends| - 1 {
      log.Sleep();
    }
    assert w.maps[i] == next;
    assert ReportEvent(Content, w, i) == Stored(StorageWrite(Some(next), Some(progress)));
    StepEventsShape(Content, w, i, old(log.events));
    return next, None;
  }

  /** The message listener. `getToken` is answered with the token the page
      hands over (`null` when it did not answer within a second, an input
      here); `scan` runs the scan once a token is there; other actions get
      no answer from it. */
  method HandleMessage(log: EffectLog, action: string, token: Option<string>, input: ScanInput)
    returns (response: Option<Reply>)
    requires Aligned(input)
    modifies log
    ensures action == "getToken" ==> response == Some(TokenReply(token)) && log.events == old(log.events)
    ensures action != "getToken" && action != "scan" ==> response == None && log.events == old(log.events)
    ensures action == "scan" && !Truthy(token) ==>
      response == Some(ErrorReply(NotLoggedInError)) && log.events == old(log.events)
    ensures action == "scan" && Truthy(token) ==>
      && response == Some(match OutcomeOf(input) case Returned(d) => DataReply(d) case Threw(m) => ErrorReply(m))
      && log.events == old(log.events) + Trace(input)
  {
    if action == "getToken" {
      return Some(TokenReply(token));
    }
    if action != "scan" {
      return None;
    }
    if !Truthy(token) {
      return Some(ErrorReply(NotLoggedInError));
    }
    var outcome := ScanFriends(log, input);
    match outcome
    case Returned(data) =>
      return Some(DataReply(data));
    case Threw(message) =>
      return Some(ErrorReply(message));
  }
}

module ContentProperties {
  import opened JsValues
  import opened OrderedMap
  import opened Scan
  import opened Content

  /** The friends the loop finishes: all of them, or those before the first
      rejected mutual request. None when the own relationships failed. */
  function Finished(input: ScanInput): (k: nat)
    requires Aligned(input)
    ensures k <= |FriendsOf(input)|
  {
    if input.root.RootOk? then Reached(input) else 0
  }

  /** Any view of a scan trace splits into the own request, the loop and the
      last event. */
  lemma TraceCollect<U>(w: Walk, k: nat, pick: Event -> seq<U>)
    requires w.Valid() && k <= |w.keys|
    ensures Collect([Fetched(OwnRelationships)] + LoopEvents(Content, w, k) + [LastEvent(w, k)], pick)
         == pick(Fetched(OwnRelationships)) + Collect(LoopEvents(Content, w, k), pick) + pick(LastEvent(w, k))
  {
    CollectAround(Fetched(OwnRelationships), LoopEvents(Content, w, k), [LastEvent(w, k)], pick);
    CollectOne(LastEvent(w, k), pick);
  }

  /** The requests go out for the own relationships, then per friend in
      order (for `friend.id`) up to and including the one that rejected. */
  lemma {:induction false} ScanFetches(input: ScanInput)
    requires Aligned(input)
    ensures var keys, k := FriendKeys(Content, input), Finished(input);
      Fetches(Trace(input))
        == [OwnRelationships] + Targets(if k < |keys| then keys[..k + 1] else keys)
  {
    if !input.root.RootOk? {
      CollectOne(Fetched(OwnRelationships), FetchPick);
    } else {
      var w, k := WalkOf(Content, input), Reached(input);
      ScanFetchesOf(w, k);
    }
  }

  lemma {:induction false} ScanFetchesOf(w: Walk, k: nat)
    requires w.Valid() && k <= |w.keys|
    ensures Fetches([Fetched(OwnRelationships)] + LoopEvents(Content, w, k) + [LastEvent(w, k)])
         == [OwnRelationships] + Targets(if k < |w.keys| then w.keys[..k + 1] else w.keys)
  {
    TraceCollect(w, k, FetchPick);
    LoopFetches(Content, w, k);
    if k < |w.keys| {
      assert w.keys[..k + 1][..k] == w.keys[..k];
    } else {
      assert w.keys[..k] == w.keys;
    }
  }

  /** One wait between two finished friends: n - 1 for a full scan of n
      friends, k when the request after the k-th finished friend rejected. */
  lemma {:induction false} ScanWaits(input: ScanInput)
    requires Aligned(input)
    ensures Waits(Trace(input))
         == if Finished(input) < |FriendsOf(input)| then Finished(input) else Max0(|FriendsOf(input)| - 1)
  {
    if !input.root.RootOk? {
      CollectOne(Fetched(OwnRelationships), WaitPick);
    } else {
      var w, k := WalkOf(Content, input), Reached(input);
      TraceCollect(w, k, WaitPick);
      LoopWaits(Content, w, k);
    }
  }

  /** After each finished friend the map so far is stored with the progress
      (1, n), ..., (k, n); with no friend nothing is stored at all. */
  lemma {:induction false} ScanStoresEachMap(input: ScanInput)
    requires Aligned(input)
    ensures StoredMaps(Trace(input)) == Snapshots(Content, input)[..Finished(input)]
    ensures StoredProgress(Trace(input)) == Counting(Finished(input), |FriendsOf(input)|)
  {
    if !input.root.RootOk? {
      CollectOne(Fetched(OwnRelationships), MapPick);
      CollectOne(Fetched(OwnRelationships), StoredProgressPick);
    } else {
      var w, k := WalkOf(Content, input), Reached(input);
      TraceCollect(w, k, MapPick);
      TraceCollect(w, k, StoredProgressPick);
      LoopStoresEachMap(w, k);
      LoopStoredProgress(Content, w, k);
    }
  }

  /** The content script posts no message: its progress goes to storage. */
  lemma {:induction false} NothingPosted(input: ScanInput)
    requires Aligned(input)
    ensures Posts(Trace(input)) == []
  {
    if !input.root.RootOk? {
      CollectOne(Fetched(OwnRelationships), PostPick);
    } else {
      var w, k := WalkOf(Content, input), Reached(input);
      TraceCollect(w, k, PostPick);
      LoopChannels(Content, w, k);
    }
  }

  /** The progress is set back to null exactly when the loop ran to the end,
      and that write is the last effect of the scan; a rejected mutual
      request leaves the last progress in storage. */
  lemma {:induction false} ScanClearsProgress(input: ScanInput)
    requires Aligned(input)
    ensures var t := Trace(input);
      && (Clears(t) == 1 <==> OutcomeOf(input).Returned?)
      && Clears(t) <= 1
      && (OutcomeOf(input).Returned? ==> t[|t| - 1] == Stored(StorageWrite(None, None)))
  {
    if !input.root.RootOk? {
      CollectOne(Fetched(OwnRelationships), ClearPick);
    } else {
      var w, k := WalkOf(Content, input), Reached(input);
      TraceCollect(w, k, ClearPick);
      LoopClears(Content, w, k);
    }
  }

  /** The scan resolves exactly when the own relationships arrived and no
      mutual request rejected; the map then holds one record per distinct
      `friend.id`, in the order first met, each the last one stored under
      that id. */
  lemma ScanOutcome(input: ScanInput)
    requires Aligned(input)
    ensures OutcomeOf(input).Returned? <==> input.root.RootOk? && forall j :: 0 <= j < |input.mutuals| ==> !input.mutuals[j].MutualThrows?
    ensures OutcomeOf(input).Returned? ==>
      var d, keys := OutcomeOf(input).data, FriendKeys(Content, input);
      && Keys(d) == Distinct(keys)
      && forall j :: 0 <= j < |keys| && (forall l :: j < l < |keys| ==> keys[l] != keys[j])
           ==> Get(d, keys[j]) == Some(ScannedRecord(Content, input, j))
  {
    if OutcomeOf(input).Returned? {
      var n, keys := |FriendsOf(input)|, FriendKeys(Content, input);
      DataAfterKeys(Content, input, n);
      assert keys[..n] == keys;
      forall j | 0 <= j < n && (forall l :: j < l < n ==> keys[l] != keys[j])
        ensures Get(DataAfter(Content, input, n), keys[j]) == Some(ScannedRecord(Content, input, j))
      {
        DataAfterValues(Content, input, n, j);
      }
    }
  }
}
