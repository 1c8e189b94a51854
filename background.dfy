/** background.js: the service worker's scan. It reads the signed-in user's
    relationships and, for every friend, that friend's relationships, keeps
    the map only in memory while publishing progress to storage, and writes
    the finished map once, together with the cleared progress. */
module Background {
  import opened JsValues
  import opened OrderedMap
  import opened Scan

  const NoTokenError := "Could not extract token. Make sure you are logged into Discord."
  const NoTabError := "Open Discord first"

  /** The error `discordFetch` throws on a non-2xx answer. */
  function StatusError(status: nat): string {
    "API " + NatToString(status)
  }

  /** The scan got as far as the friend loop. */
  predicate Scanned(token: Option<string>, input: ScanInput) {
    Truthy(token) && input.root.RootOk?
  }

  /** The final write: the map, and `scanProgress: null`. */
  function FinalWrite(input: ScanInput): Event
    requires Aligned(input)
  {
    Stored(StorageWrite(Some(DataAfter(Background, input, |FriendsOf(input)|)), None))
  }

  /** The effects of one `scanFriends` call. */
  function Trace(token: Option<string>, input: ScanInput): seq<Event>
    requires Aligned(input)
  {
    if !Truthy(token) then []
    else if !input.root.RootOk? then [Fetched(OwnRelationships)]
    else
      var w := WalkOf(Background, input);
      [Fetched(OwnRelationships)] + LoopEvents(Background, w, |w.keys|) + [FinalWrite(input)]
  }

  /** What `scanFriends` resolves to. */
  function ReplyOf(token: Option<string>, input: ScanInput): Reply
    requires Aligned(input)
  {
    if !Truthy(token) then ErrorReply(NoTokenError)
    else match input.root
      case RootNotOk(status) => ErrorReply(StatusError(status))
      case RootThrows(message) => ErrorReply(message)
      case RootOk(_) => DataReply(DataAfter(Background, input, |FriendsOf(input)|))
  }

  /** `scanFriends(tabId)`, with the token `extractToken(tabId)` found. A
      failed mutual request (non-2xx or rejected) leaves that friend's
      connections empty and the loop goes on. */
  method ScanFriends(log: EffectLog, token: Option<string>, input: ScanInput) returns (reply: Reply)
    requires Aligned(input)
    modifies log
    ensures log.events == old(log.events) + Trace(token, input)
    ensures reply == ReplyOf(token, input)
  {
    if !Truthy(token) {
      return ErrorReply(NoTokenError);
    }
    log.Fetch(OwnRelationships);
    match input.root
    case RootNotOk(status) =>
      return ErrorReply(StatusError(status));
    case RootThrows(message) =>
      return ErrorReply(message);
    case RootOk(relationships) =>
      var data := FriendLoop(log, input);
      ghost var w := WalkOf(Background, input);
      log.Store(StorageWrite(Some(data), None));
      assert FinalWrite(input) == Stored(StorageWrite(Some(data), None));
      Regroup(old(log.events), [Fetched(OwnRelationships)], LoopEvents(Background, w, |w.keys|), [FinalWrite(input)]);
      return DataReply(data);
  }

  /** The `for` loop of `scanFriends` over the type-1 relationships. */
  method FriendLoop(log: EffectLog, input: ScanInput) returns (data: FriendMap)
    requires Aligned(input) && input.root.RootOk?
    modifies log
    ensures data == DataAfter(Background, input, |FriendsOf(input)|)
    ensures log.events == old(log.events) + LoopEvents(Background, WalkOf(Background, input), |FriendsOf(input)|)
  {
    var friends := Friends(input.root.relationships);
    ghost var w := WalkOf(Background, input);
    ghost var start := log.events;
    data := [];
    var i := 0;
    assert LoopEvents(Background, w, 0) == [] && start + [] == start;
    assert Entries(Background, input)[..0] == [];
    while i < |friends|
      invariant 0 <= i <= |friends| == |w.keys|
      invariant data == DataAfter(Background, input, i)
      invariant log.events == start + LoopEvents(Background, w, i)
    {
      data := VisitFriend(log, input, i, data);
      LoopEventsAppend(Background, w, i, start);
      i := i + 1;
    }
  }

  /** One iteration of the loop, for the i-th friend. A failed mutual
      request, non-2xx or rejected, is caught: the friend keeps empty
      connections. */
  method VisitFriend(log: EffectLog, input: ScanInput, i: nat, data: FriendMap) returns (next: FriendMap)
    requires Aligned(input) && input.root.RootOk? && i < |FriendsOf(input)|
    requires data == DataAfter(Background, input, i)
    modifies log
    ensures next == DataAfter(Background, input, i + 1)
    ensures log.events == old(log.events) + StepEvents(Background, WalkOf(Background, input), i)
  {
    ghost var w := WalkOf(Background, input);
    var friends := Friends(input.root.relationships);
    var friend := friends[i];
    var id := friend.user.id;
    var avatarUrl := AvatarUrl(id, friend.user, input.defaultAvatarIndex);
    var blank := FriendRecord(friend.user.username, avatarUrl, id, []);
    ScanStep(Background, input, i);
    next := Put(data, id, blank);
    log.Fetch(UserRelationships(id));
    var mutuals := input.mutuals[i];
    // on success, `data[id].connections = ...` on the record just stored
    next := if mutuals.MutualOk? then Put(next, id, blank.(connections := mutuals.ids)) else next;
    var progress := Progress(i + 1, |friends|);
    log.Store(StorageWrite(None, Some(progress)));
    if i < |friends| - 1 {
      log.Sleep();
    }
    assert w.keys[i] == id;
    assert ReportEvent(Background, w, i) == Stored(StorageWrite(None, Some(progress)));
    StepEventsShape(Background, w, i, old(log.events));
  }

  /** The `scan` branch of the message listener: without a Discord tab it
      answers at once; any other action gets no answer. */
  method HandleMessage(log: EffectLog, action: string, tabs: seq<int>, token: Option<string>, input: ScanInput)
    returns (response: Option<Reply>)
    requires Aligned(input)
    modifies log
    ensures action != "scan" ==> response == None && log.events == old(log.events)
    ensures action == "scan" && tabs == [] ==>
      response == Some(ErrorReply(NoTabError)) && log.events == old(log.events)
    ensures action == "scan" && tabs != [] ==>
      response == Some(ReplyOf(token, input)) && log.events == old(log.events) + Trace(token, input)
  {
    if action != "scan" {
      return None;
    }
    if |tabs| == 0 {
      return Some(ErrorReply(NoTabError));
    }
    var reply := ScanFriends(log, token, input);
    return Some(reply);
  }
}

module BackgroundProperties {
  import opened JsValues
  import opened OrderedMap
  import opened Scan
  import opened Background

  /** Without a token nothing is requested; otherwise the own relationships
      come first and then, when they arrived, one request per friend, for
      `friend.user.id`, in friend order. */
  lemma {:induction false} ScanFetches(token: Option<string>, input: ScanInput)
    requires Aligned(input)
    ensures Fetches(Trace(token, input))
         == if !Truthy(token) then []
            else if !input.root.RootOk? then [OwnRelationships]
            else [OwnRelationships] + Targets(FriendKeys(Background, input))
  {
    if !Truthy(token) {
      assert Trace(token, input) == [];
    } else if !input.root.RootOk? {
      CollectOne(Fetched(OwnRelationships), FetchPick);
    } else {
      var w := WalkOf(Background, input);
      CollectAround(Fetched(OwnRelationships), LoopEvents(Background, w, |w.keys|), [FinalWrite(input)], FetchPick);
      CollectOne(FinalWrite(input), FetchPick);
      LoopFetches(Background, w, |w.keys|);
      assert w.keys[..|w.keys|] == w.keys;
    }
  }

  /** A full scan of n friends waits n - 1 times: between friends, never
      after the last one. */
  lemma {:induction false} ScanWaits(token: Option<string>, input: ScanInput)
    requires Aligned(input)
    ensures Waits(Trace(token, input)) == if Scanned(token, input) then Max0(|FriendsOf(input)| - 1) else 0
  {
    if !Truthy(token) {
      assert Trace(token, input) == [];
    } else if !input.root.RootOk? {
      CollectOne(Fetched(OwnRelationships), WaitPick);
    } else {
      var w := WalkOf(Background, input);
      CollectAround(Fetched(OwnRelationships), LoopEvents(Background, w, |w.keys|), [FinalWrite(input)], WaitPick);
      CollectOne(FinalWrite(input), WaitPick);
      LoopWaits(Background, w, |w.keys|);
    }
  }

  /** The progress stored is (1, n), (2, n), ..., (n, n), one value per
      friend, and nothing is stored before the friends are known. */
  lemma {:induction false} ScanProgress(token: Option<string>, input: ScanInput)
    requires Aligned(input)
    ensures StoredProgress(Trace(token, input))
         == if Scanned(token, input) then Counting(|FriendsOf(input)|, |FriendsOf(input)|) else []
  {
    if !Truthy(token) {
      assert Trace(token, input) == [];
    } else if !input.root.RootOk? {
      CollectOne(Fetched(OwnRelationships), StoredProgressPick);
    } else {
      var w := WalkOf(Background, input);
      CollectAround(Fetched(OwnRelationships), LoopEvents(Background, w, |w.keys|), [FinalWrite(input)], StoredProgressPick);
      CollectOne(FinalWrite(input), StoredProgressPick);
      LoopStoredProgress(Background, w, |w.keys|);
    }
  }

  /** The service worker posts no message: its progress goes to storage only. */
  lemma {:induction false} NothingPosted(token: Option<string>, input: ScanInput)
    requires Aligned(input)
    ensures Posts(Trace(token, input)) == []
  {
    if !Truthy(token) {
      assert Trace(token, input) == [];
    } else if !input.root.RootOk? {
      CollectOne(Fetched(OwnRelationships), PostPick);
    } else {
      var w := WalkOf(Background, input);
      CollectAround(Fetched(OwnRelationships), LoopEvents(Background, w, |w.keys|), [FinalWrite(input)], PostPick);
      CollectOne(FinalWrite(input), PostPick);
      LoopChannels(Background, w, |w.keys|);
    }
  }

  /** The map reaches storage exactly once, in the last write of the scan,
      which also sets the progress back to null; a scan that stops early
      writes nothing at all. */
  lemma {:induction false} ScanStoresOnce(token: Option<string>, input: ScanInput)
    requires Aligned(input)
    ensures !Scanned(token, input) ==> StoredMaps(Trace(token, input)) == [] && Clears(Trace(token, input)) == 0
    ensures Scanned(token, input) ==>
      var t := Trace(token, input);
      && StoredMaps(t) == [DataAfter(Background, input, |FriendsOf(input)|)]
      && Clears(t) == 1
      && t[|t| - 1] == Stored(StorageWrite(Some(DataAfter(Background, input, |FriendsOf(input)|)), None))
  {
    if !Truthy(token) {
      assert Trace(token, input) == [];
    } else if !input.root.RootOk? {
      CollectOne(Fetched(OwnRelationships), MapPick);
      CollectOne(Fetched(OwnRelationships), ClearPick);
    } else {
      var w := WalkOf(Background, input);
      var loop := LoopEvents(Background, w, |w.keys|);
      CollectAround(Fetched(OwnRelationships), loop, [FinalWrite(input)], MapPick);
      CollectAround(Fetched(OwnRelationships), loop, [FinalWrite(input)], ClearPick);
      CollectOne(FinalWrite(input), MapPick);
      CollectOne(FinalWrite(input), ClearPick);
      LoopStoresNoMap(Background, w, |w.keys|);
      LoopClears(Background, w, |w.keys|);
    }
  }

  /** The reply carries data exactly when the scan got through; the map then
      holds one record per distinct `friend.user.id`, in the order first met,
      and the record under a friend's id is that friend's unless a later
      friend had the same id. */
  lemma ScanReply(token: Option<string>, input: ScanInput)
    requires Aligned(input)
    ensures ReplyOf(token, input).DataReply? <==> Scanned(token, input)
    ensures Scanned(token, input) ==>
      var d := ReplyOf(token, input).data;
      && Keys(d) == Distinct(FriendKeys(Background, input))
      && forall j :: 0 <= j < |FriendsOf(input)| && (forall l :: j < l < |FriendsOf(input)| ==> FriendKeys(Background, input)[l] != FriendKeys(Background, input)[j])
           ==> Get(d, FriendKeys(Background, input)[j]) == Some(ScannedRecord(Background, input, j))
  {
    if Scanned(token, input) {
      var n := |FriendsOf(input)|;
      DataAfterKeys(Background, input, n);
      assert FriendKeys(Background, input)[..n] == FriendKeys(Background, input);
      forall j | 0 <= j < n && (forall l :: j < l < n ==> FriendKeys(Background, input)[l] != FriendKeys(Background, input)[j])
        ensures Get(DataAfter(Background, input, n), FriendKeys(Background, input)[j]) == Some(ScannedRecord(Background, input, j))
      {
        DataAfterValues(Background, input, n, j);
      }
    }
  }
}
