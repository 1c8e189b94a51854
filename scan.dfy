/** What the three friend-scan loops (background.js, content.js, inject.js)
    share: the Discord data they read, the record they build per friend, the
    log of effects they issue (requests, storage writes, posted messages,
    rate-limit waits), and the specification of the loop itself, written once
    and parametrised by the variant. */
module Scan {
  import opened JsValues
  import opened OrderedMap

  type Id = string

  /** The part of a Discord user object that the scans read. */
  datatype User = User(id: Id, username: string, avatar: Option<string>)

  /** One entry of the relationship list; `relType` 1 means "friend". */
  datatype Relationship = Relationship(relType: int, id: Id, user: User)

  /** The answer to the request for the signed-in user's own relationships. */
  datatype RootResponse =
    | RootOk(relationships: seq<Relationship>)
    | RootNotOk(status: nat)
    | RootThrows(message: string)

  /** The answer to the request for one friend's relationships (the mutuals):
      a list whose ids are kept, a non-2xx status, or a rejected request. */
  datatype MutualResponse =
    | MutualOk(ids: seq<Id>)
    | MutualNotOk(status: nat)
    | MutualThrows(message: string)

  /** Everything the network contributes to one scan: the root answer, the
      answer to the i-th friend's mutual request as `mutuals[i]`, and the
      variant's default-avatar index formula, kept opaque. */
  datatype ScanInput = ScanInput(
    root: RootResponse,
    mutuals: seq<MutualResponse>,
    defaultAvatarIndex: User -> int)

  /** The record stored per friend: `{username, avatarUrl, id, connections}`. */
  datatype FriendRecord = FriendRecord(username: string, avatarUrl: string, id: Id, connections: seq<Id>)

  /** The `data` / `connections` object: friend id to record. */
  type FriendMap = Dict<FriendRecord>

  /** Which copy of the loop: background.js keys by `friend.user.id`, the
      other two by `friend.id`. */
  datatype Variant = Background | Content | Inject

  /** A `sendResponse` payload: `{data}`, `{error}` or, for the content
      script's `getToken` action, `{token}`. */
  datatype Reply = DataReply(data: FriendMap) | ErrorReply(error: string) | TokenReply(token: Option<string>)

  const FriendType := 1

  // ---------------------------------------------------------------------
  // The friends and their records

  /** `relationships.filter(r => r.type === 1)`. */
  function Friends(rels: seq<Relationship>): (fs: seq<Relationship>)
    ensures |fs| <= |rels|
  {
    if rels == [] then []
    else (if rels[0].relType == FriendType then [rels[0]] else []) + Friends(rels[1..])
  }

  /** The friends are exactly the relationships of type 1. */
  lemma {:induction false} FriendsMembers(rels: seq<Relationship>)
    ensures forall f :: f in Friends(rels) <==> f in rels && f.relType == FriendType
  {
    if rels != [] {
      FriendsMembers(rels[1..]);
      assert rels == [rels[0]] + rels[1..];
    }
  }

  /** The filter keeps the source order: filtering a concatenation is the
      concatenation of the filtered parts. */
  lemma {:induction false} FriendsKeepOrder(a: seq<Relationship>, b: seq<Relationship>)
    ensures Friends(a + b) == Friends(a) + Friends(b)
  {
    if a != [] {
      assert (a + b)[1..] == a[1..] + b;
      FriendsKeepOrder(a[1..], b);
    } else {
      assert a + b == b;
    }
  }

  function FriendsOf(input: ScanInput): seq<Relationship> {
    if input.root.RootOk? then Friends(input.root.relationships) else []
  }

  /** One mutual answer per friend that the loop visits. */
  predicate Aligned(input: ScanInput) {
    |input.mutuals| == |FriendsOf(input)|
  }

  function KeyOf(v: Variant, f: Relationship): Id {
    if v == Background then f.user.id else f.id
  }

  function FriendKeys(v: Variant, input: ScanInput): (ks: seq<Id>)
    ensures |ks| == |FriendsOf(input)|
  {
    seq(|FriendsOf(input)|, i requires 0 <= i < |FriendsOf(input)| => KeyOf(v, FriendsOf(input)[i]))
  }

  const AvatarCdn := "https://cdn.discordapp.com/avatars/"
  const DefaultAvatarCdn := "https://cdn.discordapp.com/embed/avatars/"

  /** The user's own avatar when it has an avatar hash, otherwise one of the
      default avatars. */
  function AvatarUrl(id: Id, u: User, defaultIndex: User -> int): string {
    if Truthy(u.avatar) then AvatarCdn + id + "/" + u.avatar.value + ".png"
    else DefaultAvatarCdn + IntToString(defaultIndex(u)) + ".png"
  }

  /** The record built before the mutual request: `connections` is empty. */
  function NewRecord(v: Variant, f: Relationship, defaultIndex: User -> int): FriendRecord {
    var id := KeyOf(v, f);
    FriendRecord(f.user.username, AvatarUrl(id, f.user, defaultIndex), id, [])
  }

  /** `mutuals.map(m => m.id)` on success, the untouched `[]` otherwise. */
  function MutualIds(m: MutualResponse): seq<Id> {
    if m.MutualOk? then m.ids else []
  }

  /** The record of the i-th friend once its mutual answer is in. */
  function ScannedRecord(v: Variant, input: ScanInput, i: nat): FriendRecord
    requires Aligned(input) && i < |FriendsOf(input)|
  {
    NewRecord(v, FriendsOf(input)[i], input.defaultAvatarIndex).(connections := MutualIds(input.mutuals[i]))
  }

  /** The assignments `data[key] = record` of a whole scan, in order. */
  function Entries(v: Variant, input: ScanInput): (es: seq<(Id, FriendRecord)>)
    requires Aligned(input)
    ensures |es| == |FriendsOf(input)|
    ensures forall i :: 0 <= i < |es| ==> es[i] == (KeyOf(v, FriendsOf(input)[i]), ScannedRecord(v, input, i))
  {
    seq(|FriendsOf(input)|, i requires 0 <= i < |FriendsOf(input)| =>
      (KeyOf(v, FriendsOf(input)[i]), ScannedRecord(v, input, i)))
  }

  /** The `data` object after the first i friends. */
  function DataAfter(v: Variant, input: ScanInput, i: nat): FriendMap
    requires Aligned(input) && i <= |FriendsOf(input)|
  {
    PutAll(Entries(v, input)[..i])
  }

  /** One more friend is one more assignment. */
  lemma DataAfterStep(v: Variant, input: ScanInput, i: nat)
    requires Aligned(input) && i < |FriendsOf(input)|
    ensures DataAfter(v, input, i + 1)
         == Put(DataAfter(v, input, i), KeyOf(v, FriendsOf(input)[i]), ScannedRecord(v, input, i))
  {
    assert Entries(v, input)[..i + 1][..i] == Entries(v, input)[..i];
  }

  /** The i-th iteration first stores the record with empty connections under
      the friend's key and then, when the mutual request succeeded, replaces
      it by the record with the mutual ids; either way the map is then the
      map after i + 1 friends. */
  lemma ScanStep(v: Variant, input: ScanInput, i: nat)
    requires Aligned(input) && i < |FriendsOf(input)|
    ensures var key, blank := KeyOf(v, FriendsOf(input)[i]), NewRecord(v, FriendsOf(input)[i], input.defaultAvatarIndex);
      && Put(Put(DataAfter(v, input, i), key, blank), key, ScannedRecord(v, input, i)) == DataAfter(v, input, i + 1)
      && (input.mutuals[i].MutualOk? || Put(DataAfter(v, input, i), key, blank) == DataAfter(v, input, i + 1))
  {
    var key, blank := KeyOf(v, FriendsOf(input)[i]), NewRecord(v, FriendsOf(input)[i], input.defaultAvatarIndex);
    DataAfterStep(v, input, i);
    PutTwice(DataAfter(v, input, i), key, blank, ScannedRecord(v, input, i));
  }

  /** After i friends the map holds exactly the keys of the first i friends,
      each once, in the order they were first met. */
  lemma DataAfterKeys(v: Variant, input: ScanInput, i: nat)
    requires Aligned(input) && i <= |FriendsOf(input)|
    ensures Keys(DataAfter(v, input, i)) == Distinct(FriendKeys(v, input)[..i])
  {
    PutAllKeys(Entries(v, input)[..i]);
    assert KeysOf(Entries(v, input)[..i]) == FriendKeys(v, input)[..i];
  }

  /** The record under the j-th friend's key is that friend's scanned record,
      unless a later friend with the same key replaced it. */
  lemma DataAfterValues(v: Variant, input: ScanInput, i: nat, j: nat)
    requires Aligned(input) && j < i <= |FriendsOf(input)|
    requires forall l :: j < l < i ==> FriendKeys(v, input)[l] != FriendKeys(v, input)[j]
    ensures Get(DataAfter(v, input, i), FriendKeys(v, input)[j]) == Some(ScannedRecord(v, input, j))
  {
    var es := Entries(v, input)[..i];
    assert forall l :: 0 <= l < i ==> es[l].0 == FriendKeys(v, input)[l];
    PutAllValues(es, j);
    assert es[j].1 == ScannedRecord(v, input, j);
  }

  // ---------------------------------------------------------------------
  // Effects

  datatype FetchTarget = OwnRelationships | UserRelationships(userId: Id)

  datatype Progress = Progress(current: nat, total: nat)

  /** One `chrome.storage.local.set` call: `connections` is None when the call
      does not write the map; `scanProgress` None writes `null`. */
  datatype StorageWrite = StorageWrite(connections: Option<FriendMap>, scanProgress: Option<Progress>)

  /** A message posted by the page script: DISCORD_LATTICE_PROGRESS, or
      DISCORD_LATTICE_RESULT carrying data or an error. */
  datatype LatticeMessage =
    | ProgressMessage(progress: Progress)
    | ResultData(data: FriendMap)
    | ResultError(error: string)

  datatype Event =
    | Fetched(target: FetchTarget)
    | Stored(write: StorageWrite)
    | Posted(message: LatticeMessage)
    | Waited

  /** The outside world as the scans see it: the effects issued so far, in order. */
  class EffectLog {
    var events: seq<Event>

    constructor ()
      ensures events == []
    {
      events := [];
    }

    /** A request to the Discord API is issued. */
    method Fetch(target: FetchTarget)
      modifies this
      ensures events == old(events) + [Fetched(target)]
    {
      events := events + [Fetched(target)];
    }

    /** `chrome.storage.local.set(...)` is issued. */
    method Store(write: StorageWrite)
      modifies this
      ensures events == old(events) + [Stored(write)]
    {
      events := events + [Stored(write)];
    }

    /** `window.postMessage(...)` is issued. */
    method PostMessage(message: LatticeMessage)
      modifies this
      ensures events == old(events) + [Posted(message)]
    {
      events := events + [Posted(message)];
    }

    /** The one-second rate-limit pause. */
    method Sleep()
      modifies this
      ensures events == old(events) + [Waited]
    {
      events := events + [Waited];
    }
  }

  // ---------------------------------------------------------------------
  // The loop

  /** The map after each friend: `Snapshots(v, input)[j]` is `data` once the
      first j + 1 friends are in. */
  function Snapshots(v: Variant, input: ScanInput): (ms: seq<FriendMap>)
    requires Aligned(input)
    ensures |ms| == |FriendsOf(input)|
    ensures forall j :: 0 <= j < |ms| ==> ms[j] == DataAfter(v, input, j + 1)
  {
    seq(|FriendsOf(input)|, j requires 0 <= j < |FriendsOf(input)| => DataAfter(v, input, j + 1))
  }

  /** What a scan loop walks over: the key of each friend, in order, and the
      map once that friend is in. */
  datatype Walk = Walk(keys: seq<Id>, maps: seq<FriendMap>) {
    predicate Valid() {
      |keys| == |maps|
    }
  }

  function WalkOf(v: Variant, input: ScanInput): (w: Walk)
    requires Aligned(input)
    ensures w.Valid() && |w.keys| == |FriendsOf(input)|
  {
    Walk(FriendKeys(v, input), Snapshots(v, input))
  }

  /** What the i-th iteration issues: the mutual request, the progress report
      (content.js stores the map with it, inject.js posts it), and a wait
      unless this is the last friend. */
  function StepEvents(v: Variant, w: Walk, i: nat): seq<Event>
    requires w.Valid() && i < |w.keys|
  {
    [Fetched(UserRelationships(w.keys[i])), ReportEvent(v, w, i)]
      + (if i < |w.keys| - 1 then [Waited] else [])
  }

  /** The progress report after the i-th friend. */
  function ReportEvent(v: Variant, w: Walk, i: nat): Event
    requires w.Valid() && i < |w.keys|
  {
    var progress := Progress(i + 1, |w.keys|);
    match v
    case Background => Stored(StorageWrite(None, Some(progress)))
    case Content => Stored(StorageWrite(Some(w.maps[i]), Some(progress)))
    case Inject => Posted(ProgressMessage(progress))
  }

  /** What the first k iterations issue. */
  function LoopEvents(v: Variant, w: Walk, k: nat): seq<Event>
    requires w.Valid() && k <= |w.keys|
  {
    if k == 0 then [] else LoopEvents(v, w, k - 1) + StepEvents(v, w, k - 1)
  }

  /** The events of one iteration, as issued one after the other. */
  lemma StepEventsShape(v: Variant, w: Walk, i: nat, before: seq<Event>)
    requires w.Valid() && i < |w.keys|
    ensures before + StepEvents(v, w, i)
         == if i < |w.keys| - 1
            then before + [Fetched(UserRelationships(w.keys[i]))] + [ReportEvent(v, w, i)] + [Waited]
            else before + [Fetched(UserRelationships(w.keys[i]))] + [ReportEvent(v, w, i)]
  {
  }

  /** One more iteration appends its events. */
  lemma LoopEventsAppend(v: Variant, w: Walk, i: nat, start: seq<Event>)
    requires w.Valid() && i < |w.keys|
    ensures start + LoopEvents(v, w, i + 1) == start + LoopEvents(v, w, i) + StepEvents(v, w, i)
  {
    assert LoopEvents(v, w, i + 1) == LoopEvents(v, w, i) + StepEvents(v, w, i);
  }

  /** Regrouping a log that was appended to piece by piece. */
  lemma Regroup(a: seq<Event>, b: seq<Event>, c: seq<Event>, d: seq<Event>)
    ensures a + b + c + d == a + (b + c + d)
  {
  }

  /** The index of the first mutual request that rejects, or the number of
      answers when none does. */
  function FirstThrow(ms: seq<MutualResponse>): (k: nat)
    ensures k <= |ms|
    ensures forall j :: 0 <= j < k ==> !ms[j].MutualThrows?
    ensures k < |ms| ==> ms[k].MutualThrows?
  {
    if ms == [] || ms[0].MutualThrows? then 0 else 1 + FirstThrow(ms[1..])
  }

  /** The first friend whose mutual request rejects, or the number of
      friends: where the loops of content.js and inject.js stop. */
  function Reached(input: ScanInput): (k: nat)
    requires Aligned(input)
    ensures k <= |FriendsOf(input)|
  {
    FirstThrow(input.mutuals)
  }

  // ---------------------------------------------------------------------
  // Views of an effect log

  function Collect<U>(es: seq<Event>, pick: Event -> seq<U>): seq<U> {
    if es == [] then [] else pick(es[0]) + Collect(es[1..], pick)
  }

  lemma {:induction false} CollectAppend<U>(a: seq<Event>, b: seq<Event>, pick: Event -> seq<U>)
    ensures Collect(a + b, pick) == Collect(a, pick) + Collect(b, pick)
  {
    if a != [] {
      assert (a + b)[1..] == a[1..] + b;
      CollectAppend(a[1..], b, pick);
    } else {
      assert a + b == b;
    }
  }

  function WaitPick(e: Event): seq<Event> {
    if e.Waited? then [e] else []
  }

  function StoredProgressPick(e: Event): seq<Progress> {
    if e.Stored? && e.write.scanProgress.Some? then [e.write.scanProgress.value] else []
  }

  function PostedProgressPick(e: Event): seq<Progress> {
    if e.Posted? && e.message.ProgressMessage? then [e.message.progress] else []
  }

  function StorePick(e: Event): seq<StorageWrite> {
    if e.Stored? then [e.write] else []
  }

  function PostPick(e: Event): seq<LatticeMessage> {
    if e.Posted? then [e.message] else []
  }

  function ClearPick(e: Event): seq<Event> {
    if e.Stored? && e.write.scanProgress.None? then [e] else []
  }

  function FetchPick(e: Event): seq<FetchTarget> {
    if e.Fetched? then [e.target] else []
  }

  function MapPick(e: Event): seq<FriendMap> {
    if e.Stored? && e.write.connections.Some? then [e.write.connections.value] else []
  }

  function ResultPick(e: Event): seq<LatticeMessage> {
    if e.Posted? && !e.message.ProgressMessage? then [e.message] else []
  }

  /** Number of rate-limit waits. */
  function Waits(es: seq<Event>): nat { |Collect(es, WaitPick)| }
  /** The progress values written to storage as `scanProgress`, in order. */
  function StoredProgress(es: seq<Event>): seq<Progress> { Collect(es, StoredProgressPick) }
  /** The progress values posted as PROGRESS messages, in order. */
  function PostedProgress(es: seq<Event>): seq<Progress> { Collect(es, PostedProgressPick) }
  /** Every storage write, in order. */
  function Writes(es: seq<Event>): seq<StorageWrite> { Collect(es, StorePick) }
  /** Every posted message, in order. */
  function Posts(es: seq<Event>): seq<LatticeMessage> { Collect(es, PostPick) }
  /** Number of writes that set `scanProgress` to null. */
  function Clears(es: seq<Event>): nat { |Collect(es, ClearPick)| }
  /** The requests issued, in order. */
  function Fetches(es: seq<Event>): seq<FetchTarget> { Collect(es, FetchPick) }
  /** The maps written to storage, in order. */
  function StoredMaps(es: seq<Event>): seq<FriendMap> { Collect(es, MapPick) }
  /** The RESULT messages posted, in order. */
  function Results(es: seq<Event>): seq<LatticeMessage> { Collect(es, ResultPick) }

  /** The progress values (1, n), (2, n), ..., (k, n). */
  function Counting(k: nat, n: nat): (ps: seq<Progress>)
    ensures |ps| == k
    ensures forall j :: 0 <= j < k ==> ps[j] == Progress(j + 1, n)
  {
    if k == 0 then [] else Counting(k - 1, n) + [Progress(k, n)]
  }

  /** The requests for the relationships of the given users, in order. */
  function Targets(ids: seq<Id>): (ts: seq<FetchTarget>)
    ensures |ts| == |ids|
    ensures forall j :: 0 <= j < |ids| ==> ts[j] == UserRelationships(ids[j])
  {
    if ids == [] then [] else Targets(ids[..|ids| - 1]) + [UserRelationships(ids[|ids| - 1])]
  }

  lemma CollectOne<U>(e: Event, pick: Event -> seq<U>)
    ensures Collect([e], pick) == pick(e)
  {
    assert [e][1..] == [];
  }

  /** A view of `[a] + mid + b` is the view of each part, in order. */
  lemma CollectAround<U>(a: Event, mid: seq<Event>, b: seq<Event>, pick: Event -> seq<U>)
    ensures Collect([a] + mid + b, pick) == pick(a) + Collect(mid, pick) + Collect(b, pick)
  {
    CollectAppend([a] + mid, b, pick);
    CollectAppend([a], mid, pick);
    CollectOne(a, pick);
  }

  lemma CollectStep<U>(v: Variant, w: Walk, i: nat, pick: Event -> seq<U>)
    requires w.Valid() && i < |w.keys|
    ensures Collect(StepEvents(v, w, i), pick)
         == pick(Fetched(UserRelationships(w.keys[i]))) + pick(ReportEvent(v, w, i))
            + (if i < |w.keys| - 1 then pick(Waited) else [])
  {
    var f, r := Fetched(UserRelationships(w.keys[i])), ReportEvent(v, w, i);
    CollectOne(f, pick);
    CollectOne(r, pick);
    CollectAppend([f], [r], pick);
    assert [f] + [r] == [f, r];
    if i < |w.keys| - 1 {
      CollectOne(Waited, pick);
      CollectAppend([f, r], [Waited], pick);
      assert StepEvents(v, w, i) == [f, r] + [Waited];
    } else {
      assert StepEvents(v, w, i) == [f, r];
    }
  }

  // ---------------------------------------------------------------------
  // Properties of the loop, for every variant

  /** k iterations of n wait k times, or n - 1 times when all n ran. */
  lemma {:induction false} LoopWaits(v: Variant, w: Walk, k: nat)
    requires w.Valid() && k <= |w.keys|
    ensures Waits(LoopEvents(v, w, k)) == if k < |w.keys| then k else Max0(k - 1)
  {
    if k > 0 {
      var prev, step := LoopEvents(v, w, k - 1), StepEvents(v, w, k - 1);
      assert LoopEvents(v, w, k) == prev + step;
      LoopWaits(v, w, k - 1);
      CollectAppend(prev, step, WaitPick);
      CollectStep(v, w, k - 1, WaitPick);
    } else {
      assert LoopEvents(v, w, k) == [];
    }
  }

  /** background.js and content.js store the progress values (1, n), (2, n),
      ..., (k, n); inject.js stores none. */
  lemma {:induction false} LoopStoredProgress(v: Variant, w: Walk, k: nat)
    requires w.Valid() && k <= |w.keys|
    ensures StoredProgress(LoopEvents(v, w, k)) == if v == Inject then [] else Counting(k, |w.keys|)
  {
    if k > 0 {
      var prev, step := LoopEvents(v, w, k - 1), StepEvents(v, w, k - 1);
      assert LoopEvents(v, w, k) == prev + step;
      LoopStoredProgress(v, w, k - 1);
      CollectAppend(prev, step, StoredProgressPick);
      CollectStep(v, w, k - 1, StoredProgressPick);
    } else {
      assert LoopEvents(v, w, k) == [];
    }
  }

  /** inject.js posts the progress values (1, n), (2, n), ..., (k, n); the
      other two post none. */
  lemma {:induction false} LoopPostedProgress(v: Variant, w: Walk, k: nat)
    requires w.Valid() && k <= |w.keys|
    ensures PostedProgress(LoopEvents(v, w, k)) == if v == Inject then Counting(k, |w.keys|) else []
  {
    if k > 0 {
      var prev, step := LoopEvents(v, w, k - 1), StepEvents(v, w, k - 1);
      assert LoopEvents(v, w, k) == prev + step;
      LoopPostedProgress(v, w, k - 1);
      CollectAppend(prev, step, PostedProgressPick);
      CollectStep(v, w, k - 1, PostedProgressPick);
    } else {
      assert LoopEvents(v, w, k) == [];
    }
  }

  /** inject.js writes nothing to storage inside the loop, and the other two
      post nothing. */
  lemma {:induction false} LoopChannels(v: Variant, w: Walk, k: nat)
    requires w.Valid() && k <= |w.keys|
    ensures v == Inject ==> Writes(LoopEvents(v, w, k)) == []
    ensures v != Inject ==> Posts(LoopEvents(v, w, k)) == []
  {
    if k > 0 {
      var prev, step := LoopEvents(v, w, k - 1), StepEvents(v, w, k - 1);
      assert LoopEvents(v, w, k) == prev + step;
      LoopChannels(v, w, k - 1);
      CollectAppend(prev, step, StorePick);
      CollectStep(v, w, k - 1, StorePick);
      CollectAppend(prev, step, PostPick);
      CollectStep(v, w, k - 1, PostPick);
    } else {
      assert LoopEvents(v, w, k) == [];
    }
  }

  /** No iteration clears the progress. */
  lemma {:induction false} LoopClears(v: Variant, w: Walk, k: nat)
    requires w.Valid() && k <= |w.keys|
    ensures Clears(LoopEvents(v, w, k)) == 0
  {
    if k > 0 {
      var prev, step := LoopEvents(v, w, k - 1), StepEvents(v, w, k - 1);
      assert LoopEvents(v, w, k) == prev + step;
      LoopClears(v, w, k - 1);
      CollectAppend(prev, step, ClearPick);
      CollectStep(v, w, k - 1, ClearPick);
    } else {
      assert LoopEvents(v, w, k) == [];
    }
  }

  /** The mutual requests go out one per friend, in friend order. */
  lemma {:induction false} LoopFetches(v: Variant, w: Walk, k: nat)
    requires w.Valid() && k <= |w.keys|
    ensures Fetches(LoopEvents(v, w, k)) == Targets(w.keys[..k])
  {
    if k > 0 {
      var prev, step := LoopEvents(v, w, k - 1), StepEvents(v, w, k - 1);
      assert LoopEvents(v, w, k) == prev + step;
      LoopFetches(v, w, k - 1);
      CollectAppend(prev, step, FetchPick);
      CollectStep(v, w, k - 1, FetchPick);
      assert Collect(step, FetchPick) == [UserRelationships(w.keys[k - 1])];
      assert w.keys[..k][..k - 1] == w.keys[..k - 1];
      assert Targets(w.keys[..k]) == Targets(w.keys[..k - 1]) + [UserRelationships(w.keys[k - 1])];
    } else {
      assert LoopEvents(v, w, k) == [];
    }
  }

  /** background.js and inject.js never write the map inside the loop. */
  lemma {:induction false} LoopStoresNoMap(v: Variant, w: Walk, k: nat)
    requires w.Valid() && k <= |w.keys| && v != Content
    ensures StoredMaps(LoopEvents(v, w, k)) == []
  {
    if k > 0 {
      var prev, step := LoopEvents(v, w, k - 1), StepEvents(v, w, k - 1);
      assert LoopEvents(v, w, k) == prev + step;
      LoopStoresNoMap(v, w, k - 1);
      CollectAppend(prev, step, MapPick);
      CollectStep(v, w, k - 1, MapPick);
    } else {
      assert LoopEvents(v, w, k) == [];
    }
  }

  /** content.js writes, after each friend, the map with that friend in:
      the maps written are the first k snapshots, in order. */
  lemma {:induction false} LoopStoresEachMap(w: Walk, k: nat)
    requires w.Valid() && k <= |w.keys|
    ensures StoredMaps(LoopEvents(Content, w, k)) == w.maps[..k]
  {
    if k > 0 {
      var prev, step := LoopEvents(Content, w, k - 1), StepEvents(Content, w, k - 1);
      assert LoopEvents(Content, w, k) == prev + step;
      LoopStoresEachMap(w, k - 1);
      CollectAppend(prev, step, MapPick);
      CollectStep(Content, w, k - 1, MapPick);
      assert w.maps[..k] == w.maps[..k - 1] + [w.maps[k - 1]];
    } else {
      assert LoopEvents(Content, w, k) == [];
    }
  }

  /** No iteration posts a RESULT message. */
  lemma {:induction false} LoopResults(v: Variant, w: Walk, k: nat)
    requires w.Valid() && k <= |w.keys|
    ensures Results(LoopEvents(v, w, k)) == []
  {
    if k > 0 {
      var prev, step := LoopEvents(v, w, k - 1), StepEvents(v, w, k - 1);
      assert LoopEvents(v, w, k) == prev + step;
      LoopResults(v, w, k - 1);
      CollectAppend(prev, step, ResultPick);
      CollectStep(v, w, k - 1, ResultPick);
    } else {
      assert LoopEvents(v, w, k) == [];
    }
  }
}
