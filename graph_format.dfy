/** The display helpers of the graph page (graph.js): the name, profile link,
    connection count and server-nickname line shown for a friend. */
module GraphFormat {
  import opened JsValues

  /** A friend record as the graph page reads it from storage. The scans
      write `username`, `avatarUrl`, `id` and `connections`; the other fields
      may have been added by other parts of the extension and may be absent
      (None). `serverNicknames` is None when it is not an array; each of its
      entries is reduced to its `nick` when that is a string. */
  datatype StoredFriend = StoredFriend(
    displayName: Option<string>,
    globalName: Option<string>,
    global_name: Option<string>,
    username: Option<string>,
    profileUrl: Option<string>,
    avatarUrl: Option<string>,
    id: string,
    connections: seq<string>,
    serverNicknames: Option<seq<Option<string>>>)

  const UnknownUser := "Unknown User"
  const ProfileBase := "https://discord.com/users/"
  const NicknamesLabel := "Server nicknames: "
  const NicknamesShown := 3

  function Min(a: int, b: int): int {
    if a <= b then a else b
  }

  /** `cs[0] || cs[1] || ... || fallback` over null-or-string values. */
  function FirstTruthy(cs: seq<Option<string>>, fallback: string): (r: string)
    ensures forall i :: 0 <= i < |cs| && Truthy(cs[i]) && (forall j :: 0 <= j < i ==> !Truthy(cs[j]))
              ==> r == cs[i].value
    ensures (forall i :: 0 <= i < |cs| ==> !Truthy(cs[i])) ==> r == fallback
    ensures r == fallback || exists i :: 0 <= i < |cs| && Truthy(cs[i]) && r == cs[i].value
  {
    if cs == [] then fallback
    else if Truthy(cs[0]) then cs[0].value
    else
      var r := FirstTruthy(cs[1..], fallback);
      assert forall i :: 1 <= i < |cs| ==> cs[i] == cs[1..][i - 1];
      r
  }

  /** `getDisplayName`: the first non-empty of the four name fields, in this
      order, else "Unknown User". */
  function GetDisplayName(f: StoredFriend): (name: string)
    ensures name != ""
    ensures Truthy(f.displayName) ==> name == f.displayName.value
    ensures !Truthy(f.displayName) && Truthy(f.globalName) ==> name == f.globalName.value
    ensures !Truthy(f.displayName) && !Truthy(f.globalName) && Truthy(f.global_name) ==> name == f.global_name.value
    ensures !Truthy(f.displayName) && !Truthy(f.globalName) && !Truthy(f.global_name) ==>
      name == if Truthy(f.username) then f.username.value else UnknownUser
  {
    var cs := [f.displayName, f.globalName, f.global_name, f.username];
    assert cs[0] == f.displayName && cs[1] == f.globalName && cs[2] == f.global_name && cs[3] == f.username;
    FirstTruthy(cs, UnknownUser)
  }

  /** `getProfileUrl`: the stored link, else the profile page of the id, from
      which the id can be read back. */
  function GetProfileUrl(f: StoredFriend): (url: string)
    ensures url != ""
    ensures Truthy(f.profileUrl) ==> url == f.profileUrl.value
    ensures !Truthy(f.profileUrl) ==> |ProfileBase| <= |url| && url[..|ProfileBase|] == ProfileBase && url[|ProfileBase|..] == f.id
  {
    if Truthy(f.profileUrl) then f.profileUrl.value else ProfileBase + f.id
  }

  /** `formatConnectionCount`: "1 connection", "n connections" otherwise. */
  function FormatConnectionCount(count: nat): string {
    NatToString(count) + " connection" + (if count == 1 then "" else "s")
  }

  /** The text is the count's digits, which read back as the count, followed
      by " connection" for 1 and " connections" otherwise. */
  lemma ConnectionCountPlural(count: nat)
    ensures var s, digits := FormatConnectionCount(count), NatToString(count);
      && |digits| < |s| && s[..|digits|] == digits && DigitsValue(digits) == count
      && s[|digits|..] == (if count == 1 then " connection" else " connections")
      && (s[|s| - 1] == 's' <==> count != 1)
  {
    var s, digits := FormatConnectionCount(count), NatToString(count);
    assert s[..|digits|] == digits;
    assert s[|digits|..] == " connection" + (if count == 1 then "" else "s");
    NatToStringValue(count);
  }

  /** Different counts are shown differently. */
  lemma ConnectionCountInjective(a: nat, b: nat)
    requires FormatConnectionCount(a) == FormatConnectionCount(b)
    ensures a == b
  {
    var s, da, db := FormatConnectionCount(a), NatToString(a), NatToString(b);
    ConnectionCountPlural(a);
    ConnectionCountPlural(b);
    assert da == s[..|da|] == db;
    NatToStringInjective(a, b);
  }

  /** The entries of `serverNicknames`, or none when it is not an array. */
  function NickEntries(f: StoredFriend): seq<Option<string>> {
    if f.serverNicknames.Some? then f.serverNicknames.value else []
  }

  /** `.map(entry => entry?.nick).filter(nick => typeof nick === 'string' && nick.length > 0)`. */
  function Nicks(entries: seq<Option<string>>): (ns: seq<string>)
    ensures forall i :: 0 <= i < |ns| ==> ns[i] != "" && Some(ns[i]) in entries
    ensures forall i :: 0 <= i < |entries| && Truthy(entries[i]) ==> entries[i].value in ns
  {
    if entries == [] then []
    else
      var rest := Nicks(entries[1..]);
      assert forall i :: 1 <= i < |entries| ==> entries[i] == entries[1..][i - 1];
      if Truthy(entries[0]) then [entries[0].value] + rest else rest
  }

  /** The nicks of two runs of entries are the nicks of the first, then those
      of the second: filtering keeps the order of the entries. */
  lemma {:induction false} NicksAppend(a: seq<Option<string>>, b: seq<Option<string>>)
    ensures Nicks(a + b) == Nicks(a) + Nicks(b)
  {
    if a != [] {
      var e := a[0];
      assert (a + b)[0] == e && (a + b)[1..] == a[1..] + b;
      NicksAppend(a[1..], b);
      assert Nicks(a + b) == (if Truthy(e) then [e.value] else []) + Nicks(a[1..] + b);
      assert Nicks(a) == (if Truthy(e) then [e.value] else []) + Nicks(a[1..]);
    } else {
      assert a + b == b;
    }
  }

  /** A nick whose first entry comes earlier also comes earlier among the
      nicks. */
  lemma NicksFirstOrder(entries: seq<Option<string>>, x: string, y: string)
    requires x in Nicks(entries) && y in Nicks(entries)
    requires Some(x) in entries && Some(y) in entries
    requires IndexOf(entries, Some(x)) < IndexOf(entries, Some(y))
    ensures IndexOf(Nicks(entries), x) < IndexOf(Nicks(entries), y)
  {
    var a, b := IndexOf(entries, Some(x)), IndexOf(entries, Some(y));
    var p, q := entries[..a + 1], entries[a + 1..];
    assert entries == p + q;
    NicksAppend(p, q);
    var ns, np := Nicks(entries), Nicks(p);
    assert ns[..|np|] == np;
    assert x != "" by {
      var k := IndexOf(ns, x);
    }
    assert p[a] == Some(x);
    assert x in np;
    assert p == entries[..b][..a + 1];
    assert Some(y) !in p;
    assert y !in np;
    assert y in Nicks(q);
    IndexOfLeft(np, Nicks(q), x);
    IndexOfRight(np, Nicks(q), y);
  }

  /** `formatServerNicknames`: when not empty, the label, the listed nicks
      joined by ", ", and " +k more" exactly when k more are not listed. */
  function FormatServerNicknames(f: StoredFriend): (text: string)
    ensures var s := SummarizeNicknames(f);
      text != "" ==>
        text == NicknamesLabel + Join(s.shown, ", ") + (if s.hidden > 0 then " +" + NatToString(s.hidden) + " more" else "")
  {
    var unique := Distinct(Nicks(NickEntries(f)));
    if |unique| == 0 then ""
    else
      var preview := Join(unique[..Min(NicknamesShown, |unique|)], ", ");
      var extra := |unique| - NicknamesShown;
      if extra > 0 then NicknamesLabel + preview + " +" + NatToString(extra) + " more"
      else NicknamesLabel + preview
  }

  /** What the nickname line says: the nicks it lists and how many more
      there are. */
  datatype NicknameSummary = NicknameSummary(shown: seq<string>, hidden: nat)

  /** The nicks are the distinct non-empty ones, in order of first
      occurrence: at most three are listed and the rest are counted. */
  function SummarizeNicknames(f: StoredFriend): (s: NicknameSummary)
    ensures |s.shown| <= NicknamesShown && NoDuplicates(s.shown)
    ensures |s.shown| + s.hidden == |Distinct(Nicks(NickEntries(f)))|
    ensures s.shown == Distinct(Nicks(NickEntries(f)))[..|s.shown|]
    ensures s.hidden > 0 ==> |s.shown| == NicknamesShown
    ensures forall e :: e in NickEntries(f) && Truthy(e) && e.value !in s.shown ==> s.hidden > 0
  {
    var unique := Distinct(Nicks(NickEntries(f)));
    var k := Min(NicknamesShown, |unique|);
    var s := NicknameSummary(unique[..k], Max0(|unique| - NicknamesShown));
    forall e | e in NickEntries(f) && Truthy(e) && e.value !in s.shown
      ensures s.hidden > 0
    {
      assert e.value in unique;
    }
    s
  }

  /** The line is empty exactly when no entry has a non-empty nick. */
  lemma NicknamesEmpty(f: StoredFriend)
    ensures FormatServerNicknames(f) == "" <==> forall e :: e in NickEntries(f) ==> !Truthy(e)
  {
    var entries := NickEntries(f);
    var unique := Distinct(Nicks(entries));
    if exists e :: e in entries && Truthy(e) {
      var e :| e in entries && Truthy(e);
      assert e.value in Nicks(entries);
      assert |unique| > 0;
    }
  }

  /** Nicks come in the order of their first entries: the converse of
      NicksFirstOrder. */
  lemma NicksOrderBack(entries: seq<Option<string>>, x: string, y: string)
    requires x in Nicks(entries) && y in Nicks(entries)
    requires IndexOf(Nicks(entries), x) < IndexOf(Nicks(entries), y)
    ensures Some(x) in entries && Some(y) in entries
    ensures IndexOf(entries, Some(x)) < IndexOf(entries, Some(y))
  {
    var ns := Nicks(entries);
    assert ns[IndexOf(ns, x)] == x && ns[IndexOf(ns, y)] == y;
    var a, b := IndexOf(entries, Some(x)), IndexOf(entries, Some(y));
    if b < a {
      NicksFirstOrder(entries, y, x);
    }
  }

  /** The listed nicks come in the order in which they first occur among
      the entries, and so in the order of their first occurrence among the
      nicks. */
  lemma NicknamesInOrder(f: StoredFriend, i: nat, j: nat)
    requires i < j < |SummarizeNicknames(f).shown|
    ensures var entries, shown := NickEntries(f), SummarizeNicknames(f).shown;
      && Some(shown[i]) in entries && Some(shown[j]) in entries
      && IndexOf(entries, Some(shown[i])) < IndexOf(entries, Some(shown[j]))
    ensures var ns, shown := Nicks(NickEntries(f)), SummarizeNicknames(f).shown;
      IndexOf(ns, shown[i]) < IndexOf(ns, shown[j])
  {
    var ns := Nicks(NickEntries(f));
    assert SummarizeNicknames(f).shown[i] == Distinct(ns)[i];
    assert SummarizeNicknames(f).shown[j] == Distinct(ns)[j];
    DistinctKeepsFirstOccurrenceOrder(ns, i, j);
    NicksOrderBack(NickEntries(f), Distinct(ns)[i], Distinct(ns)[j]);
  }
}
