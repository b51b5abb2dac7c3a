/**
 * Per-bot gating settings (config.py): the required-channel list, the
 * owner/admin ids, and the membership check that decides whether a user has
 * joined every required channel.
 */
module Config {
  import opened Text
  import opened JsonValue

  // ---------------------------------------------------------------------
  // Required channels
  // ---------------------------------------------------------------------

  /** What one entry contributes: its stripped form, or nothing when that is empty. */
  function Kept(item: string): (kept: seq<string>)
    ensures |kept| <= 1
    ensures forall k :: 0 <= k < |kept| ==> kept[k] != "" && Trimmed(kept[k])
  {
    var c := Strip(item);
    if c == "" then [] else [c]
  }

  /** The channel list built from a list of entries: each entry trimmed, blank entries dropped, order kept. */
  function Clean(items: seq<string>): (channels: seq<string>)
    ensures |channels| <= |items|
    ensures forall k :: 0 <= k < |channels| ==> channels[k] != "" && Trimmed(channels[k])
  {
    if items == [] then [] else Kept(items[0]) + Clean(items[1..])
  }

  lemma {:induction false} CleanAppend(xs: seq<string>, ys: seq<string>)
    ensures Clean(xs + ys) == Clean(xs) + Clean(ys)
  {
    if xs == [] {
      assert xs + ys == ys;
    } else {
      assert (xs + ys)[1..] == xs[1..] + ys;
      CleanAppend(xs[1..], ys);
      assert Clean(xs + ys) == Kept(xs[0]) + (Clean(xs[1..]) + Clean(ys));
    }
  }

  /** A channel is kept exactly when it is the non-blank stripped form of some entry. */
  lemma CleanMembers(items: seq<string>, c: string)
    ensures c in Clean(items) <==> exists k :: 0 <= k < |items| && c in Kept(items[k])
  {
    if c in Clean(items) {
      var k := KeptFrom(items, c);
    }
    if exists k :: 0 <= k < |items| && c in Kept(items[k]) {
      var k :| 0 <= k < |items| && c in Kept(items[k]);
      KeptIn(items, k, c);
    }
  }

  /** Every kept channel comes from some entry. */
  lemma {:induction false} KeptFrom(items: seq<string>, c: string) returns (k: nat)
    requires c in Clean(items)
    ensures k < |items| && c in Kept(items[k])
  {
    assert Clean(items) == Kept(items[0]) + Clean(items[1..]);
    if c in Kept(items[0]) {
      k := 0;
    } else {
      var j := KeptFrom(items[1..], c);
      assert items[1..][j] == items[j + 1];
      k := j + 1;
    }
  }

  /** What an entry contributes is kept. */
  lemma {:induction false} KeptIn(items: seq<string>, k: nat, c: string)
    requires k < |items| && c in Kept(items[k])
    ensures c in Clean(items)
  {
    assert Clean(items) == Kept(items[0]) + Clean(items[1..]);
    if k > 0 {
      assert items[1..][k - 1] == items[k];
      KeptIn(items[1..], k - 1, c);
    }
  }

  predicate AllStrings(items: seq<Json>) {
    forall k :: 0 <= k < |items| ==> items[k].JString?
  }

  /** The Python strings held by a JSON list whose entries are all strings. */
  function Strings(items: seq<Json>): (r: seq<string>)
    requires AllStrings(items)
    ensures |r| == |items|
    ensures forall k :: 0 <= k < |items| ==> r[k] == items[k].s
  {
    if items == [] then [] else [items[0].s] + Strings(items[1..])
  }

  /** The JSON list of strings that holds `xs`. */
  function Wrap(xs: seq<string>): (items: seq<Json>)
    ensures |items| == |xs| && AllStrings(items)
    ensures forall k :: 0 <= k < |xs| ==> items[k] == JString(xs[k])
  {
    if xs == [] then [] else [JString(xs[0])] + Wrap(xs[1..])
  }

  /**
   * `get_required_channels`: the trimmed, non-blank channels of a JSON list
   * of strings, or of the comma-separated pieces of a JSON string. A missing
   * or unreadable file, any other JSON type, and a list holding something
   * other than a string (whose `strip()` raises) all give the empty list.
   */
  function RequiredChannels(file: FileState): (channels: seq<string>)
    ensures forall k :: 0 <= k < |channels| ==> channels[k] != "" && Trimmed(channels[k])
    ensures !file.Present? ==> channels == []
  {
    match file
    case Absent => []
    case Malformed => []
    case Present(doc) =>
      match doc
      case JArray(items) => if AllStrings(items) then Clean(Strings(items)) else []
      case JString(s) => Clean(Split(s, ','))
      case _ => []
  }

  /** A list of strings is cleaned entry by entry. */
  lemma ListChannels(items: seq<Json>)
    requires AllStrings(items)
    ensures RequiredChannels(Present(JArray(items))) == Clean(Strings(items))
  {
  }

  lemma StringsAppend(xs: seq<Json>, ys: seq<Json>)
    requires AllStrings(xs) && AllStrings(ys)
    ensures AllStrings(xs + ys) && Strings(xs + ys) == Strings(xs) + Strings(ys)
  {
    var zs := xs + ys;
    assert forall k :: 0 <= k < |xs| ==> zs[k] == xs[k];
    assert forall k :: |xs| <= k < |zs| ==> zs[k] == ys[k - |xs|];
    var a, b := Strings(zs), Strings(xs) + Strings(ys);
    assert forall k :: 0 <= k < |a| ==> a[k] == b[k];
  }

  /** A list payload is handled entry by entry, in order: the result for a concatenation is the concatenation of the results. */
  lemma ListChannelsInOrder(xs: seq<Json>, ys: seq<Json>)
    requires AllStrings(xs) && AllStrings(ys)
    ensures RequiredChannels(Present(JArray(xs + ys)))
         == RequiredChannels(Present(JArray(xs))) + RequiredChannels(Present(JArray(ys)))
  {
    StringsAppend(xs, ys);
    CleanAppend(Strings(xs), Strings(ys));
    ListChannels(xs + ys);
    ListChannels(xs);
    ListChannels(ys);
  }

  /** A one-entry list gives that entry stripped, or nothing when it is blank. */
  lemma SingleChannel(x: string)
    ensures RequiredChannels(Present(JArray([JString(x)])))
         == if Strip(x) == "" then [] else [Strip(x)]
  {
    assert Strings([JString(x)]) == [x];
    assert [x][1..] == [];
    assert Clean([x]) == Kept(x) + Clean([]);
  }

  /** A list with an entry that is not a string yields no channels at all. */
  lemma NonStringEntryRejectsList(items: seq<Json>, k: nat)
    requires k < |items| && !items[k].JString?
    ensures RequiredChannels(Present(JArray(items))) == []
  {
  }

  /** A string payload behaves as the list of its comma-separated pieces. */
  lemma StringPayloadIsCommaList(s: string)
    ensures RequiredChannels(Present(JString(s))) == RequiredChannels(Present(JArray(Wrap(Split(s, ',')))))
  {
    var pieces := Split(s, ',');
    StringsOfWrap(pieces);
  }

  lemma StringsOfWrap(xs: seq<string>)
    ensures Strings(Wrap(xs)) == xs
  {
    var back := Strings(Wrap(xs));
    assert |back| == |xs|;
    assert forall k :: 0 <= k < |xs| ==> back[k] == xs[k];
  }

  /** Cleaning never introduces a character that no entry holds. */
  lemma {:induction false} CleanAvoids(items: seq<string>, ch: char)
    requires forall k :: 0 <= k < |items| ==> ch !in items[k]
    ensures forall k :: 0 <= k < |Clean(items)| ==> ch !in Clean(items)[k]
  {
    if items != [] {
      StripOmitsNothingNew(items[0], ch);
      CleanAvoids(items[1..], ch);
    }
  }

  /** No channel taken from a string payload holds a comma, and the pieces it came from rejoin to the payload. */
  lemma StringPayloadHasNoCommas(s: string)
    ensures forall k :: 0 <= k < |RequiredChannels(Present(JString(s)))| ==> ',' !in RequiredChannels(Present(JString(s)))[k]
    ensures Join(Split(s, ','), ',') == s
  {
    JoinSplit(s, ',');
    CleanAvoids(Split(s, ','), ',');
  }

  /** Any JSON payload other than a list or a string yields no channels. */
  lemma OtherPayloadsYieldNothing(doc: Json)
    requires !doc.JArray? && !doc.JString?
    ensures RequiredChannels(Present(doc)) == []
  {
  }

  // ---------------------------------------------------------------------
  // Owners and admins
  // ---------------------------------------------------------------------

  datatype Authors = Authors(owner: Json, admin: Json)

  /** The value stored under `key`, or the empty list when the key is absent. */
  function GetOrEmpty(members: map<string, Json>, key: string): Json {
    if key in members then members[key] else JArray([])
  }

  /**
   * `get_author_ids`: the "owner" and "admin" entries of a JSON object, each
   * defaulting to the empty list; a missing or unreadable file, or a document
   * that is not an object (whose `get` raises), gives two empty lists.
   */
  function AuthorIds(file: FileState): (a: Authors)
    ensures !(file.Present? && file.doc.JObject?) ==> a == Authors(JArray([]), JArray([]))
    ensures file.Present? && file.doc.JObject? ==>
      && (a.owner == if "owner" in file.doc.members then file.doc.members["owner"] else JArray([]))
      && (a.admin == if "admin" in file.doc.members then file.doc.members["admin"] else JArray([]))
  {
    if file.Present? && file.doc.JObject? then
      Authors(GetOrEmpty(file.doc.members, "owner"), GetOrEmpty(file.doc.members, "admin"))
    else
      Authors(JArray([]), JArray([]))
  }

  /**
   * The chat ids the owner loop visits: the entries of a list, the
   * one-character strings of a string; any other value is visited as empty.
   */
  function OwnerChats(owners: Json): (chats: seq<Json>)
    ensures owners.JArray? ==> chats == owners.items
    ensures owners.JString? ==> |chats| == |owners.s|
    ensures owners.JString? ==> forall k :: 0 <= k < |chats| ==> chats[k] == JString([owners.s[k]])
    ensures !owners.JArray? && !owners.JString? ==> chats == []
  {
    match owners
    case JArray(items) => items
    case JString(s) => seq(|s|, k requires 0 <= k < |s| => JString([s[k]]))
    case _ => []
  }

  // ---------------------------------------------------------------------
  // Membership check
  // ---------------------------------------------------------------------

  /** The outcome of one membership lookup: the request raised, the API answered not-ok, or it answered ok with a status. */
  datatype Lookup = Raised | NotOk | Ok(status: string)

  /** One warning message sent to an owner's chat. */
  datatype Notice = Notice(chat: Json, text: string)

  /** The statuses that mean the user is not in the channel. */
  predicate Blocks(answer: Lookup) {
    answer.Ok? && (answer.status == "left" || answer.status == "kicked")
  }

  /** The warning sent to owners when the bot cannot look up members of `channel`. */
  function AddMeText(channel: string): string {
    "⚠️ कृपया मुझे चैनल में ऐड करें: " + channel
  }

  /** The index of the first blocking answer, or the number of answers when none blocks. */
  function FirstBlocking(answers: seq<Lookup>): (k: nat)
    ensures k <= |answers|
    ensures k < |answers| ==> Blocks(answers[k])
    ensures forall i :: 0 <= i < k ==> !Blocks(answers[i])
  {
    if answers == [] then 0
    else if Blocks(answers[0]) then 0
    else 1 + FirstBlocking(answers[1..])
  }

  /** The same warning to every owner, in owner order. */
  function Broadcast(owners: seq<Json>, text: string): (notices: seq<Notice>)
    ensures |notices| == |owners|
    ensures forall k :: 0 <= k < |owners| ==> notices[k] == Notice(owners[k], text)
  {
    if owners == [] then [] else [Notice(owners[0], text)] + Broadcast(owners[1..], text)
  }

  /** Notifying one more owner appends one notice. */
  lemma BroadcastStep(owners: seq<Json>, text: string, j: nat)
    requires j < |owners|
    ensures Broadcast(owners[..j + 1], text) == Broadcast(owners[..j], text) + [Notice(owners[j], text)]
  {
    var a, b := Broadcast(owners[..j + 1], text), Broadcast(owners[..j], text) + [Notice(owners[j], text)];
    assert |a| == |b|;
    forall k | 0 <= k < |a| ensures a[k] == b[k] {
      assert owners[..j + 1][k] == owners[k];
    }
  }

  /** The warnings produced by scanning `channels` with the given answers: one broadcast per not-ok answer, in scan order. */
  function Warnings(channels: seq<string>, answers: seq<Lookup>, owners: seq<Json>): seq<Notice>
    requires |channels| == |answers|
  {
    if channels == [] then []
    else
      var n := |channels| - 1;
      Warnings(channels[..n], answers[..n], owners)
        + (if answers[n].NotOk? then Broadcast(owners, AddMeText(channels[n])) else [])
  }

  function CountNotOk(answers: seq<Lookup>): nat {
    if answers == [] then 0
    else CountNotOk(answers[..|answers| - 1]) + (if answers[|answers| - 1].NotOk? then 1 else 0)
  }

  /** Each not-ok answer sends exactly one warning per owner. */
  lemma {:induction false} WarningsCount(channels: seq<string>, answers: seq<Lookup>, owners: seq<Json>)
    requires |channels| == |answers|
    ensures |Warnings(channels, answers, owners)| == |owners| * CountNotOk(answers)
  {
    if channels != [] {
      var n := |channels| - 1;
      WarningsCount(channels[..n], answers[..n], owners);
      var before := Warnings(channels[..n], answers[..n], owners);
      if answers[n].NotOk? {
        var step := Broadcast(owners, AddMeText(channels[n]));
        assert Warnings(channels, answers, owners) == before + step;
        MultiplySucc(|owners|, CountNotOk(answers[..n]));
      } else {
        assert Warnings(channels, answers, owners) == before;
      }
    }
  }

  lemma MultiplySucc(m: nat, c: nat)
    ensures m * (c + 1) == m * c + m
  {
  }

  /** Scanning one more channel appends that channel's warnings, if any. */
  lemma WarningsStep(channels: seq<string>, answers: seq<Lookup>, owners: seq<Json>, i: nat)
    requires |channels| == |answers| && i < |channels|
    ensures Warnings(channels[..i + 1], answers[..i + 1], owners)
         == Warnings(channels[..i], answers[..i], owners)
            + (if answers[i].NotOk? then Broadcast(owners, AddMeText(channels[i])) else [])
  {
    assert channels[..i + 1][..i] == channels[..i] && answers[..i + 1][..i] == answers[..i];
  }

  /** The first blocking answer is the one before which nothing blocks. */
  lemma FirstBlockingAt(answers: seq<Lookup>, i: nat)
    requires i <= |answers|
    requires i < |answers| ==> Blocks(answers[i])
    requires forall j :: 0 <= j < i ==> !Blocks(answers[j])
    ensures FirstBlocking(answers) == i
  {
  }

  /** The inner loop of the check: one warning to each owner, in owner order. */
  method NotifyOwners(owners: seq<Json>, text: string) returns (sent: seq<Notice>)
    ensures sent == Broadcast(owners, text)
  {
    sent := [];
    for j := 0 to |owners|
      invariant sent == Broadcast(owners[..j], text)
    {
      BroadcastStep(owners, text, j);
      sent := sent + [Notice(owners[j], text)];
    }
    assert owners[..|owners|] == owners;
  }

  /**
   * The loop of the check over the required channels, in order. `answers[i]`
   * is the outcome of the lookup for `channels[i]`. Returns whether the user
   * counts as subscribed, how many lookups were made, and the warnings sent.
   */
  method ScanChannels(channels: seq<string>, owners: seq<Json>, answers: seq<Lookup>)
    returns (subscribed: bool, queried: nat, notices: seq<Notice>)
    requires |answers| == |channels|
    ensures subscribed <==> forall i :: 0 <= i < |answers| ==> !Blocks(answers[i])
    ensures queried == if subscribed then |answers| else FirstBlocking(answers) + 1
    ensures queried <= |channels|
    ensures notices == Warnings(channels[..queried], answers[..queried], owners)
  {
    notices := [];
    for i := 0 to |channels|
      invariant forall j :: 0 <= j < i ==> !Blocks(answers[j])
      invariant notices == Warnings(channels[..i], answers[..i], owners)
    {
      WarningsStep(channels, answers, owners, i);
      match answers[i]
      case Raised =>
        // the exception is logged and the channel skipped
      case NotOk =>
        // the bot cannot see the channel: warn every owner, then skip it
        var sent := NotifyOwners(owners, AddMeText(channels[i]));
        notices := notices + sent;
      case Ok(status) =>
        if status == "left" || status == "kicked" {
          FirstBlockingAt(answers, i);
          return false, i + 1, notices;
        }
    }
    assert channels[..|channels|] == channels && answers[..|answers|] == answers;
    FirstBlockingAt(answers, |answers|);
    return true, |channels|, notices;
  }

  /**
   * `is_user_subscribed_requests`: no required channels lets the user through
   * without any lookup; otherwise the owners are loaded and the channels
   * scanned. `answers[i]` is the outcome of the lookup for the i-th channel.
   */
  method IsUserSubscribed(channelsFile: FileState, authorsFile: FileState, answers: seq<Lookup>)
    returns (subscribed: bool, queried: nat, notices: seq<Notice>)
    requires |answers| == |RequiredChannels(channelsFile)|
    ensures subscribed <==> forall i :: 0 <= i < |answers| ==> !Blocks(answers[i])
    ensures queried == if subscribed then |answers| else FirstBlocking(answers) + 1
    ensures RequiredChannels(channelsFile) == [] ==> queried == 0 && notices == []
    ensures notices == Warnings(RequiredChannels(channelsFile)[..queried], answers[..queried],
                                OwnerChats(AuthorIds(authorsFile).owner))
  {
    var channels := RequiredChannels(channelsFile);
    if channels == [] {
      return true, 0, [];
    }
    var owners := OwnerChats(AuthorIds(authorsFile).owner);
    subscribed, queried, notices := ScanChannels(channels, owners, answers);
  }

  // ---------------------------------------------------------------------
  // Properties of the scan
  // ---------------------------------------------------------------------

  /** Once a channel blocks, the answers for the channels after it play no part. */
  lemma {:induction false} LaterAnswersIgnored(answers: seq<Lookup>, later: seq<Lookup>)
    requires FirstBlocking(answers) < |answers|
    ensures FirstBlocking(answers + later) == FirstBlocking(answers)
  {
    if !Blocks(answers[0]) {
      assert (answers + later)[1..] == answers[1..] + later;
      LaterAnswersIgnored(answers[1..], later);
    }
  }

  /** Fail-open: a lookup that raised or answered not-ok counts as if the user were a member. */
  lemma FailOpen(answers: seq<Lookup>, i: nat)
    requires i < |answers| && (answers[i].Raised? || answers[i].NotOk?)
    ensures FirstBlocking(answers[i := Ok("member")]) == FirstBlocking(answers)
  {
    var other := answers[i := Ok("member")];
    var k, k' := FirstBlocking(answers), FirstBlocking(other);
    assert k < |answers| ==> Blocks(other[k]);
    assert k' < |other| ==> Blocks(answers[k']);
  }
}
