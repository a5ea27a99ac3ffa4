/**
  Short-lived per-chat and per-user state in a Redis-like key-value store:
  the last five chat lines per chat (five-minute TTL) and a per-user count
  of vulgar replies (24-hour TTL) that, with a static list of user ids,
  marks a frequent offender. The store is an object that is configured or
  not; expiry is judged against an explicit clock `now` in seconds.
*/
module Kv {
  import opened Prelude
  import opened Text

  const ChatHistorySize: nat := 5
  const ChatHistoryTtlSeconds: int := 5 * 60
  const VulgarCountTtlSeconds: int := 24 * 60 * 60
  const VulgarThreshold: int := 3
  /** Characters of message text kept in a history line. */
  const LineTextCap: nat := 200

  function Min(a: int, b: int): int
  {
    if a <= b then a else b
  }

  /** A stored value: a list, an integer, or some other (non-integer) value. */
  datatype Entry = ListVal(items: seq<string>) | IntVal(n: int) | TextVal(s: string)

  /** Absolute expiry times, in seconds, for the keys that have one. */
  type Deadlines = map<string, int>

  /** The store's contents as a value: the stored entries and their expiry times. */
  type Snapshot = (map<string, Entry>, Deadlines)

  // ---------------------------------------------------------------------------
  // Keys
  // ---------------------------------------------------------------------------

  /** `chat:${chatId}`, with the chat id already rendered as text. */
  function ChatKey(chatId: string): (key: string)
    ensures StartsWith(key, "chat:") && key[5..] == chatId
  {
    "chat:" + chatId
  }

  /** `vulgar_count:${userId}`, with the user id already rendered as text. */
  function VulgarKey(userId: string): (key: string)
    ensures StartsWith(key, "vulgar_count:") && key[13..] == userId
  {
    "vulgar_count:" + userId
  }

  /** Different chats and users use different keys, and a chat key is never a counter key. */
  lemma KeysSeparate(a: string, b: string)
    ensures ChatKey(a) != VulgarKey(b)
    ensures ChatKey(a) == ChatKey(b) ==> a == b
    ensures VulgarKey(a) == VulgarKey(b) ==> a == b
  {
    assert ChatKey(a)[0] == 'c' && VulgarKey(b)[0] == 'v';
    if ChatKey(a) == ChatKey(b) {
      assert a == ChatKey(a)[5..] && b == ChatKey(b)[5..];
    }
    if VulgarKey(a) == VulgarKey(b) {
      assert a == VulgarKey(a)[13..] && b == VulgarKey(b)[13..];
    }
  }

  // ---------------------------------------------------------------------------
  // Expiry
  // ---------------------------------------------------------------------------

  /** The entry under `key` at time `now`: absent when missing or when its deadline has passed. */
  function Live(s: Snapshot, key: string, now: int): Option<Entry>
  {
    if key in s.0 && (key !in s.1 || now < s.1[key]) then Some(s.0[key]) else None
  }

  // ---------------------------------------------------------------------------
  // Chat history
  // ---------------------------------------------------------------------------

  /** `username || "?"`. */
  function DisplayName(username: Option<string>): (name: string)
    ensures name != ""
  {
    if username.Some? && username.value != "" then username.value else "?"
  }

  /**
    A history line, `name: text`: the display name, a colon and a space,
    then at most the first 200 characters of the text (nothing when absent).
  */
  function HistoryLine(username: Option<string>, text: Option<string>): (line: string)
    ensures DisplayName(username) + ": " <= line
    ensures |line| <= |DisplayName(username)| + 2 + LineTextCap
    ensures text.None? ==> line == DisplayName(username) + ": "
    ensures text.Some? ==> line[|DisplayName(username)| + 2..] <= text.value
    ensures text.Some? && |text.value| <= LineTextCap ==> line[|DisplayName(username)| + 2..] == text.value
    ensures text.Some? ==> |line| == |DisplayName(username)| + 2 + Min(LineTextCap, |text.value|)
  {
    var head := DisplayName(username) + ": ";
    var body := if text.Some? then text.value[..Min(LineTextCap, |text.value|)] else "";
    var line := head + body;
    assert line[..|head|] == head;
    assert line[|head|..] == body;
    line
  }

  /**
    `lpush` of a line followed by `ltrim 0 4`: the new line first, then the
    previous entries in order, cut to at most five.
  */
  function PushTrim(items: seq<string>, line: string): (r: seq<string>)
    ensures 1 <= |r| <= ChatHistorySize
    ensures r[0] == line
    ensures r[1..] == items[..Min(ChatHistorySize - 1, |items|)]
  {
    ([line] + items)[..Min(ChatHistorySize, |items| + 1)]
  }

  /** `lrange 0 4` reversed: at most five stored lines, newest last. */
  function HistoryView(items: seq<string>): (v: seq<string>)
    ensures |v| == Min(ChatHistorySize, |items|)
    ensures forall k :: 0 <= k < |v| ==> v[k] == items[|v| - 1 - k]
  {
    Reverse(items[..Min(ChatHistorySize, |items|)])
  }

  /** Nothing is stored, or a list is: the cases in which `lpush` succeeds. */
  predicate ListOrNothing(e: Option<Entry>)
  {
    e.None? || e.value.ListVal?
  }

  /** The stored list, empty when nothing is stored. */
  function StoredList(e: Option<Entry>): seq<string>
  {
    if e.Some? && e.value.ListVal? then e.value.items else []
  }

  /** What `getChatHistory` reads from a reachable store: nothing unless a live list is stored. */
  function HistoryAt(s: Snapshot, key: string, now: int): (lines: seq<string>)
    ensures |lines| <= ChatHistorySize
    ensures !(Live(s, key, now).Some? && Live(s, key, now).value.ListVal?) ==> lines == []
    ensures Live(s, key, now).Some? && Live(s, key, now).value.ListVal? ==>
      var items := Live(s, key, now).value.items;
      |lines| == Min(ChatHistorySize, |items|)
      && forall k :: 0 <= k < |lines| ==> lines[k] == items[|lines| - 1 - k]
  {
    match Live(s, key, now)
    case Some(ListVal(items)) => HistoryView(items)
    case _ => []
  }

  /**
    The store after `appendChatHistory` reaches it: a missing or expired key
    starts a new list; a live list gets the line pushed and trimmed and a
    fresh five-minute deadline; a live non-list rejects the push and
    nothing changes.
  */
  function Appended(s: Snapshot, key: string, line: string, now: int): (r: Snapshot)
    ensures forall k, t :: k != key ==> Live(r, k, t) == Live(s, k, t)
    ensures !ListOrNothing(Live(s, key, now)) ==> r == s
    ensures ListOrNothing(Live(s, key, now)) ==>
      forall t :: Live(r, key, t) ==
        if t < now + ChatHistoryTtlSeconds then Some(ListVal(PushTrim(StoredList(Live(s, key, now)), line)))
        else None
  {
    match Live(s, key, now)
    case Some(ListVal(items)) =>
      (s.0[key := ListVal(PushTrim(items, line))], s.1[key := now + ChatHistoryTtlSeconds])
    case None =>
      (s.0[key := ListVal(PushTrim([], line))], s.1[key := now + ChatHistoryTtlSeconds])
    case _ => s
  }

  /** After a push the view holds the last (at most four) lines it had, then the new line. */
  lemma {:induction false} ViewAfterPush(items: seq<string>, line: string)
    requires |items| <= ChatHistorySize
    ensures var v := HistoryView(items);
      HistoryView(PushTrim(items, line)) == v[|v| - Min(ChatHistorySize - 1, |v|)..] + [line]
  {
    var k := Min(ChatHistorySize - 1, |items|);
    var pushed := PushTrim(items, line);
    assert pushed == [line] + items[..k];
    assert pushed[..Min(ChatHistorySize, |pushed|)] == pushed;
    assert Reverse(pushed) == Reverse(items[..k]) + [line];
    assert items[..Min(ChatHistorySize, |items|)] == items;
    assert items == items[..k] + items[k..];
    ReverseAppend(items[..k], items[k..]);
  }

  /**
    Reading the history after an append, before the new deadline: the
    lines the chat showed before, less the oldest when it was full, and the
    new line last.
  */
  lemma {:induction false} HistoryAfterAppend(s: Snapshot, key: string, line: string, now: int, t: int)
    requires ListOrNothing(Live(s, key, now))
    requires |StoredList(Live(s, key, now))| <= ChatHistorySize
    requires t < now + ChatHistoryTtlSeconds
    ensures var v := HistoryAt(s, key, now);
      HistoryAt(Appended(s, key, line, now), key, t) == v[|v| - Min(ChatHistorySize - 1, |v|)..] + [line]
  {
    var items := StoredList(Live(s, key, now));
    assert HistoryAt(s, key, now) == HistoryView(items);
    ViewAfterPush(items, line);
  }

  // ---------------------------------------------------------------------------
  // Vulgar counter
  // ---------------------------------------------------------------------------

  /** What `getVulgarCount` reads from a reachable store: the live number, else 0. */
  function CountAt(s: Snapshot, key: string, now: int): (n: int)
    ensures Live(s, key, now).Some? && Live(s, key, now).value.IntVal? ==> n == Live(s, key, now).value.n
    ensures !(Live(s, key, now).Some? && Live(s, key, now).value.IntVal?) ==> n == 0
  {
    match Live(s, key, now)
    case Some(IntVal(n)) => n
    case _ => 0
  }

  /**
    The store after `incrVulgarCount` reaches it: `incr` adds one to a live
    integer or starts a missing or expired key at one, then `expire` sets
    a 24-hour deadline; a live non-integer rejects `incr` and nothing changes.
  */
  function Incremented(s: Snapshot, key: string, now: int): (r: Snapshot)
    ensures forall k, t :: k != key ==> Live(r, k, t) == Live(s, k, t)
    ensures Live(s, key, now).Some? && !Live(s, key, now).value.IntVal? ==> r == s
    ensures (Live(s, key, now).None? || Live(s, key, now).value.IntVal?) ==>
      forall t :: CountAt(r, key, t) == if t < now + VulgarCountTtlSeconds then CountAt(s, key, now) + 1 else 0
  {
    match Live(s, key, now)
    case Some(IntVal(n)) => (s.0[key := IntVal(n + 1)], s.1[key := now + VulgarCountTtlSeconds])
    case None => (s.0[key := IntVal(1)], s.1[key := now + VulgarCountTtlSeconds])
    case _ => s
  }

  /**
    Three increments, each within a day of the one before, starting from no
    live count, leave a count of three until a day after the last one, and
    none after that.
  */
  lemma {:induction false} ThreeIncrements(s: Snapshot, key: string, t1: int, t2: int, t3: int, t: int)
    requires Live(s, key, t1).None?
    requires t1 <= t2 < t1 + VulgarCountTtlSeconds && t2 <= t3 < t2 + VulgarCountTtlSeconds
    ensures var r := Incremented(Incremented(Incremented(s, key, t1), key, t2), key, t3);
      CountAt(r, key, t) == if t < t3 + VulgarCountTtlSeconds then VulgarThreshold else 0
  {
    var s1 := Incremented(s, key, t1);
    assert CountAt(s, key, t1) == 0;
    assert CountAt(s1, key, t2) == 1;
    assert Live(s1, key, t2).Some? && Live(s1, key, t2).value.IntVal?;
    var s2 := Incremented(s1, key, t2);
    assert CountAt(s2, key, t3) == 2;
    assert Live(s2, key, t3).Some? && Live(s2, key, t3).value.IntVal?;
  }

  // ---------------------------------------------------------------------------
  // Frequent-offender list
  // ---------------------------------------------------------------------------

  /** The pieces, trimmed, with the empty ones dropped, in order. */
  function TrimmedIds(pieces: seq<string>): (ids: seq<string>)
    ensures forall i :: 0 <= i < |ids| ==> ids[i] != ""
    ensures forall id :: id in ids <==> id != "" && exists i :: 0 <= i < |pieces| && Trim(pieces[i]) == id
  {
    if pieces == [] then []
    else
      var rest := TrimmedIds(pieces[1..]);
      assert forall i :: 0 <= i < |pieces| - 1 ==> pieces[1..][i] == pieces[i + 1];
      if Trim(pieces[0]) == "" then rest else [Trim(pieces[0])] + rest
  }

  /** `FREQUENT_VULGAR_USER_IDS`: comma-separated, each id trimmed, empty ids dropped. */
  function ParseIdList(envList: string): (ids: seq<string>)
    ensures forall id :: id in ids <==> id != "" && exists p :: p in Split(envList, ',') && Trim(p) == id
    ensures forall i :: 0 <= i < |ids| ==> ',' !in ids[i]
  {
    var pieces := Split(envList, ',');
    var ids := TrimmedIds(pieces);
    forall id | id in ids
      ensures ',' !in id
    {
      var i :| 0 <= i < |pieces| && Trim(pieces[i]) == id;
      TrimKeepsOut(pieces[i], ',');
    }
    ids
  }

  /** The user id is on the configured list (an unset or empty list holds nobody). */
  predicate Listed(envList: Option<string>, userId: string)
    ensures Listed(envList, userId) ==> userId != "" && ',' !in userId
    ensures Listed(envList, userId) <==>
      && envList.Some?
      && userId != ""
      && exists p :: p in Split(envList.value, ',') && Trim(p) == userId
  {
    envList.Some? && envList.value != "" && userId in ParseIdList(envList.value)
  }

  // ---------------------------------------------------------------------------
  // The store client
  // ---------------------------------------------------------------------------

  /**
    The Redis client the helpers share. `configured` says whether the
    client exists at all (URL and token present); `online` says whether its
    commands succeed (when false each command throws and the helper
    catches it).
  */
  class Store {
    const configured: bool
    const online: bool
    var data: map<string, Entry>
    var expiry: Deadlines

    /** What only these helpers ever store: lists of at most five lines and counts of at least one. */
    ghost predicate Valid()
      reads this
    {
      && (forall k :: k in data && data[k].ListVal? ==> |data[k].items| <= ChatHistorySize)
      && (forall k :: k in data && data[k].IntVal? ==> data[k].n >= 1)
    }

    function State(): Snapshot
      reads this
    {
      (data, expiry)
    }

    /** A store with nothing in it. */
    constructor (configured: bool, online: bool)
      ensures Valid()
      ensures this.configured == configured && this.online == online
      ensures data == map[] && expiry == map[]
    {
      this.configured := configured;
      this.online := online;
      data := map[];
      expiry := map[];
    }

    /**
      `appendChatHistory`: with no client, or when the store fails, nothing
      changes; otherwise the formatted line is pushed, the list trimmed to
      five, and the key's five-minute deadline refreshed.
    */
    method AppendChatHistory(chatId: string, username: Option<string>, text: Option<string>, now: int)
      requires Valid()
      modifies this
      ensures Valid()
      ensures configured && online ==>
        State() == Appended(old(State()), ChatKey(chatId), HistoryLine(username, text), now)
      ensures !(configured && online) ==> data == old(data) && expiry == old(expiry)
    {
      if !configured {
        return;
      }
      var key := ChatKey(chatId);
      var line := HistoryLine(username, text);
      if !online {
        return;
      }
      var current := Live(State(), key, now);
      if current.Some? && !current.value.ListVal? {
        return;
      }
      var items := StoredList(current);
      data := data[key := ListVal([line] + items)];
      data := data[key := ListVal(data[key].items[..Min(ChatHistorySize, |data[key].items|)])];
      expiry := expiry[key := now + ChatHistoryTtlSeconds];
      assert data == old(data)[key := ListVal(PushTrim(items, line))];
    }

    /**
      `getChatHistory`: with no client or on a failure, nothing; otherwise
      at most the five newest stored lines, oldest first.
    */
    method GetChatHistory(chatId: string, now: int) returns (lines: seq<string>)
      ensures |lines| <= ChatHistorySize
      ensures configured && online ==> lines == HistoryAt(State(), ChatKey(chatId), now)
      ensures !(configured && online) ==> lines == []
    {
      if !configured {
        return [];
      }
      if !online {
        return [];
      }
      var key := ChatKey(chatId);
      var stored := Live(State(), key, now);
      if stored.Some? && stored.value.ListVal? {
        var list := stored.value.items[..Min(ChatHistorySize, |stored.value.items|)];
        lines := Reverse(list);
      } else {
        lines := [];
      }
    }

    /**
      `getVulgarCount`: the user's live count; 0 with no client, on a
      failure, for a missing or expired key, or for a non-number.
    */
    method GetVulgarCount(userId: string, now: int) returns (count: int)
      ensures Valid() ==> count >= 0
      ensures configured && online ==> count == CountAt(State(), VulgarKey(userId), now)
      ensures !(configured && online) ==> count == 0
    {
      if !configured || !online {
        return 0;
      }
      var stored := Live(State(), VulgarKey(userId), now);
      count := if stored.Some? && stored.value.IntVal? then stored.value.n else 0;
    }

    /**
      `incrVulgarCount`: with no client, or when the store fails, nothing
      changes; otherwise the user's count goes up by one and its 24-hour
      deadline is refreshed.
    */
    method IncrVulgarCount(userId: string, now: int)
      requires Valid()
      modifies this
      ensures Valid()
      ensures configured && online ==> State() == Incremented(old(State()), VulgarKey(userId), now)
      ensures !(configured && online) ==> data == old(data) && expiry == old(expiry)
    {
      if !configured || !online {
        return;
      }
      var key := VulgarKey(userId);
      var current := Live(State(), key, now);
      if current.Some? && !current.value.IntVal? {
        return;
      }
      var next := if current.Some? then current.value.n + 1 else 1;
      data := data[key := IntVal(next)];
      expiry := expiry[key := now + VulgarCountTtlSeconds];
    }

    /**
      `isFrequentVulgar`: true for a user on the configured id list;
      otherwise true exactly when the user's count has reached three.
    */
    method IsFrequentVulgar(envList: Option<string>, userId: string, now: int) returns (frequent: bool)
      ensures Listed(envList, userId) ==> frequent
      ensures !Listed(envList, userId) ==>
        (frequent <==> configured && online && CountAt(State(), VulgarKey(userId), now) >= VulgarThreshold)
    {
      if envList.Some? && envList.value != "" {
        var ids := ParseIdList(envList.value);
        if userId in ids {
          return true;
        }
      }
      var count := GetVulgarCount(userId, now);
      frequent := count >= VulgarThreshold;
    }
  }
}
