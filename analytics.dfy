/**
 * The usage summary of one user: a fold over the user's stored chats that
 * counts the user's messages and the chats, adds up each chat's time span
 * and remembers the latest activity. Timestamps are integer milliseconds;
 * the date parser is a parameter that answers `None` where the source's
 * parse gives NaN.
 */
module Analytics {
  import opened Wrappers
  import opened Types

  /** `lastActive`: the latest message time, or `'Never'`. */
  datatype LastActive = Never | At(millis: int)

  datatype UserAnalytics = UserAnalytics(
    uid: string,
    email: string,
    displayName: Option<string>,
    messageCount: nat,
    sessionCount: nat,
    totalSessionDuration: int,  // whole seconds
    lastActive: LastActive)

  /** The number of messages of type user. */
  function UserMessageCount(messages: seq<Message>): (n: nat)
    ensures n <= |messages|
    ensures n == 0 <==> forall m :: m in messages ==> m.kind != User
    ensures n == |messages| <==> forall m :: m in messages ==> m.kind == User
  {
    if messages == [] then 0
    else (if messages[0].kind == User then 1 else 0) + UserMessageCount(messages[1..])
  }

  /** The times of the messages whose timestamps parse, in message order. */
  function ValidTimes(messages: seq<Message>, parseTime: string -> Option<int>): (ts: seq<int>)
    ensures |ts| <= |messages|
    ensures forall t :: t in ts <==> exists m :: m in messages && parseTime(m.timestamp) == Some(t)
  {
    if messages == [] then []
    else
      var rest := ValidTimes(messages[1..], parseTime);
      assert forall m :: m in messages[1..] ==> m in messages;
      match parseTime(messages[0].timestamp)
      case Some(t) => [t] + rest
      case None => rest
  }

  /** `Math.max(...ts)`. */
  function MaxOf(ts: seq<int>): (m: int)
    requires ts != []
    ensures m in ts && forall t :: t in ts ==> t <= m
  {
    if |ts| == 1 then ts[0]
    else
      var r := MaxOf(ts[1..]);
      assert ts == [ts[0]] + ts[1..];
      if ts[0] >= r then ts[0] else r
  }

  /** `Math.min(...ts)`. */
  function MinOf(ts: seq<int>): (m: int)
    requires ts != []
    ensures m in ts && forall t :: t in ts ==> m <= t
  {
    if |ts| == 1 then ts[0]
    else
      var r := MinOf(ts[1..]);
      assert ts == [ts[0]] + ts[1..];
      if ts[0] <= r then ts[0] else r
  }

  /**
   * The duration of one chat: the distance between its earliest and latest
   * valid times, and 0 for a chat without any.
   */
  function Span(ts: seq<int>): (d: int)
    ensures d >= 0
    ensures forall a, b :: a in ts && b in ts ==> a - b <= d
    ensures ts != [] ==> exists a, b :: a in ts && b in ts && a - b == d
    ensures ts == [] ==> d == 0
  {
    if ts == [] then 0 else MaxOf(ts) - MinOf(ts)
  }

  /** The valid times of one stored chat. */
  function ChatTimes(record: ChatRecord, parseTime: string -> Option<int>): seq<int>
  {
    ValidTimes(MessagesOf(record), parseTime)
  }

  /** The user messages over all chats. */
  function TotalMessages(records: seq<ChatRecord>): nat
  {
    if records == [] then 0
    else TotalMessages(records[..|records| - 1]) + UserMessageCount(MessagesOf(records[|records| - 1]))
  }

  /** The message count is 0 exactly when no chat holds a user message. */
  lemma {:induction false} NoUserMessages(records: seq<ChatRecord>)
    ensures TotalMessages(records) == 0 <==> forall r, m :: r in records && m in MessagesOf(r) ==> m.kind != User
  {
    if records != [] {
      var init := records[..|records| - 1];
      NoUserMessages(init);
      assert records == init + [records[|records| - 1]];
    }
  }

  /** The sum of the chats' spans, in milliseconds. */
  function TotalSpan(records: seq<ChatRecord>, parseTime: string -> Option<int>): (total: int)
    ensures total >= 0
  {
    if records == [] then 0
    else TotalSpan(records[..|records| - 1], parseTime) + Span(ChatTimes(records[|records| - 1], parseTime))
  }

  /** No single chat lasts longer than all chats together. */
  lemma {:induction false} TotalSpanBoundsEach(records: seq<ChatRecord>, parseTime: string -> Option<int>)
    ensures forall r :: r in records ==> Span(ChatTimes(r, parseTime)) <= TotalSpan(records, parseTime)
  {
    if records != [] {
      var init := records[..|records| - 1];
      TotalSpanBoundsEach(init, parseTime);
      assert records == init + [records[|records| - 1]];
    }
  }

  /** Every valid time of every chat, chat by chat. */
  function AllTimes(records: seq<ChatRecord>, parseTime: string -> Option<int>): seq<int>
  {
    if records == [] then []
    else AllTimes(records[..|records| - 1], parseTime) + ChatTimes(records[|records| - 1], parseTime)
  }

  /**
   * One chat's turn of the running `lastActive`: a chat with valid times
   * replaces it when there is none yet or when its latest time is strictly
   * later.
   */
  function NextLatest(before: LastActive, ts: seq<int>): LastActive
  {
    if ts != [] && (before.Never? || MaxOf(ts) > before.millis) then At(MaxOf(ts)) else before
  }

  /** The running `lastActive` of the fold, chat by chat. */
  function Latest(records: seq<ChatRecord>, parseTime: string -> Option<int>): LastActive
  {
    if records == [] then Never
    else NextLatest(Latest(records[..|records| - 1], parseTime), ChatTimes(records[|records| - 1], parseTime))
  }

  /**
   * The range of a Firestore `Timestamp`, from 0001-01-01 up to but not
   * including 10000-01-01, in milliseconds: `Timestamp.fromMillis` throws
   * for a time outside it.
   */
  const MinTimestampMillis := -62135596800000
  const MaxTimestampMillis := 253402300800000

  predicate Representable(t: int)
  {
    MinTimestampMillis <= t < MaxTimestampMillis
  }

  /**
   * One chat's turn as the source takes it: the new `lastActive` goes
   * through `Timestamp.fromMillis`, so a new time outside the range throws
   * (`None`), and an unchanged `lastActive` is not converted again.
   */
  function Advance(before: LastActive, ts: seq<int>): Option<LastActive>
  {
    var after := NextLatest(before, ts);
    if after != before && !Representable(after.millis) then None else Some(after)
  }

  /** The running `lastActive` with the conversion: `None` once a turn has thrown. */
  function CheckedLatest(records: seq<ChatRecord>, parseTime: string -> Option<int>): Option<LastActive>
  {
    if records == [] then Some(Never)
    else
      var before := CheckedLatest(records[..|records| - 1], parseTime);
      if before.None? then None else Advance(before.value, ChatTimes(records[|records| - 1], parseTime))
  }

  /**
   * The conversion either agrees with the plain fold or throws: it always
   * gets through when every valid time is in range, and it never gets
   * through when the final `lastActive` is out of range.
   */
  lemma {:induction false} CheckedLatestAgrees(records: seq<ChatRecord>, parseTime: string -> Option<int>)
    ensures CheckedLatest(records, parseTime).Some? ==> CheckedLatest(records, parseTime).value == Latest(records, parseTime)
    ensures (forall t :: t in AllTimes(records, parseTime) ==> Representable(t)) ==> CheckedLatest(records, parseTime).Some?
    ensures Latest(records, parseTime).At? && !Representable(Latest(records, parseTime).millis) ==>
      CheckedLatest(records, parseTime).None?
  {
    if records != [] {
      var init := records[..|records| - 1];
      var ts := ChatTimes(records[|records| - 1], parseTime);
      CheckedLatestAgrees(init, parseTime);
      assert AllTimes(records, parseTime) == AllTimes(init, parseTime) + ts;
      if ts != [] {
        assert MaxOf(ts) in AllTimes(records, parseTime);
      }
    }
  }

  /** Once a turn has thrown, the rest of the fold does not run: the whole fold has thrown. */
  lemma {:induction false} CheckedLatestStaysFailed(records: seq<ChatRecord>, i: nat, parseTime: string -> Option<int>)
    requires i <= |records|
    requires CheckedLatest(records[..i], parseTime).None?
    ensures CheckedLatest(records, parseTime).None?
  {
    if i == |records| {
      assert records[..i] == records;
    } else {
      var init := records[..|records| - 1];
      assert init[..i] == records[..i];
      CheckedLatestStaysFailed(init, i, parseTime);
    }
  }

  /** `lastActive` is `'Never'` exactly when no message time parses, and otherwise the greatest of them. */
  lemma {:induction false} LatestIsGreatest(records: seq<ChatRecord>, parseTime: string -> Option<int>)
    ensures Latest(records, parseTime) == Never <==> AllTimes(records, parseTime) == []
    ensures Latest(records, parseTime).At? ==>
      Latest(records, parseTime).millis in AllTimes(records, parseTime) &&
      forall t :: t in AllTimes(records, parseTime) ==> t <= Latest(records, parseTime).millis
  {
    if records != [] {
      var init := records[..|records| - 1];
      var ts := ChatTimes(records[|records| - 1], parseTime);
      LatestIsGreatest(init, parseTime);
      assert AllTimes(records, parseTime) == AllTimes(init, parseTime) + ts;
      if ts != [] {
        var m := MaxOf(ts);
        assert m in AllTimes(records, parseTime);
      }
    }
  }

  /**
   * `Math.round` of a number of milliseconds taken as seconds: the nearest
   * whole second, halves rounded up.
   */
  function RoundSeconds(ms: int): (s: int)
    ensures 1000 * s - 500 <= ms < 1000 * s + 500
  {
    (ms + 500) / 1000
  }

  /** The summary of a user whose profile was found, over the user's stored chats. */
  function Summary(uid: string, user: UserData, records: seq<ChatRecord>, parseTime: string -> Option<int>): (a: UserAnalytics)
    ensures a.uid == uid && a.sessionCount == |records|
    ensures a.email == (if user.email != "" then user.email else "Unknown")
    ensures a.displayName == (if user.name != "" then Some(user.name) else None)
    ensures a.totalSessionDuration >= 0
  {
    UserAnalytics(uid,
                  if user.email != "" then user.email else "Unknown",
                  if user.name != "" then Some(user.name) else None,
                  TotalMessages(records), |records|,
                  RoundSeconds(TotalSpan(records, parseTime)),
                  Latest(records, parseTime))
  }

  /** How each total of the fold grows by one more chat. */
  lemma FoldStep(records: seq<ChatRecord>, i: nat, parseTime: string -> Option<int>)
    requires i < |records|
    ensures TotalMessages(records[..i + 1]) == TotalMessages(records[..i]) + UserMessageCount(MessagesOf(records[i]))
    ensures TotalSpan(records[..i + 1], parseTime) == TotalSpan(records[..i], parseTime) + Span(ChatTimes(records[i], parseTime))
    ensures Latest(records[..i + 1], parseTime) == NextLatest(Latest(records[..i], parseTime), ChatTimes(records[i], parseTime))
    ensures CheckedLatest(records[..i], parseTime).Some? ==>
      CheckedLatest(records[..i + 1], parseTime) == Advance(CheckedLatest(records[..i], parseTime).value, ChatTimes(records[i], parseTime))
  {
    assert records[..i + 1][..i] == records[..i];
  }

  /**
   * The body of the fold for one chat: its user messages, its span and the
   * new `lastActive`, or `None` when `Timestamp.fromMillis` throws on a new
   * time out of range.
   */
  method VisitChat(record: ChatRecord, parseTime: string -> Option<int>, lastActive: LastActive)
    returns (userMessages: nat, spanMillis: int, latestSoFar: Option<LastActive>)
    ensures userMessages == UserMessageCount(MessagesOf(record))
    ensures spanMillis == Span(ChatTimes(record, parseTime))
    ensures latestSoFar == Advance(lastActive, ChatTimes(record, parseTime))
  {
    var messages := MessagesOf(record);
    userMessages := UserMessageCount(messages);
    var timestamps := ValidTimes(messages, parseTime);
    spanMillis, latestSoFar := 0, Some(lastActive);
    if |timestamps| > 0 {
      spanMillis := MaxOf(timestamps) - MinOf(timestamps);
      var latest := MaxOf(timestamps);
      if lastActive.Never? || latest > lastActive.millis {
        if latest < MinTimestampMillis || latest >= MaxTimestampMillis {
          return userMessages, spanMillis, None;
        }
        latestSoFar := Some(At(latest));
      }
    }
  }

  /**
   * `getUserAnalytics`: `None` when the profile is missing, the chats
   * cannot be read or a new `lastActive` is out of a `Timestamp`'s range;
   * otherwise the fold over the chats, one session per chat.
   */
  method GetUserAnalytics(uid: string, user: Option<UserData>, chats: Option<seq<ChatRecord>>,
                          parseTime: string -> Option<int>) returns (r: Option<UserAnalytics>)
    ensures user.None? || chats.None? ==> r.None?
    ensures user.Some? && chats.Some? && CheckedLatest(chats.value, parseTime).None? ==> r.None?
    ensures user.Some? && chats.Some? && CheckedLatest(chats.value, parseTime).Some? ==>
      r == Some(Summary(uid, user.value, chats.value, parseTime))
  {
    if user.None? || chats.None? {
      return None;
    }
    var records := chats.value;
    var messageCount: nat := 0;
    var sessionCount: nat := 0;
    var totalMillis := 0;
    var lastActive := Never;
    var i := 0;
    while i < |records|
      invariant 0 <= i <= |records|
      invariant messageCount == TotalMessages(records[..i])
      invariant sessionCount == i
      invariant totalMillis == TotalSpan(records[..i], parseTime)
      invariant CheckedLatest(records[..i], parseTime) == Some(lastActive)
    {
      FoldStep(records, i, parseTime);
      var userMessages, spanMillis, next := VisitChat(records[i], parseTime, lastActive);
      if next.None? {
        CheckedLatestStaysFailed(records, i + 1, parseTime);
        return None;
      }
      lastActive := next.value;
      messageCount := messageCount + userMessages;
      sessionCount := sessionCount + 1;
      totalMillis := totalMillis + spanMillis;
      i := i + 1;
    }
    assert records[..i] == records;
    CheckedLatestAgrees(records, parseTime);
    var u := user.value;
    return Some(UserAnalytics(uid,
                              if u.email != "" then u.email else "Unknown",
                              if u.name != "" then Some(u.name) else None,
                              messageCount, sessionCount, RoundSeconds(totalMillis), lastActive));
  }
}
