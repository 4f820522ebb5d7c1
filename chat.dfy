/**
 * The admission pipeline of the chat relay (`ChatService`): identity checks,
 * the process-wide spam window, content moderation with the bad-word
 * auto-mute, resolution of the sender's display name, persistence, and the
 * creation of new clients.
 */
module Chat {
  import opened Wrappers
  import opened Text
  import opened Models
  import opened Registry
  import opened Mutes

  /** After an enqueue the window drops its oldest entry once it holds this many. */
  const WindowTrimAt: int := 10
  /** Messages longer than this are refused whenever the window holds a copy from the sender. */
  const LongMessageLength: int := 6
  /** Bad-word hits a sender may collect before the auto-mute. */
  const MaxFilterSkips: int := 3
  const AutoMuteDuration: int := 15 * Minute
  const AutoMuteText: string := "You violated the chat rules"
  /** The name a sender gets when the name lookups keep answering nothing. */
  const FallbackName: string := "invalid name"
  /** Name lookups `FillName` makes at most. */
  const MaxNameLookups: nat := 5
  const AuthLink: string := "https://sky.coflnet.com/authmod"

  /** Substrings refused in the normalized text (a hash set: order does not matter). */
  const BadWordSet: set<string> := {
    " cock ", "penis ", " ass ", "b.com", "/auction", "@everyone", "@here", " retard", " qf ",
    " kys ", "nigger", "nigga", " fag ", "faggot", "quickerflipper",
    "my ah", "/ah ", " im selling", "i am selling", "selling cofl coins ",
    "\U{0434}", "\U{0431}", "\U{043B}", "\U{0439}", "\U{043F}", "\U{044C}", "\U{0436}"
  }

  // ---------------------------------------------------------------------------
  // Identity
  // ---------------------------------------------------------------------------

  /**
   * The identity checks that open `SendMessage`, in their order: the token must
   * be registered, the sender uuid set, and a given client name must be the
   * token's client name.
   */
  function Identify(clients: map<string, Client>, token: string, uuid: string, clientName: Option<string>)
    : (r: Result<Client, ErrorCode>)
    ensures r.Ok? <==> token in clients && uuid != "" && (clientName.None? || clientName.value == clients[token].name)
    ensures r.Ok? ==> r.value == clients[token]
    ensures token !in clients ==> r == Err(InvalidToken)
    ensures token in clients && uuid == "" ==> r == Err(InvalidUuid)
    ensures token in clients && uuid != "" && r.Err? ==> r == Err(TokenMismatch)
  {
    if token !in clients then Err(InvalidToken)
    else if uuid == "" then Err(InvalidUuid)
    else if clientName.Some? && clientName.value != clients[token].name then Err(TokenMismatch)
    else Ok(clients[token])
  }

  // ---------------------------------------------------------------------------
  // Spam window
  // ---------------------------------------------------------------------------

  /**
   * The entry that ordering by descending timestamp and taking one picks: the
   * latest timestamp and, the sort being stable, the first such entry in queue order.
   */
  function LatestIndex(w: seq<DbMessage>): (k: nat)
    requires |w| > 0
    ensures k < |w|
    ensures forall i :: 0 <= i < |w| ==> w[i].timestamp <= w[k].timestamp
    ensures forall i :: 0 <= i < k ==> w[i].timestamp < w[k].timestamp
  {
    if |w| == 1 then 0
    else
      var k := LatestIndex(w[..|w| - 1]);
      if w[|w| - 1].timestamp > w[k].timestamp then |w| - 1 else k
  }

  /** The latest entry of the window is this sender saying this. */
  predicate WasLastMessage(w: seq<DbMessage>, sender: string, content: string) {
    |w| > 0 && w[LatestIndex(w)].sender == sender && w[LatestIndex(w)].content == content
  }

  /** A long message the window already holds from this sender. */
  predicate AlreadySentLong(w: seq<DbMessage>, sender: string, content: string) {
    exists i :: 0 <= i < |w| && w[i].sender == sender && w[i].content == content && |content| > LongMessageLength
  }

  /** `ThrowIfSpam`: the message would be refused with `message_spam`. */
  predicate IsSpam(w: seq<DbMessage>, sender: string, content: string) {
    WasLastMessage(w, sender, content) || AlreadySentLong(w, sender, content)
  }

  /**
   * The window after an admitted message is enqueued: the newest entries in
   * arrival order, with the oldest dropped once ten are held.
   */
  function Admit(w: seq<DbMessage>, m: DbMessage): (r: seq<DbMessage>)
    ensures |r| > 0 && r[|r| - 1] == m
    ensures |w| < WindowTrimAt ==> |r| == if |w| + 1 < WindowTrimAt then |w| + 1 else WindowTrimAt - 1
    ensures |r| <= |w| + 1 && r == (w + [m])[|w| + 1 - |r|..]
  {
    var q := w + [m];
    if |q| >= WindowTrimAt then q[1..] else q
  }

  /** The window after a run of admitted messages, in order. */
  function AdmitAll(w: seq<DbMessage>, later: seq<DbMessage>): seq<DbMessage>
    decreases |later|
  {
    if later == [] then w else AdmitAll(Admit(w, later[0]), later[1..])
  }

  /** A window that holds at most nine entries keeps doing so. */
  lemma {:induction false} WindowStaysBounded(w: seq<DbMessage>, later: seq<DbMessage>)
    requires |w| < WindowTrimAt
    ensures |AdmitAll(w, later)| < WindowTrimAt
    decreases |later|
  {
    if later != [] {
      WindowStaysBounded(Admit(w, later[0]), later[1..]);
    }
  }

  /**
   * A message that lies `d` entries before the newest end of the window is
   * still held after `later` further admissions, as long as `d + |later|` is at
   * most eight.
   */
  lemma {:induction false} StaysInWindow(w: seq<DbMessage>, d: nat, later: seq<DbMessage>)
    requires |w| < WindowTrimAt && d < |w| && d + |later| <= WindowTrimAt - 2
    ensures w[|w| - 1 - d] in AdmitAll(w, later)
    decreases |later|
  {
    if later != [] {
      var w' := Admit(w, later[0]);
      var s := |w| + 1 - |w'|;
      assert w'[|w'| - 2 - d] == (w + [later[0]])[s + |w'| - 2 - d];
      StaysInWindow(w', d + 1, later[1..]);
    }
  }

  /**
   * A long message re-sent by its sender is refused as long as at most eight
   * other messages were admitted after it.
   */
  lemma LongRepeatIsSpam(w: seq<DbMessage>, m: DbMessage, later: seq<DbMessage>)
    requires |w| < WindowTrimAt && |later| <= WindowTrimAt - 2 && |m.content| > LongMessageLength
    ensures IsSpam(AdmitAll(Admit(w, m), later), m.sender, m.content)
  {
    var w' := Admit(w, m);
    StaysInWindow(w', 0, later);
    var v := AdmitAll(w', later);
    var i :| 0 <= i < |v| && v[i] == m;
    assert AlreadySentLong(v, m.sender, m.content);
  }

  /**
   * A message, however short, re-sent right after it was admitted is refused
   * when it carries the newest timestamp of the window.
   */
  lemma ImmediateRepeatIsSpam(w: seq<DbMessage>, m: DbMessage)
    requires forall i :: 0 <= i < |w| ==> w[i].timestamp < m.timestamp
    ensures IsSpam(Admit(w, m), m.sender, m.content)
  {
    var r := Admit(w, m);
    var k := LatestIndex(r);
    if k < |r| - 1 {
      assert false;
    }
  }

  /** A short message is refused only when it repeats the window's latest entry. */
  lemma ShortMessagesOnlyRejectedWhenLatest(w: seq<DbMessage>, sender: string, content: string)
    requires |content| <= LongMessageLength
    ensures IsSpam(w, sender, content) <==> WasLastMessage(w, sender, content)
  {
  }

  /** Only the sender's own messages count against it. */
  lemma OtherSendersNeverSpam(w: seq<DbMessage>, sender: string, content: string)
    requires forall i :: 0 <= i < |w| ==> w[i].sender != sender
    ensures !IsSpam(w, sender, content)
  {
    if |w| > 0 {
      var k := LatestIndex(w);
      assert w[k].sender != sender;
    }
  }

  // ---------------------------------------------------------------------------
  // Content moderation
  // ---------------------------------------------------------------------------

  /** `Replace("_", "").Replace("-", "").Replace(".", "")`: the separators removed. */
  function StripSeparators(s: string): (r: string)
    ensures '_' !in r && '-' !in r && '.' !in r
    ensures forall x :: x in r <==> x in s && x != '_' && x != '-' && x != '.'
    ensures |r| <= |s|
  {
    RemoveAll(RemoveAll(RemoveAll(s, '_'), '-'), '.')
  }

  /** Removing separators commutes with concatenation. */
  lemma StripSeparatorsConcat(a: string, b: string)
    ensures StripSeparators(a + b) == StripSeparators(a) + StripSeparators(b)
  {
    RemoveAllConcat(a, b, '_');
    var a1, b1 := RemoveAll(a, '_'), RemoveAll(b, '_');
    RemoveAllConcat(a1, b1, '-');
    RemoveAllConcat(RemoveAll(a1, '-'), RemoveAll(b1, '-'), '.');
  }

  /**
   * The text the filters read: lower-cased, with `_`, `-` and `.` removed, and
   * padded by one space on each side.
   */
  function Normalize(msg: string): (n: string)
    ensures '_' !in n && '-' !in n && '.' !in n
    ensures |n| >= 2 && n[0] == ' ' && n[|n| - 1] == ' '
    ensures |n| <= |msg| + 2
  {
    " " + StripSeparators(Lower(msg)) + " "
  }

  /**
   * Splitting a word with a separator does not get it past the filters: the
   * normalized text is the same.
   */
  lemma SeparatorsIgnored(a: string, b: string, c: char)
    requires c == '_' || c == '-' || c == '.'
    ensures Normalize(a + [c] + b) == Normalize(a + b)
  {
    var la, lb := Lower(a), Lower(b);
    assert Lower(a + [c] + b) == la + [c] + lb by {
      LowerConcat(a + [c], b);
      LowerConcat(a, [c]);
      assert Lower([c]) == [c];
    }
    assert Lower(a + b) == la + lb by {
      LowerConcat(a, b);
    }
    assert StripSeparators(la + [c] + lb) == StripSeparators(la) + StripSeparators(lb) by {
      StripSeparatorsConcat(la + [c], lb);
      StripSeparatorsConcat(la, [c]);
      assert StripSeparators([c]) == [];
    }
    StripSeparatorsConcat(la, lb);
  }

  /** No pattern containing a dot can occur in normalized text. */
  lemma DottedPatternsNeverMatch(msg: string, p: string)
    requires '.' in p
    ensures !Contains(Normalize(msg), p)
  {
    if Contains(Normalize(msg), p) {
      var k :| 0 <= k < |p| && p[k] == '.';
      ContainsCharOf(Normalize(msg), p, k);
    }
  }

  /** The normalized text contains one of the bad words. */
  predicate HasBadWord(n: string) {
    exists w :: w in BadWordSet && Contains(n, w)
  }

  /** The link filter, read on the normalized text and on the lower-cased raw text. */
  predicate HasLink(msg: string, n: string) {
    || (Contains(n, ".com") && !Contains(Lower(msg), "coflnet"))
    || Contains(n, ".net")
    || Contains(n, ".gg")
    || Contains(n, ".de")
    || Contains(n, ".io")
  }

  /**
   * The content filters of `AssertMessageSendable` after the mute check, in
   * their order: the first that fires names the refusal, `None` lets it pass.
   * Normalization removes every dot, so the link filter never fires.
   */
  function ContentVerdict(msg: string): (v: Option<ErrorCode>)
    ensures v != Some(LinkFound)
    ensures v.Some? ==> v.value in {Rule2, BadWords, AuthFound, IllegalScript}
    ensures v == None <==>
      var n := Normalize(msg);
      !Contains(n, "my ah ") && !HasBadWord(n) && !Contains(msg, AuthLink) && !Contains(n, "binmaster")
  {
    var n := Normalize(msg);
    DottedPatternsNeverMatch(msg, ".com");
    DottedPatternsNeverMatch(msg, ".net");
    DottedPatternsNeverMatch(msg, ".gg");
    DottedPatternsNeverMatch(msg, ".de");
    DottedPatternsNeverMatch(msg, ".io");
    if Contains(n, "my ah ") then Some(Rule2)
    else if HasBadWord(n) then Some(BadWords)
    else if HasLink(msg, n) then Some(LinkFound)
    else if Contains(msg, AuthLink) then Some(AuthFound)
    else if Contains(n, "binmaster") then Some(IllegalScript)
    else None
  }

  /**
   * `rule_2` is checked before the bad words: a text holding "my ah " also holds
   * the bad word "my ah", yet it is refused as `rule_2`.
   */
  lemma Rule2ShadowsBadWord(msg: string)
    requires Contains(Normalize(msg), "my ah ")
    ensures HasBadWord(Normalize(msg)) && ContentVerdict(msg) == Some(Rule2)
  {
    var n := Normalize(msg);
    var i :| 0 <= i <= |n| - 6 && OccursAt(n, "my ah ", i);
    assert n[i..i + 5] == n[i..i + 6][..5];
    assert OccursAt(n, "my ah", i);
    assert "my ah" in BadWordSet;
  }

  /** The "b.com" entry of the bad words can never match. */
  lemma DottedBadWordIsDead(msg: string)
    ensures !Contains(Normalize(msg), "b.com")
  {
    DottedPatternsNeverMatch(msg, "b.com");
  }

  // ---------------------------------------------------------------------------
  // Bad-word counter and auto-mute
  // ---------------------------------------------------------------------------

  /** `AddOrUpdate(uuid, 1, v + 1)`: one more bad-word hit for the sender. */
  function Bumped(table: map<string, int>, uuid: string): (t: map<string, int>)
    ensures t.Keys == table.Keys + {uuid}
    ensures t[uuid] == if uuid in table then table[uuid] + 1 else 1
    ensures forall u :: u in table && u != uuid ==> t[u] == table[u]
  {
    if uuid in table then table[uuid := table[uuid] + 1] else table[uuid := 1]
  }

  /**
   * A counter table that starts empty, as a freshly constructed service's does,
   * sees one hit from the message being checked and never files the auto-mute.
   */
  lemma FreshTableNeverAutoMutes(muted: bool, text: string, uuid: string, rows: seq<Mute>, clientId: int, now: Time)
    ensures Sendable(muted, text, uuid, map[], rows, clientId, now).mutes == rows
  {
    assert Bumped(map[], uuid)[uuid] == 1;
  }

  /** The mute the chat service files after the fourth bad-word hit. */
  function AutoMute(uuid: string, now: Time): Mute {
    Mute(0, uuid, ChatServiceMuter, AutoMuteText, "", now, now + AutoMuteDuration, false, 0, 0, "")
  }

  /** The auto-mute text cites no rule ("rules" is not "rule ") and has no capital A. */
  lemma AutoMuteTextIsPlain()
    ensures !Contains(AutoMuteText, "rule ") && 'A' !in AutoMuteText
  {
    var s := AutoMuteText;
    forall i | 0 <= i <= |s| - 5
      ensures !OccursAt(s, "rule ", i)
    {
      assert s[i] != 'r' || s[i + 4] != ' ';
      assert s[i..i + 5][0] == s[i] && s[i..i + 5][4] == s[i + 4];
    }
  }

  /**
   * The auto-mute is not a tfm passthrough and is not escalated: its text cites
   * no rule and it has an expiry. Stored, it runs fifteen minutes.
   */
  lemma AutoMuteLastsFifteenMinutes(uuid: string, id: nat, clientId: int, rows: seq<Mute>, now: Time)
    ensures !Contains(AutoMute(uuid, now).message, "AUTOMUTE")
    ensures !Escalates(AutoMute(uuid, now))
    ensures Stored(AutoMute(uuid, now), id, clientId, rows, now).expires == now + AutoMuteDuration
  {
    AutoMuteTextIsPlain();
    if Contains(AutoMuteText, "AUTOMUTE") {
      ContainsCharOf(AutoMuteText, "AUTOMUTE", 0);
    }
    assert AutoMuteText + "" == AutoMuteText;
  }

  // ---------------------------------------------------------------------------
  // The decision of AssertMessageSendable
  // ---------------------------------------------------------------------------

  /** The cache `GetMute` reads: rebuilt from the table when it is empty. */
  function CacheView(cache: map<string, Mute>, rows: seq<Mute>, now: Time): map<string, Mute> {
    if |cache| == 0 then Collapse(ActiveMutes(rows, now)) else cache
  }

  /** The user has a mute in force in that cache. */
  predicate MutedIn(seen: map<string, Mute>, uuid: string, now: Time) {
    uuid in seen && Effective(seen[uuid], now)
  }

  /**
   * The cache after `AssertMessageSendable` read `seen`: rebuilt by `MuteUser`
   * when the auto-mute was filed (the table changed from `rows` to `mutes`),
   * otherwise as `GetMute` left it, with a sender not in force evicted.
   */
  function CacheAfter(seen: map<string, Mute>, uuid: string, rows: seq<Mute>, mutes: seq<Mute>, now: Time)
    : map<string, Mute>
  {
    if mutes != rows then Collapse(ActiveMutes(mutes, now))
    else if MutedIn(seen, uuid, now) then seen
    else seen - {uuid}
  }

  /** The refusal, the bad-word counters and the mute table after `AssertMessageSendable`. */
  datatype Decision = Decision(refusal: Option<ErrorCode>, skips: map<string, int>, mutes: seq<Mute>)

  /**
   * What `AssertMessageSendable` decides for a sender who is `muted` or not: a
   * mute refuses first, then the content filters. A bad-word hit is counted;
   * from the fourth the auto-mute is filed and every counter is cleared, unless
   * the chat service's own rate limit refuses the mute.
   */
  function Sendable(muted: bool, text: string, uuid: string, skips: map<string, int>, rows: seq<Mute>,
                    clientId: int, now: Time): (d: Decision)
    ensures d.refusal.None? <==> !muted && ContentVerdict(text) == None
    ensures muted ==> d == Decision(Some(UserMuted), skips, rows)
    ensures !muted && ContentVerdict(text) != Some(BadWords) ==> d == Decision(ContentVerdict(text), skips, rows)
    ensures d.refusal.Some? ==> d.refusal.value in {UserMuted, Rule2, BadWords, AuthFound, IllegalScript, TooManyMutes}
    ensures d.refusal == Some(TooManyMutes) ==> !muted && ContentVerdict(text) == Some(BadWords)
    ensures d.skips != skips ==> !muted && ContentVerdict(text) == Some(BadWords)
    ensures !muted && ContentVerdict(text) == Some(BadWords) ==> d == BadWordHit(uuid, skips, rows, clientId, now)
    ensures d.mutes == rows || (d.skips == map[] && d.mutes == rows + [Stored(AutoMute(uuid, now), |rows|, clientId, rows, now)])
  {
    if muted then Decision(Some(UserMuted), skips, rows)
    else if ContentVerdict(text) != Some(BadWords) then Decision(ContentVerdict(text), skips, rows)
    else BadWordHit(uuid, skips, rows, clientId, now)
  }

  /** A bad-word hit: counted, and from the fourth the auto-mute is filed and every counter cleared. */
  function BadWordHit(uuid: string, skips: map<string, int>, rows: seq<Mute>, clientId: int, now: Time): (d: Decision)
    ensures d.refusal == Some(BadWords) || d.refusal == Some(TooManyMutes)
    ensures d.mutes == rows || (d.skips == map[] && d.mutes == rows + [Stored(AutoMute(uuid, now), |rows|, clientId, rows, now)])
  {
    var bumped := Bumped(skips, uuid);
    if bumped[uuid] <= MaxFilterSkips then Decision(Some(BadWords), bumped, rows)
    else if RateLimited(rows, AutoMute(uuid, now), now) then Decision(Some(TooManyMutes), bumped, rows)
    else Decision(Some(BadWords), map[], rows + [Stored(AutoMute(uuid, now), |rows|, clientId, rows, now)])
  }

  /**
   * The fourth bad-word hit (the counter stood at three) files a fifteen-minute
   * mute in force from now by the chat service, unless that muter is rate limited.
   */
  lemma FourthHitFilesAutoMute(text: string, uuid: string, skips: map<string, int>, rows: seq<Mute>,
                               clientId: int, now: Time)
    requires ContentVerdict(text) == Some(BadWords) && uuid in skips && skips[uuid] == MaxFilterSkips
    requires !RateLimited(rows, AutoMute(uuid, now), now)
    ensures var d := Sendable(false, text, uuid, skips, rows, clientId, now);
      && d.refusal == Some(BadWords) && d.skips == map[] && |d.mutes| == |rows| + 1
      && d.mutes[..|rows|] == rows
      && var m := d.mutes[|rows|];
         m.uuid == uuid && m.muter == ChatServiceMuter && m.expires == now + AutoMuteDuration && Effective(m, now)
  {
    AutoMuteLastsFifteenMinutes(uuid, |rows|, clientId, rows, now);
    var d := Sendable(false, text, uuid, skips, rows, clientId, now);
    assert d.mutes[..|rows|] == rows;
  }

  /**
   * A sender the auto-mute was just filed for is refused as `user_muted` by
   * every check in the next fifteen minutes, whatever the text: the rebuilt
   * cache holds a mute in force for the sender.
   */
  lemma AutoMutedSenderIsRefused(seen: map<string, Mute>, text: string, uuid: string, skips: map<string, int>,
                                 rows: seq<Mute>, clientId: int, now: Time,
                                 later: string, laterSkips: map<string, int>, laterNow: Time)
    requires Sendable(false, text, uuid, skips, rows, clientId, now).mutes != rows
    requires now <= laterNow < now + AutoMuteDuration
    ensures var d := Sendable(false, text, uuid, skips, rows, clientId, now);
      var c := CacheAfter(seen, uuid, rows, d.mutes, now);
      && MutedIn(CacheView(c, d.mutes, laterNow), uuid, laterNow)
      && Sendable(MutedIn(CacheView(c, d.mutes, laterNow), uuid, laterNow), later, uuid, laterSkips, d.mutes,
                  clientId, laterNow).refusal == Some(UserMuted)
  {
    var d := Sendable(false, text, uuid, skips, rows, clientId, now);
    var m := Stored(AutoMute(uuid, now), |rows|, clientId, rows, now);
    assert d.mutes == rows + [m];
    AutoMuteLastsFifteenMinutes(uuid, |rows|, clientId, rows, now);
    assert m in d.mutes && Effective(m, now);
    InForceRowStaysCached(d.mutes, m, now);
  }

  /**
   * The decision after `k` bad-word hits by one sender in a row, from an empty
   * counter table, all at the same instant.
   */
  function HitRun(uuid: string, rows: seq<Mute>, clientId: int, now: Time, k: nat): Decision {
    if k == 0 then Decision(None, map[], rows)
    else
      var d := HitRun(uuid, rows, clientId, now, k - 1);
      BadWordHit(uuid, d.skips, d.mutes, clientId, now)
  }

  /**
   * With the counter table kept across hits, hits one to three only count, the
   * fourth files the auto-mute and empties the table, and the fifth starts
   * counting again without filing anything.
   */
  lemma {:induction false} FourthHitOfARunFilesAutoMute(uuid: string, rows: seq<Mute>, clientId: int, now: Time)
    requires !RateLimited(rows, AutoMute(uuid, now), now)
    ensures forall k :: 1 <= k <= MaxFilterSkips ==>
      HitRun(uuid, rows, clientId, now, k) == Decision(Some(BadWords), map[uuid := k], rows)
    ensures HitRun(uuid, rows, clientId, now, 4)
      == Decision(Some(BadWords), map[], rows + [Stored(AutoMute(uuid, now), |rows|, clientId, rows, now)])
    ensures HitRun(uuid, rows, clientId, now, 5)
      == Decision(Some(BadWords), map[uuid := 1], HitRun(uuid, rows, clientId, now, 4).mutes)
  {
    assert HitRun(uuid, rows, clientId, now, 0) == Decision(None, map[], rows);
    assert HitRun(uuid, rows, clientId, now, 1) == Decision(Some(BadWords), map[uuid := 1], rows);
    assert map[uuid := 1][uuid := 2] == map[uuid := 2];
    assert HitRun(uuid, rows, clientId, now, 2) == Decision(Some(BadWords), map[uuid := 2], rows);
    assert map[uuid := 2][uuid := 3] == map[uuid := 3];
    assert HitRun(uuid, rows, clientId, now, 3) == Decision(Some(BadWords), map[uuid := 3], rows);
    assert HitRun(uuid, rows, clientId, now, 4)
      == Decision(Some(BadWords), map[], rows + [Stored(AutoMute(uuid, now), |rows|, clientId, rows, now)]);
  }

  /** Below the fourth hit a bad word only bumps the sender's counter. */
  lemma EarlyHitsOnlyCount(text: string, uuid: string, skips: map<string, int>, rows: seq<Mute>,
                           clientId: int, now: Time)
    requires ContentVerdict(text) == Some(BadWords) && (uuid !in skips || skips[uuid] < MaxFilterSkips)
    ensures var d := Sendable(false, text, uuid, skips, rows, clientId, now);
      d.refusal == Some(BadWords) && d.mutes == rows && d.skips == Bumped(skips, uuid)
  {
  }

  // ---------------------------------------------------------------------------
  // Display name
  // ---------------------------------------------------------------------------

  /**
   * The name lookups from attempt `tries` on (the `i`-th lookup answers
   * `lookup(i)`), and how many were made in all. The fifth answer is replaced
   * by the fallback name whatever it is.
   */
  function NameFrom(lookup: nat -> string, tries: nat): (r: (string, nat))
    requires tries < MaxNameLookups
    ensures r.0 != "" && tries < r.1 <= MaxNameLookups
    ensures forall i :: tries <= i < r.1 - 1 ==> lookup(i) == ""
    ensures r.1 < MaxNameLookups ==> r.0 == lookup(r.1 - 1)
    ensures r.1 == MaxNameLookups ==> r.0 == FallbackName
    decreases MaxNameLookups - tries
  {
    if tries > 3 then (FallbackName, tries + 1)
    else if lookup(tries) != "" then (lookup(tries), tries + 1)
    else NameFrom(lookup, tries + 1)
  }

  /** The name `FillName` leaves and the lookups it makes. */
  function ResolvedName(name: string, lookup: nat -> string): (r: (string, nat))
    ensures r.0 != "" && r.1 <= MaxNameLookups
    ensures name != "" <==> r.1 == 0
    ensures name != "" ==> r.0 == name
  {
    if name != "" then (name, 0) else NameFrom(lookup, 0)
  }

  /** The first non-empty answer among the first four lookups becomes the name. */
  lemma FirstAnswerWins(lookup: nat -> string, k: nat)
    requires k < MaxNameLookups - 1 && lookup(k) != ""
    requires forall i :: 0 <= i < k ==> lookup(i) == ""
    ensures ResolvedName("", lookup) == (lookup(k), k + 1)
  {
  }

  /** Four empty answers: the fifth lookup is made and its answer discarded. */
  lemma FifthAnswerDiscarded(lookup: nat -> string)
    requires forall i :: 0 <= i < MaxNameLookups - 1 ==> lookup(i) == ""
    ensures ResolvedName("", lookup) == (FallbackName, MaxNameLookups)
  {
    assert lookup(3) == "";
    assert NameFrom(lookup, 3) == NameFrom(lookup, 4);
  }

  // ---------------------------------------------------------------------------
  // Clients
  // ---------------------------------------------------------------------------

  /** Some stored client carries the name. */
  predicate NameTaken(rows: seq<Client>, name: string) {
    exists i :: 0 <= i < |rows| && rows[i].name == name
  }

  /** No two stored clients share a name. */
  predicate NamesUnique(rows: seq<Client>) {
    forall i, j :: 0 <= i < j < |rows| ==> rows[i].name != rows[j].name
  }

  // ---------------------------------------------------------------------------
  // The service
  // ---------------------------------------------------------------------------

  /** Validation and distribution of chat messages. */
  class ChatService {
    const db: Db
    const background: ChatBackgroundService
    const muteService: MuteService
    /** The process-wide window of recently admitted messages, oldest first. */
    var recentMessages: seq<DbMessage>
    /** Bad-word hits per sender since the last auto-mute. */
    var filterSkipAttempts: map<string, int>

    /** The services share one database and registry, and the window holds at most nine entries. */
    ghost predicate Valid()
      reads this, muteService, db
    {
      && muteService.db == db
      && muteService.background == background
      && muteService.Valid()
      && |recentMessages| < WindowTrimAt
    }

    constructor (db: Db, background: ChatBackgroundService, muteService: MuteService)
      requires muteService.db == db && muteService.background == background && muteService.Valid()
      ensures Valid()
      ensures this.db == db && this.background == background && this.muteService == muteService
      ensures recentMessages == [] && filterSkipAttempts == map[]
    {
      this.db := db;
      this.background := background;
      this.muteService := muteService;
      recentMessages := [];
      filterSkipAttempts := map[];
    }

    /**
     * Admits a message: the identity checks and the spam window, then `Deliver`.
     * A refused identity or a spam message leaves every table as it was.
     */
    method SendMessage(message: ChatMessage, token: string, now: Time, lookup: nat -> string)
      returns (r: Result<bool, ErrorCode>)
      requires Valid()
      modifies this, muteService, db, message
      ensures Valid()
      ensures db.clients == old(db.clients)
      ensures message.uuid == old(message.uuid) && message.message == old(message.message)
      ensures var id := Identify(background.clients, token, old(message.uuid), old(message.clientName));
        if id.Err? || IsSpam(old(recentMessages), old(message.uuid), old(message.message)) then
          && r == (if id.Err? then Err(id.error) else Err(MessageSpam))
          && message.clientName == (if id.Err? then old(message.clientName) else Some(id.value.name))
          && message.name == old(message.name)
          && recentMessages == old(recentMessages) && filterSkipAttempts == old(filterSkipAttempts)
          && db.messages == old(db.messages) && db.mutes == old(db.mutes)
          && muteService.cache == old(muteService.cache)
        else
          var stored := DbMessage(id.value.id, old(message.message), old(message.uuid), now);
          var d := Sendable(MutedIn(CacheView(old(muteService.cache), old(db.mutes), now), old(message.uuid), now),
                            old(message.message), old(message.uuid), old(filterSkipAttempts), old(db.mutes),
                            id.value.id, now);
          && message.clientName == Some(id.value.name)
          && recentMessages == Admit(old(recentMessages), stored)
          && db.messages == old(db.messages) + [stored]
          && filterSkipAttempts == d.skips && db.mutes == d.mutes
          && r == (if d.refusal.Some? then Err(d.refusal.value) else Ok(true))
          && message.name == (if d.refusal.Some? then old(message.name) else ResolvedName(old(message.name), lookup).0)
          && muteService.cache
             == CacheAfter(CacheView(old(muteService.cache), old(db.mutes), now), old(message.uuid), old(db.mutes), db.mutes, now)
    {
      var found := background.GetClient(token);
      if found.Err? {
        return Err(found.error);
      }
      var client := found.value;
      if message.uuid == "" {
        return Err(InvalidUuid);
      }
      if message.clientName.None? {
        message.clientName := Some(client.name);
      }
      if message.clientName != Some(client.name) {
        return Err(TokenMismatch);
      }
      if IsSpam(recentMessages, message.uuid, message.message) {
        return Err(MessageSpam);
      }
      r := Deliver(message, client, token, now, lookup);
    }

    /**
     * The part of `SendMessage` past the spam check: the message enters the
     * window, is checked, and is stored whether or not it is refused; an
     * accepted one first gets its sender's display name.
     */
    method Deliver(message: ChatMessage, client: Client, token: string, now: Time, lookup: nat -> string)
      returns (r: Result<bool, ErrorCode>)
      requires Valid() && message.uuid != "" && token in background.clients && background.clients[token] == client
      modifies this, muteService, db, message
      ensures Valid()
      ensures db.clients == old(db.clients)
      ensures message.uuid == old(message.uuid) && message.message == old(message.message)
      ensures message.clientName == old(message.clientName)
      ensures var stored := DbMessage(client.id, message.message, message.uuid, now);
        var d := Sendable(MutedIn(CacheView(old(muteService.cache), old(db.mutes), now), message.uuid, now),
                          message.message, message.uuid, old(filterSkipAttempts), old(db.mutes), client.id, now);
        && recentMessages == Admit(old(recentMessages), stored)
        && db.messages == old(db.messages) + [stored]
        && filterSkipAttempts == d.skips && db.mutes == d.mutes
        && r == (if d.refusal.Some? then Err(d.refusal.value) else Ok(true))
        && message.name == (if d.refusal.Some? then old(message.name) else ResolvedName(old(message.name), lookup).0)
      ensures muteService.cache
        == CacheAfter(CacheView(old(muteService.cache), old(db.mutes), now), message.uuid, old(db.mutes), db.mutes, now)
    {
      var dbMessage := DbMessage(client.id, message.message, message.uuid, now);
      Enqueue(dbMessage);
      var refusal := AssertMessageSendable(message, token, now);
      r := Finish(message, dbMessage, refusal, lookup);
    }

    /**
     * The end of `SendMessage`: a refused message is stored and the refusal
     * returned; an accepted one gets its sender's name first, then is stored.
     */
    method Finish(message: ChatMessage, stored: DbMessage, refusal: Option<ErrorCode>, lookup: nat -> string)
      returns (r: Result<bool, ErrorCode>)
      requires Valid()
      modifies db, message
      ensures Valid()
      ensures db.messages == old(db.messages) + [stored]
      ensures db.mutes == old(db.mutes) && db.clients == old(db.clients)
      ensures message.uuid == old(message.uuid) && message.message == old(message.message)
      ensures message.clientName == old(message.clientName)
      ensures r == (if refusal.Some? then Err(refusal.value) else Ok(true))
      ensures message.name == (if refusal.Some? then old(message.name) else ResolvedName(old(message.name), lookup).0)
    {
      if refusal.Some? {
        db.messages := db.messages + [stored];
        return Err(refusal.value);
      }
      var lookups := FillName(message, lookup);
      db.messages := db.messages + [stored];
      return Ok(true);
    }

    /** Enqueues an admitted message and drops the oldest entry once ten are held. */
    method Enqueue(m: DbMessage)
      requires |recentMessages| < WindowTrimAt
      modifies this
      ensures recentMessages == Admit(old(recentMessages), m) && |recentMessages| < WindowTrimAt
      ensures filterSkipAttempts == old(filterSkipAttempts)
    {
      recentMessages := recentMessages + [m];
      if |recentMessages| >= WindowTrimAt {
        recentMessages := recentMessages[1..];
      }
    }

    /**
     * The mute check and the content filters, as `Sendable` states them; the
     * auto-mute goes through `MuteService.MuteUser`, and a `too_many_mutes`
     * from it becomes the refusal.
     */
    method AssertMessageSendable(message: ChatMessage, token: string, now: Time) returns (refusal: Option<ErrorCode>)
      requires Valid() && message.uuid != "" && token in background.clients
      modifies this, muteService, db
      ensures Valid()
      ensures recentMessages == old(recentMessages)
      ensures db.messages == old(db.messages) && db.clients == old(db.clients)
      ensures Decision(refusal, filterSkipAttempts, db.mutes)
        == Sendable(MutedIn(CacheView(old(muteService.cache), old(db.mutes), now), message.uuid, now),
                    message.message, message.uuid, old(filterSkipAttempts), old(db.mutes),
                    background.clients[token].id, now)
      ensures muteService.cache
        == CacheAfter(CacheView(old(muteService.cache), old(db.mutes), now), message.uuid, old(db.mutes), db.mutes, now)
    {
      var mute := muteService.GetMute(message.uuid, now);
      if mute.Some? {
        return Some(UserMuted);
      }
      var verdict := ContentVerdict(message.message);
      if verdict != Some(BadWords) {
        return verdict;
      }
      var refused := CountBadWord(message.uuid, token, now);
      return Some(refused);
    }

    /**
     * The bad-word branch of `AssertMessageSendable`: count the hit and, from
     * the fourth, file the auto-mute and clear every counter.
     */
    method CountBadWord(uuid: string, token: string, now: Time) returns (refusal: ErrorCode)
      requires Valid() && uuid != "" && token in background.clients
      modifies this, muteService, db
      ensures Valid()
      ensures recentMessages == old(recentMessages)
      ensures db.messages == old(db.messages) && db.clients == old(db.clients)
      ensures Decision(Some(refusal), filterSkipAttempts, db.mutes)
        == BadWordHit(uuid, old(filterSkipAttempts), old(db.mutes), background.clients[token].id, now)
      ensures muteService.cache
        == if db.mutes != old(db.mutes) then Collapse(ActiveMutes(db.mutes, now)) else old(muteService.cache)
    {
      filterSkipAttempts := Bumped(filterSkipAttempts, uuid);
      if filterSkipAttempts[uuid] > MaxFilterSkips {
        var filed := FileAutoMute(uuid, token, now);
        if filed.Some? {
          return filed.value;
        }
        filterSkipAttempts := filterSkipAttempts[uuid := 0];
        filterSkipAttempts := map[];
      }
      return BadWords;
    }

    /** `MuteUser` called with the auto-mute: filed unless the chat service is rate limited. */
    method FileAutoMute(uuid: string, token: string, now: Time) returns (refusal: Option<ErrorCode>)
      requires muteService.Valid() && muteService.db == db && muteService.background == background
      requires uuid != "" && token in background.clients
      modifies muteService, db
      ensures muteService.Valid()
      ensures db.messages == old(db.messages) && db.clients == old(db.clients)
      ensures if RateLimited(old(db.mutes), AutoMute(uuid, now), now) then
          refusal == Some(TooManyMutes) && db.mutes == old(db.mutes)
        else
          refusal == None
          && db.mutes == old(db.mutes) + [Stored(AutoMute(uuid, now), |old(db.mutes)|, background.clients[token].id, old(db.mutes), now)]
      ensures muteService.cache
        == if db.mutes != old(db.mutes) then Collapse(ActiveMutes(db.mutes, now)) else old(muteService.cache)
    {
      AutoMuteLastsFifteenMinutes(uuid, |db.mutes|, background.clients[token].id, db.mutes, now);
      var filed := muteService.MuteUser(Some(AutoMute(uuid, now)), token, now);
      if filed.Err? {
        return Some(filed.error);
      }
      return None;
    }

    /**
     * Looks the sender's display name up while it is empty; the fifth lookup's
     * answer is replaced by "invalid name" and the loop stops.
     */
    method FillName(message: ChatMessage, lookup: nat -> string) returns (lookups: nat)
      modifies message
      ensures (message.name, lookups) == ResolvedName(old(message.name), lookup)
      ensures message.uuid == old(message.uuid) && message.message == old(message.message)
      ensures message.clientName == old(message.clientName)
    {
      var tries: nat := 0;
      while message.name == ""
        invariant message.uuid == old(message.uuid) && message.message == old(message.message)
        invariant message.clientName == old(message.clientName)
        invariant message.name == "" ==>
          tries < MaxNameLookups && old(message.name) == "" && NameFrom(lookup, tries) == ResolvedName("", lookup)
        invariant message.name != "" ==> (message.name, tries) == ResolvedName(old(message.name), lookup)
        decreases MaxNameLookups - tries
      {
        var result := lookup(tries);
        message.name := result;
        var attempt := tries;
        tries := tries + 1;
        if attempt > 3 {
          message.name := FallbackName;
          break;
        }
      }
      lookups := tries;
    }

    /**
     * Registers a client under a fresh api key (`key` stands for the random
     * one), refusing a name that is already taken.
     */
    method CreateClient(client: Client, key: string) returns (r: Result<Client, ErrorCode>)
      requires Valid()
      modifies db
      ensures Valid()
      ensures db.messages == old(db.messages) && db.mutes == old(db.mutes)
      ensures NameTaken(old(db.clients), client.name) ==> r == Err(ClientExists) && db.clients == old(db.clients)
      ensures !NameTaken(old(db.clients), client.name) ==>
        r == Ok(client.(apiKey := key)) && db.clients == old(db.clients) + [r.value]
      ensures NamesUnique(old(db.clients)) ==> NamesUnique(db.clients)
    {
      var sameName := Where(db.clients, (c: Client) => c.name == client.name);
      assert NameTaken(db.clients, client.name) ==> |sameName| > 0 by {
        if NameTaken(db.clients, client.name) {
          var i :| 0 <= i < |db.clients| && db.clients[i].name == client.name;
          assert db.clients[i] in sameName;
        }
      }
      if |sameName| > 0 {
        assert sameName[0] in db.clients;
        return Err(ClientExists);
      }
      var created := client.(apiKey := key);
      db.clients := db.clients + [created];
      return Ok(created);
    }
  }
}
