/**
 * The mute subsystem: the escalating mute duration, the in-memory cache of
 * the longest effective mute per user with its lazy refresh and eviction,
 * and the mute and unmute operations with their validation, rate limit and
 * escalation rules.
 */
module Mutes {
  import opened Wrappers
  import opened Text
  import opened Models
  import opened Registry

  /** Only mutes expiring within the last 400 days count towards escalation. */
  const LookbackDays: int := 400
  /** Rate limit: more than 5 live mutes by one muter within 6 hours is refused. */
  const RateWindow: int := 6 * Hour
  const MaxRecentMutes: int := 5
  /** The one muter identity exempt from the rate limit. */
  const AllowListedMuter: string := "384a029294fc445e863f2c42fe9709cb"
  /** The muter recorded on automatic mutes of the chat filter. */
  const ChatServiceMuter: string := "chat-service"

  // ---------------------------------------------------------------------------
  // Escalation: GetMuteTime
  // ---------------------------------------------------------------------------

  /** The lower-cased `Reason + Message` a past mute is judged by. */
  function MuteText(m: Mute): string {
    Lower(m.reason + m.message)
  }

  /** The `Where` of the loop: the mute expires within the lookback window. */
  predicate InLookback(m: Mute, now: Time) {
    m.expires > now - LookbackDays * Day
  }

  /** The factor one past mute contributes, following the loop body. */
  function Weight(m: Mute, now: Time): int {
    if !InLookback(m, now) then 1
    else
      var text := MuteText(m);
      if StartsWith(text, "tfm") then 1
      else if Contains(text, "rule 1") then 10
      else if Contains(text, "rule 2") then 3
      else 1
  }

  /** The fold of the loop over a mute history, left to right. */
  function MuteFactor(mutes: seq<Mute>, now: Time): (r: int)
    ensures r >= 1
  {
    if mutes == [] then 1
    else MuteFactor(mutes[..|mutes| - 1], now) * Weight(mutes[|mutes| - 1], now)
  }

  /** A mute that escalates by a factor of ten: it cites rule 1. */
  predicate CountsAsRule1(m: Mute, now: Time) {
    InLookback(m, now) && !StartsWith(MuteText(m), "tfm") && Contains(MuteText(m), "rule 1")
  }

  /** A mute that escalates by a factor of three: it cites rule 2 but not rule 1. */
  predicate CountsAsRule2(m: Mute, now: Time) {
    InLookback(m, now) && !StartsWith(MuteText(m), "tfm")
    && !Contains(MuteText(m), "rule 1") && Contains(MuteText(m), "rule 2")
  }

  function Rule1Count(mutes: seq<Mute>, now: Time): nat {
    if mutes == [] then 0
    else Rule1Count(mutes[..|mutes| - 1], now) + (if CountsAsRule1(mutes[|mutes| - 1], now) then 1 else 0)
  }

  function Rule2Count(mutes: seq<Mute>, now: Time): nat {
    if mutes == [] then 0
    else Rule2Count(mutes[..|mutes| - 1], now) + (if CountsAsRule2(mutes[|mutes| - 1], now) then 1 else 0)
  }

  function Pow(b: nat, e: nat): nat {
    if e == 0 then 1 else b * Pow(b, e - 1)
  }

  /** The duration is 10^a * 3^b hours for a rule-1 mutes and b rule-2-only mutes. */
  lemma {:induction false} MuteFactorClosedForm(mutes: seq<Mute>, now: Time)
    ensures MuteFactor(mutes, now) == Pow(10, Rule1Count(mutes, now)) * Pow(3, Rule2Count(mutes, now))
  {
    if mutes != [] {
      var init, last := mutes[..|mutes| - 1], mutes[|mutes| - 1];
      MuteFactorClosedForm(init, now);
      var a, b := Rule1Count(init, now), Rule2Count(init, now);
      var p10, p3 := Pow(10, a), Pow(3, b);
      assert MuteFactor(mutes, now) == (p10 * p3) * Weight(last, now);
      if CountsAsRule1(last, now) {
        assert Weight(last, now) == 10;
        assert Rule1Count(mutes, now) == a + 1 && Rule2Count(mutes, now) == b;
        assert Pow(10, a + 1) == 10 * p10;
        MulSwap(p10, p3, 10);
        assert (p10 * p3) * 10 == (p10 * 10) * p3;
      } else if CountsAsRule2(last, now) {
        assert Weight(last, now) == 3;
        assert Rule1Count(mutes, now) == a && Rule2Count(mutes, now) == b + 1;
        assert Pow(3, b + 1) == 3 * p3;
        MulAssoc(p10, p3, 3);
      } else {
        assert Weight(last, now) == 1;
        assert Rule1Count(mutes, now) == a && Rule2Count(mutes, now) == b;
      }
    }
  }

  lemma MulAssoc(x: int, y: int, z: int)
    ensures (x * y) * z == x * (y * z)
  {
  }

  lemma MulSwap(x: int, y: int, z: int)
    ensures (x * y) * z == (x * z) * y
  {
    calc {
      (x * y) * z;
      { MulAssoc(x, y, z); }
      x * (y * z);
      x * (z * y);
      { MulAssoc(x, z, y); }
      (x * z) * y;
    }
  }

  /** The fold over a concatenation is the product of the folds. */
  lemma {:induction false} MuteFactorConcat(a: seq<Mute>, b: seq<Mute>, now: Time)
    ensures MuteFactor(a + b, now) == MuteFactor(a, now) * MuteFactor(b, now)
    decreases |b|
  {
    if b == [] {
      assert a + b == a;
    } else {
      var init, last := b[..|b| - 1], b[|b| - 1];
      assert (a + b)[..|a + b| - 1] == a + init;
      assert (a + b)[|a + b| - 1] == last;
      MuteFactorConcat(a, init, now);
      var x, y, w := MuteFactor(a, now), MuteFactor(init, now), Weight(last, now);
      assert MuteFactor(b, now) == y * w;
      assert MuteFactor(a + b, now) == (x * y) * w;
      MulAssoc(x, y, w);
    }
  }

  /** Removing the last element of `s` and a matching element of `t` keeps two permutations permutations. */
  lemma RemoveMatching(s: seq<Mute>, t: seq<Mute>, j: nat)
    requires multiset(s) == multiset(t) && s != [] && j < |t| && t[j] == s[|s| - 1]
    ensures multiset(s[..|s| - 1]) == multiset(t[..j] + t[j + 1..])
  {
    var init, last := s[..|s| - 1], s[|s| - 1];
    assert s == init + [last];
    assert t == t[..j] + [last] + t[j + 1..];
    assert multiset(init) == multiset(s) - multiset{last};
    assert multiset(t[..j] + t[j + 1..]) == multiset(t) - multiset{last};
  }

  /** The fold over `t` with its `j`-th element taken out and put last. */
  lemma MuteFactorMoveLast(t: seq<Mute>, j: nat, now: Time)
    requires j < |t|
    ensures MuteFactor(t, now) == MuteFactor(t[..j] + t[j + 1..], now) * Weight(t[j], now)
  {
    var left, x, right := t[..j], t[j], t[j + 1..];
    assert t == (left + [x]) + right;
    MuteFactorConcat(left + [x], right, now);
    MuteFactorConcat(left, [x], now);
    MuteFactorConcat(left, right, now);
    assert [x][..0] == [];
    var l, w, r := MuteFactor(left, now), Weight(x, now), MuteFactor(right, now);
    MulSwap(l, w, r);
  }

  /** The order of the history does not matter: a permutation gives the same duration. */
  lemma {:induction false} MuteFactorPermutation(s: seq<Mute>, t: seq<Mute>, now: Time)
    requires multiset(s) == multiset(t)
    ensures MuteFactor(s, now) == MuteFactor(t, now)
    decreases |s|
  {
    if s == [] {
      assert |t| == |multiset(t)| == 0;
    } else {
      var last := s[|s| - 1];
      assert last in multiset(t);
      var j :| 0 <= j < |t| && t[j] == last;
      RemoveMatching(s, t, j);
      MuteFactorPermutation(s[..|s| - 1], t[..j] + t[j + 1..], now);
      MuteFactorMoveLast(t, j, now);
    }
  }

  /** One more mute anywhere in the history never shortens the next mute. */
  lemma AddingMuteNeverShortens(s: seq<Mute>, m: Mute, i: nat, now: Time)
    requires i <= |s|
    ensures MuteFactor(s[..i] + [m] + s[i..], now) >= MuteFactor(s, now)
  {
    var grown := s[..i] + [m] + s[i..];
    assert s == s[..i] + s[i..];
    assert multiset(grown) == multiset(s + [m]);
    MuteFactorPermutation(grown, s + [m], now);
    assert (s + [m])[..|s|] == s;
    var f := MuteFactor(s, now);
    assert MuteFactor(s + [m], now) == f * Weight(m, now);
    assert f * Weight(m, now) >= f * 1;
  }

  const TwoTo32: int := 0x1_0000_0000
  const Int32Max: int := 0x7FFF_FFFF

  /** The 32-bit two's-complement value C#'s unchecked `int` arithmetic keeps of `x`. */
  function Wrap32(x: int): (r: int)
    ensures -Int32Max - 1 <= r <= Int32Max
    ensures (x - r) % TwoTo32 == 0
    ensures -Int32Max - 1 <= x <= Int32Max ==> r == x
  {
    var m := x % TwoTo32;
    if m > Int32Max then m - TwoTo32 else m
  }

  /** Two values that differ by a multiple of 2^32 wrap to the same `int`. */
  lemma WrapCongruent(x: int, y: int)
    requires (x - y) % TwoTo32 == 0
    ensures Wrap32(x) == Wrap32(y)
  {
    var k := (x - y) / TwoTo32;
    assert x == y + k * TwoTo32;
  }

  /** Multiplying the wrapped value wraps to what multiplying the exact value does. */
  lemma WrapMul(a: int, w: int)
    ensures Wrap32(Wrap32(a) * w) == Wrap32(a * w)
  {
    var k := (a - Wrap32(a)) / TwoTo32;
    assert a == Wrap32(a) + k * TwoTo32;
    assert a * w == Wrap32(a) * w + (k * w) * TwoTo32;
    WrapCongruent(a * w, Wrap32(a) * w);
  }

  /** The hours `GetMuteTime` returns: the factor as a wrapped `int`, and at least 1. */
  function MuteHours(mutes: seq<Mute>, now: Time): (h: int)
    ensures 1 <= h <= Int32Max
    ensures MuteFactor(mutes, now) <= Int32Max ==> h == MuteFactor(mutes, now)
  {
    var w := Wrap32(MuteFactor(mutes, now));
    if w > 1 then w else 1
  }

  /**
   * `GetMuteTime`: the loop over the history multiplying by 10 for a rule-1
   * mute and by 3 for a rule-2 mute in 32-bit `int` arithmetic, then
   * `Math.Max(.., 1)`. The time of the user's first message is passed in but
   * not used.
   */
  method GetMuteTime(mutes: seq<Mute>, firstMessageTime: Time, now: Time) returns (hours: int)
    ensures hours == MuteHours(mutes, now)
    ensures MuteFactor(mutes, now) <= Int32Max ==>
      hours == Pow(10, Rule1Count(mutes, now)) * Pow(3, Rule2Count(mutes, now))
  {
    var currentTime := 1;
    for i := 0 to |mutes|
      invariant currentTime == Wrap32(MuteFactor(mutes[..i], now))
    {
      var item := mutes[i];
      assert mutes[..i + 1][..i] == mutes[..i];
      ghost var before := MuteFactor(mutes[..i], now);
      assert MuteFactor(mutes[..i + 1], now) == before * Weight(item, now);
      WrapMul(before, Weight(item, now));
      if InLookback(item, now) {
        var text := Lower(item.reason + item.message);
        if !StartsWith(text, "tfm") {
          if Contains(text, "rule 1") {
            currentTime := Wrap32(currentTime * 10);
          } else if Contains(text, "rule 2") {
            currentTime := Wrap32(currentTime * 3);
          }
        }
      }
    }
    assert mutes[..|mutes|] == mutes;
    hours := if currentTime > 1 then currentTime else 1;
    MuteFactorClosedForm(mutes, now);
  }

  // ---------------------------------------------------------------------------
  // The mute cache: UpdateMuteCache
  // ---------------------------------------------------------------------------

  /** A mute is in force: not expired and not canceled. */
  predicate Effective(m: Mute, now: Time) {
    m.expires > now && !m.canceled
  }

  /** The rows `UpdateMuteCache` loads. */
  function ActiveMutes(rows: seq<Mute>, now: Time): seq<Mute> {
    Where(rows, m => Effective(m, now))
  }

  /** One step of the rebuild loop: a strictly later expiry replaces the cached mute. */
  function Keep(cache: map<string, Mute>, item: Mute): map<string, Mute> {
    if item.uuid in cache then
      if cache[item.uuid].expires < item.expires then cache[item.uuid := item] else cache
    else
      cache[item.uuid := item]
  }

  /** The cache the rebuild loop produces from a list of loaded mutes. */
  function Collapse(s: seq<Mute>): map<string, Mute> {
    if s == [] then map[] else Keep(Collapse(s[..|s| - 1]), s[|s| - 1])
  }

  function Uuids(s: seq<Mute>): set<string> {
    set i | 0 <= i < |s| :: s[i].uuid
  }

  /** The cache has exactly one entry per user that has a loaded mute, taken from the list. */
  lemma {:induction false} CollapseKeys(s: seq<Mute>)
    ensures Collapse(s).Keys == Uuids(s)
    ensures forall u :: u in Collapse(s) ==> Collapse(s)[u] in s && Collapse(s)[u].uuid == u
  {
    if s != [] {
      var init, last := s[..|s| - 1], s[|s| - 1];
      CollapseKeys(init);
      assert s == init + [last];
      assert Uuids(s) == Uuids(init) + {last.uuid} by {
        forall u | u in Uuids(s) ensures u in Uuids(init) + {last.uuid} {
          var i :| 0 <= i < |s| && s[i].uuid == u;
          if i < |init| { assert init[i].uuid == u; }
        }
        forall u | u in Uuids(init) ensures u in Uuids(s) {
          var i :| 0 <= i < |init| && init[i].uuid == u;
          assert s[i].uuid == u;
        }
      }
    }
  }

  /** Each user's cached mute expires no earlier than any of that user's loaded mutes. */
  lemma {:induction false} CollapseLongest(s: seq<Mute>)
    ensures forall i :: 0 <= i < |s| ==>
      s[i].uuid in Collapse(s) && s[i].expires <= Collapse(s)[s[i].uuid].expires
  {
    if s != [] {
      var init, last := s[..|s| - 1], s[|s| - 1];
      CollapseLongest(init);
      forall i | 0 <= i < |s|
        ensures s[i].uuid in Collapse(s) && s[i].expires <= Collapse(s)[s[i].uuid].expires
      {
        if i < |init| {
          assert s[i] == init[i];
        }
      }
    }
  }

  /**
   * Ties go to the first-listed mute: the cached mute is a loaded one, and every
   * earlier loaded mute of the same user expires strictly before it.
   */
  lemma {:induction false} CollapseFirstOfLongest(s: seq<Mute>, u: string)
    requires u in Collapse(s)
    ensures exists j :: 0 <= j < |s| && Collapse(s)[u] == s[j] &&
              forall k :: 0 <= k < j && s[k].uuid == u ==> s[k].expires < s[j].expires
  {
    var init, last := s[..|s| - 1], s[|s| - 1];
    var before := Collapse(init);
    if u == last.uuid && (u !in before || before[u].expires < last.expires) {
      var j := |s| - 1;
      forall k | 0 <= k < j && s[k].uuid == u ensures s[k].expires < s[j].expires {
        CollapseLongest(init);
        assert init[k] == s[k];
      }
    } else {
      CollapseFirstOfLongest(init, u);
      var j :| 0 <= j < |init| && before[u] == init[j]
        && forall k :: 0 <= k < j && init[k].uuid == u ==> init[k].expires < init[j].expires;
      assert s[j] == init[j];
      forall k | 0 <= k < j && s[k].uuid == u ensures s[k].expires < s[j].expires {
        assert s[k] == init[k];
      }
    }
  }

  /**
   * The rebuilt cache: its keys are exactly the users with an effective mute row,
   * each value is an effective row of that user, and no effective row of the user
   * expires later.
   */
  lemma RebuiltCache(rows: seq<Mute>, now: Time)
    ensures Collapse(ActiveMutes(rows, now)).Keys
         == set i | 0 <= i < |rows| && Effective(rows[i], now) :: rows[i].uuid
    ensures forall u :: u in Collapse(ActiveMutes(rows, now)) ==>
      var m := Collapse(ActiveMutes(rows, now))[u];
      m.uuid == u && m in rows && Effective(m, now)
    ensures forall i :: 0 <= i < |rows| && Effective(rows[i], now) ==>
      rows[i].uuid in Collapse(ActiveMutes(rows, now))
      && rows[i].expires <= Collapse(ActiveMutes(rows, now))[rows[i].uuid].expires
  {
    var active := ActiveMutes(rows, now);
    CollapseKeys(active);
    CollapseLongest(active);
    var keys := set i | 0 <= i < |rows| && Effective(rows[i], now) :: rows[i].uuid;
    forall u | u in keys ensures u in Uuids(active) {
      var i :| 0 <= i < |rows| && Effective(rows[i], now) && rows[i].uuid == u;
      assert rows[i] in active;
      var j :| 0 <= j < |active| && active[j] == rows[i];
    }
    forall u | u in Uuids(active) ensures u in keys {
      var j :| 0 <= j < |active| && active[j].uuid == u;
      assert active[j] in rows;
      var i :| 0 <= i < |rows| && rows[i] == active[j];
    }
    forall i | 0 <= i < |rows| && Effective(rows[i], now)
      ensures rows[i].uuid in Collapse(active) && rows[i].expires <= Collapse(active)[rows[i].uuid].expires
    {
      assert rows[i] in active;
      var j :| 0 <= j < |active| && active[j] == rows[i];
    }
  }

  /** Rows whose identity is their position. */
  predicate IdsAreIndices(rows: seq<Mute>) {
    forall i :: 0 <= i < |rows| ==> rows[i].id == i
  }

  /** A row of such a table sits at its own id. */
  lemma RowAtItsId(rows: seq<Mute>, m: Mute)
    requires IdsAreIndices(rows) && m in rows
    ensures m.id < |rows| && rows[m.id] == m
  {
    var i :| 0 <= i < |rows| && rows[i] == m;
  }

  /**
   * Canceling one row removes that row from the rebuilt cache; when it was the
   * user's only effective mute, the user leaves the cache.
   */
  lemma CanceledRowLeavesCache(rows: seq<Mute>, i: nat, canceled: Mute, now: Time)
    requires i < |rows| && canceled.canceled && canceled.uuid == rows[i].uuid
    requires forall k :: 0 <= k < |rows| && k != i ==> rows[k] != rows[i]
    ensures var c := Collapse(ActiveMutes(rows[i := canceled], now));
      rows[i].uuid in c ==> c[rows[i].uuid] != rows[i]
    ensures var c := Collapse(ActiveMutes(rows[i := canceled], now));
      (forall k :: 0 <= k < |rows| && k != i && rows[k].uuid == rows[i].uuid ==> !Effective(rows[k], now))
      ==> rows[i].uuid !in c
  {
    var after := rows[i := canceled];
    RebuiltCache(after, now);
    var c := Collapse(ActiveMutes(after, now));
    var u := rows[i].uuid;
    if u in c {
      var m := c[u];
      assert m in after && Effective(m, now);
      var k :| 0 <= k < |after| && after[k] == m;
      assert k != i;
      assert after[k] == rows[k];
    }
  }

  /**
   * A mute row that stays in force keeps its user in the rebuilt cache with a
   * mute in force, lasting at least as long.
   */
  lemma InForceRowStaysCached(rows: seq<Mute>, m: Mute, now: Time)
    requires m in rows && Effective(m, now)
    ensures var c := Collapse(ActiveMutes(rows, now));
      m.uuid in c && Effective(c[m.uuid], now) && c[m.uuid].expires >= m.expires
  {
    RebuiltCache(rows, now);
    var i :| 0 <= i < |rows| && rows[i] == m;
  }

  // ---------------------------------------------------------------------------
  // Mute and unmute
  // ---------------------------------------------------------------------------

  /** The rows the rate limit counts: live mutes by `muter` within the last six hours. */
  function RecentMutesBy(rows: seq<Mute>, muter: string, now: Time): seq<Mute> {
    Where(rows, (m: Mute) => m.muter == muter && !m.canceled && m.timestamp > now - RateWindow)
  }

  /** The history escalation reads: the user's mutes that were not canceled. */
  function PriorMutes(rows: seq<Mute>, uuid: string): seq<Mute> {
    Where(rows, (m: Mute) => m.uuid == uuid && !m.canceled)
  }

  /** The user's first message in insertion (id) order, if any. */
  function FirstMessageFrom(messages: seq<DbMessage>, uuid: string): (r: Option<DbMessage>)
    ensures r.None? <==> forall i :: 0 <= i < |messages| ==> messages[i].sender != uuid
    ensures r.Some? ==> r.value.sender == uuid
    ensures r.Some? ==> exists i :: 0 <= i < |messages| && messages[i] == r.value &&
                          forall k :: 0 <= k < i ==> messages[k].sender != uuid
  {
    if messages == [] then None
    else if messages[0].sender == uuid then Some(messages[0])
    else
      var r := FirstMessageFrom(messages[1..], uuid);
      assert forall k :: 1 <= k < |messages| ==> messages[k] == messages[1..][k - 1];
      r
  }

  /** A tfm client relaying one of its own automatic mutes: returned without a write. */
  predicate Passthrough(client: Client, m: Mute) {
    Contains(client.name, "tfm") && Contains(m.message, "AUTOMUTE")
  }

  /** The muter has more than five live mutes within six hours and is not allow-listed. */
  predicate RateLimited(rows: seq<Mute>, m: Mute, now: Time) {
    |RecentMutesBy(rows, m.muter, now)| > MaxRecentMutes && m.muter != AllowListedMuter
  }

  /** A mute is treated as a rule violation: its text cites a rule, or it has no expiry. */
  predicate Escalates(m: Mute) {
    Contains(m.message + m.reason, "rule ") || m.expires == DefaultTime
  }

  /**
   * The mute as stored by `MuteUser` once every check has passed. The database
   * stamps `Timestamp` with the time of the insert, whatever the caller sent.
   */
  function Stored(m: Mute, id: nat, clientId: int, rows: seq<Mute>, now: Time): Mute {
    m.(id := id, clientId := clientId, timestamp := now,
       expires := if Escalates(m) then now + Hour * MuteHours(PriorMutes(rows, m.uuid), now) else m.expires)
  }

  /**
   * The escalated expiry lies past `DateTime.MaxValue`, so the addition throws
   * (as does `TimeSpan.FromHours` beyond its own range, which lies further out).
   */
  predicate ExpiryOverflows(m: Mute, rows: seq<Mute>, now: Time) {
    Escalates(m) && now + Hour * MuteHours(PriorMutes(rows, m.uuid), now) > MaxTime
  }

  /**
   * A stored mute that is not canceled counts towards its muter's rate limit
   * at once, whatever timestamp the caller sent.
   */
  lemma StoredMuteCountsTowardsRateLimit(m: Mute, id: nat, clientId: int, rows: seq<Mute>, now: Time)
    requires !m.canceled
    ensures |RecentMutesBy(rows + [Stored(m, id, clientId, rows, now)], m.muter, now)|
         == |RecentMutesBy(rows, m.muter, now)| + 1
  {
    var grown := rows + [Stored(m, id, clientId, rows, now)];
    assert grown[..|grown| - 1] == rows;
  }

  /** An escalated mute runs at least one hour from now. */
  lemma EscalatedMuteLastsAnHour(m: Mute, id: nat, clientId: int, rows: seq<Mute>, now: Time)
    requires Escalates(m)
    ensures Stored(m, id, clientId, rows, now).expires >= now + Hour
    ensures Effective(Stored(m, id, clientId, rows, now), now) <==> !m.canceled
  {
    var f := MuteHours(PriorMutes(rows, m.uuid), now);
    assert Hour * f >= Hour * 1;
  }

  /**
   * Eight rule-1 mutes in the history make the next escalated mute overflow the
   * calendar whatever the clock (10^8 hours is more than ten thousand years),
   * so it is refused rather than stored.
   */
  lemma EightRuleOneMutesOverflow(m: Mute, rows: seq<Mute>, now: Time)
    requires Escalates(m)
    requires Rule1Count(PriorMutes(rows, m.uuid), now) == 8 && Rule2Count(PriorMutes(rows, m.uuid), now) == 0
    ensures ExpiryOverflows(m, rows, now)
  {
    var prior := PriorMutes(rows, m.uuid);
    MuteFactorClosedForm(prior, now);
    assert Pow(10, 8) == 100000000 by {
      assert Pow(10, 4) == 10000;
      assert Pow(10, 8) == 10 * Pow(10, 7) == 100 * Pow(10, 6) == 1000 * Pow(10, 5) == 10000 * Pow(10, 4);
    }
    assert MuteFactor(prior, now) == 100000000;
  }

  /** The authoritative, database-backed mute service. */
  class MuteService {
    const db: Db
    const background: ChatBackgroundService
    /** The process-wide cache: user uuid to that user's longest effective mute. */
    var cache: map<string, Mute>

    /** Each cached mute is the database row of its user. */
    ghost predicate Valid()
      reads this, db
    {
      && db.Valid()
      && forall u :: u in cache ==>
           cache[u].uuid == u && cache[u].id < |db.mutes| && db.mutes[cache[u].id] == cache[u]
    }

    constructor (db: Db, background: ChatBackgroundService)
      requires db.Valid()
      ensures Valid()
      ensures this.db == db && this.background == background && cache == map[]
    {
      this.db := db;
      this.background := background;
      cache := map[];
    }

    /** Every cached mute, after the caller's token is checked. */
    function GetMutes(token: string): (r: Result<set<Mute>, ErrorCode>)
      reads this, background
      ensures r.Err? <==> token !in background.clients
      ensures r.Ok? ==> forall m :: m in r.value <==> exists u :: u in cache && cache[u] == m
    {
      match background.GetClient(token)
      case Err(e) => Err(e)
      case Ok(_) => Ok(cache.Values)
    }

    /**
     * Clears the cache and refills it from the effective rows, keeping per user
     * the mute with the strictly latest expiry (the first one on ties).
     */
    method UpdateMuteCache(now: Time)
      requires db.Valid()
      modifies this
      ensures Valid()
      ensures cache == Collapse(ActiveMutes(db.mutes, now))
    {
      var allMutes := ActiveMutes(db.mutes, now);
      cache := map[];
      for i := 0 to |allMutes|
        invariant cache == Collapse(allMutes[..i])
      {
        var item := allMutes[i];
        assert allMutes[..i + 1][..i] == allMutes[..i];
        if item.uuid in cache {
          if cache[item.uuid].expires < item.expires {
            cache := cache[item.uuid := item];
          }
        } else {
          cache := cache[item.uuid := item];
        }
      }
      assert allMutes[..|allMutes|] == allMutes;
      RebuiltCache(db.mutes, now);
      forall u | u in cache
        ensures cache[u].id < |db.mutes| && db.mutes[cache[u].id] == cache[u]
      {
        RowAtItsId(db.mutes, cache[u]);
      }
    }

    /**
     * The user's mute if one is in force. The cache is rebuilt only when it is
     * empty; a cached mute that has expired or was canceled is evicted.
     */
    method GetMute(uuid: string, now: Time) returns (r: Option<Mute>)
      requires Valid()
      modifies this
      ensures Valid()
      ensures var seen := if |old(cache)| == 0 then Collapse(ActiveMutes(db.mutes, now)) else old(cache);
        if uuid in seen && Effective(seen[uuid], now) then r == Some(seen[uuid]) && cache == seen
        else r == None && cache == seen - {uuid}
      ensures r.Some? ==> Effective(r.value, now) && r.value.uuid == uuid
      ensures r.Some? ==> r.value.id < |db.mutes| && db.mutes[r.value.id] == r.value
    {
      if |cache| == 0 {
        UpdateMuteCache(now);
      }
      if uuid in cache {
        var mute := cache[uuid];
        if mute.expires > now && !mute.canceled {
          return Some(mute);
        }
        cache := cache - {uuid};
      }
      return None;
    }

    /**
     * Adds a mute. Validation, the tfm AUTOMUTE passthrough and the rate limit
     * come first; a rule violation or a mute without expiry is escalated from the
     * user's history, which needs a previous message by the user. The stored mute
     * then refreshes the cache.
     */
    method MuteUser(request: Option<Mute>, token: string, now: Time) returns (r: Result<Mute, ErrorCode>)
      requires Valid()
      modifies this, db
      ensures Valid()
      ensures db.messages == old(db.messages) && db.clients == old(db.clients)
      ensures r.Err? ==> db.mutes == old(db.mutes) && cache == old(cache)
      ensures request.None? ==> r == Err(InvalidMute)
      ensures request.Some? ==>
        var m := request.value;
        if m.uuid == "" then r == Err(ArgumentNullOrEmpty)
        else if token !in background.clients then r == Err(InvalidToken)
        else
          var client := background.clients[token];
          if Passthrough(client, m) then
            r == Ok(m) && db.mutes == old(db.mutes) && cache == old(cache)
          else if RateLimited(old(db.mutes), m, now) then
            r == Err(TooManyMutes)
          else if Escalates(m) && FirstMessageFrom(db.messages, m.uuid).None? then
            r == Err(InvalidMute)
          else if ExpiryOverflows(m, old(db.mutes), now) then
            r == Err(DateOutOfRange)
          else
            && r == Ok(Stored(m, |old(db.mutes)|, client.id, old(db.mutes), now))
            && db.mutes == old(db.mutes) + [r.value]
            && cache == Collapse(ActiveMutes(db.mutes, now))
    {
      if request.None? {
        return Err(InvalidMute);
      }
      var mute := request.value;
      if mute.uuid == "" {
        return Err(ArgumentNullOrEmpty);
      }
      var lookup := background.GetClient(token);
      if lookup.Err? {
        return Err(lookup.error);
      }
      var client := lookup.value;
      if Contains(client.name, "tfm") && Contains(mute.message, "AUTOMUTE") {
        assert Passthrough(client, mute);
        return Ok(mute);
      }
      mute := mute.(clientId := client.id);
      var recentMutes := RecentMutesBy(db.mutes, mute.muter, now);
      if |recentMutes| > MaxRecentMutes && mute.muter != AllowListedMuter {
        assert RateLimited(db.mutes, request.value, now);
        return Err(TooManyMutes);
      }
      r := Record(mute, now);
    }

    /**
     * The expiry `MuteUser` stores: the caller's, or for a rule violation or a
     * mute without expiry now plus the escalation in hours, which needs a
     * previous message by the user and must stay within the calendar.
     */
    method Expiry(mute: Mute, now: Time) returns (r: Result<Time, ErrorCode>)
      ensures if Escalates(mute) && FirstMessageFrom(db.messages, mute.uuid).None? then r == Err(InvalidMute)
        else if ExpiryOverflows(mute, db.mutes, now) then r == Err(DateOutOfRange)
        else r == Ok(Stored(mute, 0, 0, db.mutes, now).expires)
    {
      var muteText := mute.message + mute.reason;
      if !(Contains(muteText, "rule ") || mute.expires == DefaultTime) {
        return Ok(mute.expires);
      }
      // rule violation
      var mutes := PriorMutes(db.mutes, mute.uuid);
      var firstMessage := FirstMessageFrom(db.messages, mute.uuid);
      if firstMessage.None? {
        return Err(InvalidMute);
      }
      var nextLength := GetMuteTime(mutes, firstMessage.value.timestamp, now);
      if now + Hour * nextLength > MaxTime {
        return Err(DateOutOfRange);
      }
      return Ok(now + Hour * nextLength);
    }

    /**
     * The second half of `MuteUser`: the expiry, then the write and the cache
     * refresh.
     */
    method Record(mute: Mute, now: Time) returns (r: Result<Mute, ErrorCode>)
      requires Valid()
      modifies this, db
      ensures Valid()
      ensures db.messages == old(db.messages) && db.clients == old(db.clients)
      ensures if Escalates(mute) && FirstMessageFrom(db.messages, mute.uuid).None? then
          r == Err(InvalidMute) && db.mutes == old(db.mutes) && cache == old(cache)
        else if ExpiryOverflows(mute, old(db.mutes), now) then
          r == Err(DateOutOfRange) && db.mutes == old(db.mutes) && cache == old(cache)
        else
          && r == Ok(Stored(mute, |old(db.mutes)|, mute.clientId, old(db.mutes), now))
          && db.mutes == old(db.mutes) + [r.value]
          && cache == Collapse(ActiveMutes(db.mutes, now))
    {
      ghost var rows := db.mutes;
      var expires := Expiry(mute, now);
      if expires.Err? {
        return Err(expires.error);
      }
      var stored := mute.(id := |db.mutes|, timestamp := now, expires := expires.value);
      assert stored == Stored(mute, |rows|, mute.clientId, rows, now);
      db.mutes := db.mutes + [stored];
      assert db.Valid() by {
        forall i | 0 <= i < |db.mutes| ensures db.mutes[i].id == i {
          if i < |rows| { assert db.mutes[i] == rows[i]; }
        }
      }
      UpdateMuteCache(now);
      return Ok(stored);
    }

    /**
     * `UnMuteUser` as it runs: `DisableMute` changes the cached mute object, and
     * `SaveChangesAsync` writes it only when this request's context loaded that
     * object, which happens only when `GetMute` rebuilt the cache in this call.
     * A mute cached by an earlier request stays in force, and the reload puts
     * it back into the cache.
     */
    method UnMuteUserAsWritten(unmute: UnMute, token: string, now: Time) returns (r: Result<UnMute, ErrorCode>)
      requires Valid()
      modifies this, db
      ensures Valid()
      ensures db.messages == old(db.messages) && db.clients == old(db.clients)
      ensures token !in background.clients ==> r == Err(InvalidToken) && db.mutes == old(db.mutes) && cache == old(cache)
      ensures token in background.clients ==>
        var seen := if |old(cache)| == 0 then Collapse(ActiveMutes(old(db.mutes), now)) else old(cache);
        var client := background.clients[token];
        if unmute.uuid in seen && Effective(seen[unmute.uuid], now) then
          var m := seen[unmute.uuid];
          && r == Ok(unmute)
          && m.id < |old(db.mutes)|
          && db.mutes == (if |old(cache)| == 0
                          then old(db.mutes)[m.id := m.(canceled := true, unMuteClientId := client.id, unMuter := unmute.unMuter)]
                          else old(db.mutes))
          && cache == Collapse(ActiveMutes(db.mutes, now))
        else
          r == Err(NoMuteFound) && db.mutes == old(db.mutes) && cache == seen - {unmute.uuid}
      ensures |old(cache)| > 0 && r.Ok? ==> unmute.uuid in cache && Effective(cache[unmute.uuid], now)
    {
      var lookup := background.GetClient(token);
      if lookup.Err? {
        return Err(lookup.error);
      }
      var client := lookup.value;
      var loadedHere := |cache| == 0;
      var mute := GetMute(unmute.uuid, now);
      if mute.None? {
        return Err(NoMuteFound);
      }
      CancelAndReload(unmute, client, mute.value, loadedHere, now);
      return Ok(unmute);
    }

    /**
     * The tail of `UnMuteUserAsWritten`: the cancel reaches the table only when
     * `written`, and the cache is then rebuilt from the table.
     */
    method CancelAndReload(unmute: UnMute, client: Client, m: Mute, written: bool, now: Time)
      requires db.Valid() && m.id < |db.mutes| && db.mutes[m.id] == m && Effective(m, now)
      modifies this, db
      ensures Valid()
      ensures db.messages == old(db.messages) && db.clients == old(db.clients)
      ensures db.mutes == if written
        then old(db.mutes)[m.id := m.(canceled := true, unMuteClientId := client.id, unMuter := unmute.unMuter)]
        else old(db.mutes)
      ensures cache == Collapse(ActiveMutes(db.mutes, now))
      ensures !written ==> m.uuid in cache && Effective(cache[m.uuid], now)
    {
      if written {
        DisableMute(unmute, client, m);
      }
      UpdateMuteCache(now);
      if !written {
        InForceRowStaysCached(db.mutes, m, now);
      }
    }

    /** Sets the CANCELED bit of the mute's row and records who lifted it. */
    method DisableMute(unmute: UnMute, client: Client, mute: Mute)
      requires db.Valid() && mute.id < |db.mutes|
      modifies db
      ensures db.Valid()
      ensures db.messages == old(db.messages) && db.clients == old(db.clients)
      ensures db.mutes == old(db.mutes)[mute.id :=
        old(db.mutes)[mute.id].(canceled := true, unMuteClientId := client.id, unMuter := unmute.unMuter)]
    {
      var row := db.mutes[mute.id];
      db.mutes := db.mutes[mute.id := row.(canceled := true, unMuteClientId := client.id, unMuter := unmute.unMuter)];
    }

    /**
     * Lifts the user's mute in force, if any, and rebuilds the cache so that the
     * canceled row is no longer served.
     */
    method UnMuteUser(unmute: UnMute, token: string, now: Time) returns (r: Result<UnMute, ErrorCode>)
      requires Valid()
      modifies this, db
      ensures Valid()
      ensures db.messages == old(db.messages) && db.clients == old(db.clients)
      ensures token !in background.clients ==> r == Err(InvalidToken) && db.mutes == old(db.mutes) && cache == old(cache)
      ensures token in background.clients ==>
        var seen := if |old(cache)| == 0 then Collapse(ActiveMutes(old(db.mutes), now)) else old(cache);
        var client := background.clients[token];
        if unmute.uuid in seen && Effective(seen[unmute.uuid], now) then
          var m := seen[unmute.uuid];
          && r == Ok(unmute)
          && m.id < |old(db.mutes)|
          && db.mutes == old(db.mutes)[m.id := m.(canceled := true, unMuteClientId := client.id, unMuter := unmute.unMuter)]
          && cache == Collapse(ActiveMutes(db.mutes, now))
          && (unmute.uuid in cache ==> cache[unmute.uuid].id != m.id)
        else
          r == Err(NoMuteFound) && db.mutes == old(db.mutes) && cache == seen - {unmute.uuid}
    {
      var lookup := background.GetClient(token);
      if lookup.Err? {
        return Err(lookup.error);
      }
      var client := lookup.value;
      var mute := GetMute(unmute.uuid, now);
      if mute.None? {
        return Err(NoMuteFound);
      }
      var m := mute.value;
      ghost var before := db.mutes;
      DisableMute(unmute, client, m);
      UpdateMuteCache(now);
      RebuiltCache(db.mutes, now);
      if unmute.uuid in cache {
        var kept := cache[unmute.uuid];
        RowAtItsId(db.mutes, kept);
        assert db.mutes[m.id].canceled;
      }
      return Ok(unmute);
    }
  }
}
