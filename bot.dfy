/**
 * The state the bot object keeps (bot.py): per-guild command prefixes, the
 * blacklist of users and guilds, the auto-ban spam counter and the
 * per-shard IDENTIFY/RESUME timestamps. The `Config` store behind prefixes
 * and blacklist (cogs/utils/config.py) is not part of this model; it is
 * taken as a map. The rate limiter is the framework's `CooldownMapping`, so
 * whether a message is rate-limited is an input.
 */
module Bot {
  import opened Common
  import Strings

  type GuildId = int
  type UserId = int
  type ShardId = int
  /** An instant in seconds (`utcnow()`), supplied by the caller. */
  type Time = int

  const Week: int := 7 * 24 * 60 * 60

  /** The two mention forms that always prefix a command (bot.py:33). */
  function MentionPrefixes(userId: string): seq<string>
  {
    ["<@!" + userId + "> ", "<@" + userId + "> "]
  }

  /** `get_raw_guild_prefixes` (bot.py:140-141): the stored list, or `['/']`
    * for a guild with none stored. */
  function RawGuildPrefixes(stored: map<GuildId, seq<string>>, guild: GuildId): (r: seq<string>)
    ensures guild !in stored ==> r == ["/"]
    ensures guild in stored ==> r == stored[guild]
  {
    if guild in stored then stored[guild] else ["/"]
  }

  /** `_prefix_callable` (bot.py:31-38): the mention forms, then `/` in a
    * direct message or the guild's prefixes. */
  function PrefixesFor(userId: string, guild: Option<GuildId>, stored: map<GuildId, seq<string>>): (r: seq<string>)
    ensures |r| >= 2 && r[..2] == MentionPrefixes(userId)
    ensures guild.None? ==> r[2..] == ["/"]
    ensures guild.Some? ==> r[2..] == RawGuildPrefixes(stored, guild.value)
  {
    MentionPrefixes(userId) + (if guild.None? then ["/"] else RawGuildPrefixes(stored, guild.value))
  }

  /** The mention forms are never crowded out: even a guild that stored no
    * prefixes can be addressed by mentioning the bot. */
  lemma MentionAlwaysWorks(userId: string, guild: GuildId, stored: map<GuildId, seq<string>>)
    requires guild in stored && stored[guild] == []
    ensures PrefixesFor(userId, Some(guild), stored) == MentionPrefixes(userId)
  {
    var r := PrefixesFor(userId, Some(guild), stored);
    assert r == r[..2] + r[2..];
  }

  /** In strictly descending code-point order: sorted, without repeats. */
  ghost predicate StrictlyDescending(s: seq<string>)
  {
    forall i, j :: 0 <= i < j < |s| ==> Strings.Less(s[j], s[i])
  }

  /** Inserts `x` into a strictly descending list unless it is there. */
  function InsertDescending(x: string, s: seq<string>): (r: seq<string>)
    ensures forall y :: y in r <==> y in s || y == x
    ensures StrictlyDescending(s) ==> StrictlyDescending(r)
    decreases |s|
  {
    if s == [] then [x]
    else if x == s[0] then s
    else if Strings.Less(s[0], x) then
      assert StrictlyDescending(s) ==> StrictlyDescending([x] + s) by {
        if StrictlyDescending(s) {
          var r := [x] + s;
          forall i, j | 0 <= i < j < |r| ensures Strings.Less(r[j], r[i]) {
            if i == 0 && j > 1 {
              Strings.LessTransitive(s[j - 1], s[0], x);
            }
          }
        }
      }
      [x] + s
    else
      Strings.LessTotal(x, s[0]);
      var t := InsertDescending(x, s[1..]);
      assert StrictlyDescending(s) ==> StrictlyDescending([s[0]] + t) by {
        if StrictlyDescending(s) {
          assert StrictlyDescending(s[1..]);
          forall j | 0 <= j < |t| ensures Strings.Less(t[j], s[0]) {
            if t[j] != x {
              assert t[j] in s[1..];
              var k :| 0 <= k < |s[1..]| && s[1..][k] == t[j];
              assert s[k + 1] == t[j];
            }
          }
        }
      }
      [s[0]] + t
  }

  /** `sorted(set(prefixes), reverse=True)`. */
  function SortedSetDescending(prefixes: seq<string>): (r: seq<string>)
    ensures forall y :: y in r <==> y in prefixes
    ensures StrictlyDescending(r)
    ensures |r| <= |prefixes|
    decreases |prefixes|
  {
    if prefixes == [] then []
    else
      var init := prefixes[..|prefixes| - 1];
      var rest := SortedSetDescending(init);
      var r := InsertDescending(prefixes[|prefixes| - 1], rest);
      assert forall y :: y in prefixes <==> y in init || y == prefixes[|prefixes| - 1] by {
        assert prefixes == init + [prefixes[|prefixes| - 1]];
      }
      assert |r| <= |prefixes| by {
        DistinctBound(r, prefixes);
      }
      r
  }

  /** A list without repeats drawn from `s` is no longer than `s`. */
  lemma DistinctBound(r: seq<string>, s: seq<string>)
    requires forall y :: y in r ==> y in s
    requires StrictlyDescending(r)
    ensures |r| <= |s|
  {
    var rs := set y | y in r;
    var ss := set y | y in s;
    assert rs <= ss;
    DistinctCard(r);
    SetCardBound(s);
    SubsetCard(rs, ss);
  }

  lemma SubsetCard(a: set<string>, b: set<string>)
    requires a <= b
    ensures |a| <= |b|
  {
    assert b == a + (b - a);
  }

  lemma {:induction false} DistinctCard(r: seq<string>)
    requires StrictlyDescending(r)
    ensures |set y | y in r| == |r|
    decreases |r|
  {
    if r != [] {
      var t := r[1..];
      assert StrictlyDescending(t);
      DistinctCard(t);
      assert (set y | y in r) == (set y | y in t) + {r[0]};
      forall j | 0 <= j < |t| ensures t[j] != r[0] {
        Strings.LessIrreflexive(r[0]);
        assert Strings.Less(r[j + 1], r[0]);
      }
    }
  }

  lemma {:induction false} SetCardBound(s: seq<string>)
    ensures |set y | y in s| <= |s|
    decreases |s|
  {
    if s != [] {
      SetCardBound(s[1..]);
      assert (set y | y in s) == (set y | y in s[1..]) + {s[0]};
    }
  }

  datatype PrefixError = TooManyPrefixes

  /** The list `set_guild_prefixes` (bot.py:143-149) stores for a guild:
    * `[]` for no prefixes, an error for more than ten (counted before
    * duplicates are removed), otherwise the distinct prefixes in
    * descending order. */
  function NewGuildPrefixes(prefixes: seq<string>): (r: Result<seq<string>, PrefixError>)
    ensures |prefixes| == 0 ==> r == Ok([])
    ensures |prefixes| > 10 <==> r == Err(TooManyPrefixes)
    ensures r.Ok? ==> StrictlyDescending(r.value) && |r.value| <= 10
    ensures r.Ok? ==> forall p :: p in r.value <==> p in prefixes
  {
    if |prefixes| == 0 then Ok([])
    else if |prefixes| > 10 then Err(TooManyPrefixes)
    else Ok(SortedSetDescending(prefixes))
  }

  /** The prefixes that `to_remove` keeps: those not older than `cutoff`,
    * in their original order. */
  function Recent(dates: seq<Time>, cutoff: Time): (r: seq<Time>)
    ensures forall i :: 0 <= i < |r| ==> r[i] >= cutoff
    ensures |r| <= |dates|
  {
    if dates == [] then []
    else Recent(dates[..|dates| - 1], cutoff) + (if dates[|dates| - 1] >= cutoff then [dates[|dates| - 1]] else [])
  }

  /** Pruning keeps order: it distributes over concatenation. */
  lemma {:induction false} RecentAppend(a: seq<Time>, b: seq<Time>, cutoff: Time)
    ensures Recent(a + b, cutoff) == Recent(a, cutoff) + Recent(b, cutoff)
    decreases |b|
  {
    if b == [] {
      assert a + b == a;
    } else {
      assert (a + b)[..|a + b| - 1] == a + b[..|b| - 1];
      RecentAppend(a, b[..|b| - 1], cutoff);
    }
  }

  /** Nothing recent is dropped. */
  lemma {:induction false} RecentKeepsAllRecent(dates: seq<Time>, cutoff: Time)
    requires forall i :: 0 <= i < |dates| ==> dates[i] >= cutoff
    ensures Recent(dates, cutoff) == dates
    decreases |dates|
  {
    if dates != [] {
      RecentKeepsAllRecent(dates[..|dates| - 1], cutoff);
    }
  }

  /** Pruning twice is pruning once. */
  lemma {:induction false} RecentIdempotent(dates: seq<Time>, cutoff: Time)
    ensures Recent(Recent(dates, cutoff), cutoff) == Recent(dates, cutoff)
  {
    RecentKeepsAllRecent(Recent(dates, cutoff), cutoff);
  }

  /** `[index for index, dt in enumerate(dates) if dt < cutoff]`
    * (bot.py:104). */
  function OldIndices(dates: seq<Time>, cutoff: Time): (r: seq<nat>)
    ensures forall k :: 0 <= k < |r| ==> r[k] < |dates| && dates[r[k]] < cutoff
    ensures forall a, b :: 0 <= a < b < |r| ==> r[a] < r[b]
    ensures forall i :: 0 <= i < |dates| && dates[i] < cutoff ==> i in r
  {
    if dates == [] then []
    else
      var init := dates[..|dates| - 1];
      var rest := OldIndices(init, cutoff);
      if dates[|dates| - 1] < cutoff then rest + [|dates| - 1] else rest
  }

  /** No old timestamp lies strictly between two consecutive old indices,
    * nor after the last one. */
  lemma NoOldBetween(dates: seq<Time>, cutoff: Time, j: nat)
    requires j < |OldIndices(dates, cutoff)|
    ensures var r := OldIndices(dates, cutoff);
      forall i :: r[j] < i < (if j + 1 < |r| then r[j + 1] else |dates|) ==> dates[i] >= cutoff
  {
  }

  /** No old timestamp lies before the first old index. */
  lemma NoOldBefore(dates: seq<Time>, cutoff: Time)
    ensures var r := OldIndices(dates, cutoff);
      forall i :: 0 <= i < (if |r| > 0 then r[0] else |dates|) ==> dates[i] >= cutoff
  {
  }

  /** Pruning a suffix that starts with an old timestamp followed by a run
    * of recent ones. */
  lemma RecentFromOld(dates: seq<Time>, cutoff: Time, idx: nat, b: nat)
    requires idx < b <= |dates| && dates[idx] < cutoff
    requires forall i :: idx < i < b ==> dates[i] >= cutoff
    ensures Recent(dates[idx..], cutoff) == dates[idx + 1..b] + Recent(dates[b..], cutoff)
  {
    var head := [dates[idx]];
    var run := dates[idx + 1..b];
    var tail := dates[b..];
    assert dates[idx..] == head + (run + tail);
    RecentAppend(head, run + tail, cutoff);
    RecentAppend(run, tail, cutoff);
    RecentKeepsAllRecent(run, cutoff);
    assert Recent(head, cutoff) == [] by {
      assert head[..0] == [];
    }
  }

  /** Removing position `idx` from `dates[..b] + tail`. */
  lemma DeleteAt(dates: seq<Time>, tail: seq<Time>, idx: nat, b: nat)
    requires idx < b <= |dates|
    ensures var kept := dates[..b] + tail;
      kept[..idx] + kept[idx + 1..] == dates[..idx] + (dates[idx + 1..b] + tail)
  {
    var kept := dates[..b] + tail;
    assert kept[..idx] == dates[..idx];
    assert kept[idx + 1..] == dates[idx + 1..b] + tail;
  }

  /** The deletion loop of `_clear_gateway_data` (bot.py:104-106, 109-111)
    * on one shard's list: the old indices, deleted from the highest down. */
  method PruneDates(dates: seq<Time>, cutoff: Time) returns (kept: seq<Time>)
    ensures kept == Recent(dates, cutoff)
  {
    var toRemove := OldIndices(dates, cutoff);
    kept := dates;
    var j := |toRemove|;
    ghost var b := |dates|;
    assert dates[b..] == [];
    while j > 0
      invariant 0 <= j <= |toRemove|
      invariant b == if j < |toRemove| then toRemove[j] else |dates|
      invariant kept == dates[..b] + Recent(dates[b..], cutoff)
    {
      j := j - 1;
      var idx := toRemove[j];
      NoOldBetween(dates, cutoff, j);
      RecentFromOld(dates, cutoff, idx, b);
      DeleteAt(dates, Recent(dates[b..], cutoff), idx, b);
      kept := kept[..idx] + kept[idx + 1..];
      b := idx;
    }
    PrunedFromFirstOld(dates, cutoff);
  }

  /** Once everything from the first old index on is pruned, the list is. */
  lemma PrunedFromFirstOld(dates: seq<Time>, cutoff: Time)
    ensures var r := OldIndices(dates, cutoff);
      var b := if |r| > 0 then r[0] else |dates|;
      dates[..b] + Recent(dates[b..], cutoff) == Recent(dates, cutoff)
  {
    var r := OldIndices(dates, cutoff);
    var b := if |r| > 0 then r[0] else |dates|;
    var before, after := dates[..b], dates[b..];
    assert before + after == dates;
    assert forall i :: 0 <= i < |before| ==> before[i] >= cutoff by {
      NoOldBefore(dates, cutoff);
    }
    RecentKeepsAllRecent(before, cutoff);
    RecentAppend(before, after, cutoff);
  }

  /** The loop over `dict.items()` that prunes each shard's list. */
  method PruneShards(m: map<ShardId, seq<Time>>, cutoff: Time) returns (r: map<ShardId, seq<Time>>)
    ensures r.Keys == m.Keys
    ensures forall s :: s in r ==> r[s] == Recent(m[s], cutoff)
  {
    r := m;
    var pending := m.Keys;
    while pending != {}
      invariant pending <= m.Keys && r.Keys == m.Keys
      invariant forall s :: s in pending ==> r[s] == m[s]
      invariant forall s :: s in r && s !in pending ==> r[s] == Recent(m[s], cutoff)
      decreases pending
    {
      NonEmptyHasElement(pending);
      var shard :| shard in pending;
      var kept := PruneDates(r[shard], cutoff);
      r := r[shard := kept];
      pending := pending - {shard};
    }
  }

  datatype CommandOutcome =
    | NoCommand    // the message is not a command (bot.py:274-275)
    | Blocked      // author or guild blacklisted (bot.py:277-281)
    | RateLimited  // counted towards the auto-ban (bot.py:293-295)
    | AutoBanned   // fifth rate-limited message in a row (bot.py:289-292)
    | Invoked      // counter cleared, command invoked (bot.py:296-300)

  class Bot {
    const ownerId: UserId
    var prefixes: map<GuildId, seq<string>>
    /** User and guild ids, both mapped to True in the source. */
    var blacklist: set<int>
    /** `_auto_spam_count`: a Counter, so a missing author counts 0. */
    var spamCount: map<UserId, nat>
    var identifies: map<ShardId, seq<Time>>
    var resumes: map<ShardId, seq<Time>>

    /** A stored spam count is between 1 and 4: the fifth strike bans and
      * deletes it. */
    ghost predicate Valid()
      reads this
    {
      forall u :: u in spamCount ==> 1 <= spamCount[u] <= 4
    }

    constructor (ownerId: UserId, prefixes: map<GuildId, seq<string>>, blacklist: set<int>)
      ensures Valid()
      ensures this.ownerId == ownerId && this.prefixes == prefixes && this.blacklist == blacklist
      ensures spamCount == map[] && identifies == map[] && resumes == map[]
    {
      this.ownerId := ownerId;
      this.prefixes := prefixes;
      this.blacklist := blacklist;
      spamCount := map[];
      identifies := map[];
      resumes := map[];
    }

    /** `set_guild_prefixes` (bot.py:143-149). */
    method SetGuildPrefixes(guild: GuildId, newPrefixes: seq<string>) returns (r: Result<seq<string>, PrefixError>)
      modifies this`prefixes
      ensures r == NewGuildPrefixes(newPrefixes)
      ensures r.Ok? ==> prefixes == old(prefixes)[guild := r.value]
      ensures r.Err? ==> prefixes == old(prefixes)
    {
      r := NewGuildPrefixes(newPrefixes);
      if r.Ok? {
        prefixes := prefixes[guild := r.value];
      }
    }

    /** `add_to_blacklist` (bot.py:151-152). */
    method AddToBlacklist(id: int)
      modifies this`blacklist
      ensures blacklist == old(blacklist) + {id}
    {
      blacklist := blacklist + {id};
    }

    /** `remove_from_blacklist` (bot.py:154-158): the KeyError for an id
      * that is not there is swallowed, so that is a no-op. */
    method RemoveFromBlacklist(id: int)
      modifies this`blacklist
      ensures blacklist == old(blacklist) - {id}
      ensures id !in old(blacklist) ==> blacklist == old(blacklist)
    {
      if id in blacklist {
        blacklist := blacklist - {id};
      }
    }

    /** `_clear_gateway_data` (bot.py:101-111): every shard's IDENTIFY and
      * RESUME list loses the timestamps older than a week. */
    method ClearGatewayData(now: Time)
      modifies this`identifies, this`resumes
      ensures identifies.Keys == old(identifies).Keys && resumes.Keys == old(resumes).Keys
      ensures forall s :: s in identifies ==> identifies[s] == Recent(old(identifies)[s], now - Week)
      ensures forall s :: s in resumes ==> resumes[s] == Recent(old(resumes)[s], now - Week)
    {
      identifies := PruneShards(identifies, now - Week);
      resumes := PruneShards(resumes, now - Week);
    }

    /** `before_identify_hook` (bot.py:116-119): prune, then record this
      * IDENTIFY. */
    method BeforeIdentifyHook(shard: ShardId, now: Time)
      modifies this`identifies, this`resumes
      ensures identifies.Keys == old(identifies).Keys + {shard}
      ensures resumes.Keys == old(resumes).Keys
      ensures identifies[shard]
           == (if shard in old(identifies) then Recent(old(identifies)[shard], now - Week) else []) + [now]
      ensures forall s :: s in identifies && s != shard ==> identifies[s] == Recent(old(identifies)[s], now - Week)
      ensures forall s :: s in resumes ==> resumes[s] == Recent(old(resumes)[s], now - Week)
    {
      ClearGatewayData(now);
      var dates := if shard in identifies then identifies[shard] else [];
      identifies := identifies[shard := dates + [now]];
    }

    /** `on_shard_resumed` (bot.py:251-253): record this RESUME. */
    method OnShardResumed(shard: ShardId, now: Time)
      modifies this`resumes
      ensures resumes == old(resumes)[shard := (if shard in old(resumes) then old(resumes)[shard] else []) + [now]]
    {
      var dates := if shard in resumes then resumes[shard] else [];
      resumes := resumes[shard := dates + [now]];
    }

    /** The gatekeeping of `process_commands` (bot.py:271-300). */
    method ProcessCommands(isCommand: bool, author: UserId, guild: Option<GuildId>, rateLimited: bool)
      returns (r: CommandOutcome)
      requires Valid()
      modifies this`spamCount, this`blacklist
      ensures Valid()
      ensures r == NoCommand <==> !isCommand
      ensures r == Blocked <==>
        isCommand && (author in old(blacklist) || (guild.Some? && guild.value in old(blacklist)))
      ensures r == AutoBanned <==>
        isCommand && author !in old(blacklist) && !(guild.Some? && guild.value in old(blacklist))
        && rateLimited && author != ownerId && author in old(spamCount) && old(spamCount)[author] == 4
      ensures r == RateLimited <==>
        isCommand && author !in old(blacklist) && !(guild.Some? && guild.value in old(blacklist))
        && rateLimited && author != ownerId && !(author in old(spamCount) && old(spamCount)[author] == 4)
      ensures r == NoCommand || r == Blocked ==>
        spamCount == old(spamCount) && blacklist == old(blacklist)
      ensures r == RateLimited || r == AutoBanned ==> rateLimited && author != ownerId
      ensures r == RateLimited ==>
        && spamCount == old(spamCount)[author := (if author in old(spamCount) then old(spamCount)[author] else 0) + 1]
        && blacklist == old(blacklist)
      ensures r == AutoBanned ==>
        && author in old(spamCount) && old(spamCount)[author] == 4
        && spamCount == old(spamCount) - {author}
        && blacklist == old(blacklist) + {author}
      ensures r == Invoked <==>
        isCommand && author !in old(blacklist) && !(guild.Some? && guild.value in old(blacklist))
        && !(rateLimited && author != ownerId)
      ensures r == Invoked ==> spamCount == old(spamCount) - {author} && blacklist == old(blacklist)
    {
      if !isCommand {
        return NoCommand;
      }
      if author in blacklist {
        return Blocked;
      }
      if guild.Some? && guild.value in blacklist {
        return Blocked;
      }
      if rateLimited && author != ownerId {
        var n := (if author in spamCount then spamCount[author] else 0) + 1;
        spamCount := spamCount[author := n];
        if n >= 5 {
          AddToBlacklist(author);
          spamCount := spamCount - {author};
          return AutoBanned;
        }
        return RateLimited;
      }
      spamCount := spamCount - {author};
      r := Invoked;
    }
  }
}
