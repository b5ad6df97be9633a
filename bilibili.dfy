/**
 * The Bilibili relay cog (cogs/bilibili.py): which channels follow which
 * Bilibili user (`push_uid`), whether each followed user was last seen live
 * (`room_states`) and when each user's feed was last scanned
 * (`push_times`). The Bilibili API is outside the model: whether a uid
 * exists, the card timestamps of a user's feed, the picture sizes of a card
 * and a live room's status are inputs.
 */
module Bilibili {
  import opened Common

  type Uid = int
  /** A channel id, kept as its decimal text (`str(ctx.channel.id)`). */
  type Channel = string
  /** Seconds since the epoch (`int(time.time())`), supplied by the caller. */
  type Time = int

  /** The two-character ellipsis appended to a cut message. */
  const Ellipsis: string := "\U{2026}\U{2026}"

  /** `get_limited_message` (cogs/bilibili.py:81-85): a message longer than
    * a positive limit is cut to the limit and marked with an ellipsis. */
  function LimitedMessage(msg: string, limit: int): (r: string)
    ensures limit <= 0 || |msg| <= limit ==> r == msg
    ensures 0 < limit < |msg| ==> |r| == limit + 2 && r[..limit] == msg[..limit] && r[limit..] == Ellipsis
  {
    if |msg| > limit > 0 then msg[..limit] + Ellipsis else msg
  }

  /** Cutting a message that was already cut changes nothing. */
  lemma LimitedMessageIdempotent(msg: string, limit: int)
    ensures LimitedMessage(LimitedMessage(msg, limit), limit) == LimitedMessage(msg, limit)
  {
    var r := LimitedMessage(msg, limit);
    if 0 < limit < |msg| {
      assert r == r[..limit] + r[limit..];
    }
  }

  /** Whether `channel` follows `uid`. */
  predicate Follows(lists: map<Uid, seq<Channel>>, uid: Uid, channel: Channel)
  {
    uid in lists && channel in lists[uid]
  }

  /** Two maps agree at `k`: both lack it or both map it to the same value. */
  ghost predicate SameAt<K, V>(m1: map<K, V>, m2: map<K, V>, k: K)
  {
    (k in m1 <==> k in m2) && (k in m1 ==> m1[k] == m2[k])
  }

  /** `uid`'s channel list once `channel` has subscribed
    * (cogs/bilibili.py:320-327). */
  function WithChannel(lists: map<Uid, seq<Channel>>, uid: Uid, channel: Channel): (r: seq<Channel>)
    ensures channel in r
    ensures uid in lists ==> lists[uid] <= r
    ensures forall c :: c in r ==> c == channel || Follows(lists, uid, c)
  {
    if uid !in lists then [channel]
    else if channel in lists[uid] then lists[uid]
    else lists[uid] + [channel]
  }

  /** `list.remove`: drops the first occurrence of `x`. */
  function RemoveFirst<T(==)>(s: seq<T>, x: T): (r: seq<T>)
    requires x in s
    ensures multiset(r) == multiset(s) - multiset{x}
    ensures |r| == |s| - 1
  {
    assert s == [s[0]] + s[1..];
    if s[0] == x then s[1..]
    else [s[0]] + RemoveFirst(s[1..], x)
  }

  /** Without repeats, removing `x` removes it altogether and nothing else. */
  lemma RemoveFirstNoDuplicates<T>(s: seq<T>, x: T)
    requires x in s && NoDuplicates(s)
    ensures NoDuplicates(RemoveFirst(s, x))
    ensures forall y :: y in RemoveFirst(s, x) <==> y in s && y != x
  {
    var r := RemoveFirst(s, x);
    assert multiset(s)[x] == 1 by {
      NoDuplicatesCount(s, x);
    }
    forall y ensures y in r <==> y in s && y != x {
      assert y in r <==> y in multiset(r);
      assert y in s <==> y in multiset(s);
    }
    forall i, j | 0 <= i < j < |r| ensures r[i] != r[j] {
      if r[i] == r[j] {
        MultisetAtLeastTwo(r, i, j);
        assert multiset(s)[r[i]] >= multiset(r)[r[i]];
        NoDuplicatesCount(s, r[i]);
      }
    }
  }

  /** The channel map once `channel` has cancelled `uid`
    * (cogs/bilibili.py:337-342): the last follower takes the uid with it. */
  function WithoutChannel(lists: map<Uid, seq<Channel>>, uid: Uid, channel: Channel): (r: map<Uid, seq<Channel>>)
    ensures !Follows(lists, uid, channel) ==> r == lists
    ensures forall u :: u != uid ==> SameAt(r, lists, u)
  {
    if !Follows(lists, uid, channel) then lists
    else if |lists[uid]| == 1 then lists - {uid}
    else lists[uid := RemoveFirst(lists[uid], channel)]
  }

  /** Cancelling on a well-formed map: `channel` no longer follows `uid`,
    * every other channel still does exactly when it did, and `uid` keeps a
    * non-empty list without repeats whenever it stays. */
  lemma WithoutChannelFollows(lists: map<Uid, seq<Channel>>, uid: Uid, channel: Channel)
    requires uid in lists ==> lists[uid] != [] && NoDuplicates(lists[uid])
    ensures var r := WithoutChannel(lists, uid, channel);
      && !Follows(r, uid, channel)
      && (forall c :: c != channel ==> (Follows(r, uid, c) <==> Follows(lists, uid, c)))
      && (uid in r ==> r[uid] != [] && NoDuplicates(r[uid]))
  {
    if Follows(lists, uid, channel) {
      var s := lists[uid];
      if |s| == 1 {
        assert s == [channel];
      } else {
        RemoveFirstNoDuplicates(s, channel);
      }
    }
  }

  /** Subscribing a channel and cancelling it again restores the channel
    * map. */
  lemma SubscribeThenCancel(lists: map<Uid, seq<Channel>>, uid: Uid, channel: Channel)
    requires !Follows(lists, uid, channel)
    requires uid in lists ==> lists[uid] != []
    ensures WithoutChannel(lists[uid := WithChannel(lists, uid, channel)], uid, channel) == lists
  {
    var after := lists[uid := WithChannel(lists, uid, channel)];
    if uid in lists {
      var s := lists[uid];
      RemoveAppended(s, channel);
      assert after[uid := s] == lists;
    } else {
      assert after - {uid} == lists;
    }
  }

  lemma {:induction false} RemoveAppended<T>(s: seq<T>, x: T)
    requires x !in s
    ensures RemoveFirst(s + [x], x) == s
    decreases |s|
  {
    if s != [] {
      assert (s + [x])[1..] == s[1..] + [x];
      RemoveAppended(s[1..], x);
    }
  }

  /** The feed cards announced in one scan: the leading run of cards not
    * older than the previous scan. */
  ghost predicate AnnouncedRun(cards: seq<Time>, since: Time, announced: seq<Time>)
  {
    && announced <= cards
    && (forall i :: 0 <= i < |announced| ==> announced[i] >= since)
    && (|announced| < |cards| ==> cards[|announced|] < since)
  }

  /** The leading run is determined by the cards and the cutoff. */
  lemma AnnouncedRunUnique(cards: seq<Time>, since: Time, a: seq<Time>, b: seq<Time>)
    requires AnnouncedRun(cards, since, a) && AnnouncedRun(cards, since, b)
    ensures a == b
  {
  }

  datatype Size = Size(width: int, height: int)

  /** The picture layout of a card with pictures (cogs/bilibili.py:168-201). */
  datatype Layout =
    | NoImage     // more than three pictures that fit no grid
    | NineGrid    // the first nine pictures composed 3 x 3
    | SixGrid     // the first six pictures composed 3 x 2
    | Separate    // one to three pictures sent one by one

  /** The first `n` pictures all have the size of the first. */
  ghost predicate SameSize(sizes: seq<Size>, n: nat)
    requires n <= |sizes|
  {
    forall i :: 0 <= i < n ==> sizes[i] == sizes[0]
  }

  /** The size comparison loop (cogs/bilibili.py:173-176, 184-187). */
  method CheckSameSize(sizes: seq<Size>, n: nat) returns (same: bool)
    requires 1 <= n <= |sizes|
    ensures same <==> SameSize(sizes, n)
  {
    same := true;
    for i := 0 to n
      invariant same <==> forall k :: 0 <= k < i ==> sizes[k] == sizes[0]
    {
      if sizes[i] != sizes[0] {
        same := false;
      }
    }
  }

  /** The layout decision for a card whose pictures have `sizes`. */
  method ChooseLayout(sizes: seq<Size>) returns (layout: Layout)
    ensures layout == NineGrid <==> |sizes| >= 9 && SameSize(sizes, 9)
    ensures layout == SixGrid <==> |sizes| >= 6 && SameSize(sizes, 6) && !(|sizes| >= 9 && SameSize(sizes, 9))
    ensures layout == Separate <==> 1 <= |sizes| <= 3
    ensures layout == NoImage <==> |sizes| == 0 || (|sizes| >= 4 && !(|sizes| >= 6 && SameSize(sizes, 6)))
  {
    var big := false;
    layout := NoImage;
    if |sizes| > 0 {
      if |sizes| >= 9 {
        big := CheckSameSize(sizes, 9);
        if big {
          layout := NineGrid;
        }
      }
      if |sizes| >= 6 && !big {
        big := CheckSameSize(sizes, 6);
        if big {
          layout := SixGrid;
        }
      }
      if !big && |sizes| < 4 {
        layout := Separate;
      }
    }
  }

  /** A uniform nine-picture prefix is also a uniform six-picture prefix,
    * so a card that fails the 6-grid test never makes the 9-grid. */
  lemma NineGridIsSixGrid(sizes: seq<Size>)
    requires |sizes| >= 9 && SameSize(sizes, 9)
    ensures SameSize(sizes, 6)
  {
    forall i | 0 <= i < 6 ensures sizes[i] == sizes[0] {
      assert i < 9;
    }
  }

  /** The live flag after one status check (cogs/bilibili.py:273-282). */
  function NextLiveState(live: bool, liveStatus: int): (r: bool)
    ensures r != live ==> (!live && liveStatus == 1) || (live && liveStatus == 0)
    ensures !live && liveStatus == 1 ==> r
    ensures live && liveStatus == 0 ==> !r
  {
    if liveStatus == 1 && !live then true
    else if live && liveStatus == 0 then false
    else live
  }

  datatype SubReply = NoSuchUser(uid: Uid) | AlreadySubscribed(uid: Uid) | SubscribeOk(uid: Uid)
  datatype CancelReply = NotSubscribed(uid: Uid) | CancelOk(uid: Uid)
  /** The reply to the `i`-th uid of a subscribe command: a uid named
    * earlier in the same command was subscribed then. */
  function SubReplyFor(lists: map<Uid, seq<Channel>>, uids: seq<Uid>, i: nat, existing: set<Uid>, channel: Channel): SubReply
    requires i < |uids|
  {
    if uids[i] !in existing then NoSuchUser(uids[i])
    else if Follows(lists, uids[i], channel) || uids[i] in uids[..i] then AlreadySubscribed(uids[i])
    else SubscribeOk(uids[i])
  }

  /** The reply to the `i`-th uid of a cancel command. */
  function CancelReplyFor(lists: map<Uid, seq<Channel>>, uids: seq<Uid>, i: nat, channel: Channel): CancelReply
    requires i < |uids|
  {
    if Follows(lists, uids[i], channel) && uids[i] !in uids[..i] then CancelOk(uids[i])
    else NotSubscribed(uids[i])
  }

  /** The channel map after `channel` subscribed the uids of `uids` that
    * exist, one after another (cogs/bilibili.py:316-327). */
  function SubscribedLists(lists: map<Uid, seq<Channel>>, uids: seq<Uid>, existing: set<Uid>, channel: Channel)
    : map<Uid, seq<Channel>>
  {
    if uids == [] then lists
    else
      var p := SubscribedLists(lists, uids[..|uids| - 1], existing, channel);
      var uid := uids[|uids| - 1];
      if uid in existing then p[uid := WithChannel(p, uid, channel)] else p
  }

  /** The live flags after the same command: a uid nobody followed starts
    * off air (cogs/bilibili.py:322). */
  function SubscribedRooms(lists: map<Uid, seq<Channel>>, rooms: map<Uid, bool>, uids: seq<Uid>,
                           existing: set<Uid>, channel: Channel): map<Uid, bool>
  {
    if uids == [] then rooms
    else
      var init := uids[..|uids| - 1];
      var r := SubscribedRooms(lists, rooms, init, existing, channel);
      var uid := uids[|uids| - 1];
      if uid in existing && uid !in SubscribedLists(lists, init, existing, channel) then r[uid := false] else r
  }

  /** The scan times after the same command: stamped for every uid that
    * gained the channel (cogs/bilibili.py:329). */
  function SubscribedTimes(lists: map<Uid, seq<Channel>>, times: map<Uid, Time>, uids: seq<Uid>,
                           existing: set<Uid>, channel: Channel, now: Time): map<Uid, Time>
  {
    if uids == [] then times
    else
      var init := uids[..|uids| - 1];
      var t := SubscribedTimes(lists, times, init, existing, channel, now);
      var uid := uids[|uids| - 1];
      if uid in existing && !Follows(SubscribedLists(lists, init, existing, channel), uid, channel)
      then t[uid := now] else t
  }

  /** A uid of the command that exists ends with its old list plus the
    * channel; every other uid keeps its list. */
  lemma {:induction false} SubscribedListsAt(lists: map<Uid, seq<Channel>>, uids: seq<Uid>, existing: set<Uid>,
                                             channel: Channel, u: Uid)
    ensures var r := SubscribedLists(lists, uids, existing, channel);
      if u in uids && u in existing then u in r && r[u] == WithChannel(lists, u, channel)
      else SameAt(r, lists, u)
    decreases |uids|
  {
    if uids != [] {
      var init := uids[..|uids| - 1];
      var uid := uids[|uids| - 1];
      assert uids == init + [uid];
      SubscribedListsAt(lists, init, existing, channel, u);
      var p := SubscribedLists(lists, init, existing, channel);
      if uid == u && u in existing && u in init {
        assert channel in p[u];
      }
    }
  }

  /** After a subscribe command, `channel` follows exactly the uids it
    * followed before and the named uids that exist; no other channel's
    * subscriptions change. */
  lemma SubscribedFollows(lists: map<Uid, seq<Channel>>, uids: seq<Uid>, existing: set<Uid>, channel: Channel,
                          u: Uid, c: Channel)
    ensures Follows(SubscribedLists(lists, uids, existing, channel), u, c)
        <==> Follows(lists, u, c) || (c == channel && u in uids && u in existing)
  {
    SubscribedListsAt(lists, uids, existing, channel, u);
  }

  /** A named uid that exists and was not followed before gets the live
    * flag off; every other flag stays. */
  lemma {:induction false} SubscribedRoomsAt(lists: map<Uid, seq<Channel>>, rooms: map<Uid, bool>, uids: seq<Uid>,
                                             existing: set<Uid>, channel: Channel, u: Uid)
    ensures var r := SubscribedRooms(lists, rooms, uids, existing, channel);
      if u in uids && u in existing && u !in lists then u in r && !r[u]
      else SameAt(r, rooms, u)
    decreases |uids|
  {
    if uids != [] {
      var init := uids[..|uids| - 1];
      var uid := uids[|uids| - 1];
      assert uids == init + [uid];
      SubscribedRoomsAt(lists, rooms, init, existing, channel, u);
      SubscribedListsAt(lists, init, existing, channel, u);
    }
  }

  /** A named uid that exists gets the scan time `now` exactly when the
    * channel did not follow it before; every other scan time stays. */
  lemma {:induction false} SubscribedTimesAt(lists: map<Uid, seq<Channel>>, times: map<Uid, Time>, uids: seq<Uid>,
                                             existing: set<Uid>, channel: Channel, now: Time, u: Uid)
    ensures var t := SubscribedTimes(lists, times, uids, existing, channel, now);
      if u in uids && u in existing && !Follows(lists, u, channel) then u in t && t[u] == now
      else SameAt(t, times, u)
    decreases |uids|
  {
    if uids != [] {
      var init := uids[..|uids| - 1];
      var uid := uids[|uids| - 1];
      assert uids == init + [uid];
      SubscribedTimesAt(lists, times, init, existing, channel, now, u);
      SubscribedFollows(lists, init, existing, channel, u, channel);
    }
  }

  datatype LiveEvent = Skipped | WentLive | WentOffline | Unchanged

  class Bilibili {
    const messageLengthLimit: int
    var pushUid: map<Uid, seq<Channel>>
    var roomStates: map<Uid, bool>
    var pushTimes: map<Uid, Time>

    /** Every followed uid has a non-empty list of distinct channels and a
      * live flag. */
    ghost predicate Valid()
      reads this
    {
      && (forall u :: u in pushUid ==> pushUid[u] != [] && NoDuplicates(pushUid[u]))
      && pushUid.Keys <= roomStates.Keys
    }

    /** Loads the stored configuration (cogs/bilibili.py:21-27). */
    constructor (limit: int, pushUid: map<Uid, seq<Channel>>, roomStates: map<Uid, bool>, pushTimes: map<Uid, Time>)
      requires forall u :: u in pushUid ==> pushUid[u] != [] && NoDuplicates(pushUid[u])
      requires pushUid.Keys <= roomStates.Keys
      ensures Valid()
      ensures messageLengthLimit == limit
      ensures this.pushUid == pushUid && this.roomStates == roomStates && this.pushTimes == pushTimes
    {
      messageLengthLimit := limit;
      this.pushUid := pushUid;
      this.roomStates := roomStates;
      this.pushTimes := pushTimes;
    }

    /** `_sub` (cogs/bilibili.py:315-331) for the channel `channel`; the
      * uids the user-info API knows are `existing`. */
    method Sub(uids: seq<Uid>, existing: set<Uid>, channel: Channel, now: Time) returns (replies: seq<SubReply>)
      requires Valid()
      modifies this`pushUid, this`roomStates, this`pushTimes
      ensures Valid()
      ensures |replies| == |uids|
      ensures forall i :: 0 <= i < |uids| ==> replies[i] == SubReplyFor(old(pushUid), uids, i, existing, channel)
      ensures pushUid == SubscribedLists(old(pushUid), uids, existing, channel)
      ensures roomStates == SubscribedRooms(old(pushUid), old(roomStates), uids, existing, channel)
      ensures pushTimes == SubscribedTimes(old(pushUid), old(pushTimes), uids, existing, channel, now)
    {
      replies := [];
      for i := 0 to |uids|
        invariant Valid()
        invariant |replies| == i
        invariant forall k :: 0 <= k < i ==> replies[k] == SubReplyFor(old(pushUid), uids, k, existing, channel)
        invariant pushUid == SubscribedLists(old(pushUid), uids[..i], existing, channel)
        invariant roomStates == SubscribedRooms(old(pushUid), old(roomStates), uids[..i], existing, channel)
        invariant pushTimes == SubscribedTimes(old(pushUid), old(pushTimes), uids[..i], existing, channel, now)
      {
        var uid := uids[i];
        assert uids[..i + 1][..i] == uids[..i];
        if uid !in existing {
          replies := replies + [NoSuchUser(uid)];
        } else {
          SubscribedFollows(old(pushUid), uids[..i], existing, channel, uid, channel);
          var ok := SubscribeOne(uid, channel, now);
          replies := replies + [if ok then SubscribeOk(uid) else AlreadySubscribed(uid)];
        }
      }
      assert uids[..|uids|] == uids;
    }

    /** One uid of `_sub` that exists (cogs/bilibili.py:320-329). */
    method SubscribeOne(uid: Uid, channel: Channel, now: Time) returns (ok: bool)
      requires Valid()
      modifies this`pushUid, this`roomStates, this`pushTimes
      ensures Valid()
      ensures ok <==> !Follows(old(pushUid), uid, channel)
      ensures pushUid == old(pushUid)[uid := WithChannel(old(pushUid), uid, channel)]
      ensures roomStates == if uid in old(pushUid) then old(roomStates) else old(roomStates)[uid := false]
      ensures pushTimes == if ok then old(pushTimes)[uid := now] else old(pushTimes)
    {
      if uid !in pushUid {
        pushUid := pushUid[uid := [channel]];
        roomStates := roomStates[uid := false];
      } else {
        if channel in pushUid[uid] {
          return false;
        }
        pushUid := pushUid[uid := pushUid[uid] + [channel]];
      }
      pushTimes := pushTimes[uid := now];
      ok := true;
    }

    /** `_cancel_sub` (cogs/bilibili.py:335-350) for the channel `channel`.
      * The live flags and scan times are kept. */
    method CancelSub(uids: seq<Uid>, channel: Channel) returns (replies: seq<CancelReply>)
      requires Valid()
      modifies this`pushUid
      ensures Valid()
      ensures |replies| == |uids|
      ensures forall i :: 0 <= i < |uids| ==> replies[i] == CancelReplyFor(old(pushUid), uids, i, channel)
      ensures forall u, c :: Follows(pushUid, u, c) <==>
        Follows(old(pushUid), u, c) && !(c == channel && u in uids)
      ensures forall u :: u !in uids ==> SameAt(pushUid, old(pushUid), u)
      ensures forall u :: u in uids ==> SameAt(pushUid, WithoutChannel(old(pushUid), u, channel), u)
    {
      replies := [];
      for i := 0 to |uids|
        invariant Valid()
        invariant |replies| == i
        invariant forall k :: 0 <= k < i ==> replies[k] == CancelReplyFor(old(pushUid), uids, k, channel)
        invariant forall u, c :: Follows(pushUid, u, c) <==>
          Follows(old(pushUid), u, c) && !(c == channel && u in uids[..i])
        invariant forall u :: u !in uids[..i] ==> SameAt(pushUid, old(pushUid), u)
        invariant forall u :: u in uids[..i] ==> SameAt(pushUid, WithoutChannel(old(pushUid), u, channel), u)
      {
        var uid := uids[i];
        assert uids[..i + 1] == uids[..i] + [uid];
        ghost var before := pushUid;
        WithoutChannelFollows(pushUid, uid, channel);
        if uid in pushUid && channel in pushUid[uid] {
          if |pushUid[uid]| == 1 {
            pushUid := pushUid - {uid};
          } else {
            pushUid := pushUid[uid := RemoveFirst(pushUid[uid], channel)];
          }
          assert pushUid == WithoutChannel(before, uid, channel);
          replies := replies + [CancelOk(uid)];
        } else {
          replies := replies + [NotSubscribed(uid)];
        }
      }
    }

    /** The feed scan of one uid in `_check_bili_dynamic`
      * (cogs/bilibili.py:142-155): `cards` holds the timestamps of the
      * feed, newest first, or None when the API answered nothing. The scan
      * time is recorded before any card is looked at, and the cards
      * announced are those up to the first one older than the previous
      * scan. */
    method ScanFeed(uid: Uid, cards: Option<seq<Time>>, now: Time) returns (announced: seq<Time>)
      requires Valid()
      modifies this`pushTimes
      ensures Valid()
      ensures cards.None? ==> pushTimes == old(pushTimes) && announced == []
      ensures cards.Some? ==> pushTimes == old(pushTimes)[uid := now]
      ensures cards.Some? ==>
        AnnouncedRun(cards.value, if uid in old(pushTimes) then old(pushTimes)[uid] else 0, announced)
    {
      announced := [];
      if cards.None? {
        return;
      }
      var since := if uid in pushTimes then pushTimes[uid] else 0;
      pushTimes := pushTimes[uid := now];
      var feed := cards.value;
      var i := 0;
      while i < |feed|
        invariant 0 <= i <= |feed|
        invariant announced == feed[..i]
        invariant forall k :: 0 <= k < i ==> feed[k] >= since
      {
        if feed[i] < since {
          break;
        }
        announced := announced + [feed[i]];
        i := i + 1;
      }
    }

    /** The live-room check of one uid (cogs/bilibili.py:271-284):
      * `liveStatus` is None when the user has no live room. A uid without a
      * live flag raises `KeyError`, which the loop logs, so nothing
      * changes. The flag is updated before the announcement is built, so
      * it stays updated even when building the announcement fails. */
    method CheckLive(uid: Uid, liveStatus: Option<int>) returns (event: LiveEvent)
      requires Valid()
      modifies this`roomStates
      ensures Valid()
      ensures liveStatus.None? || uid !in old(roomStates) ==> roomStates == old(roomStates) && event == Skipped
      ensures liveStatus.Some? && uid in old(roomStates) ==>
        && roomStates == old(roomStates)[uid := NextLiveState(old(roomStates)[uid], liveStatus.value)]
        && (event == WentLive <==> !old(roomStates)[uid] && roomStates[uid])
        && (event == WentOffline <==> old(roomStates)[uid] && !roomStates[uid])
        && (event == Unchanged <==> roomStates[uid] == old(roomStates)[uid])
    {
      if liveStatus.None? || uid !in roomStates {
        return Skipped;
      }
      if liveStatus.value == 1 && !roomStates[uid] {
        roomStates := roomStates[uid := true];
        event := WentLive;
      } else if roomStates[uid] && liveStatus.value == 0 {
        roomStates := roomStates[uid := false];
        event := WentOffline;
      } else {
        event := Unchanged;
      }
    }
  }
}
