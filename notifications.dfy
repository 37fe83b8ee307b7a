/** Subscription records of the where plugin, their liveness tests, and the
    order-preserving filter that the plugin's two removal helpers apply. */
module Notifications {

  /** Discord snowflakes (member, channel and author ids) are opaque strings. */
  type Id = string

  datatype Option<T> = None | Some(value: T)

  /** One subscription. For the member list `subjectId` is a member id; for
      the voice-channel list it is a channel id. `endTime` is in milliseconds. */
  datatype Notification = Notification(
    modId: Id,
    subjectId: Id,
    channelId: Id,
    endTime: int,
    persist: bool,
    activeFollow: bool)

  /** The plugin's two arrays: `activeNotifications` and `activeVCNotifications`. */
  datatype Registry = Registry(members: seq<Notification>, channels: seq<Notification>)

  /** A member-list record still fires while `endTime >= now` (live at equality). */
  predicate MemberRecordLive(n: Notification, now: int) {
    n.endTime >= now
  }

  /** A voice-channel record counts as expired once `now >= endTime` (expired at equality). */
  predicate ChannelRecordExpired(n: Notification, now: int) {
    now >= n.endTime
  }

  /** Only `follow` creates active-follow records, and it always makes them persistent. */
  ghost predicate FollowImpliesPersist(s: seq<Notification>) {
    forall n :: n in s ==> n.activeFollow ==> n.persist
  }

  /** The records of `s` whose subject is not `id`, in their original order. */
  function Without(s: seq<Notification>, id: Id): (r: seq<Notification>)
    ensures |r| <= |s|
    ensures forall k :: 0 <= k < |r| ==> r[k] in s && r[k].subjectId != id
  {
    if s == [] then []
    else Without(s[..|s| - 1], id) + (if s[|s| - 1].subjectId != id then [s[|s| - 1]] else [])
  }

  /** A record survives the filter exactly when it was there and has another subject. */
  lemma {:induction false} WithoutKeeps(s: seq<Notification>, id: Id)
    ensures forall x :: x in Without(s, id) <==> x in s && x.subjectId != id
  {
    if s != [] {
      var init := s[..|s| - 1];
      WithoutKeeps(init, id);
      assert s == init + [s[|s| - 1]];
    }
  }

  /** The filter works record by record: it commutes with concatenation, so the
      survivors keep their relative order. */
  lemma {:induction false} WithoutAppend(a: seq<Notification>, b: seq<Notification>, id: Id)
    ensures Without(a + b, id) == Without(a, id) + Without(b, id)
  {
    if b == [] {
      assert a + b == a;
    } else {
      var init := b[..|b| - 1];
      WithoutAppend(a, init, id);
      assert (a + b)[..|a + b| - 1] == a + init;
      assert (a + b)[|a + b| - 1] == b[|b| - 1];
    }
  }

  /** Removal is a no-op exactly when no record has that subject. */
  lemma {:induction false} WithoutUnchanged(s: seq<Notification>, id: Id)
    ensures Without(s, id) == s <==> forall x :: x in s ==> x.subjectId != id
  {
    if forall x :: x in s ==> x.subjectId != id {
      if s != [] {
        var init := s[..|s| - 1];
        WithoutUnchanged(init, id);
        assert s == init + [s[|s| - 1]];
      }
    }
  }

  /** Removing the same subject twice removes nothing more. */
  lemma WithoutIdempotent(s: seq<Notification>, id: Id)
    ensures Without(Without(s, id), id) == Without(s, id)
  {
    var r := Without(s, id);
    assert forall x :: x in r ==> x.subjectId != id;
    WithoutUnchanged(r, id);
  }
}
