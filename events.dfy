/** Matching of voice-state events against the two subscription lists.

    Each `forEach` of the three event handlers is one *pass*: it walks one list,
    emits effects for the records that fire and raises the handler's `active`
    flag for the records that ask for a bulk removal. A `Pass` value says which
    of the four kinds of walk is meant; `StepEffects` and `StepTriggers` are the
    body of the callback for one record, and `PassEffects` and `PassTriggers`
    fold them over a list in order. */
module Events {
  import opened Notifications

  /** What happened to the member, as a voice-channel alert reports it. */
  datatype Change =
    | JoinedChannel(channel: Id)                    // 🔵 joined
    | SwitchedInto(newChannel: Id, oldChannel: Id)  // 🔵 switched to new from old
    | SwitchedOutOf(oldChannel: Id, newChannel: Id) // 🔴 switched out of old, joined new
    | DisconnectedFrom(channel: Id)                 // 🔴 disconnected

  /** The outward effects of a handler: messages posted to a text channel
      (`dest`) and attempts to move a requester to a voice channel. */
  datatype Effect =
    | WhereReport(dest: Id, modId: Id, subject: Id)   // sendWhere with the "has triggered" prefix
    | Move(modId: Id, target: Id)                     // modMember.edit({channelID: target})
    | MoveFailed(dest: Id)                            // "Failed to move you"
    | ChannelAlert(dest: Id, modId: Id, subject: Id, change: Change)
    | FollowDisconnected(dest: Id, modId: Id, subject: Id, channel: Id)

  /** The kind of walk.
      - FollowPass: the member list on a join or a switch; `target` is the new
        channel, `inVoice` the requesters whose voice state has a channel, and
        `rejected` the requesters whose move the server refuses.
      - AlertPass: the voice-channel list, for records keyed by `key`.
      - DisconnectPass: the member list on a leave. */
  datatype Pass =
    | FollowPass(subject: Id, target: Id, inVoice: set<Id>, rejected: set<Id>)
    | AlertPass(key: Id, subject: Id, change: Change)
    | DisconnectPass(subject: Id, channel: Id)

  predicate Matches(p: Pass, n: Notification) {
    if p.AlertPass? then n.subjectId == p.key else n.subjectId == p.subject
  }

  /** Member-list walks test `endTime >= now`; the voice-channel walk tests `now >= endTime`. */
  predicate Live(p: Pass, n: Notification, now: int) {
    if p.AlertPass? then !ChannelRecordExpired(n, now) else MemberRecordLive(n, now)
  }

  /** A record fires when it matches and is live; on a leave only persistent ones do. */
  predicate Fires(p: Pass, n: Notification, now: int) {
    Matches(p, n) && Live(p, n, now) && (p.DisconnectPass? ==> n.persist)
  }

  /** The one message a firing record posts to its text channel. */
  function Notice(p: Pass, n: Notification): Effect {
    match p
    case FollowPass(subject, _, _, _) => WhereReport(n.channelId, n.modId, subject)
    case AlertPass(_, subject, change) => ChannelAlert(n.channelId, n.modId, subject, change)
    case DisconnectPass(subject, channel) => FollowDisconnected(n.channelId, n.modId, subject, channel)
  }

  /** The relocation that follows a where report: only for an active follow whose
      requester is in some voice channel; a refused move reports one error. */
  function Relocation(p: Pass, n: Notification): seq<Effect> {
    if p.FollowPass? && n.activeFollow && n.modId in p.inVoice then
      [Move(n.modId, p.target)] + (if n.modId in p.rejected then [MoveFailed(n.channelId)] else [])
    else []
  }

  function StepEffects(p: Pass, n: Notification, now: int): seq<Effect> {
    if Fires(p, n, now) then [Notice(p, n)] + Relocation(p, n) else []
  }

  /** A matching record raises the flag when it is expired, or, on a join or a
      switch, when it is live and one-shot; the callback returns early after a
      refused move, before the one-shot test. */
  predicate StepTriggers(p: Pass, n: Notification, now: int) {
    Matches(p, n) &&
    if Live(p, n, now) then
      p.FollowPass? && !n.persist &&
      !(n.activeFollow && n.modId in p.inVoice && n.modId in p.rejected)
    else true
  }

  function PassEffects(p: Pass, s: seq<Notification>, now: int): seq<Effect> {
    if s == [] then [] else PassEffects(p, s[..|s| - 1], now) + StepEffects(p, s[|s| - 1], now)
  }

  predicate PassTriggers(p: Pass, s: seq<Notification>, now: int) {
    s != [] && (PassTriggers(p, s[..|s| - 1], now) || StepTriggers(p, s[|s| - 1], now))
  }

  /** One `forEach` over a list: the effects in list order and the final flag. */
  method Scan(p: Pass, s: seq<Notification>, now: int) returns (effects: seq<Effect>, triggered: bool)
    ensures effects == PassEffects(p, s, now)
    ensures triggered == PassTriggers(p, s, now)
  {
    effects, triggered := [], false;
    for i := 0 to |s|
      invariant effects == PassEffects(p, s[..i], now)
      invariant triggered == PassTriggers(p, s[..i], now)
    {
      assert s[..i + 1][..i] == s[..i];
      effects := effects + StepEffects(p, s[i], now);
      triggered := triggered || StepTriggers(p, s[i], now);
    }
    assert s[..|s|] == s;
  }

  // ---------------------------------------------------------------------------
  // What one pass emits and when it raises the flag

  /** The records of `s` that fire, in list order. */
  function Fired(p: Pass, s: seq<Notification>, now: int): seq<Notification> {
    if s == [] then []
    else Fired(p, s[..|s| - 1], now) + (if Fires(p, s[|s| - 1], now) then [s[|s| - 1]] else [])
  }

  function NoticesFor(p: Pass, f: seq<Notification>): seq<Effect> {
    if f == [] then [] else NoticesFor(p, f[..|f| - 1]) + [Notice(p, f[|f| - 1])]
  }

  /** Messages, as opposed to relocation attempts and their errors. */
  predicate IsNotice(e: Effect) {
    !e.Move? && !e.MoveFailed?
  }

  /** The messages among the effects, in order. */
  function Notices(e: seq<Effect>): seq<Effect> {
    if e == [] then [] else (if IsNotice(e[0]) then [e[0]] else []) + Notices(e[1..])
  }

  lemma NoticesCons(x: Effect, t: seq<Effect>)
    ensures Notices([x] + t) == (if IsNotice(x) then [x] else []) + Notices(t)
  {
    assert ([x] + t)[0] == x && ([x] + t)[1..] == t;
  }

  lemma {:induction false} NoticesAppend(a: seq<Effect>, b: seq<Effect>)
    ensures Notices(a + b) == Notices(a) + Notices(b)
  {
    if a == [] {
      assert a + b == b;
    } else {
      NoticesAppend(a[1..], b);
      assert a + b == [a[0]] + (a[1..] + b);
      assert a == [a[0]] + a[1..];
      NoticesCons(a[0], a[1..] + b);
      NoticesCons(a[0], a[1..]);
    }
  }

  lemma StepNotices(p: Pass, n: Notification, now: int)
    ensures Notices(StepEffects(p, n, now)) == if Fires(p, n, now) then [Notice(p, n)] else []
  {
    if Fires(p, n, now) {
      var rel := Relocation(p, n);
      NoticesCons(Notice(p, n), rel);
      if rel != [] {
        var tail := if n.modId in p.rejected then [MoveFailed(n.channelId)] else [];
        NoticesCons(Move(n.modId, p.target), tail);
        if tail != [] {
          NoticesCons(MoveFailed(n.channelId), []);
        }
      }
    }
  }

  /** Every firing record sends exactly one message of the pass's kind to its own
      text channel, in list order, and nothing else sends one. */
  lemma {:induction false} OneNoticePerFiring(p: Pass, s: seq<Notification>, now: int)
    ensures Notices(PassEffects(p, s, now)) == NoticesFor(p, Fired(p, s, now))
  {
    if s != [] {
      var init, last := s[..|s| - 1], s[|s| - 1];
      OneNoticePerFiring(p, init, now);
      NoticesAppend(PassEffects(p, init, now), StepEffects(p, last, now));
      StepNotices(p, last, now);
      if Fires(p, last, now) {
        var f := Fired(p, s, now);
        assert f == Fired(p, init, now) + [last];
        assert f[..|f| - 1] == Fired(p, init, now) && f[|f| - 1] == last;
      } else {
        assert Fired(p, s, now) == Fired(p, init, now);
      }
    }
  }

  /** The flag of a pass is raised exactly when some record raises it. */
  lemma {:induction false} PassTriggersExists(p: Pass, s: seq<Notification>, now: int)
    ensures PassTriggers(p, s, now) <==> exists n :: n in s && StepTriggers(p, n, now)
  {
    if s != [] {
      var init := s[..|s| - 1];
      PassTriggersExists(p, init, now);
      assert s == init + [s[|s| - 1]];
    }
  }

  /** On a join or a switch, for a list built by the commands, the member list is
      cleared exactly when a record for the member is expired or one-shot; the
      requester's voice state and the outcome of the move play no part. */
  lemma FollowPassTriggers(s: seq<Notification>, subject: Id, target: Id, inVoice: set<Id>, rejected: set<Id>, now: int)
    requires FollowImpliesPersist(s)
    ensures PassTriggers(FollowPass(subject, target, inVoice, rejected), s, now) <==>
            exists n :: n in s && n.subjectId == subject && (!MemberRecordLive(n, now) || !n.persist)
  {
    PassTriggersExists(FollowPass(subject, target, inVoice, rejected), s, now);
  }

  /** A relocation is attempted only by a firing active-follow record whose
      requester is in a voice channel, and only towards the pass's target; a
      move error goes to the text channel of such a record whose move was refused. */
  lemma {:induction false} RelocationOnlyForActiveFollow(p: Pass, s: seq<Notification>, now: int)
    ensures forall e :: e in PassEffects(p, s, now) && e.Move? ==>
              p.FollowPass? && e.target == p.target && e.modId in p.inVoice &&
              exists n :: n in s && Fires(p, n, now) && n.activeFollow && n.modId == e.modId
    ensures forall e :: e in PassEffects(p, s, now) && e.MoveFailed? ==>
              p.FollowPass? &&
              exists n :: n in s && Fires(p, n, now) && n.activeFollow && n.modId in p.inVoice &&
                          n.modId in p.rejected && n.channelId == e.dest
  {
    if s != [] {
      var init, last := s[..|s| - 1], s[|s| - 1];
      RelocationOnlyForActiveFollow(p, init, now);
      assert last in s;
      assert forall n :: n in init ==> n in s;
    }
  }

  /** The relocation attempts and move errors among the effects, in order. */
  function Relocations(e: seq<Effect>): seq<Effect> {
    if e == [] then [] else (if IsNotice(e[0]) then [] else [e[0]]) + Relocations(e[1..])
  }

  /** The relocations of the fired records, record after record. */
  function RelocationsFor(p: Pass, f: seq<Notification>): seq<Effect> {
    if f == [] then [] else RelocationsFor(p, f[..|f| - 1]) + Relocation(p, f[|f| - 1])
  }

  lemma RelocationsCons(x: Effect, t: seq<Effect>)
    ensures Relocations([x] + t) == (if !IsNotice(x) then [x] else []) + Relocations(t)
  {
    assert ([x] + t)[0] == x && ([x] + t)[1..] == t;
  }

  lemma {:induction false} RelocationsAppend(a: seq<Effect>, b: seq<Effect>)
    ensures Relocations(a + b) == Relocations(a) + Relocations(b)
  {
    if a == [] {
      assert a + b == b;
    } else {
      RelocationsAppend(a[1..], b);
      assert a + b == [a[0]] + (a[1..] + b);
      assert a == [a[0]] + a[1..];
      RelocationsCons(a[0], a[1..] + b);
      RelocationsCons(a[0], a[1..]);
    }
  }

  lemma StepRelocations(p: Pass, n: Notification, now: int)
    ensures Relocations(StepEffects(p, n, now)) == if Fires(p, n, now) then Relocation(p, n) else []
  {
    if Fires(p, n, now) {
      var rel := Relocation(p, n);
      RelocationsCons(Notice(p, n), rel);
      if rel != [] {
        var tail := if n.modId in p.rejected then [MoveFailed(n.channelId)] else [];
        RelocationsCons(Move(n.modId, p.target), tail);
        if tail != [] {
          RelocationsCons(MoveFailed(n.channelId), []);
        }
      }
    }
  }

  /** Each firing record contributes exactly its own relocation, in list order:
      for an active follow whose requester is in a voice channel, one move to the
      pass's target, followed by one move error to its text channel when the
      move is refused; nothing for any other record. */
  lemma {:induction false} RelocationPerFiring(p: Pass, s: seq<Notification>, now: int)
    ensures Relocations(PassEffects(p, s, now)) == RelocationsFor(p, Fired(p, s, now))
  {
    if s != [] {
      var init, last := s[..|s| - 1], s[|s| - 1];
      RelocationPerFiring(p, init, now);
      RelocationsAppend(PassEffects(p, init, now), StepEffects(p, last, now));
      StepRelocations(p, last, now);
      if Fires(p, last, now) {
        var f := Fired(p, s, now);
        assert f == Fired(p, init, now) + [last];
        assert f[..|f| - 1] == Fired(p, init, now) && f[|f| - 1] == last;
      } else {
        assert Fired(p, s, now) == Fired(p, init, now);
      }
    }
  }

  /** Conversely, a firing active-follow record whose requester is in a voice
      channel does attempt the move to the target, and a refused move does post
      its error to the record's text channel. */
  lemma {:induction false} RelocationAttempted(p: Pass, s: seq<Notification>, now: int, n: Notification)
    requires p.FollowPass? && n in s && Fires(p, n, now) && n.activeFollow && n.modId in p.inVoice
    ensures Move(n.modId, p.target) in PassEffects(p, s, now)
    ensures n.modId in p.rejected ==> MoveFailed(n.channelId) in PassEffects(p, s, now)
  {
    var init, last := s[..|s| - 1], s[|s| - 1];
    assert s == init + [last];
    if n == last {
      assert StepEffects(p, last, now)[1] == Move(n.modId, p.target);
      if n.modId in p.rejected {
        assert StepEffects(p, last, now)[2] == MoveFailed(n.channelId);
      }
    } else {
      assert n in init;
      RelocationAttempted(p, init, now, n);
    }
  }

  /** At `now == endTime` a member record still fires while a voice-channel
      record no longer alerts and raises the removal flag. */
  lemma EndTimeBoundary(n: Notification, channel: Id, member: Id, inVoice: set<Id>, rejected: set<Id>, change: Change)
    ensures Fires(FollowPass(n.subjectId, channel, inVoice, rejected), n, n.endTime)
    ensures !Fires(AlertPass(n.subjectId, member, change), n, n.endTime)
    ensures StepTriggers(AlertPass(n.subjectId, member, change), n, n.endTime)
  {
  }

  // ---------------------------------------------------------------------------
  // The three handlers

  /** The handler's outcome: the new lists and the effects in order. */
  datatype Outcome = Outcome(registry: Registry, effects: seq<Effect>)

  /** `userJoinedVC`: the member pass towards `channel`, then the voice-channel
      pass for `channel`; expired voice-channel records remove by the member id. */
  function OnJoin(r: Registry, member: Id, channel: Id, now: int, inVoice: set<Id>, rejected: set<Id>): (o: Outcome)
    ensures forall n :: n in r.members && n.subjectId != member ==> n in o.registry.members
    ensures forall n :: n in o.registry.members ==> n in r.members
    ensures forall c :: c in r.channels && c.subjectId != member ==> c in o.registry.channels
    ensures forall c :: c in o.registry.channels ==> c in r.channels
  {
    var follow := FollowPass(member, channel, inVoice, rejected);
    var alert := AlertPass(channel, member, JoinedChannel(channel));
    WithoutKeeps(r.members, member);
    WithoutKeeps(r.channels, member);
    Outcome(
      Registry(
        if PassTriggers(follow, r.members, now) then Without(r.members, member) else r.members,
        if PassTriggers(alert, r.channels, now) then Without(r.channels, member) else r.channels),
      PassEffects(follow, r.members, now) + PassEffects(alert, r.channels, now))
  }

  /** `userSwitchedVC`: the member pass towards `newChannel`, then two independent
      voice-channel passes, entering `newChannel` and leaving `oldChannel`, that
      share one flag. */
  function OnSwitch(r: Registry, member: Id, newChannel: Id, oldChannel: Id, now: int,
                    inVoice: set<Id>, rejected: set<Id>): (o: Outcome)
    ensures forall n :: n in r.members && n.subjectId != member ==> n in o.registry.members
    ensures forall n :: n in o.registry.members ==> n in r.members
    ensures forall c :: c in r.channels && c.subjectId != member ==> c in o.registry.channels
    ensures forall c :: c in o.registry.channels ==> c in r.channels
  {
    var follow := FollowPass(member, newChannel, inVoice, rejected);
    var entering := AlertPass(newChannel, member, SwitchedInto(newChannel, oldChannel));
    var leaving := AlertPass(oldChannel, member, SwitchedOutOf(oldChannel, newChannel));
    WithoutKeeps(r.members, member);
    WithoutKeeps(r.channels, member);
    Outcome(
      Registry(
        if PassTriggers(follow, r.members, now) then Without(r.members, member) else r.members,
        if PassTriggers(entering, r.channels, now) || PassTriggers(leaving, r.channels, now)
        then Without(r.channels, member) else r.channels),
      PassEffects(follow, r.members, now) + PassEffects(entering, r.channels, now) +
      PassEffects(leaving, r.channels, now))
  }

  /** `userLeftVC`: the voice-channel pass first, then the member pass; the flag
      is not reset in between, so an expired voice-channel record also clears
      the member's member-list records. */
  function OnLeave(r: Registry, member: Id, channel: Id, now: int): (o: Outcome)
    ensures forall n :: n in r.members && n.subjectId != member ==> n in o.registry.members
    ensures forall n :: n in o.registry.members ==> n in r.members
    ensures forall c :: c in r.channels && c.subjectId != member ==> c in o.registry.channels
    ensures forall c :: c in o.registry.channels ==> c in r.channels
  {
    var alert := AlertPass(channel, member, DisconnectedFrom(channel));
    var disconnect := DisconnectPass(member, channel);
    WithoutKeeps(r.members, member);
    WithoutKeeps(r.channels, member);
    var vcFlag := PassTriggers(alert, r.channels, now);
    Outcome(
      Registry(
        if vcFlag || PassTriggers(disconnect, r.members, now) then Without(r.members, member) else r.members,
        if vcFlag then Without(r.channels, member) else r.channels),
      PassEffects(alert, r.channels, now) + PassEffects(disconnect, r.members, now))
  }

  // ---------------------------------------------------------------------------
  // Properties of the handlers

  /** After a join, the member's records are all gone if one of them was expired
      or one-shot; otherwise (all live and persistent) the member list is unchanged. */
  lemma JoinMemberList(r: Registry, member: Id, channel: Id, now: int, inVoice: set<Id>, rejected: set<Id>)
    requires FollowImpliesPersist(r.members)
    ensures OnJoin(r, member, channel, now, inVoice, rejected).registry.members ==
            if exists n :: n in r.members && n.subjectId == member && (!MemberRecordLive(n, now) || !n.persist)
            then Without(r.members, member) else r.members
  {
    FollowPassTriggers(r.members, member, channel, inVoice, rejected, now);
  }

  /** The same rule holds on a switch, with the new channel as target. */
  lemma SwitchMemberList(r: Registry, member: Id, newChannel: Id, oldChannel: Id, now: int,
                         inVoice: set<Id>, rejected: set<Id>)
    requires FollowImpliesPersist(r.members)
    ensures OnSwitch(r, member, newChannel, oldChannel, now, inVoice, rejected).registry.members ==
            if exists n :: n in r.members && n.subjectId == member && (!MemberRecordLive(n, now) || !n.persist)
            then Without(r.members, member) else r.members
  {
    FollowPassTriggers(r.members, member, newChannel, inVoice, rejected, now);
  }

  /** A live one-shot record is consumed by the first join or switch of its
      member, together with every other record for that member. */
  lemma OneShotConsumed(r: Registry, member: Id, newChannel: Id, oldChannel: Id, now: int,
                        inVoice: set<Id>, rejected: set<Id>, n: Notification)
    requires FollowImpliesPersist(r.members)
    requires n in r.members && n.subjectId == member && MemberRecordLive(n, now) && !n.persist
    ensures forall x :: x in OnJoin(r, member, newChannel, now, inVoice, rejected).registry.members ==>
              x.subjectId != member
    ensures forall x :: x in OnSwitch(r, member, newChannel, oldChannel, now, inVoice, rejected).registry.members ==>
              x.subjectId != member
  {
    JoinMemberList(r, member, newChannel, now, inVoice, rejected);
    SwitchMemberList(r, member, newChannel, oldChannel, now, inVoice, rejected);
    WithoutKeeps(r.members, member);
  }

  /** On a join, the voice-channel list is cut (by the member id) exactly when a
      record for the joined channel is expired. */
  lemma JoinChannelList(r: Registry, member: Id, channel: Id, now: int, inVoice: set<Id>, rejected: set<Id>)
    ensures OnJoin(r, member, channel, now, inVoice, rejected).registry.channels ==
            if exists c :: c in r.channels && c.subjectId == channel && ChannelRecordExpired(c, now)
            then Without(r.channels, member) else r.channels
  {
    PassTriggersExists(AlertPass(channel, member, JoinedChannel(channel)), r.channels, now);
  }

  /** On a switch, an expired record for either channel cuts the voice-channel list by the member id. */
  lemma SwitchChannelList(r: Registry, member: Id, newChannel: Id, oldChannel: Id, now: int,
                          inVoice: set<Id>, rejected: set<Id>)
    ensures OnSwitch(r, member, newChannel, oldChannel, now, inVoice, rejected).registry.channels ==
            if exists c :: c in r.channels && (c.subjectId == newChannel || c.subjectId == oldChannel) &&
                            ChannelRecordExpired(c, now)
            then Without(r.channels, member) else r.channels
  {
    PassTriggersExists(AlertPass(newChannel, member, SwitchedInto(newChannel, oldChannel)), r.channels, now);
    PassTriggersExists(AlertPass(oldChannel, member, SwitchedOutOf(oldChannel, newChannel)), r.channels, now);
  }

  /** Since voice-channel records are keyed by channel ids, removal by the member
      id leaves the voice-channel list as it was, expired records included. */
  lemma ChannelListKeyedByMember(r: Registry, member: Id, newChannel: Id, oldChannel: Id, now: int,
                                 inVoice: set<Id>, rejected: set<Id>)
    requires forall c :: c in r.channels ==> c.subjectId != member
    ensures OnJoin(r, member, newChannel, now, inVoice, rejected).registry.channels == r.channels
    ensures OnSwitch(r, member, newChannel, oldChannel, now, inVoice, rejected).registry.channels == r.channels
    ensures OnLeave(r, member, oldChannel, now).registry.channels == r.channels
  {
    WithoutUnchanged(r.channels, member);
  }

  /** On a leave the member list is cleared exactly when a record for the left
      channel is expired or a record for the member is expired; live one-shot
      records are neither fired nor consumed. */
  lemma LeaveMemberList(r: Registry, member: Id, channel: Id, now: int)
    ensures OnLeave(r, member, channel, now).registry.members ==
            if (exists c :: c in r.channels && c.subjectId == channel && ChannelRecordExpired(c, now)) ||
               (exists n :: n in r.members && n.subjectId == member && !MemberRecordLive(n, now))
            then Without(r.members, member) else r.members
  {
    PassTriggersExists(AlertPass(channel, member, DisconnectedFrom(channel)), r.channels, now);
    PassTriggersExists(DisconnectPass(member, channel), r.members, now);
  }

  /** On a leave, the voice-channel list is cut (by the member id) exactly when a
      record for the left channel is expired. */
  lemma LeaveChannelList(r: Registry, member: Id, channel: Id, now: int)
    ensures OnLeave(r, member, channel, now).registry.channels ==
            if exists c :: c in r.channels && c.subjectId == channel && ChannelRecordExpired(c, now)
            then Without(r.channels, member) else r.channels
  {
    PassTriggersExists(AlertPass(channel, member, DisconnectedFrom(channel)), r.channels, now);
  }

  /** A leave sends one disconnect alert per live record for the channel and one
      message per live persistent record for the member, and moves nobody. */
  lemma LeaveEffects(r: Registry, member: Id, channel: Id, now: int)
    ensures var e := OnLeave(r, member, channel, now).effects;
            var alert := AlertPass(channel, member, DisconnectedFrom(channel));
            var disconnect := DisconnectPass(member, channel);
            Notices(e) == NoticesFor(alert, Fired(alert, r.channels, now)) +
                          NoticesFor(disconnect, Fired(disconnect, r.members, now)) &&
            forall x :: x in e ==> !x.Move? && !x.MoveFailed?
  {
    var alert := AlertPass(channel, member, DisconnectedFrom(channel));
    var disconnect := DisconnectPass(member, channel);
    NoticesAppend(PassEffects(alert, r.channels, now), PassEffects(disconnect, r.members, now));
    OneNoticePerFiring(alert, r.channels, now);
    OneNoticePerFiring(disconnect, r.members, now);
    RelocationOnlyForActiveFollow(alert, r.channels, now);
    RelocationOnlyForActiveFollow(disconnect, r.members, now);
  }

  /** A switch reports once per firing member record, then alerts once per live
      record of the new channel and once per live record of the old channel, with
      no merging across the two voice-channel passes. */
  lemma SwitchNotices(r: Registry, member: Id, newChannel: Id, oldChannel: Id, now: int,
                      inVoice: set<Id>, rejected: set<Id>)
    ensures var follow := FollowPass(member, newChannel, inVoice, rejected);
            var entering := AlertPass(newChannel, member, SwitchedInto(newChannel, oldChannel));
            var leaving := AlertPass(oldChannel, member, SwitchedOutOf(oldChannel, newChannel));
            Notices(OnSwitch(r, member, newChannel, oldChannel, now, inVoice, rejected).effects) ==
              NoticesFor(follow, Fired(follow, r.members, now)) +
              NoticesFor(entering, Fired(entering, r.channels, now)) +
              NoticesFor(leaving, Fired(leaving, r.channels, now))
  {
    var follow := FollowPass(member, newChannel, inVoice, rejected);
    var entering := AlertPass(newChannel, member, SwitchedInto(newChannel, oldChannel));
    var leaving := AlertPass(oldChannel, member, SwitchedOutOf(oldChannel, newChannel));
    var a, b, c := PassEffects(follow, r.members, now), PassEffects(entering, r.channels, now),
                   PassEffects(leaving, r.channels, now);
    NoticesAppend(a + b, c);
    NoticesAppend(a, b);
    OneNoticePerFiring(follow, r.members, now);
    OneNoticePerFiring(entering, r.channels, now);
    OneNoticePerFiring(leaving, r.channels, now);
  }

  /** A join reports once per firing member record, then alerts once per live
      record of the joined channel. */
  lemma JoinNotices(r: Registry, member: Id, channel: Id, now: int, inVoice: set<Id>, rejected: set<Id>)
    ensures var follow := FollowPass(member, channel, inVoice, rejected);
            var alert := AlertPass(channel, member, JoinedChannel(channel));
            Notices(OnJoin(r, member, channel, now, inVoice, rejected).effects) ==
              NoticesFor(follow, Fired(follow, r.members, now)) +
              NoticesFor(alert, Fired(alert, r.channels, now))
  {
    var follow := FollowPass(member, channel, inVoice, rejected);
    var alert := AlertPass(channel, member, JoinedChannel(channel));
    NoticesAppend(PassEffects(follow, r.members, now), PassEffects(alert, r.channels, now));
    OneNoticePerFiring(follow, r.members, now);
    OneNoticePerFiring(alert, r.channels, now);
  }
}
