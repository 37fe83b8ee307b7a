/** The where plugin: two subscription lists updated by commands and by the
    voice-state event handlers. */
module Plugin {
  import opened Notifications
  import opened Events

  /** Default of the `where_timeout` setting, in milliseconds. */
  const DefaultWhereTimeout: int := 600000

  /** A command's user argument: a resolved user, or an unknown one that still carries an id. */
  datatype UserArg = Resolved(id: Id) | UnknownUser(id: Id)

  /** The reply a command posts to the text channel it was issued in. */
  datatype Reply =
    | UnknownMember(dest: Id)
    | NotifyAccepted(dest: Id, subject: Id, timeout: int)
    | ChannelNotFound(dest: Id)
    | VcNotifyAccepted(dest: Id, channel: Id, timeout: int)
    | FollowAccepted(dest: Id, subject: Id, timeout: int, active: bool)
    | FollowStopped(dest: Id, subject: Id)

  /** The duration a subscription command uses: the given time, else `where_timeout`. */
  function Timeout(time: Option<int>, whereTimeout: int): int {
    if time.Some? then time.value else whereTimeout
  }

  class WherePlugin {
    var activeNotifications: seq<Notification>
    var activeVCNotifications: seq<Notification>
    const whereTimeout: int

    ghost predicate Valid()
      reads this
    {
      FollowImpliesPersist(activeNotifications)
    }

    function Model(): Registry
      reads this
    {
      Registry(activeNotifications, activeVCNotifications)
    }

    constructor (whereTimeout: int)
      ensures Valid() && Model() == Registry([], []) && this.whereTimeout == whereTimeout
    {
      activeNotifications := [];
      activeVCNotifications := [];
      this.whereTimeout := whereTimeout;
    }

    /** A plugin with the default `where_timeout`. */
    constructor Default()
      ensures Valid() && Model() == Registry([], []) && whereTimeout == DefaultWhereTimeout
    {
      activeNotifications := [];
      activeVCNotifications := [];
      whereTimeout := DefaultWhereTimeout;
    }

    /** `notify`: a one-shot subscription on the member list. */
    method NotifyRequest(author: Id, user: UserArg, dest: Id, time: Option<int>, now: int) returns (reply: Reply)
      requires Valid()
      modifies this
      ensures Valid()
      ensures user.UnknownUser? ==> reply == UnknownMember(dest) && Model() == old(Model())
      ensures user.Resolved? ==>
        var timeout := Timeout(time, whereTimeout);
        reply == NotifyAccepted(dest, user.id, timeout) &&
        activeNotifications ==
          old(activeNotifications) + [Notification(author, user.id, dest, now + timeout, false, false)] &&
        activeVCNotifications == old(activeVCNotifications)
    {
      if user.UnknownUser? {
        return UnknownMember(dest);
      }
      var timeout := Timeout(time, whereTimeout);
      activeNotifications := activeNotifications + [Notification(author, user.id, dest, now + timeout, false, false)];
      reply := NotifyAccepted(dest, user.id, timeout);
    }

    /** `vcnotify`: a subscription on the voice-channel list, added only when the channel resolves. */
    method VcNotifyRequest(author: Id, channelId: Id, channelFound: bool, dest: Id, time: Option<int>, now: int)
      returns (reply: Reply)
      requires Valid()
      modifies this
      ensures Valid()
      ensures !channelFound ==> reply == ChannelNotFound(dest) && Model() == old(Model())
      ensures channelFound ==>
        var timeout := Timeout(time, whereTimeout);
        reply == VcNotifyAccepted(dest, channelId, timeout) &&
        activeVCNotifications ==
          old(activeVCNotifications) + [Notification(author, channelId, dest, now + timeout, false, false)] &&
        activeNotifications == old(activeNotifications)
    {
      var timeout := Timeout(time, whereTimeout);
      if !channelFound {
        return ChannelNotFound(dest);
      }
      activeVCNotifications := activeVCNotifications + [Notification(author, channelId, dest, now + timeout, false, false)];
      reply := VcNotifyAccepted(dest, channelId, timeout);
    }

    /** `follow`: a persistent subscription on the member list, active when `--active` is given. */
    method FollowRequest(author: Id, user: UserArg, dest: Id, time: Option<int>, active: Option<bool>, now: int)
      returns (reply: Reply)
      requires Valid()
      modifies this
      ensures Valid()
      ensures user.UnknownUser? ==> reply == UnknownMember(dest) && Model() == old(Model())
      ensures user.Resolved? ==>
        var timeout := Timeout(time, whereTimeout);
        var follow := active == Some(true);
        reply == FollowAccepted(dest, user.id, timeout, follow) &&
        activeNotifications ==
          old(activeNotifications) + [Notification(author, user.id, dest, now + timeout, true, follow)] &&
        activeVCNotifications == old(activeVCNotifications)
    {
      var timeout := Timeout(time, whereTimeout);
      var follow := if active.Some? then active.value else false;
      if user.UnknownUser? {
        return UnknownMember(dest);
      }
      activeNotifications := activeNotifications + [Notification(author, user.id, dest, now + timeout, true, follow)];
      reply := FollowAccepted(dest, user.id, timeout, follow);
    }

    /** `follow stop`: drop every member-list record for the user, whoever asked for it. */
    method FollowStopRequest(user: UserArg, dest: Id) returns (reply: Reply)
      requires Valid()
      modifies this
      ensures Valid()
      ensures activeNotifications == Without(old(activeNotifications), user.id)
      ensures activeVCNotifications == old(activeVCNotifications)
      ensures reply == FollowStopped(dest, user.id)
    {
      RemoveNotifyForUserId(user.id);
      reply := FollowStopped(dest, user.id);
    }

    /** `voiceChannelJoin`. */
    method UserJoinedVC(member: Id, newChannel: Id, now: int, inVoice: set<Id>, rejected: set<Id>)
      returns (effects: seq<Effect>)
      requires Valid()
      modifies this
      ensures Valid()
      ensures Model() == OnJoin(old(Model()), member, newChannel, now, inVoice, rejected).registry
      ensures effects == OnJoin(old(Model()), member, newChannel, now, inVoice, rejected).effects
    {
      var followEffects, active := Scan(FollowPass(member, newChannel, inVoice, rejected), activeNotifications, now);
      if active {
        RemoveNotifyForUserId(member);
      }
      var alertEffects;
      alertEffects, active := Scan(AlertPass(newChannel, member, JoinedChannel(newChannel)), activeVCNotifications, now);
      if active {
        RemoveVCNotifyForUserId(member);
      }
      effects := followEffects + alertEffects;
    }

    /** `voiceChannelSwitch`. */
    method UserSwitchedVC(member: Id, newChannel: Id, oldChannel: Id, now: int, inVoice: set<Id>, rejected: set<Id>)
      returns (effects: seq<Effect>)
      requires Valid()
      modifies this
      ensures Valid()
      ensures Model() == OnSwitch(old(Model()), member, newChannel, oldChannel, now, inVoice, rejected).registry
      ensures effects == OnSwitch(old(Model()), member, newChannel, oldChannel, now, inVoice, rejected).effects
    {
      var followEffects, active := Scan(FollowPass(member, newChannel, inVoice, rejected), activeNotifications, now);
      if active {
        RemoveNotifyForUserId(member);
      }
      var enteringEffects, enteringFlag := Scan(AlertPass(newChannel, member, SwitchedInto(newChannel, oldChannel)),
                                                activeVCNotifications, now);
      var leavingEffects, leavingFlag := Scan(AlertPass(oldChannel, member, SwitchedOutOf(oldChannel, newChannel)),
                                              activeVCNotifications, now);
      active := enteringFlag || leavingFlag;
      if active {
        RemoveVCNotifyForUserId(member);
      }
      effects := followEffects + enteringEffects + leavingEffects;
    }

    /** `voiceChannelLeave`: one flag for both passes. */
    method UserLeftVC(member: Id, channel: Id, now: int) returns (effects: seq<Effect>)
      requires Valid()
      modifies this
      ensures Valid()
      ensures Model() == OnLeave(old(Model()), member, channel, now).registry
      ensures effects == OnLeave(old(Model()), member, channel, now).effects
    {
      var alertEffects, active := Scan(AlertPass(channel, member, DisconnectedFrom(channel)), activeVCNotifications, now);
      if active {
        RemoveVCNotifyForUserId(member);
      }
      var disconnectEffects, memberFlag := Scan(DisconnectPass(member, channel), activeNotifications, now);
      active := active || memberFlag;
      if active {
        RemoveNotifyForUserId(member);
      }
      effects := alertEffects + disconnectEffects;
    }

    /** `removeNotifyforUserId`: rebuild the member list without the user's records. */
    method RemoveNotifyForUserId(userId: Id)
      requires Valid()
      modifies this
      ensures Valid()
      ensures activeNotifications == Without(old(activeNotifications), userId)
      ensures activeVCNotifications == old(activeVCNotifications)
    {
      var newNotifies: seq<Notification> := [];
      var index := 0;
      while index < |activeNotifications|
        invariant 0 <= index <= |activeNotifications|
        invariant newNotifies == Without(activeNotifications[..index], userId)
      {
        var notif := activeNotifications[index];
        assert activeNotifications[..index + 1][..index] == activeNotifications[..index];
        if notif.subjectId != userId {
          newNotifies := newNotifies + [notif];
        }
        index := index + 1;
      }
      assert activeNotifications[..index] == activeNotifications;
      activeNotifications := newNotifies;
    }

    /** `removeVCNotifyforUserId`: rebuild the voice-channel list without records keyed by `userId`. */
    method RemoveVCNotifyForUserId(userId: Id)
      requires Valid()
      modifies this
      ensures Valid()
      ensures activeVCNotifications == Without(old(activeVCNotifications), userId)
      ensures activeNotifications == old(activeNotifications)
    {
      var newNotifies: seq<Notification> := [];
      var index := 0;
      while index < |activeVCNotifications|
        invariant 0 <= index <= |activeVCNotifications|
        invariant newNotifies == Without(activeVCNotifications[..index], userId)
      {
        var notif := activeVCNotifications[index];
        assert activeVCNotifications[..index + 1][..index] == activeVCNotifications[..index];
        if notif.subjectId != userId {
          newNotifies := newNotifies + [notif];
        }
        index := index + 1;
      }
      assert activeVCNotifications[..index] == activeVCNotifications;
      activeVCNotifications := newNotifies;
    }
  }
}
