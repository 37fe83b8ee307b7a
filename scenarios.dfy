/** End-to-end runs of the handlers on small registries. */
module Scenarios {
  import opened Notifications
  import opened Events
  import opened Plugin

  /** `notify` at t=0 with 5000 ms, then the member joins at t=1000: one where
      report to the requester's channel and no member record left. */
  lemma NotifyThenJoin(author: Id, member: Id, dest: Id, room: Id, inVoice: set<Id>, rejected: set<Id>)
    ensures var r := Registry([Notification(author, member, dest, 5000, false, false)], []);
            var o := OnJoin(r, member, room, 1000, inVoice, rejected);
            o.registry.members == [] && o.effects == [WhereReport(dest, author, member)]
  {
    var n := Notification(author, member, dest, 5000, false, false);
    var r := Registry([n], []);
    var follow := FollowPass(member, room, inVoice, rejected);
    assert [n][..0] == [];
    assert PassEffects(follow, [n], 1000) == [WhereReport(dest, author, member)];
    assert PassTriggers(follow, [n], 1000);
    assert Without([n], member) == [];
  }

  /** `vcnotify` on room R at t=0, then the member switches from R to Q at
      t=1000: one switched-out alert naming R and Q, and the record stays. */
  lemma VcNotifyThenSwitchOut(author: Id, member: Id, dest: Id, roomR: Id, roomQ: Id, inVoice: set<Id>, rejected: set<Id>)
    requires roomR != roomQ
    ensures var r := Registry([], [Notification(author, roomR, dest, 5000, false, false)]);
            var o := OnSwitch(r, member, roomQ, roomR, 1000, inVoice, rejected);
            o.registry == r && o.effects == [ChannelAlert(dest, author, member, SwitchedOutOf(roomR, roomQ))]
  {
    var c := Notification(author, roomR, dest, 5000, false, false);
    assert [c][..0] == [];
    var entering := AlertPass(roomQ, member, SwitchedInto(roomQ, roomR));
    var leaving := AlertPass(roomR, member, SwitchedOutOf(roomR, roomQ));
    assert PassEffects(entering, [c], 1000) == [];
    assert !PassTriggers(entering, [c], 1000);
    assert PassEffects(leaving, [c], 1000) == [ChannelAlert(dest, author, member, SwitchedOutOf(roomR, roomQ))];
    assert !PassTriggers(leaving, [c], 1000);
  }

  /** `follow --active` at t=0 by a requester who is in no voice channel, then
      the member joins at t=1000: one where report, no move, and the record stays. */
  lemma ActiveFollowNotInVoice(author: Id, member: Id, dest: Id, room: Id, inVoice: set<Id>, rejected: set<Id>)
    requires author !in inVoice
    ensures var r := Registry([Notification(author, member, dest, 5000, true, true)], []);
            var o := OnJoin(r, member, room, 1000, inVoice, rejected);
            o.registry == r && o.effects == [WhereReport(dest, author, member)]
  {
    var n := Notification(author, member, dest, 5000, true, true);
    var follow := FollowPass(member, room, inVoice, rejected);
    assert [n][..0] == [];
    assert PassEffects(follow, [n], 1000) == [WhereReport(dest, author, member)];
    assert !PassTriggers(follow, [n], 1000);
  }

  // Runs of the plugin itself, starting from the command that registers the subscription.

  /** `notify` for 5000 ms at t=0 on a fresh plugin, then a join at t=1000. */
  method NotifyThenJoinRun(author: Id, member: Id, dest: Id, room: Id, inVoice: set<Id>, rejected: set<Id>)
    returns (effects: seq<Effect>, members: seq<Notification>)
    ensures effects == [WhereReport(dest, author, member)] && members == []
  {
    var plugin := new WherePlugin.Default();
    var reply := plugin.NotifyRequest(author, Resolved(member), dest, Some(5000), 0);
    assert plugin.Model() == Registry([Notification(author, member, dest, 5000, false, false)], []);
    NotifyThenJoin(author, member, dest, room, inVoice, rejected);
    effects := plugin.UserJoinedVC(member, room, 1000, inVoice, rejected);
    members := plugin.activeNotifications;
  }

  /** `vcnotify` on R for 5000 ms at t=0 on a fresh plugin, then a switch from R to Q at t=1000. */
  method VcNotifyThenSwitchOutRun(author: Id, member: Id, dest: Id, roomR: Id, roomQ: Id,
                                  inVoice: set<Id>, rejected: set<Id>)
    returns (effects: seq<Effect>, channels: seq<Notification>)
    requires roomR != roomQ
    ensures effects == [ChannelAlert(dest, author, member, SwitchedOutOf(roomR, roomQ))]
    ensures channels == [Notification(author, roomR, dest, 5000, false, false)]
  {
    var plugin := new WherePlugin.Default();
    var reply := plugin.VcNotifyRequest(author, roomR, true, dest, Some(5000), 0);
    assert plugin.Model() == Registry([], [Notification(author, roomR, dest, 5000, false, false)]);
    VcNotifyThenSwitchOut(author, member, dest, roomR, roomQ, inVoice, rejected);
    effects := plugin.UserSwitchedVC(member, roomQ, roomR, 1000, inVoice, rejected);
    channels := plugin.activeVCNotifications;
  }

  /** `follow --active` for 5000 ms at t=0 on a fresh plugin by a requester in no
      voice channel, then a join at t=1000. */
  method ActiveFollowNotInVoiceRun(author: Id, member: Id, dest: Id, room: Id, inVoice: set<Id>, rejected: set<Id>)
    returns (effects: seq<Effect>, members: seq<Notification>)
    requires author !in inVoice
    ensures effects == [WhereReport(dest, author, member)]
    ensures members == [Notification(author, member, dest, 5000, true, true)]
  {
    var plugin := new WherePlugin.Default();
    var reply := plugin.FollowRequest(author, Resolved(member), dest, Some(5000), Some(true), 0);
    assert plugin.Model() == Registry([Notification(author, member, dest, 5000, true, true)], []);
    ActiveFollowNotInVoice(author, member, dest, room, inVoice, rejected);
    effects := plugin.UserJoinedVC(member, room, 1000, inVoice, rejected);
    members := plugin.activeNotifications;
  }
}
