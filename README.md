# Where plugin: subscription registry and voice-event matching

This project models the `where` plugin of the MRVN Discord bot
(`MRVN/src/plugins/where.ts`). The plugin keeps two in-memory lists of
subscriptions (`Notification` records). `activeNotifications` is keyed by a
member id and is filled by the `notify` and `follow` commands.
`activeVCNotifications` is keyed by a voice-channel id and is filled by
`vcnotify`. Three voice-state handlers (join, switch, leave) walk both lists.
For each event they decide:

- which records fire, and what each one posts (a where report, a 🔵/🔴 channel
  alert, a follow disconnect message);
- whether to move the requester after the member (active follow);
- whether to call one of the two bulk removals.

The removals rebuild a list without every record of a given subject, keeping
the order of the rest.

Files and modules:

- `notifications.dfy` (`Notifications`): the `Notification` record, the
  `Registry` pair of lists, and the two liveness tests. Member records are live
  while `endTime >= now`; voice-channel records are expired once
  `now >= endTime`, so the two lists disagree at `now == endTime`. Also the
  filter `Without` that both removal helpers compute, with its lemmas.
- `events.dfy` (`Events`): one `forEach` callback per record (`StepEffects`,
  `StepTriggers`), folded over a list (`PassEffects`, `PassTriggers`) and run
  by the loop method `Scan`. `OnJoin`, `OnSwitch` and `OnLeave` specify each
  handler as a function of the old lists. The lemmas state what the handlers
  do.
- `plugin.dfy` (`Plugin`): the class `WherePlugin` with the two lists as `seq`
  fields. It has the four commands, the three handlers and the two index-loop
  removal methods. Each handler is proved equal to its specification function.
  `Valid()` is the invariant that every active-follow record is persistent.
- `send_where.dfy` (`Locate`): the decision made by `sendWhere`.
- `scenarios.dfy` (`Scenarios`): three end-to-end runs of the handlers.

The model follows these conventions:

- Time is an integer number of milliseconds. Each handler reads it once.
- Effects are records carrying a kind and ids.
- Two sets stand in for the Discord API:
  - `inVoice` holds the requesters whose voice state has a channel;
  - `rejected` holds the requesters whose move the server refuses.
- The where report of a firing member record stands for a call to `sendWhere`
  with that record's text channel and the "has triggered" prefix.
  `Locate.SendWhere` gives the one message that call posts.

Behaviour kept as the code has it:

- Expired voice-channel records call the voice-channel removal with the
  *member* id, not the channel id. Since those records are keyed by channel
  ids, this normally removes nothing (`ChannelListKeyedByMember`).
- In the leave handler the `active` flag is not reset between the two passes.
  An expired voice-channel record for the left channel therefore also clears
  the member's member-list records (`LeaveMemberList`).
- On a join or a switch, one expired or one-shot record clears every record of
  that member, from any requester. On a leave, only an expired record (or an
  expired voice-channel record, through the shared flag) does; a live one-shot
  record is neither fired nor consumed there.
- `vcnotify` stores its record with `persist = false` and
  `activeFollow = false`. The voice-channel passes never read `persist`, so
  such records still alert on every event until they expire.
- When a move is refused, the callback returns before it tests for a one-shot
  record. `StepTriggers` models that early return. Under `Valid()`, active
  follow implies persistent, so the early return never changes the removal
  decision (`FollowPassTriggers`).

## Model

| member | source | states |
|---|---|---|
| Notifications.Without | MRVN/src/plugins/where.ts:383-407 | the rebuilt list is no longer than the old one, and each record in it comes from the old list and has a different subject |
| Notifications.WithoutKeeps | MRVN/src/plugins/where.ts:386-393 | a record is kept if and only if it was in the list and its subject differs from the removed id |
| Notifications.WithoutAppend | MRVN/src/plugins/where.ts:399-405 | the filter works record by record (it commutes with concatenation), so the kept records stay in their original order |
| Notifications.WithoutUnchanged | MRVN/src/plugins/where.ts:383-394 | removal leaves the list unchanged if and only if no record has that subject |
| Notifications.WithoutIdempotent | MRVN/src/plugins/where.ts:383-394 | removing the same id twice gives the same list as removing it once |
| Events.Scan | MRVN/src/plugins/where.ts:208-240 | one forEach pass: its effects and its final flag are the in-order fold of the per-record callback over the list |
| Events.OneNoticePerFiring | MRVN/src/plugins/where.ts:209-217 | every firing record sends exactly one message of the pass's kind to its own text channel, in list order, and no other record sends one |
| Events.PassTriggersExists | MRVN/src/plugins/where.ts:206-244 | a pass raises the flag if and only if some record in the list raises it |
| Events.FollowPassTriggers | MRVN/src/plugins/where.ts:233-238 | on join/switch, for lists where active follow implies persist, the flag is raised iff some record of the member is expired or one-shot, whatever the requester's voice state or move outcome |
| Events.RelocationOnlyForActiveFollow | MRVN/src/plugins/where.ts:219-231 | a move is attempted only for a firing active-follow record whose requester is in a voice channel, and only to the new channel; each move error goes to the text channel of such a record whose move was refused |
| Events.RelocationPerFiring | MRVN/src/plugins/where.ts:219-231 | the moves and move errors of a pass are exactly, in list order, those of the fired records: one move to the new channel per active follow whose requester is in a voice channel, followed by one move error to its text channel when the move is refused |
| Events.RelocationAttempted | MRVN/src/plugins/where.ts:281-291 | a firing active-follow record whose requester is in a voice channel does attempt the move to the new channel, and a refused move does post its error to the record's text channel |
| Events.EndTimeBoundary | MRVN/src/plugins/where.ts:208-250 | at now == endTime a member record still fires, while a voice-channel record no longer alerts and raises the removal flag |
| Events.OnJoin | MRVN/src/plugins/where.ts:204-262 | after a join, records of other members and voice-channel records not keyed by the member id survive, and no record is added to either list |
| Events.OnSwitch | MRVN/src/plugins/where.ts:264-338 | after a switch, records of other members and voice-channel records not keyed by the member id survive, and no record is added to either list |
| Events.OnLeave | MRVN/src/plugins/where.ts:340-381 | after a leave, records of other members and voice-channel records not keyed by the member id survive, and no record is added to either list |
| Events.JoinMemberList | MRVN/src/plugins/where.ts:242-244 | after a join the member list loses all of the member's records if one of them is expired or one-shot, and is unchanged otherwise |
| Events.SwitchMemberList | MRVN/src/plugins/where.ts:304-306 | after a switch the member list loses all of the member's records if one of them is expired or one-shot, and is unchanged otherwise |
| Events.OneShotConsumed | MRVN/src/plugins/where.ts:233-235 | a live one-shot record is consumed by the first join or switch, together with every other record for that member |
| Events.JoinChannelList | MRVN/src/plugins/where.ts:247-261 | on a join the voice-channel list is cut by the member id iff some record for the joined channel is expired, and unchanged otherwise |
| Events.SwitchChannelList | MRVN/src/plugins/where.ts:308-337 | on a switch the voice-channel list is cut by the member id iff some record for the new or the old channel is expired |
| Events.ChannelListKeyedByMember | MRVN/src/plugins/where.ts:259-260 | when no voice-channel record is keyed by the member id, no handler changes the voice-channel list, even when expired records match |
| Events.LeaveMemberList | MRVN/src/plugins/where.ts:358-380 | after a leave the member list is cleared iff a record for the left channel is expired or a record for the member is expired; live one-shot records are neither fired nor consumed |
| Events.LeaveChannelList | MRVN/src/plugins/where.ts:344-360 | on a leave the voice-channel list is cut by the member id iff some record for the left channel is expired, and unchanged otherwise |
| Events.LeaveEffects | MRVN/src/plugins/where.ts:344-376 | a leave sends one 🔴 disconnect alert per live record of the channel, then one message per live persistent record of the member, and moves nobody |
| Events.SwitchNotices | MRVN/src/plugins/where.ts:270-333 | a switch sends one where report per firing member record, one 🔵 alert per live record of the new channel and one 🔴 alert per live record of the old channel; both channel passes fire independently |
| Events.JoinNotices | MRVN/src/plugins/where.ts:208-257 | a join sends one where report per firing member record, then one 🔵 alert per live record of the joined channel |
| Plugin.WherePlugin.constructor | MRVN/src/plugins/where.ts:43-44 | a new plugin has two empty lists |
| Plugin.WherePlugin.Default | MRVN/src/plugins/where.ts:46-53 | the default where_timeout is 600000 ms |
| Plugin.WherePlugin.NotifyRequest | MRVN/src/plugins/where.ts:95-116 | an unknown user changes nothing; otherwise one one-shot, non-following record is appended to the member list, ending at now plus the given time or where_timeout, and the channel list is untouched |
| Plugin.WherePlugin.VcNotifyRequest | MRVN/src/plugins/where.ts:122-143 | an unresolved channel changes nothing; otherwise one record keyed by the channel is appended to the voice-channel list only |
| Plugin.WherePlugin.FollowRequest | MRVN/src/plugins/where.ts:156-190 | appends a persistent record whose active-follow flag is the --active switch (false when absent) to the member list only |
| Plugin.WherePlugin.FollowStopRequest | MRVN/src/plugins/where.ts:196-202 | removes every member-list record for the user, whoever requested it, and leaves the voice-channel list untouched |
| Plugin.WherePlugin.UserJoinedVC | MRVN/src/plugins/where.ts:204-262 | the new lists and the effects are those of OnJoin, and the active-follow-implies-persist invariant is kept |
| Plugin.WherePlugin.UserSwitchedVC | MRVN/src/plugins/where.ts:264-338 | the new lists and the effects are those of OnSwitch, and the invariant is kept |
| Plugin.WherePlugin.UserLeftVC | MRVN/src/plugins/where.ts:340-381 | the new lists and the effects are those of OnLeave, and the invariant is kept |
| Plugin.WherePlugin.RemoveNotifyForUserId | MRVN/src/plugins/where.ts:383-394 | the member list becomes Without(old list, id) and the voice-channel list is unchanged |
| Plugin.WherePlugin.RemoveVCNotifyForUserId | MRVN/src/plugins/where.ts:396-407 | the voice-channel list becomes Without(old list, id) and the member list is unchanged |
| Locate.SendWhere | MRVN/src/plugins/where.ts:410-439 | exactly one message goes to the given channel: an error iff the lookup throws; "not in a channel" with the prefix iff there is no voice channel; an invite error carrying the reason iff the invite fails; otherwise the channel name and the invite link |
| Scenarios.NotifyThenJoin | MRVN/src/plugins/where.ts:208-244 | notify for 5000 ms at t=0, then a join at t=1000, gives exactly one where report and leaves no member record |
| Scenarios.VcNotifyThenSwitchOut | MRVN/src/plugins/where.ts:309-333 | vcnotify on R, then a switch from R to Q, gives exactly one 🔴 alert naming R and Q and keeps the record |
| Scenarios.ActiveFollowNotInVoice | MRVN/src/plugins/where.ts:219-235 | an active follow whose requester is in no voice channel fires one where report, attempts no move and stays registered |
| Scenarios.NotifyThenJoinRun | MRVN/src/plugins/where.ts:105-108 | on a fresh plugin, notify for 5000 ms at t=0 and a join at t=1000 give one where report and an empty member list |
| Scenarios.VcNotifyThenSwitchOutRun | MRVN/src/plugins/where.ts:132-135 | on a fresh plugin, vcnotify on R and a switch from R to Q give one 🔴 alert naming R and Q, and the voice-channel record stays |
| Scenarios.ActiveFollowNotInVoiceRun | MRVN/src/plugins/where.ts:172-173 | on a fresh plugin, follow --active by a requester in no voice channel and a join give one where report, no move, and the record stays |

## Left out

- Discord API calls are not modelled. This covers `getRESTGuildMember`, `getChannel`, `createMessage`, `modMember.edit`, `createInvite` and `getInviteLink`. They appear only as effect records and as the `inVoice`/`rejected` sets and the `VoiceLookup`/`InviteResult` values.
- Message wording is left out: channel names, `humanizeDuration` text, and the `errorMessage`/`successMessage` formatting. Messages keep only their kind and ids.
- `moment` arithmetic is replaced by integer milliseconds.
- Logging is left out.
- Permission decorators, command parsing and per-level config overrides are left out. Only the default `where_timeout` (600000) and a constructor taking any value are kept.
- `whereRequest` is left out. It is a REST member lookup followed by `sendWhere`, and its failed lookup is console error handling.
- `resolveMember` is assumed to yield the member with the requested user id. The path where it yields nothing (and `member.id` throws) is left out.
- A throwing `getRESTGuildMember` inside an active-follow callback is left out (the callback's promise is rejected).
- Scheduling of the un-awaited `forEach(async …)` callbacks and of `sendWhere` is left out. Effects are listed in the order of a sequential run, not the order in which Discord would receive them. An active-follow callback sets its one-shot flag only after an await. Because active-follow records are always persistent, that flag is never set, so a sequential model decides removals the same way.
- Each handler reads the clock once (`now`). The source calls `Date.now()` for every record, so a record on the expiry boundary could be judged at slightly different times within one event.
- A text or voice channel that `getChannel` cannot resolve is not modelled. In the synchronous voice-channel passes (where.ts lines 247-257, 309-333 and 344-356) such a channel makes `createMessage` or `.name` throw, and the error leaves the `forEach`. The rest of that pass, the handler's removal call, and on a leave the whole member pass with its removal, are then skipped. The model assumes every channel resolves, so it always runs every pass and every removal. The same holds for the `newVoice`/`oldVoice` names read in the switch alerts.
