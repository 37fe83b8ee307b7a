/** `sendWhere`: the one message that reports where a member is. */
module Locate {
  import opened Notifications

  /** Outcome of looking up the member's voice channel in the guild. */
  datatype VoiceLookup =
    | LookupThrew               // the member or its voice state could not be read
    | NoVoiceChannel            // no channel id, or no such channel
    | InVoiceChannel(name: string)

  /** Outcome of creating an invite to that channel. */
  datatype InviteResult = InviteFailed(reason: string) | InviteCreated(link: string)

  datatype WhereMessage =
    | RetrieveError(dest: Id)
    | NotInChannel(dest: Id, prepend: string)
    | InviteError(dest: Id, reason: string)
    | Location(dest: Id, prepend: string, subject: Id, channelName: string, link: string)

  /** The invite is asked for only when the member is in a voice channel. */
  function SendWhere(dest: Id, subject: Id, prepend: string, lookup: VoiceLookup, invite: InviteResult): (m: WhereMessage)
    ensures m.dest == dest
    ensures m.RetrieveError? <==> lookup.LookupThrew?
    ensures m.NotInChannel? <==> lookup.NoVoiceChannel?
    ensures m.NotInChannel? ==> m.prepend == prepend
    ensures m.InviteError? <==> lookup.InVoiceChannel? && invite.InviteFailed?
    ensures m.InviteError? ==> m.reason == invite.reason
    ensures m.Location? <==> lookup.InVoiceChannel? && invite.InviteCreated?
    ensures m.Location? ==>
      m.prepend == prepend && m.subject == subject && m.channelName == lookup.name && m.link == invite.link
  {
    match lookup
    case LookupThrew => RetrieveError(dest)
    case NoVoiceChannel => NotInChannel(dest, prepend)
    case InVoiceChannel(name) =>
      match invite
      case InviteFailed(reason) => InviteError(dest, reason)
      case InviteCreated(link) => Location(dest, prepend, subject, name, link)
  }
}
