/**
 * The persisted form of a queued command (a row of the `CommandRequest` table) and the
 * constants the modelled commands share.
 */
module CommandRequests {

  /** `CommandRequestType`: the tag that says which command class a stored row belongs to.
      Only the two tags of the modelled commands are named; every other tag is `OtherType`. */
  datatype CommandRequestType = AniDBSyncMyList | TraktEpisodeCollection | OtherType(code: int)

  /** The `CommandRequestPriority` members the modelled commands use as their defaults. */
  const Priority7: int := 7
  const Priority9: int := 9

  /** One stored command. `DateTimeUpdated` is a clock reading in seconds. */
  datatype CommandRequest = CommandRequest(
    CommandRequestID: int,
    CommandID: string,
    CommandType: CommandRequestType,
    Priority: int,
    CommandDetails: string,
    DateTimeUpdated: int)
}
