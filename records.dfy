/**
 * The documents and command arguments of the bot: the per-community configuration
 * (bot.py:119-130), the event record (bot.py:456-472), the result record
 * (bot.py:766-775), the requester of a command, and the audit entries `log_action`
 * posts to the transcript channel.
 */
module Records {
  import opened Wrappers

  /** A Discord snowflake. Users, roles, channels and messages all have positive ids. */
  type Id = x: int | x > 0 witness 1

  /** The requester of a command or button press: `interaction.user` with its role ids. */
  datatype Member = Member(id: Id, roles: seq<Id>)

  /** `any(role.id == r for role in interaction.user.roles)`. */
  predicate HasRole(m: Member, r: Id) { r in m.roles }

  /** The configuration document of one community (`config_data`, bot.py:119-130). */
  datatype Config = Config(
    botOpRole: Id,
    judgeRole: Id,
    recorderRole: Id,
    scheduleChannel: Id,
    resultsChannel: Id,
    notificationChannel: Id,
    transcriptChannel: Id,
    thumbnailChannel: Id,
    tourLogo: string)

  /** The optional arguments of `config_edit` (bot.py:149-160); `None` is an omitted argument. */
  datatype ConfigPatch = ConfigPatch(
    botOpRole: Option<Id>,
    judgeRole: Option<Id>,
    recorderRole: Option<Id>,
    scheduleChannel: Option<Id>,
    resultsChannel: Option<Id>,
    notificationChannel: Option<Id>,
    transcriptChannel: Option<Id>,
    thumbnailChannel: Option<Id>,
    tourLogo: Option<string>)

  /** An event document (bot.py:456-472). */
  datatype Event = Event(
    title: string,
    team1: string,
    team2: string,
    timestamp: int,
    tourName: Option<string>,
    groupName: Option<string>,
    roundNo: Option<string>,
    channelId: Option<Id>,
    captain1Id: Option<Id>,
    captain2Id: Option<Id>,
    judgeId: Option<Id>,
    recorderId: Option<Id>,
    imageUrl: Option<string>,
    remarks: Option<string>,
    messageId: Id)

  /** The arguments of `events_create` (bot.py:335-355); users and channels are given by id. */
  datatype CreateArgs = CreateArgs(
    team1: string,
    team2: string,
    dd: string,
    mm: string,
    yyyy: string,
    hour: string,
    minute: string,
    ampm: Option<string>,
    tourName: Option<string>,
    groupName: Option<string>,
    roundNo: Option<string>,
    channel: Option<Id>,
    captain1: Option<Id>,
    captain2: Option<Id>,
    judge: Option<Id>,
    recorder: Option<Id>,
    imageUrl: Option<string>,
    remarks: Option<string>)

  /** The optional arguments of `events_edit` after the title (bot.py:504-525). */
  datatype EditArgs = EditArgs(
    team1: Option<string>,
    team2: Option<string>,
    dd: Option<string>,
    mm: Option<string>,
    yyyy: Option<string>,
    hour: Option<string>,
    minute: Option<string>,
    ampm: Option<string>,
    tourName: Option<string>,
    groupName: Option<string>,
    roundNo: Option<string>,
    channel: Option<Id>,
    captain1: Option<Id>,
    captain2: Option<Id>,
    judge: Option<Id>,
    recorder: Option<Id>,
    imageUrl: Option<string>,
    remarks: Option<string>)

  /** The two staffing slots of an event, one per claim button. */
  datatype Slot = JudgeSlot | RecorderSlot

  /**
   * What a `TournamentButtons` view holds (bot.py:394-399): the message it is attached
   * to, and the judge and recorder roles and event channel as they were when the event
   * was created.
   */
  datatype ClaimView = ClaimView(messageId: Id, judgeRole: Id, recorderRole: Id, channelId: Option<Id>)

  /** A result document (bot.py:766-775); `recordedAt` is the `datetime.utcnow()` it stores. */
  datatype ResultRecord = ResultRecord(
    eventTitle: string,
    team1Score: int,
    team2Score: int,
    numberOfMatches: int,
    remarks: Option<string>,
    recLink: Option<string>,
    screenshots: seq<string>,
    recordedAt: int)

  /** The messages `log_action` is asked to post, one constructor per call site. */
  datatype AuditEntry =
    | ConfigSetBy(user: Id)
    | ConfigEditedBy(user: Id)
    | EventCreatedBy(team1: string, team2: string, user: Id)
    | EventEditedBy(title: string, user: Id)
    | EventDeletedBy(title: string, user: Id, reason: Option<string>)
    | EventViewedBy(title: string, user: Id)
    | ResultsSubmittedBy(title: string, user: Id)
    | EventListViewedBy(user: Id)
    | WorkViewedBy(staff: Id, user: Id)

  /** One message in a transcript channel. */
  datatype LogLine = LogLine(channel: Id, entry: AuditEntry)

  /** The title an event is stored and looked up under: `f"{team1} vs {team2}"`. */
  function Title(team1: string, team2: string): string { team1 + " vs " + team2 }
}
