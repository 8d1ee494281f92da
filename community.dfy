/**
 * One community's database (the namespace `TenantKey(guild name)`) together with what
 * the bot leaves behind on Discord, and one method per command handler of bot.py.
 * Every handler runs as one atomic step; each states the whole new state.
 */
module Bot {
  import opened Wrappers
  import opened Text
  import opened Records
  import opened Timestamp
  import opened Events
  import opened Configuration
  import opened Display
  import opened Queries

  /** The ephemeral answer a handler gives, one constructor per message of bot.py. */
  datatype Reply =
    | NoPermission              // "You don't have permission!"
    | ConfigNotSet              // "Config not set! Use /config_set first."
    | ConfigSaved               // "Configuration set successfully!"
    | ConfigUpdated             // "Configuration updated!"
    | NothingToEdit             // "Please specify at least one field to edit!"
    | InvalidDate               // "Invalid date/time format!"
    | ScheduleChannelNotFound   // "Schedule channel not found!"
    | EventCreated              // "Event created successfully!"
    | EventNotFound             // "Event not found!"
    | EventUpdated              // "Event updated successfully!"
    | ConfirmPrompt(title: string)  // "Confirm deletion of event '...'?" with Confirm and Cancel
    | EventDeleted              // "Event deleted successfully!"
    | DeletionCancelled         // "Deletion cancelled."
    | LacksRole(slot: Slot)     // "You don't have the Judge role!" / "... Recorder role!"
    | Assigned(slot: Slot, user: Id)  // "<mention> assigned as Judge!" / "... as Recorder!"
    | ResultsChannelNotFound    // "Results channel not found!"
    | ResultsSubmitted          // "Results submitted successfully!"
    | NoEventsFound             // "No events found!"
    | Shown(embed: Embed)       // the embed of events_show
    | Listed(description: string)
    | WorkShown(title: string, description: string)
    | Raised                    // an exception escaped the handler; nothing more was done

  /** A plain message the bot sent to a channel. */
  datatype Notice = Notice(channel: Id, text: string)

  /** What `events_results` sends to the results channel: the extra screenshots, if any, then the embed. */
  datatype ResultsPost = ResultsPost(channel: Id, screenshots: Option<string>, embed: Embed)

  /** An event message the bot posted: the channel it was sent to, and its embed. */
  datatype Posted = Posted(channel: Id, embed: Embed)

  /** A `set_permissions(user, view_channel=True, send_messages=True)` on an event channel. */
  datatype Grant = Grant(channel: Id, user: Id)

  /** What the Confirm and Cancel buttons of `events_delete` hold (bot.py:623-641). */
  datatype DeletePrompt = DeletePrompt(guild: Id, title: string, reason: Option<string>, config: Config, event: Event)

  /** Everything the handlers read or write, as one value. */
  datatype State = State(
    configs: map<Id, Config>,
    events: seq<Event>,
    results: seq<ResultRecord>,
    board: map<Id, Posted>,
    notices: seq<Notice>,
    resultPosts: seq<ResultsPost>,
    grants: seq<Grant>,
    log: seq<LogLine>)

  /** The operator check: a configuration exists for the guild and the requester holds its bot-operator role. */
  predicate Operator(configs: map<Id, Config>, guild: Id, user: Member) {
    guild in configs && HasRole(user, configs[guild].botOpRole)
  }

  /** The role a claim button asks for (bot.py:403, 423). */
  function SlotRole(view: ClaimView, slot: Slot): Id {
    match slot
    case JudgeSlot => view.judgeRole
    case RecorderSlot => view.recorderRole
  }

  /**
   * The conditional assignments of `config_edit` (bot.py:169-187) applied to the stored
   * configuration: each supplied field is written, and `written` tells whether
   * `update_data` ended up non-empty.
   */
  method BuildConfig(stored: Config, p: ConfigPatch) returns (c: Config, written: bool)
    ensures c == ApplyPatch(stored, p)
    ensures written <==> !IsEmptyPatch(p)
  {
    written := false;
    var botOpRole, judgeRole, recorderRole := stored.botOpRole, stored.judgeRole, stored.recorderRole;
    var schedule, results, notification := stored.scheduleChannel, stored.resultsChannel, stored.notificationChannel;
    var transcript, thumbnail, logo := stored.transcriptChannel, stored.thumbnailChannel, stored.tourLogo;
    if p.botOpRole.Some? { botOpRole := p.botOpRole.value; written := true; }
    if p.judgeRole.Some? { judgeRole := p.judgeRole.value; written := true; }
    if p.recorderRole.Some? { recorderRole := p.recorderRole.value; written := true; }
    if p.scheduleChannel.Some? { schedule := p.scheduleChannel.value; written := true; }
    if p.resultsChannel.Some? { results := p.resultsChannel.value; written := true; }
    if p.notificationChannel.Some? { notification := p.notificationChannel.value; written := true; }
    if p.transcriptChannel.Some? { transcript := p.transcriptChannel.value; written := true; }
    if p.thumbnailChannel.Some? { thumbnail := p.thumbnailChannel.value; written := true; }
    if Truthy(p.tourLogo) { logo := p.tourLogo.value; written := true; }
    c := Config(botOpRole, judgeRole, recorderRole, schedule, results, notification, transcript, thumbnail, logo);
  }

  /** The new-event notice of `events_create`, when the notification channel can be found (bot.py:474-476). */
  function CreatedNotice(c: Config, a: CreateArgs, reachable: set<Id>): seq<Notice> {
    if c.notificationChannel in reachable
    then [Notice(c.notificationChannel, "New event: " + a.team1 + " vs " + a.team2 + " created!")]
    else []
  }

  /**
   * The board after an accepted claim, as intended: the Staffs field of the button's
   * message shows the two slots of the record that message displays.
   */
  function ClaimedBoard(board: map<Id, Posted>, events: seq<Event>, messageId: Id): map<Id, Posted> {
    if messageId in board && FindMessage(events, messageId).Some? then
      var e := events[FindMessage(events, messageId).value];
      Reembed(board, messageId, WithStaffs(board[messageId].embed, StaffsText(e.judgeId, e.recorderId)))
    else board
  }

  /**
   * `interaction.response.edit_message(embed=d)` from a button: the button's own message
   * now shows `d` and stays in its channel; no fetch is involved.
   */
  function Reembed(board: map<Id, Posted>, messageId: Id, d: Embed): map<Id, Posted> {
    if messageId in board then board[messageId := board[messageId].(embed := d)] else board
  }

  /**
   * `channel.fetch_message(id)` succeeds: the message exists and was posted in that
   * channel. Otherwise discord.py raises `NotFound`.
   */
  predicate Fetchable(board: map<Id, Posted>, channel: Id, messageId: Id) {
    messageId in board && board[messageId].channel == channel
  }

  /**
   * The conditional assignments of `events_edit` (bot.py:538-570) on the stored record:
   * `written` tells whether `update_data` ended up non-empty, and then the record is the
   * merged one with its title recomputed.
   */
  method BuildEdit(stored: Event, a: EditArgs) returns (updated: Event, written: bool)
    ensures written <==> HasUpdate(a)
    ensures written ==> updated == Merge(stored, a)
    ensures !written ==> updated == stored
  {
    var team1, team2, timestamp := stored.team1, stored.team2, stored.timestamp;
    var w1 := false;
    if Truthy(a.team1) { team1 := a.team1.value; w1 := true; }
    if Truthy(a.team2) { team2 := a.team2.value; w1 := true; }
    var t := EditTimestamp(a);
    if t.Some? { timestamp := t.value; w1 := true; }
    var tourName, groupName, roundNo, imageUrl, remarks, w2 := EditTexts(stored, a);
    var channelId, captain1Id, captain2Id, judgeId, recorderId, w3 := EditIds(stored, a);
    written := w1 || w2 || w3;
    updated := stored;
    if written {
      updated := Event(Title(team1, team2), team1, team2, timestamp, tourName, groupName, roundNo,
                       channelId, captain1Id, captain2Id, judgeId, recorderId, imageUrl, remarks, stored.messageId);
    }
  }

  /** The string arguments of `events_edit` that are written when truthy (bot.py:547-566). */
  method EditTexts(stored: Event, a: EditArgs)
    returns (tourName: Option<string>, groupName: Option<string>, roundNo: Option<string>,
             imageUrl: Option<string>, remarks: Option<string>, written: bool)
    ensures tourName == Written(a.tourName, stored.tourName) && groupName == Written(a.groupName, stored.groupName)
    ensures roundNo == Written(a.roundNo, stored.roundNo) && imageUrl == Written(a.imageUrl, stored.imageUrl)
    ensures remarks == Written(a.remarks, stored.remarks)
    ensures written <==> Truthy(a.tourName) || Truthy(a.groupName) || Truthy(a.roundNo) || Truthy(a.imageUrl) || Truthy(a.remarks)
  {
    tourName, groupName, roundNo, imageUrl, remarks := stored.tourName, stored.groupName, stored.roundNo, stored.imageUrl, stored.remarks;
    written := false;
    if Truthy(a.tourName) { tourName := a.tourName; written := true; }
    if Truthy(a.groupName) { groupName := a.groupName; written := true; }
    if Truthy(a.roundNo) { roundNo := a.roundNo; written := true; }
    if Truthy(a.imageUrl) { imageUrl := a.imageUrl; written := true; }
    if Truthy(a.remarks) { remarks := a.remarks; written := true; }
  }

  /** The channel and user arguments of `events_edit`, written whenever given (bot.py:553-562). */
  method EditIds(stored: Event, a: EditArgs)
    returns (channelId: Option<Id>, captain1Id: Option<Id>, captain2Id: Option<Id>,
             judgeId: Option<Id>, recorderId: Option<Id>, written: bool)
    ensures channelId == (if a.channel.Some? then a.channel else stored.channelId)
    ensures captain1Id == (if a.captain1.Some? then a.captain1 else stored.captain1Id)
    ensures captain2Id == (if a.captain2.Some? then a.captain2 else stored.captain2Id)
    ensures judgeId == (if a.judge.Some? then a.judge else stored.judgeId)
    ensures recorderId == (if a.recorder.Some? then a.recorder else stored.recorderId)
    ensures written <==> a.channel.Some? || a.captain1.Some? || a.captain2.Some? || a.judge.Some? || a.recorder.Some?
  {
    channelId, captain1Id, captain2Id, judgeId, recorderId := stored.channelId, stored.captain1Id, stored.captain2Id, stored.judgeId, stored.recorderId;
    written := false;
    if a.channel.Some? { channelId := a.channel; written := true; }
    if a.captain1.Some? { captain1Id := a.captain1; written := true; }
    if a.captain2.Some? { captain2Id := a.captain2; written := true; }
    if a.judge.Some? { judgeId := a.judge; written := true; }
    if a.recorder.Some? { recorderId := a.recorder; written := true; }
  }

  /**
   * The board after the display part of `events_edit` (bot.py:573-604), or `None` when
   * it raises: fetching from the configured schedule channel a message that is gone or
   * was posted elsewhere, or the rewrite loop's unbound `timestamp`. Nothing is done
   * when the schedule channel cannot be found.
   */
  function EditedBoard(board: map<Id, Posted>, schedule: Id, scheduleFound: bool, stored: Event, a: EditArgs): Option<map<Id, Posted>> {
    if !scheduleFound then Some(board)
    else if !Fetchable(board, schedule, stored.messageId) then None
    else
      match RewriteDisplay(board[stored.messageId].embed, stored, a)
      case None => None
      case Some(d) => Some(board[stored.messageId := Posted(schedule, d)])
  }

  /**
   * The board after Confirm (bot.py:632-634): the event's message is deleted when the
   * schedule channel can be found, and fetching it from that channel raises when it is
   * gone or was posted in another channel.
   */
  function DeletedBoard(board: map<Id, Posted>, schedule: Id, scheduleFound: bool, messageId: Id): Option<map<Id, Posted>> {
    if !scheduleFound then Some(board)
    else if !Fetchable(board, schedule, messageId) then None
    else Some(board - {messageId})
  }

  /**
   * A message posted while the schedule channel was `posted` cannot be fetched once
   * `config_edit` has moved the schedule channel to `moved`: both the edit's rewrite and
   * Confirm raise, while from the channel it was posted in Confirm deletes it.
   */
  lemma MovedScheduleRaises(board: map<Id, Posted>, posted: Id, moved: Id, d: Embed, stored: Event, a: EditArgs)
    requires posted != moved
    ensures var b := board[stored.messageId := Posted(posted, d)];
      && EditedBoard(b, moved, true, stored, a) == None
      && DeletedBoard(b, moved, true, stored.messageId) == None
      && DeletedBoard(b, posted, true, stored.messageId) == Some(b - {stored.messageId})
  {
  }

  /** What `events_results` sends (bot.py:761-764): screenshots 2 to 9 joined by line breaks when any is given, then the embed. */
  function ResultsPostFor(channel: Id, e: Event, score1: int, score2: int, remarks: Option<string>, recLink: Option<string>,
                          shot1: Option<string>, rest: seq<Option<string>>): ResultsPost {
    var posted := TruthyOnly(rest);
    ResultsPost(channel, if |posted| > 0 then Some(Join(posted, "\n")) else None,
                RenderResults(e, score1, score2, recLink, remarks, shot1))
  }

  /**
   * An accepted claim as intended puts the claimant in the slot of the record the
   * message shows and makes that message's Staffs field name exactly the record's two
   * holders; every other message is left as it was.
   */
  lemma ClaimSyncsDisplay(events: seq<Event>, board: map<Id, Posted>, messageId: Id, slot: Slot, user: Id)
    requires FindMessage(events, messageId).Some?
    ensures var claimed := ClaimUpdate(events, messageId, slot, user);
      var i := FindMessage(events, messageId).value;
      var after := ClaimedBoard(board, claimed, messageId);
      && Holder(claimed[i], slot) == Some(user)
      && after.Keys == board.Keys
      && (forall m :: m in board && m != messageId ==> after[m] == board[m])
      && (messageId in board ==> after[messageId].channel == board[messageId].channel)
      && (messageId in board && |board[messageId].embed.fields| > STAFFS_INDEX ==>
            && after[messageId].embed.fields[STAFFS_INDEX].value == StaffsText(claimed[i].judgeId, claimed[i].recorderId)
            && |after[messageId].embed.fields| == |board[messageId].embed.fields|)
  {
    var i := FindMessage(events, messageId).value;
    FindMessageAfterUpdate(events, i, SetSlot(events[i], slot, user), messageId);
  }

  /** The embed the pressed button would post as written, or `None` for its `IndexError` (bot.py:406-409, 426-429). */
  function SpliceAsWritten(slot: Slot, shown: Embed, claimant: Id, name: string): Option<Embed> {
    match slot
    case JudgeSlot => JudgeSpliceAsWritten(shown, claimant, name)
    case RecorderSlot => RecorderSpliceAsWritten(shown, claimant, name)
  }

  /** An embed with its Staffs field (index 8) set to `text`; shorter embeds are left alone. */
  function WithStaffs(d: Embed, text: string): Embed {
    if |d.fields| > STAFFS_INDEX then d.(fields := d.fields[STAFFS_INDEX := Field("Staffs", text, false)]) else d
  }

  class Community {
    /** The `config` collection, keyed by guild id. */
    var configs: map<Id, Config>
    /** The `events` collection in insertion order. */
    var events: seq<Event>
    /** The `results` collection. */
    var results: seq<ResultRecord>
    /** The event messages posted in schedule channels, by message id, with the channel each was sent to. */
    var board: map<Id, Posted>
    /** Plain messages: the new-event notices. */
    var notices: seq<Notice>
    /** What was sent to results channels. */
    var resultPosts: seq<ResultsPost>
    /** Channel permissions granted to claimants. */
    var grants: seq<Grant>
    /** The transcript-channel messages of `log_action`. */
    var log: seq<LogLine>
    /** The channels `bot.get_channel` finds. */
    const reachable: set<Id>

    function Snapshot(): State
      reads this
    {
      State(configs, events, results, board, notices, resultPosts, grants, log)
    }

    /** Every stored event is well formed. */
    predicate Valid()
      reads this
    {
      AllWellFormed(events)
    }

    constructor(reachable: set<Id>)
      ensures Valid()
      ensures this.reachable == reachable
      ensures Snapshot() == State(map[], [], [], map[], [], [], [], [])
    {
      this.reachable := reachable;
      configs := map[];
      events := [];
      results := [];
      board := map[];
      notices := [];
      resultPosts := [];
      grants := [];
      log := [];
    }

    /**
     * `log_action` (bot.py:800-805): one transcript line when the guild has a
     * configuration whose transcript channel can be found, else nothing.
     */
    function Logged(configs: map<Id, Config>, guild: Id, entry: AuditEntry): (r: seq<LogLine>)
      ensures |r| <= 1
      ensures |r| == 1 <==> guild in configs && configs[guild].transcriptChannel in reachable
      ensures |r| == 1 ==> r[0] == LogLine(configs[guild].transcriptChannel, entry)
    {
      if guild in configs && configs[guild].transcriptChannel in reachable then
        [LogLine(configs[guild].transcriptChannel, entry)]
      else []
    }

    method LogAction(guild: Id, entry: AuditEntry)
      modifies this
      ensures log == old(log) + Logged(configs, guild, entry)
      ensures configs == old(configs) && events == old(events) && results == old(results) && board == old(board)
      ensures notices == old(notices) && resultPosts == old(resultPosts) && grants == old(grants)
    {
      if guild in configs && configs[guild].transcriptChannel in reachable {
        log := log + [LogLine(configs[guild].transcriptChannel, entry)];
      }
    }

    // -------------------------------------------------------------------------
    // Configuration

    /**
     * `config_set` (bot.py:108-131): the requester must hold the bot-operator role the
     * command names (not the stored one); the configuration document is then replaced.
     */
    method ConfigSet(guild: Id, user: Member, c: Config) returns (reply: Reply)
      requires Valid()
      modifies this
      ensures Valid()
      ensures !HasRole(user, c.botOpRole) ==> reply == NoPermission && Snapshot() == old(Snapshot())
      ensures HasRole(user, c.botOpRole) ==>
        && reply == ConfigSaved
        && Snapshot() == old(Snapshot()).(configs := old(configs)[guild := c],
                                          log := old(log) + Logged(old(configs)[guild := c], guild, ConfigSetBy(user.id)))
    {
      if !HasRole(user, c.botOpRole) {
        return NoPermission;
      }
      configs := configs[guild := c];
      LogAction(guild, ConfigSetBy(user.id));
      reply := ConfigSaved;
    }

    /**
     * `config_edit` (bot.py:161-194): operators only; the fields that were supplied are
     * written, and an edit that supplies nothing is refused.
     */
    method ConfigEdit(guild: Id, user: Member, p: ConfigPatch) returns (reply: Reply)
      requires Valid()
      modifies this
      ensures Valid()
      ensures !Operator(old(configs), guild, user) ==> reply == NoPermission && Snapshot() == old(Snapshot())
      ensures Operator(old(configs), guild, user) && IsEmptyPatch(p) ==> reply == NothingToEdit && Snapshot() == old(Snapshot())
      ensures Operator(old(configs), guild, user) && !IsEmptyPatch(p) ==>
        var edited := old(configs)[guild := ApplyPatch(old(configs)[guild], p)];
        && reply == ConfigUpdated
        && Snapshot() == old(Snapshot()).(configs := edited, log := old(log) + Logged(edited, guild, ConfigEditedBy(user.id)))
    {
      if !(guild in configs && HasRole(user, configs[guild].botOpRole)) {
        return NoPermission;
      }
      var c, written := BuildConfig(configs[guild], p);
      if !written {
        return NothingToEdit;
      }
      configs := configs[guild := c];
      LogAction(guild, ConfigEditedBy(user.id));
      reply := ConfigUpdated;
    }

    // -------------------------------------------------------------------------
    // Creating an event

    /**
     * `events_create` (bot.py:356-478). `messageId` is the id Discord gives the posted
     * message. On success the event's embed is on the board, the record is appended,
     * and the returned view holds the roles and channel for the claim buttons.
     */
    method EventsCreate(guild: Id, user: Member, a: CreateArgs, messageId: Id) returns (reply: Reply, view: Option<ClaimView>)
      requires Valid()
      modifies this
      ensures Valid()
      ensures view.Some? <==> reply == EventCreated
      ensures guild !in old(configs) ==> reply == ConfigNotSet && Snapshot() == old(Snapshot())
      ensures guild in old(configs) && !HasRole(user, old(configs)[guild].botOpRole) ==> reply == NoPermission && Snapshot() == old(Snapshot())
      ensures Operator(old(configs), guild, user) && CreateTimestamp(a).None? ==> reply == InvalidDate && Snapshot() == old(Snapshot())
      ensures Operator(old(configs), guild, user) && CreateTimestamp(a).Some? && old(configs)[guild].scheduleChannel !in reachable ==>
        reply == ScheduleChannelNotFound && Snapshot() == old(Snapshot())
      ensures Operator(old(configs), guild, user) && CreateTimestamp(a).Some? && old(configs)[guild].scheduleChannel in reachable ==>
        var c := old(configs)[guild];
        var ts := CreateTimestamp(a).value;
        && reply == EventCreated
        && view == Some(ClaimView(messageId, c.judgeRole, c.recorderRole, a.channel))
        && Snapshot() == old(Snapshot()).(
             events := old(events) + [NewEvent(a, ts, messageId)],
             board := old(board)[messageId := Posted(c.scheduleChannel, RenderCreated(a, ts))],
             notices := old(notices) + CreatedNotice(c, a, reachable),
             log := old(log) + Logged(old(configs), guild, EventCreatedBy(a.team1, a.team2, user.id)))
    {
      view := None;
      if guild !in configs {
        return ConfigNotSet, None;
      }
      var c := configs[guild];
      if !HasRole(user, c.botOpRole) {
        return NoPermission, None;
      }
      var timestamp := CreateTimestamp(a);
      if timestamp.None? {
        return InvalidDate, None;
      }
      var embed := RenderCreated(a, timestamp.value);
      if c.scheduleChannel !in reachable {
        return ScheduleChannelNotFound, None;
      }
      board := board[messageId := Posted(c.scheduleChannel, embed)];
      view := Some(ClaimView(messageId, c.judgeRole, c.recorderRole, a.channel));
      NewEventWellFormed(a, messageId);
      events := events + [NewEvent(a, timestamp.value, messageId)];
      notices := notices + CreatedNotice(c, a, reachable);
      LogAction(guild, EventCreatedBy(a.team1, a.team2, user.id));
      reply := EventCreated;
    }

    // -------------------------------------------------------------------------
    // The claim buttons

    /** The permission a claim grants on the event channel, when the view names one that can be found. */
    function ClaimGrant(view: ClaimView, user: Id): seq<Grant> {
      if view.channelId.Some? && view.channelId.value in reachable then [Grant(view.channelId.value, user)] else []
    }

    /**
     * The Judge and Recorder buttons (bot.py:401-439) as the design intends them: a
     * requester without the slot's role is turned away with nothing changed; otherwise
     * the claimant gets access to the event channel, the record shown by the message
     * gets the claimant in that slot (overwriting any holder), and the message's Staffs
     * field is composed again from the record's two slots.
     */
    method Claim(view: ClaimView, slot: Slot, user: Member) returns (reply: Reply)
      requires Valid()
      modifies this
      ensures Valid()
      ensures !HasRole(user, SlotRole(view, slot)) ==> reply == LacksRole(slot) && Snapshot() == old(Snapshot())
      ensures HasRole(user, SlotRole(view, slot)) ==>
        var claimed := ClaimUpdate(old(events), view.messageId, slot, user.id);
        && reply == Assigned(slot, user.id)
        && events == claimed
        && board == ClaimedBoard(old(board), claimed, view.messageId)
        && grants == old(grants) + ClaimGrant(view, user.id)
        && configs == old(configs) && results == old(results) && notices == old(notices)
        && resultPosts == old(resultPosts) && log == old(log)
    {
      if !HasRole(user, SlotRole(view, slot)) {
        return LacksRole(slot);
      }
      if view.channelId.Some? && view.channelId.value in reachable {
        grants := grants + [Grant(view.channelId.value, user.id)];
      }
      RecordClaim(view.messageId, slot, user.id);
      board := ClaimedBoard(board, events, view.messageId);
      reply := Assigned(slot, user.id);
    }
    /** The `update_one` of a claim (bot.py:415-418, 435-438): the slot of the record the message shows. */
    method RecordClaim(messageId: Id, slot: Slot, holder: Id)
      requires Valid()
      modifies this
      ensures Valid()
      ensures events == ClaimUpdate(old(events), messageId, slot, holder)
      ensures configs == old(configs) && results == old(results) && board == old(board) && notices == old(notices)
      ensures resultPosts == old(resultPosts) && grants == old(grants) && log == old(log)
    {
      ClaimKeepsWellFormed(events, messageId, slot, holder);
      events := ClaimUpdate(events, messageId, slot, holder);
    }

    /**
     * The Judge and Recorder buttons as written (bot.py:401-439). `shown` is the embed
     * object the buttons hold. After the role check the new Staffs text is spliced out
     * of field 6; when that raises, nothing further happens.
     */
    method ClaimAsWritten(view: ClaimView, slot: Slot, user: Member, name: string, shown: Embed) returns (reply: Reply)
      requires Valid()
      modifies this
      ensures Valid()
      ensures var splice := SpliceAsWritten(slot, shown, user.id, name);
        && (!HasRole(user, SlotRole(view, slot)) ==> reply == LacksRole(slot) && Snapshot() == old(Snapshot()))
        && (HasRole(user, SlotRole(view, slot)) && splice.None? ==> reply == Raised && Snapshot() == old(Snapshot()))
        && (HasRole(user, SlotRole(view, slot)) && splice.Some? ==>
              && reply == Assigned(slot, user.id)
              && events == ClaimUpdate(old(events), view.messageId, slot, user.id)
              && board == Reembed(old(board), view.messageId, splice.value)
              && grants == old(grants) + ClaimGrant(view, user.id)
              && configs == old(configs) && results == old(results) && notices == old(notices)
              && resultPosts == old(resultPosts) && log == old(log))
    {
      if !HasRole(user, SlotRole(view, slot)) {
        return LacksRole(slot);
      }
      var splice := SpliceAsWritten(slot, shown, user.id, name);
      if splice.None? {
        return Raised;
      }
      grants := grants + ClaimGrant(view, user.id);
      board := Reembed(board, view.messageId, splice.value);
      RecordClaim(view.messageId, slot, user.id);
      reply := Assigned(slot, user.id);
    }

    // -------------------------------------------------------------------------
    // Editing an event

    /**
     * `events_edit` (bot.py:526-609): operators only; the first record with the title is
     * merged with the supplied arguments. The store is written before the posted embed
     * is rewritten, so when the rewrite raises the record is already changed and no
     * transcript line is written.
     */
    method EventsEdit(guild: Id, user: Member, title: string, a: EditArgs) returns (reply: Reply)
      requires Valid()
      modifies this
      ensures Valid()
      ensures !Operator(old(configs), guild, user) ==> reply == NoPermission && Snapshot() == old(Snapshot())
      ensures Operator(old(configs), guild, user) && FindTitle(old(events), title).None? ==>
        reply == EventNotFound && Snapshot() == old(Snapshot())
      ensures Operator(old(configs), guild, user) && FindTitle(old(events), title).Some? && !HasUpdate(a) ==>
        reply == NothingToEdit && Snapshot() == old(Snapshot())
      ensures Operator(old(configs), guild, user) && FindTitle(old(events), title).Some? && HasUpdate(a) ==>
        var stored := old(events)[FindTitle(old(events), title).value];
        var schedule := old(configs)[guild].scheduleChannel;
        var outcome := EditedBoard(old(board), schedule, schedule in reachable, stored, a);
        && reply == (if outcome.Some? then EventUpdated else Raised)
        && Snapshot() == old(Snapshot()).(
             events := EditUpdate(old(events), title, a),
             board := outcome.GetOr(old(board)),
             log := old(log) + (if outcome.Some? then Logged(old(configs), guild, EventEditedBy(title, user.id)) else []))
    {
      if !(guild in configs && HasRole(user, configs[guild].botOpRole)) {
        return NoPermission;
      }
      var c := configs[guild];
      var found := FindTitle(events, title);
      if found.None? {
        return EventNotFound;
      }
      var stored := events[found.value];
      var updated, written := BuildEdit(stored, a);
      if !written {
        return NothingToEdit;
      }
      EditKeepsWellFormed(events, title, a);
      events := events[found.value := updated];
      var shown := RewriteBoard(c.scheduleChannel, c.scheduleChannel in reachable, stored, a);
      if !shown {
        return Raised;
      }
      LogAction(guild, EventEditedBy(title, user.id));
      reply := EventUpdated;
    }

    /** The display part of `events_edit` (bot.py:573-604): `shown` is false when it raises. */
    method RewriteBoard(schedule: Id, scheduleFound: bool, stored: Event, a: EditArgs) returns (shown: bool)
      modifies this
      ensures shown <==> EditedBoard(old(board), schedule, scheduleFound, stored, a).Some?
      ensures Snapshot() == old(Snapshot()).(board := EditedBoard(old(board), schedule, scheduleFound, stored, a).GetOr(old(board)))
    {
      if !scheduleFound {
        return true;
      }
      if !(stored.messageId in board && board[stored.messageId].channel == schedule) {
        return false;
      }
      var d := board[stored.messageId].embed;
      var ok, fields := RewriteFields(d.fields, stored, a);
      if !ok {
        return false;
      }
      assert fields == seq(|d.fields|, i requires 0 <= i < |d.fields| => RewriteField(d.fields[i], stored, a).GetOr(d.fields[i]));
      board := board[stored.messageId := Posted(schedule, Embed(CALENDAR + Merge(stored, a).title, fields, if Truthy(a.imageUrl) then a.imageUrl else d.image))];
      shown := true;
    }

    // -------------------------------------------------------------------------
    // Deleting an event

    /**
     * `events_delete` (bot.py:615-643): operators only; for a stored title it only asks
     * for confirmation, holding the title, reason, configuration and record found.
     */
    method EventsDelete(guild: Id, user: Member, title: string, reason: Option<string>) returns (reply: Reply, prompt: Option<DeletePrompt>)
      ensures !Operator(configs, guild, user) ==> reply == NoPermission && prompt.None?
      ensures Operator(configs, guild, user) && FindTitle(events, title).None? ==> reply == EventNotFound && prompt.None?
      ensures Operator(configs, guild, user) && FindTitle(events, title).Some? ==>
        && reply == ConfirmPrompt(title)
        && prompt == Some(DeletePrompt(guild, title, reason, configs[guild], events[FindTitle(events, title).value]))
    {
      if !(guild in configs && HasRole(user, configs[guild].botOpRole)) {
        return NoPermission, None;
      }
      var found := FindTitle(events, title);
      if found.None? {
        return EventNotFound, None;
      }
      reply := ConfirmPrompt(title);
      prompt := Some(DeletePrompt(guild, title, reason, configs[guild], events[found.value]));
    }

    /**
     * The Confirm button (bot.py:629-636): the first record with the title is removed,
     * the event's message is deleted, and the deletion is logged with its reason.
     */
    method ConfirmDelete(p: DeletePrompt, user: Member) returns (reply: Reply)
      requires Valid()
      modifies this
      ensures Valid()
      ensures reply == (if DeletedBoard(old(board), p.config.scheduleChannel, p.config.scheduleChannel in reachable, p.event.messageId).Some? then EventDeleted else Raised)
      ensures events == DeleteFirst(old(events), p.title)
      ensures board == DeletedBoard(old(board), p.config.scheduleChannel, p.config.scheduleChannel in reachable, p.event.messageId).GetOr(old(board))
      ensures log == old(log) + (if DeletedBoard(old(board), p.config.scheduleChannel, p.config.scheduleChannel in reachable, p.event.messageId).Some?
                                 then Logged(old(configs), p.guild, EventDeletedBy(p.title, user.id, p.reason)) else [])
      ensures configs == old(configs) && results == old(results) && notices == old(notices)
      ensures resultPosts == old(resultPosts) && grants == old(grants)
    {
      RemoveFirst(p.title);
      var removed := RemoveMessageLogged(p.config.scheduleChannel, p.config.scheduleChannel in reachable, p.event.messageId, p.guild,
                                         EventDeletedBy(p.title, user.id, p.reason));
      reply := if removed then EventDeleted else Raised;
    }

    /** The message deletion of the Confirm button followed, when it succeeds, by its transcript line (bot.py:632-635). */
    method RemoveMessageLogged(schedule: Id, scheduleFound: bool, messageId: Id, guild: Id, entry: AuditEntry) returns (removed: bool)
      modifies this
      ensures removed <==> DeletedBoard(old(board), schedule, scheduleFound, messageId).Some?
      ensures board == DeletedBoard(old(board), schedule, scheduleFound, messageId).GetOr(old(board))
      ensures log == old(log) + (if removed then Logged(old(configs), guild, entry) else [])
      ensures configs == old(configs) && events == old(events) && results == old(results) && notices == old(notices)
      ensures resultPosts == old(resultPosts) && grants == old(grants)
    {
      removed := RemoveMessage(schedule, scheduleFound, messageId);
      if removed {
        LogAction(guild, entry);
      }
    }

    /** `delete_one({'title': title})` (bot.py:631): the first record with the title is removed. */
    method RemoveFirst(title: string)
      requires Valid()
      modifies this
      ensures Valid()
      ensures events == DeleteFirst(old(events), title)
      ensures configs == old(configs) && results == old(results) && board == old(board) && notices == old(notices)
      ensures resultPosts == old(resultPosts) && grants == old(grants) && log == old(log)
    {
      DeleteKeepsWellFormed(events, title);
      events := DeleteFirst(events, title);
    }

    /** `fetch_message` then `delete` on the schedule channel (bot.py:632-634): `removed` is false when the fetch raises `NotFound`. */
    method RemoveMessage(schedule: Id, scheduleFound: bool, messageId: Id) returns (removed: bool)
      modifies this
      ensures removed <==> DeletedBoard(old(board), schedule, scheduleFound, messageId).Some?
      ensures board == DeletedBoard(old(board), schedule, scheduleFound, messageId).GetOr(old(board))
      ensures configs == old(configs) && events == old(events) && results == old(results) && notices == old(notices)
      ensures resultPosts == old(resultPosts) && grants == old(grants) && log == old(log)
    {
      if !scheduleFound {
        return true;
      }
      if !(messageId in board && board[messageId].channel == schedule) {
        return false;
      }
      board := board - {messageId};
      removed := true;
    }

    /** The Cancel button (bot.py:638-640): it answers and changes nothing. */
    method CancelDelete(p: DeletePrompt) returns (reply: Reply)
      ensures reply == DeletionCancelled
    {
      reply := DeletionCancelled;
    }

    // -------------------------------------------------------------------------
    // Showing, results and lists

    /**
     * `events_show` (bot.py:649-681): any member of a configured guild; the first record
     * with the title is shown. `clockText` stands for the server-local rendering of its
     * timestamp.
     */
    method EventsShow(guild: Id, user: Member, title: string, clockText: string) returns (reply: Reply)
      modifies this
      ensures guild !in old(configs) ==> reply == ConfigNotSet && Snapshot() == old(Snapshot())
      ensures guild in old(configs) && FindTitle(old(events), title).None? ==> reply == EventNotFound && Snapshot() == old(Snapshot())
      ensures guild in old(configs) && FindTitle(old(events), title).Some? ==>
        && reply == Shown(RenderShown(old(events)[FindTitle(old(events), title).value], clockText))
        && Snapshot() == old(Snapshot()).(log := old(log) + Logged(old(configs), guild, EventViewedBy(title, user.id)))
    {
      if guild !in configs {
        return ConfigNotSet;
      }
      var found := FindTitle(events, title);
      if found.None? {
        return EventNotFound;
      }
      reply := Shown(RenderShown(events[found.value], clockText));
      LogAction(guild, EventViewedBy(title, user.id));
    }

    /**
     * `events_results` (bot.py:721-777): operators only; the results embed goes to the
     * results channel and a result record is stored. `now` stands for `datetime.utcnow()`.
     */
    method EventsResults(guild: Id, user: Member, title: string, score1: int, score2: int, matches: int,
                         remarks: Option<string>, recLink: Option<string>, shot1: Option<string>,
                         rest: seq<Option<string>>, now: int) returns (reply: Reply)
      requires |rest| == 8
      modifies this
      ensures !Operator(old(configs), guild, user) ==> reply == NoPermission && Snapshot() == old(Snapshot())
      ensures Operator(old(configs), guild, user) && FindTitle(old(events), title).None? ==>
        reply == EventNotFound && Snapshot() == old(Snapshot())
      ensures Operator(old(configs), guild, user) && FindTitle(old(events), title).Some? && old(configs)[guild].resultsChannel !in reachable ==>
        reply == ResultsChannelNotFound && Snapshot() == old(Snapshot())
      ensures Operator(old(configs), guild, user) && FindTitle(old(events), title).Some? && old(configs)[guild].resultsChannel in reachable ==>
        var e := old(events)[FindTitle(old(events), title).value];
        && reply == ResultsSubmitted
        && Snapshot() == old(Snapshot()).(
             results := old(results) + [ResultRecord(title, score1, score2, matches, remarks, recLink, StoredScreenshots(shot1, rest), now)],
             resultPosts := old(resultPosts) + [ResultsPostFor(old(configs)[guild].resultsChannel, e, score1, score2, remarks, recLink, shot1, rest)],
             log := old(log) + Logged(old(configs), guild, ResultsSubmittedBy(title, user.id)))
    {
      if !(guild in configs && HasRole(user, configs[guild].botOpRole)) {
        return NoPermission;
      }
      var found := FindTitle(events, title);
      if found.None? {
        return EventNotFound;
      }
      var channel := configs[guild].resultsChannel;
      if channel !in reachable {
        return ResultsChannelNotFound;
      }
      resultPosts := resultPosts + [ResultsPostFor(channel, events[found.value], score1, score2, remarks, recLink, shot1, rest)];
      results := results + [ResultRecord(title, score1, score2, matches, remarks, recLink, StoredScreenshots(shot1, rest), now)];
      LogAction(guild, ResultsSubmittedBy(title, user.id));
      reply := ResultsSubmitted;
    }

    /** `events_list` (bot.py:782-797): one line per stored event; an empty store is reported and not logged. */
    method EventsList(guild: Id, user: Member) returns (reply: Reply)
      modifies this
      ensures guild !in old(configs) ==> reply == ConfigNotSet && Snapshot() == old(Snapshot())
      ensures guild in old(configs) && |old(events)| == 0 ==> reply == NoEventsFound && Snapshot() == old(Snapshot())
      ensures guild in old(configs) && |old(events)| > 0 ==>
        && reply == Listed(Listing(old(events)).value)
        && Snapshot() == old(Snapshot()).(log := old(log) + Logged(old(configs), guild, EventListViewedBy(user.id)))
    {
      if guild !in configs {
        return ConfigNotSet;
      }
      var listing := Listing(events);
      if listing.None? {
        return NoEventsFound;
      }
      reply := Listed(listing.value);
      LogAction(guild, EventListViewedBy(user.id));
    }

    /**
     * `staff_work` (bot.py:291-311): the events whose judge is `staff`, counted.
     * `dateOf` stands for the server-local date rendering of a timestamp.
     */
    method StaffWork(guild: Id, user: Member, staff: Id, staffName: string, dateOf: int -> string) returns (reply: Reply)
      modifies this
      ensures guild !in old(configs) ==> reply == ConfigNotSet && Snapshot() == old(Snapshot())
      ensures guild in old(configs) ==>
        && reply == WorkShown("Judge Work for " + staffName, WorkReport(old(events), staff, dateOf))
        && Snapshot() == old(Snapshot()).(log := old(log) + Logged(old(configs), guild, WorkViewedBy(staff, user.id)))
    {
      if guild !in configs {
        return ConfigNotSet;
      }
      reply := WorkShown("Judge Work for " + staffName, WorkReport(events, staff, dateOf));
      LogAction(guild, WorkViewedBy(staff, user.id));
    }
  }
}
