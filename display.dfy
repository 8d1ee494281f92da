/**
 * The embeds the bot posts for an event: the one `events_create` sends
 * (bot.py:373-392), the one `events_show` sends (bot.py:662-678), the results embed
 * (bot.py:738-759), the field-by-field rewrite `events_edit` applies to the posted
 * embed (bot.py:576-603), and the claim buttons' text splice as written
 * (bot.py:406-409, 426-429).
 */
module Display {
  import opened Wrappers
  import opened Text
  import opened Records
  import opened Timestamp
  import opened Events

  datatype Field = Field(name: string, value: string, inline: bool)

  datatype Embed = Embed(title: string, fields: seq<Field>, image: Option<string>)

  const AWAITING := "Awaiting selection"
  const NOT_SPECIFIED := "Not specified"
  const CALENDAR := ":calendar_spiral: "
  const JUDGE_LABEL := ":white_small_square: **Judge**: "
  const RECORDER_LABEL := ":white_small_square: **Recorder**: "
  /**
   * The skull and trophy markers as bot.py:752 spells them: a private-use character
   * U+F8FF followed by three Latin letters each.
   */
  const SKULL := "\U{F8FF}üíÄ"
  const TROPHY := "\U{F8FF}üèÜ"

  /** The names of the fields of an event embed, in order, before the optional Remarks. */
  const EVENT_FIELD_NAMES := ["UTC Time", "Local Time", "Tournament", "Group", "Round", "Channel",
                              "Team1 Captain", "Team2 Captain", "Staffs"]
  /** The position of the Staffs field in an event embed. */
  const STAFFS_INDEX := 8

  function Names(fields: seq<Field>): (names: seq<string>)
    ensures |names| == |fields|
    ensures forall i :: 0 <= i < |fields| ==> names[i] == fields[i].name
  {
    seq(|fields|, i requires 0 <= i < |fields| => fields[i].name)
  }

  /** `user.mention`. */
  function UserMention(id: Id): string { "<@" + NatToString(id) + ">" }

  /** `channel.mention`, and equally `f"<#{channel_id}>"`. */
  function ChannelMention(id: Id): string { "<#" + NatToString(id) + ">" }

  /** One slot of the Staffs field: the holder's mention, or 'Awaiting selection' while empty. */
  function SlotText(holder: Option<Id>): string {
    if holder.Some? then UserMention(holder.value) else AWAITING
  }

  /** The composite Staffs field (bot.py:385-388, 671-674). */
  function StaffsText(judge: Option<Id>, recorder: Option<Id>): string {
    JUDGE_LABEL + SlotText(judge) + "\n" + RECORDER_LABEL + SlotText(recorder)
  }

  /** `f"<t:{timestamp}> (<t:{timestamp}:R>)"`. */
  function LocalTimeText(ts: int): string {
    "<t:" + IntToString(ts) + "> (<t:" + IntToString(ts) + ":R>)"
  }

  // ---------------------------------------------------------------------------
  // The Staffs field names both holders

  lemma MentionHasNoNewline(id: Id)
    ensures '\n' !in UserMention(id)
    ensures UserMention(id)[0] == '<'
  {
    var d := NatToString(id);
    assert UserMention(id) == "<@" + d + ">";
    assert forall i :: 0 <= i < |d| ==> IsDigit(d[i]);
  }

  lemma SlotTextStart(h: Option<Id>)
    ensures SlotText(h)[0] == (if h.Some? then '<' else 'A')
    ensures '\n' !in SlotText(h)
  {
    if h.Some? {
      MentionHasNoNewline(h.value);
    }
  }

  lemma SlotTextInjective(a: Option<Id>, b: Option<Id>)
    ensures SlotText(a) == SlotText(b) ==> a == b
  {
    SlotTextStart(a);
    SlotTextStart(b);
    if SlotText(a) == SlotText(b) && a.Some? && b.Some? {
      var da, db := NatToString(a.value), NatToString(b.value);
      assert UserMention(a.value)[2..|UserMention(a.value)| - 1] == da;
      assert UserMention(b.value)[2..|UserMention(b.value)| - 1] == db;
      DigitsValueOfNatToString(a.value);
      DigitsValueOfNatToString(b.value);
    }
  }

  /** Two strings free of line breaks, each followed by one, line up only when they are equal. */
  lemma FirstLineDetermined(a: string, b: string, u: string, v: string)
    requires '\n' !in a && '\n' !in b
    requires a + "\n" + u == b + "\n" + v
    ensures a == b && u == v
  {
    var s := a + "\n" + u;
    if |a| < |b| {
      CharBeforeNewline(b, v, |a|);
      NewlineAfter(a, u);
    } else if |b| < |a| {
      CharBeforeNewline(a, u, |b|);
      NewlineAfter(b, v);
    }
    assert a == s[..|a|] && b == (b + "\n" + v)[..|b|];
    assert u == s[|a| + 1..] && v == (b + "\n" + v)[|b| + 1..];
  }

  lemma CharBeforeNewline(a: string, u: string, k: nat)
    requires k < |a|
    ensures (a + "\n" + u)[k] == a[k]
  {
  }

  lemma NewlineAfter(a: string, u: string)
    ensures (a + "\n" + u)[|a|] == '\n'
  {
  }

  /** Equal strings that start with the same text agree after it. */
  lemma DropPrefix(p: string, x: string, y: string)
    requires p + x == p + y
    ensures x == y
  {
    assert x == (p + x)[|p|..];
    assert y == (p + y)[|p|..];
  }

  /**
   * The Staffs text determines both slots: equal texts come only from equal judge and
   * recorder holders, so the field shows exactly who holds each slot.
   */
  lemma StaffsTextInjective(j1: Option<Id>, r1: Option<Id>, j2: Option<Id>, r2: Option<Id>)
    ensures StaffsText(j1, r1) == StaffsText(j2, r2) ==> j1 == j2 && r1 == r2
  {
    SlotTextStart(j1);
    SlotTextStart(j2);
    TwoLinesDetermined(JUDGE_LABEL, RECORDER_LABEL, SlotText(j1), SlotText(r1), SlotText(j2), SlotText(r2));
    SlotTextInjective(j1, j2);
    SlotTextInjective(r1, r2);
  }

  /** Two labelled lines, the first free of line breaks, determine both of their values. */
  lemma TwoLinesDetermined(p: string, q: string, x1: string, y1: string, x2: string, y2: string)
    requires '\n' !in x1 && '\n' !in x2
    ensures p + x1 + "\n" + q + y1 == p + x2 + "\n" + q + y2 ==> x1 == x2 && y1 == y2
  {
    if p + x1 + "\n" + q + y1 == p + x2 + "\n" + q + y2 {
      assert p + x1 + "\n" + q + y1 == p + (x1 + "\n" + (q + y1));
      assert p + x2 + "\n" + q + y2 == p + (x2 + "\n" + (q + y2));
      DropPrefix(p, x1 + "\n" + (q + y1), x2 + "\n" + (q + y2));
      FirstLineDetermined(x1, x2, q + y1, q + y2);
      DropPrefix(q, y1, y2);
    }
  }

  // ---------------------------------------------------------------------------
  // The embed events_create posts

  /** `time_str` of `events_create`: the arguments as typed, labelled AM only for an explicit "am". */
  function CreatedTimeText(a: CreateArgs): string {
    a.dd + "/" + a.mm + "/" + a.yyyy + " " + a.hour + ":" + a.minute + " " + (if IsAm(a.ampm) then "AM" else "PM")
  }

  function RenderCreated(a: CreateArgs, ts: int): Embed {
    var fields := [
      Field("UTC Time", CreatedTimeText(a), false),
      Field("Local Time", LocalTimeText(ts), false),
      Field("Tournament", OrElse(a.tourName, NOT_SPECIFIED), true),
      Field("Group", OrElse(a.groupName, NOT_SPECIFIED), true),
      Field("Round", OrElse(a.roundNo, NOT_SPECIFIED), true),
      Field("Channel", if a.channel.Some? then ChannelMention(a.channel.value) else NOT_SPECIFIED, false),
      Field("Team1 Captain", if a.captain1.Some? then UserMention(a.captain1.value) else a.team1, true),
      Field("Team2 Captain", if a.captain2.Some? then UserMention(a.captain2.value) else a.team2, true),
      Field("Staffs", StaffsText(a.judge, a.recorder), false)
    ];
    Embed(CALENDAR + a.team1 + " vs " + a.team2,
          if Truthy(a.remarks) then fields + [Field("Remarks", a.remarks.value, false)] else fields,
          if Truthy(a.imageUrl) then a.imageUrl else None)
  }

  /**
   * The created embed has the fixed field order, Staffs at index 8, then Remarks only when
   * remarks were given; its Staffs field reads 'Awaiting selection' for each slot not given.
   */
  lemma CreatedLayout(a: CreateArgs, ts: int)
    ensures Names(RenderCreated(a, ts).fields) == EVENT_FIELD_NAMES + (if Truthy(a.remarks) then ["Remarks"] else [])
    ensures RenderCreated(a, ts).fields[STAFFS_INDEX].value == StaffsText(a.judge, a.recorder)
    ensures a.judge.None? ==> RenderCreated(a, ts).fields[STAFFS_INDEX].value[..|JUDGE_LABEL| + |AWAITING|] == JUDGE_LABEL + AWAITING
  {
    var names := Names(RenderCreated(a, ts).fields);
    assert names == EVENT_FIELD_NAMES + (if Truthy(a.remarks) then ["Remarks"] else []);
  }

  // ---------------------------------------------------------------------------
  // The embed events_show sends, and the fields the results embed shares with it

  /** Local Time to Staffs for a stored record (bot.py:664-674, 739-749). */
  function ContextFields(e: Event): seq<Field> {
    [
      Field("Local Time", LocalTimeText(e.timestamp), false),
      Field("Tournament", OrElse(e.tourName, NOT_SPECIFIED), true),
      Field("Group", OrElse(e.groupName, NOT_SPECIFIED), true),
      Field("Round", OrElse(e.roundNo, NOT_SPECIFIED), true),
      Field("Channel", if e.channelId.Some? then ChannelMention(e.channelId.value) else NOT_SPECIFIED, false),
      Field("Team1 Captain", if e.captain1Id.Some? then UserMention(e.captain1Id.value) else e.team1, true),
      Field("Team2 Captain", if e.captain2Id.Some? then UserMention(e.captain2Id.value) else e.team2, true),
      Field("Staffs", StaffsText(e.judgeId, e.recorderId), false)
    ]
  }

  /**
   * The embed of `events_show`. Its UTC Time value is the server's local-time rendering of
   * the timestamp, which is given here as `clockText`.
   */
  function RenderShown(e: Event, clockText: string): Embed {
    var fields := [Field("UTC Time", clockText, false)] + ContextFields(e);
    Embed(CALENDAR + e.title,
          if Truthy(e.remarks) then fields + [Field("Remarks", e.remarks.value, false)] else fields,
          if Truthy(e.imageUrl) then e.imageUrl else None)
  }

  /**
   * Showing the record that `events_create` stored gives the embed it posted, apart from
   * the UTC Time text: same title, the same fields from Local Time on (Staffs included),
   * the same image.
   */
  lemma ShowAgreesWithCreate(a: CreateArgs, ts: int, messageId: Id, clockText: string)
    ensures var created := RenderCreated(a, ts);
      var shown := RenderShown(NewEvent(a, ts, messageId), clockText);
      && created.title == shown.title
      && created.image == shown.image
      && |created.fields| == |shown.fields|
      && created.fields[1..] == shown.fields[1..]
  {
    var e := NewEvent(a, ts, messageId);
    var created := RenderCreated(a, ts);
    var shown := RenderShown(e, clockText);
    CreatedContext(a, ts, messageId);
    assert created.fields[..9][1..] == ContextFields(e);
    assert shown.fields[..9][1..] == ContextFields(e);
    if Truthy(a.remarks) {
      assert created.fields[1..] == created.fields[..9][1..] + [Field("Remarks", a.remarks.value, false)];
      assert shown.fields[1..] == shown.fields[..9][1..] + [Field("Remarks", a.remarks.value, false)];
    } else {
      assert created.fields[1..] == created.fields[..9][1..];
      assert shown.fields[1..] == shown.fields[..9][1..];
    }
  }

  /** The nine fields the create embed starts with, Local Time to Staffs read off the stored record. */
  lemma CreatedContext(a: CreateArgs, ts: int, messageId: Id)
    ensures |RenderCreated(a, ts).fields| >= 9
    ensures RenderCreated(a, ts).fields[..9][1..] == ContextFields(NewEvent(a, ts, messageId))
    ensures RenderCreated(a, ts).title == CALENDAR + NewEvent(a, ts, messageId).title
  {
    var e := NewEvent(a, ts, messageId);
    assert CALENDAR + a.team1 + " vs " + a.team2 == CALENDAR + e.title;
  }

  /** After a judge claim with the recorder slot empty, Show reads the claimant and 'Awaiting selection'. */
  lemma ShowAfterJudgeClaim(e: Event, staff: Id, clockText: string)
    requires e.recorderId.None?
    ensures RenderShown(SetSlot(e, JudgeSlot, staff), clockText).fields[STAFFS_INDEX].value
         == JUDGE_LABEL + UserMention(staff) + "\n" + RECORDER_LABEL + AWAITING
  {
  }

  // ---------------------------------------------------------------------------
  // Results

  datatype Winner = Team1 | Team2 | Draw

  /** `"Team1" if team1_score > team2_score else "Team2" if team2_score > team1_score else "Draw"`. */
  function WinnerOf(score1: int, score2: int): Winner {
    if score1 > score2 then Team1 else if score2 > score1 then Team2 else Draw
  }

  function LeftMark(w: Winner): string { if w != Team1 then SKULL else TROPHY }

  function RightMark(w: Winner): string { if w == Team2 then TROPHY else SKULL }

  /** The Results field (bot.py:751-753). */
  function ResultsLine(e: Event, score1: int, score2: int): string {
    var w := WinnerOf(score1, score2);
    LeftMark(w) + " " + e.team1 + " (" + IntToString(score1) + ") : (" + IntToString(score2) + ") " + e.team2 + " " + RightMark(w)
  }

  /**
   * Team 1 wins exactly when it scored more, team 2 exactly when it scored more, and
   * equal scores are a draw; swapping the scores swaps the winner. The left trophy shows
   * only for a team 1 win, the right one only for a team 2 win, and a draw shows two skulls.
   */
  lemma WinnerRule(score1: int, score2: int)
    ensures WinnerOf(score1, score2) == Team1 <==> score1 > score2
    ensures WinnerOf(score1, score2) == Team2 <==> score2 > score1
    ensures WinnerOf(score1, score2) == Draw <==> score1 == score2
    ensures WinnerOf(score2, score1) == match WinnerOf(score1, score2) { case Team1 => Team2 case Team2 => Team1 case Draw => Draw }
    ensures LeftMark(WinnerOf(score1, score2)) == TROPHY <==> score1 > score2
    ensures RightMark(WinnerOf(score1, score2)) == TROPHY <==> score2 > score1
    ensures score1 == score2 ==> LeftMark(WinnerOf(score1, score2)) == SKULL && RightMark(WinnerOf(score1, score2)) == SKULL
  {
    assert SKULL != TROPHY by { assert SKULL[2] != TROPHY[2]; }
  }

  /** The results embed (bot.py:738-759). */
  function RenderResults(e: Event, score1: int, score2: int, recLink: Option<string>, remarks: Option<string>, screenshot1: Option<string>): Embed {
    var fields := ContextFields(e) + [Field("Results", ResultsLine(e, score1, score2), false)];
    var withLink := if Truthy(recLink) then fields + [Field("Recorder Link", recLink.value, false)] else fields;
    Embed(e.team1 + " vs " + e.team2,
          if Truthy(remarks) then withLink + [Field("Remarks", remarks.value, false)] else withLink,
          if Truthy(screenshot1) then screenshot1 else None)
  }

  /** The results embed repeats the event's context fields of `events_show`, then the Results line. */
  lemma ResultsShareContext(e: Event, score1: int, score2: int, recLink: Option<string>, remarks: Option<string>, shot: Option<string>, clockText: string)
    ensures var r := RenderResults(e, score1, score2, recLink, remarks, shot);
      && |r.fields| >= 9
      && r.fields[..8] == RenderShown(e, clockText).fields[1..9]
      && r.fields[8] == Field("Results", ResultsLine(e, score1, score2), false)
  {
  }

  /** The truthy entries of a list of optional links, in order (a comprehension `[s for s in ... if s]`). */
  function TruthyOnly(links: seq<Option<string>>): (r: seq<string>)
    ensures |r| <= |links|
    ensures forall s :: s in r <==> Some(s) in links && s != ""
    decreases |links|
  {
    if |links| == 0 then []
    else (if Truthy(links[0]) then [links[0].value] else []) + TruthyOnly(links[1..])
  }

  /** Filtering a concatenation filters each part and keeps them in order. */
  lemma {:induction false} TruthyOnlyAppend(a: seq<Option<string>>, b: seq<Option<string>>)
    ensures TruthyOnly(a + b) == TruthyOnly(a) + TruthyOnly(b)
    decreases |a|
  {
    if |a| > 0 {
      assert (a + b)[1..] == a[1..] + b;
      TruthyOnlyAppend(a[1..], b);
    } else {
      assert a + b == b;
    }
  }

  /** A single link is kept exactly when it is truthy. */
  lemma TruthyOnlyOne(link: Option<string>)
    ensures TruthyOnly([link]) == if Truthy(link) then [link.value] else []
  {
  }

  /**
   * The screenshots a result stores (bot.py:761, 773): screenshot 1 first when given, then
   * the truthy ones among 2 to 9, the same list `screenshots` that is posted before the embed.
   */
  function StoredScreenshots(shot1: Option<string>, rest: seq<Option<string>>): seq<string> {
    var posted := TruthyOnly(rest);
    if Truthy(shot1) then [shot1.value] + posted else posted
  }

  /** The stored list is exactly the truthy screenshots among all nine, in argument order. */
  lemma {:induction false} StoredScreenshotsAreTruthyOnes(shot1: Option<string>, rest: seq<Option<string>>)
    ensures StoredScreenshots(shot1, rest) == TruthyOnly([shot1] + rest)
    ensures forall s :: s in StoredScreenshots(shot1, rest) ==> s != ""
    ensures |StoredScreenshots(shot1, rest)| <= 1 + |rest|
  {
    assert ([shot1] + rest)[1..] == rest;
  }

  // ---------------------------------------------------------------------------
  // The rewrite events_edit applies to the posted embed

  /**
   * The local `timestamp` of `events_edit` when the rewrite reads it: unbound unless all
   * five date parts were given (bot.py:543-544), else the `get_timestamp` result.
   */
  datatype Binding = Unbound | Bound(value: Option<int>)

  /** `timestamp` is truthy. */
  predicate BoundTruthy(b: Binding) { b.Bound? && b.value.Some? && b.value.value != 0 }

  function EditBinding(a: EditArgs): (b: Binding)
    ensures b.Bound? <==> DateSupplied(a)
    ensures b.Bound? ==> b.value == GetTimestamp(a.dd.value, a.mm.value, a.yyyy.value, a.hour.value, a.minute.value, a.ampm)
    ensures BoundTruthy(b) <==> EditTimestamp(a).Some?
  {
    if DateSupplied(a) then Bound(GetTimestamp(a.dd.value, a.mm.value, a.yyyy.value, a.hour.value, a.minute.value, a.ampm))
    else Unbound
  }

  /**
   * One step of the loop of bot.py:578-601 on a field of the posted embed: the new field,
   * or `None` for the `UnboundLocalError` raised when a time field reads `timestamp`
   * although the date was not fully given. `e` is the record as it was before the edit.
   */
  function RewriteField(f: Field, e: Event, a: EditArgs): Option<Field> {
    var b := EditBinding(a);
    if f.name == "UTC Time" || f.name == "Local Time" then
      if b.Unbound? then None
      else if !BoundTruthy(b) then Some(f)
      else if f.name == "UTC Time" then
        Some(Field("UTC Time", a.dd.value + "/" + a.mm.value + "/" + a.yyyy.value + " " + a.hour.value + ":" + a.minute.value + " " + OrElse(a.ampm, ""), false))
      else
        Some(Field("Local Time", LocalTimeText(b.value.value), false))
    else if f.name == "Tournament" then
      Some(Field("Tournament", OrElse(a.tourName, OrElse(e.tourName, NOT_SPECIFIED)), true))
    else if f.name == "Group" then
      Some(Field("Group", OrElse(a.groupName, OrElse(e.groupName, NOT_SPECIFIED)), true))
    else if f.name == "Round" then
      Some(Field("Round", OrElse(a.roundNo, OrElse(e.roundNo, NOT_SPECIFIED)), true))
    else if f.name == "Channel" then
      Some(Field("Channel", if a.channel.Some? then ChannelMention(a.channel.value) else NOT_SPECIFIED, false))
    else if f.name == "Team1 Captain" then
      Some(Field("Team1 Captain", if a.captain1.Some? then UserMention(a.captain1.value) else OrElse(a.team1, e.team1), true))
    else if f.name == "Team2 Captain" then
      Some(Field("Team2 Captain", if a.captain2.Some? then UserMention(a.captain2.value) else OrElse(a.team2, e.team2), true))
    else if f.name == "Staffs" then
      Some(Field("Staffs",
                 JUDGE_LABEL + (if a.judge.Some? then UserMention(a.judge.value) else SlotText(e.judgeId)) + "\n"
                 + RECORDER_LABEL + (if a.recorder.Some? then UserMention(a.recorder.value) else SlotText(e.recorderId)),
                 false))
    else if f.name == "Remarks" then
      Some(Field("Remarks", OrElse(a.remarks, OrElse(e.remarks, "None")), false))
    else
      Some(f)
  }

  /** The posted embed after the rewrite, or `None` when the loop raises and the message is left as it was. */
  function RewriteDisplay(d: Embed, e: Event, a: EditArgs): Option<Embed> {
    if forall i :: 0 <= i < |d.fields| ==> RewriteField(d.fields[i], e, a).Some? then
      Some(Embed(CALENDAR + Merge(e, a).title,
                 seq(|d.fields|, i requires 0 <= i < |d.fields| => RewriteField(d.fields[i], e, a).GetOr(d.fields[i])),
                 if Truthy(a.imageUrl) then a.imageUrl else d.image))
    else
      None
  }

  /** The loop of bot.py:578-601 over the fields of the posted embed, stopping at the first exception. */
  method RewriteFields(fields: seq<Field>, e: Event, a: EditArgs) returns (ok: bool, result: seq<Field>)
    ensures ok <==> forall i :: 0 <= i < |fields| ==> RewriteField(fields[i], e, a).Some?
    ensures ok ==> |result| == |fields|
    ensures ok ==> forall i :: 0 <= i < |fields| ==> Some(result[i]) == RewriteField(fields[i], e, a)
  {
    result := [];
    ok := true;
    var i := 0;
    while i < |fields| && ok
      invariant 0 <= i <= |fields|
      invariant ok ==> |result| == i
      invariant ok ==> forall j :: 0 <= j < i ==> Some(result[j]) == RewriteField(fields[j], e, a)
      invariant !ok ==> exists j :: 0 <= j < i && RewriteField(fields[j], e, a).None?
    {
      match RewriteField(fields[i], e, a) {
      case None =>
        ok := false;
      case Some(f) =>
        result := result + [f];
      }
      i := i + 1;
    }
  }

  /**
   * Without all five date parts the rewrite of a created embed always raises: its first
   * field is UTC Time, which reads the unbound `timestamp`.
   */
  lemma RewriteOfCreatedNeedsDate(c: CreateArgs, ts: int, e: Event, a: EditArgs)
    requires !DateSupplied(a)
    ensures RewriteDisplay(RenderCreated(c, ts), e, a).None?
  {
    assert RewriteField(RenderCreated(c, ts).fields[0], e, a).None?;
  }

  /**
   * The rewritten time fields follow the store: with a date the edit writes, Local Time
   * renders the merged record's timestamp and UTC Time reads the typed parts; with a
   * fully typed date the edit drops, both fields stay as they were posted.
   */
  lemma RewriteTimeFollowsStore(d: Embed, e: Event, a: EditArgs, i: nat)
    requires i < |d.fields| && RewriteDisplay(d, e, a).Some?
    ensures d.fields[i].name == "Local Time" && EditTimestamp(a).Some? ==>
      RewriteDisplay(d, e, a).value.fields[i] == Field("Local Time", LocalTimeText(Merge(e, a).timestamp), false)
    ensures d.fields[i].name == "UTC Time" && EditTimestamp(a).Some? ==>
      RewriteDisplay(d, e, a).value.fields[i].value
        == a.dd.value + "/" + a.mm.value + "/" + a.yyyy.value + " " + a.hour.value + ":" + a.minute.value + " " + OrElse(a.ampm, "")
    ensures (d.fields[i].name == "Local Time" || d.fields[i].name == "UTC Time") && EditTimestamp(a).None? ==>
      RewriteDisplay(d, e, a).value.fields[i] == d.fields[i] && Merge(e, a).timestamp == e.timestamp
  {
  }

  /** The rewrite shows "Not specified" as the channel whenever the edit names none, whatever is stored. */
  lemma RewriteResetsChannel(d: Embed, e: Event, a: EditArgs, i: nat)
    requires a.channel.None? && i < |d.fields| && d.fields[i].name == "Channel"
    requires RewriteDisplay(d, e, a).Some?
    ensures RewriteDisplay(d, e, a).value.fields[i].value == NOT_SPECIFIED
  {
  }

  /**
   * The rewritten Staffs field reads the slots of the merged record: the Staffs text the
   * store would give after the edit, so an edit that names no judge or recorder keeps
   * the Staffs text of the stored holders.
   */
  lemma RewriteStaffsFollowsStore(d: Embed, e: Event, a: EditArgs, i: nat)
    requires i < |d.fields| && d.fields[i].name == "Staffs"
    requires RewriteDisplay(d, e, a).Some?
    ensures RewriteDisplay(d, e, a).value.fields[i].value == StaffsText(Merge(e, a).judgeId, Merge(e, a).recorderId)
    ensures a.judge.None? && a.recorder.None? ==> RewriteDisplay(d, e, a).value.fields[i].value == StaffsText(e.judgeId, e.recorderId)
  {
  }

  // ---------------------------------------------------------------------------
  // The claim buttons' splice, as written

  /**
   * The Judge button's new embed as written (bot.py:406-409): it reads field 6, splits
   * its text on 'Recorder: ' and takes part 1. `None` is the `IndexError` raised when
   * there are fewer than seven fields or the text has no 'Recorder: '.
   */
  function JudgeSpliceAsWritten(d: Embed, claimant: Id, name: string): Option<Embed> {
    if |d.fields| <= 6 then None
    else
      match SplitSecond(d.fields[6].value, "Recorder: ")
      case None => None
      case Some(rest) =>
        Some(d.(fields := d.fields[6 := Field("Staffs", JUDGE_LABEL + UserMention(claimant) + " (" + name + ")\n" + RECORDER_LABEL + rest, false)]))
  }

  /** The Recorder button's new embed as written (bot.py:426-429), splitting field 6 on 'Judge: '. */
  function RecorderSpliceAsWritten(d: Embed, claimant: Id, name: string): Option<Embed> {
    if |d.fields| <= 6 then None
    else
      match SplitSecond(d.fields[6].value, "Judge: ")
      case None => None
      case Some(rest) =>
        Some(d.(fields := d.fields[6 := Field("Staffs", JUDGE_LABEL + FirstLine(rest) + "\n" + RECORDER_LABEL + UserMention(claimant) + " (" + name + ")", false)]))
  }

  lemma MentionLacksLetters(id: Id, c: char)
    requires c != '<' && c != '@' && c != '>' && !IsDigit(c)
    ensures c !in UserMention(id)
  {
    var d := NatToString(id);
    assert UserMention(id) == "<@" + d + ">";
    assert forall i :: 0 <= i < |d| ==> IsDigit(d[i]);
  }

  /**
   * On the embed `events_create` posts, field 6 is Team1 Captain: a mention, or the team 1
   * name. Unless that name contains the label, both buttons raise before they reach the
   * store update, so an eligible claim as written never records its claimant.
   */
  lemma ClaimSpliceRaises(a: CreateArgs, ts: int, claimant: Id, name: string)
    requires !Contains(a.team1, "Recorder: ") && !Contains(a.team1, "Judge: ")
    ensures JudgeSpliceAsWritten(RenderCreated(a, ts), claimant, name).None?
    ensures RecorderSpliceAsWritten(RenderCreated(a, ts), claimant, name).None?
  {
    var v := RenderCreated(a, ts).fields[6].value;
    if a.captain1.Some? {
      if Contains(v, "Recorder: ") {
        ContainsFirstChar(v, "Recorder: ");
        MentionLacksLetters(a.captain1.value, 'R');
      }
      if Contains(v, "Judge: ") {
        ContainsFirstChar(v, "Judge: ");
        MentionLacksLetters(a.captain1.value, 'J');
      }
    }
  }
}
