/**
 * The event collection of one community as a sequence of documents, and what each
 * command does to it: `insert_one` on create (bot.py:456-472), `update_one` on the
 * first document with the button's `message_id` for a claim (bot.py:415-418, 435-438),
 * `find_one`/`update_one` on the first document with a title for an edit
 * (bot.py:533, 538-571) and `delete_one` on the first document with a title
 * (bot.py:631).
 */
module Events {
  import opened Wrappers
  import opened Text
  import opened Records
  import opened Timestamp

  /**
   * What every stored record satisfies: its title is made of its team names, and its
   * timestamp is a non-zero instant that `get_timestamp` can produce.
   */
  predicate WellFormed(e: Event) {
    e.title == Title(e.team1, e.team2) && IsInstant(e.timestamp) && e.timestamp != 0
  }

  predicate AllWellFormed(events: seq<Event>) {
    forall i :: 0 <= i < |events| ==> WellFormed(events[i])
  }

  // ---------------------------------------------------------------------------
  // Creating

  /** The timestamp `events_create` goes on with; `if not timestamp` turns away `None` and 0 (bot.py:367-370). */
  function CreateTimestamp(a: CreateArgs): (r: Option<int>)
    ensures r.Some? <==> GetTimestamp(a.dd, a.mm, a.yyyy, a.hour, a.minute, a.ampm).Some?
                         && GetTimestamp(a.dd, a.mm, a.yyyy, a.hour, a.minute, a.ampm).value != 0
    ensures r.Some? ==> IsInstant(r.value) && r.value != 0
  {
    match GetTimestamp(a.dd, a.mm, a.yyyy, a.hour, a.minute, a.ampm)
    case None => None
    case Some(t) => if t == 0 then None else Some(t)
  }

  /** Midnight UTC of 1 January 1970 is a valid time, but its instant 0 is falsy, so create refuses it. */
  lemma EpochRefused(a: CreateArgs)
    requires a.dd == "1" && a.mm == "1" && a.yyyy == "1970" && a.hour == "12" && a.minute == "0" && a.ampm.None?
    ensures CreateTimestamp(a).None?
  {
    EpochIsZero();
  }

  /** The document `events_create` inserts (bot.py:456-472). */
  function NewEvent(a: CreateArgs, ts: int, messageId: Id): Event {
    Event(Title(a.team1, a.team2), a.team1, a.team2, ts, a.tourName, a.groupName, a.roundNo,
          a.channel, a.captain1, a.captain2, a.judge, a.recorder, a.imageUrl, a.remarks, messageId)
  }

  /** A created record is well formed; its slots are empty unless a judge or recorder was given. */
  lemma NewEventWellFormed(a: CreateArgs, messageId: Id)
    requires CreateTimestamp(a).Some?
    ensures WellFormed(NewEvent(a, CreateTimestamp(a).value, messageId))
    ensures NewEvent(a, CreateTimestamp(a).value, messageId).judgeId.None? <==> a.judge.None?
    ensures NewEvent(a, CreateTimestamp(a).value, messageId).recorderId.None? <==> a.recorder.None?
  {
  }

  // ---------------------------------------------------------------------------
  // Lookups: `find_one` and `update_one` act on the first matching document

  /** The position of the first record that satisfies `p`, as `find_one` and `update_one` select it. */
  function FindFirst(events: seq<Event>, p: Event -> bool): (r: Option<nat>)
    ensures r.Some? ==> r.value < |events| && p(events[r.value])
    ensures r.Some? ==> forall j :: 0 <= j < r.value ==> !p(events[j])
    ensures r.None? <==> forall j :: 0 <= j < |events| ==> !p(events[j])
    decreases |events|
  {
    if |events| == 0 then None
    else if p(events[0]) then Some(0)
    else
      match FindFirst(events[1..], p)
      case None => None
      case Some(k) => Some(k + 1)
  }

  /** `find_one({'title': title})`. */
  function FindTitle(events: seq<Event>, title: string): (r: Option<nat>)
    ensures r.Some? ==> r.value < |events| && events[r.value].title == title
    ensures r.Some? ==> forall j :: 0 <= j < r.value ==> events[j].title != title
    ensures r.None? <==> forall j :: 0 <= j < |events| ==> events[j].title != title
  {
    FindFirst(events, (e: Event) => e.title == title)
  }

  /** The filter `{'message_id': interaction.message.id}` of the claim buttons. */
  function FindMessage(events: seq<Event>, messageId: Id): (r: Option<nat>)
    ensures r.Some? ==> r.value < |events| && events[r.value].messageId == messageId
    ensures r.Some? ==> forall j :: 0 <= j < r.value ==> events[j].messageId != messageId
    ensures r.None? <==> forall j :: 0 <= j < |events| ==> events[j].messageId != messageId
  {
    FindFirst(events, (e: Event) => e.messageId == messageId)
  }

  /** Replacing a record by one with the same message id does not move the first match. */
  lemma FindMessageAfterUpdate(events: seq<Event>, i: nat, e: Event, messageId: Id)
    requires i < |events| && e.messageId == events[i].messageId
    ensures FindMessage(events[i := e], messageId) == FindMessage(events, messageId)
  {
    var r := FindMessage(events, messageId);
    var r' := FindMessage(events[i := e], messageId);
    if r.Some? {
      assert events[i := e][r.value].messageId == messageId;
      assert r'.Some? && r'.value == r.value;
    } else {
      assert r'.None?;
    }
  }

  /** Replacing a record by one with the same title does not move the first match. */
  lemma FindTitleAfterUpdate(events: seq<Event>, i: nat, e: Event, title: string)
    requires i < |events| && e.title == events[i].title
    ensures FindTitle(events[i := e], title) == FindTitle(events, title)
  {
    var r := FindTitle(events, title);
    var r' := FindTitle(events[i := e], title);
    if r.Some? {
      assert events[i := e][r.value].title == title;
      assert r'.Some? && r'.value == r.value;
    } else {
      assert r'.None?;
    }
  }

  // ---------------------------------------------------------------------------
  // Claiming a slot

  function Holder(e: Event, slot: Slot): Option<Id> {
    match slot
    case JudgeSlot => e.judgeId
    case RecorderSlot => e.recorderId
  }

  /** `{'$set': {'judge_id': ...}}` or `{'$set': {'recorder_id': ...}}` on one record. */
  function SetSlot(e: Event, slot: Slot, holder: Id): Event {
    match slot
    case JudgeSlot => e.(judgeId := Some(holder))
    case RecorderSlot => e.(recorderId := Some(holder))
  }

  /** The store after an accepted claim: the first record with the button's message id gets the holder. */
  function ClaimUpdate(events: seq<Event>, messageId: Id, slot: Slot, holder: Id): seq<Event> {
    match FindMessage(events, messageId)
    case None => events
    case Some(i) => events[i := SetSlot(events[i], slot, holder)]
  }

  /**
   * An accepted claim writes the claimant into that slot of the record with the button's
   * message id, whoever held it before; the other slot, every other field and every other
   * record stay as they were.
   */
  lemma ClaimSetsOnlyThatSlot(events: seq<Event>, messageId: Id, slot: Slot, holder: Id, other: Slot)
    requires other != slot
    ensures |ClaimUpdate(events, messageId, slot, holder)| == |events|
    ensures FindMessage(events, messageId).Some? ==>
      var i := FindMessage(events, messageId).value;
      var e' := ClaimUpdate(events, messageId, slot, holder)[i];
      && Holder(e', slot) == Some(holder)
      && Holder(e', other) == Holder(events[i], other)
      && e'.title == events[i].title && e'.timestamp == events[i].timestamp
      && e'.channelId == events[i].channelId && e'.remarks == events[i].remarks
      && e'.messageId == messageId
      && e'.(judgeId := events[i].judgeId, recorderId := events[i].recorderId) == events[i]
      && forall j :: 0 <= j < |events| && j != i ==> ClaimUpdate(events, messageId, slot, holder)[j] == events[j]
    ensures FindMessage(events, messageId).None? ==> ClaimUpdate(events, messageId, slot, holder) == events
  {
  }

  /** Two claims of one slot leave the second claimant in it: the last claim wins. */
  lemma {:induction false} LastClaimWins(events: seq<Event>, messageId: Id, slot: Slot, first: Id, second: Id)
    ensures ClaimUpdate(ClaimUpdate(events, messageId, slot, first), messageId, slot, second)
         == ClaimUpdate(events, messageId, slot, second)
  {
    match FindMessage(events, messageId)
    case None =>
    case Some(i) =>
      FindMessageAfterUpdate(events, i, SetSlot(events[i], slot, first), messageId);
  }

  /** A judge claim and a recorder claim on the same event give the same store in either order. */
  lemma {:induction false} ClaimsCommute(events: seq<Event>, messageId: Id, judge: Id, recorder: Id)
    ensures ClaimUpdate(ClaimUpdate(events, messageId, JudgeSlot, judge), messageId, RecorderSlot, recorder)
         == ClaimUpdate(ClaimUpdate(events, messageId, RecorderSlot, recorder), messageId, JudgeSlot, judge)
  {
    match FindMessage(events, messageId)
    case None =>
    case Some(i) =>
      FindMessageAfterUpdate(events, i, SetSlot(events[i], JudgeSlot, judge), messageId);
      FindMessageAfterUpdate(events, i, SetSlot(events[i], RecorderSlot, recorder), messageId);
  }

  lemma ClaimKeepsWellFormed(events: seq<Event>, messageId: Id, slot: Slot, holder: Id)
    requires AllWellFormed(events)
    ensures AllWellFormed(ClaimUpdate(events, messageId, slot, holder))
  {
  }

  // ---------------------------------------------------------------------------
  // Editing

  /** `dd and mm and yyyy and hour and minute` (bot.py:543). */
  predicate DateSupplied(a: EditArgs) {
    Truthy(a.dd) && Truthy(a.mm) && Truthy(a.yyyy) && Truthy(a.hour) && Truthy(a.minute)
  }

  /** The timestamp the edit writes: all five parts given, and a truthy `get_timestamp` result (bot.py:543-546). */
  function EditTimestamp(a: EditArgs): (r: Option<int>)
    ensures r.Some? <==>
      && DateSupplied(a)
      && GetTimestamp(a.dd.value, a.mm.value, a.yyyy.value, a.hour.value, a.minute.value, a.ampm).Some?
      && GetTimestamp(a.dd.value, a.mm.value, a.yyyy.value, a.hour.value, a.minute.value, a.ampm).value != 0
    ensures r.Some? ==> r == GetTimestamp(a.dd.value, a.mm.value, a.yyyy.value, a.hour.value, a.minute.value, a.ampm)
    ensures r.Some? ==> DateSupplied(a) && IsInstant(r.value) && r.value != 0
    ensures r.Some? ==>
      var fields := ParsedFields(a.dd.value, a.mm.value, a.yyyy.value, a.hour.value, a.minute.value, a.ampm);
      fields.Some? && CivilOf(r.value) == fields.value
  {
    if DateSupplied(a) then
      match GetTimestamp(a.dd.value, a.mm.value, a.yyyy.value, a.hour.value, a.minute.value, a.ampm)
      case None => None
      case Some(t) => if t == 0 then None else Some(t)
    else None
  }

  /** `update_data` is not empty (bot.py:568). */
  predicate HasUpdate(a: EditArgs) {
    || Truthy(a.team1) || Truthy(a.team2) || EditTimestamp(a).Some?
    || Truthy(a.tourName) || Truthy(a.groupName) || Truthy(a.roundNo)
    || a.channel.Some? || a.captain1.Some? || a.captain2.Some?
    || a.judge.Some? || a.recorder.Some? || Truthy(a.imageUrl) || Truthy(a.remarks)
  }

  /** A truthy string argument, or the stored value. */
  function Written(arg: Option<string>, stored: Option<string>): Option<string> {
    if Truthy(arg) then arg else stored
  }

  /** The record after `$set: update_data`, the title recomputed from the merged team names (bot.py:538-571). */
  function Merge(e: Event, a: EditArgs): Event {
    var team1 := OrElse(a.team1, e.team1);
    var team2 := OrElse(a.team2, e.team2);
    e.(title := Title(team1, team2),
       team1 := team1,
       team2 := team2,
       timestamp := EditTimestamp(a).GetOr(e.timestamp),
       tourName := Written(a.tourName, e.tourName),
       groupName := Written(a.groupName, e.groupName),
       roundNo := Written(a.roundNo, e.roundNo),
       channelId := if a.channel.Some? then a.channel else e.channelId,
       captain1Id := if a.captain1.Some? then a.captain1 else e.captain1Id,
       captain2Id := if a.captain2.Some? then a.captain2 else e.captain2Id,
       judgeId := if a.judge.Some? then a.judge else e.judgeId,
       recorderId := if a.recorder.Some? then a.recorder else e.recorderId,
       imageUrl := Written(a.imageUrl, e.imageUrl),
       remarks := Written(a.remarks, e.remarks))
  }

  /** An edit keeps a record well formed, and never changes the message it is displayed in. */
  lemma MergeWellFormed(e: Event, a: EditArgs)
    requires WellFormed(e)
    ensures WellFormed(Merge(e, a))
    ensures Merge(e, a).messageId == e.messageId
  {
  }

  /** With nothing supplied the merge is the identity, which is why the handler may skip the write. */
  lemma MergeNothing(e: Event, a: EditArgs)
    requires WellFormed(e) && !HasUpdate(a)
    ensures Merge(e, a) == e
  {
  }

  /** An edit that gives neither judge nor recorder leaves both slots as claimed. */
  lemma MergeKeepsSlots(e: Event, a: EditArgs)
    requires a.judge.None? && a.recorder.None?
    ensures Merge(e, a).judgeId == e.judgeId && Merge(e, a).recorderId == e.recorderId
  {
  }

  /** An edit whose only argument is the remarks changes the remarks and nothing else. */
  lemma MergeRemarksOnly(e: Event, a: EditArgs, remarks: string)
    requires WellFormed(e)
    requires a == EditArgs(None, None, None, None, None, None, None, None, None, None, None,
                           None, None, None, None, None, None, Some(remarks))
    ensures remarks != "" ==> Merge(e, a) == e.(remarks := Some(remarks))
    ensures remarks == "" ==> !HasUpdate(a)
  {
  }

  /** An edit date that does not form a valid time is dropped: the stored instant stays. */
  lemma InvalidDateDropped(e: Event, a: EditArgs)
    requires DateSupplied(a)
    requires GetTimestamp(a.dd.value, a.mm.value, a.yyyy.value, a.hour.value, a.minute.value, a.ampm).None?
    ensures Merge(e, a).timestamp == e.timestamp
  {
  }

  /** The store after a successful edit of the first record with `title`. */
  function EditUpdate(events: seq<Event>, title: string, a: EditArgs): seq<Event> {
    match FindTitle(events, title)
    case None => events
    case Some(i) => events[i := Merge(events[i], a)]
  }

  lemma EditKeepsWellFormed(events: seq<Event>, title: string, a: EditArgs)
    requires AllWellFormed(events)
    ensures AllWellFormed(EditUpdate(events, title, a))
  {
    match FindTitle(events, title)
    case None =>
    case Some(i) => MergeWellFormed(events[i], a);
  }

  // ---------------------------------------------------------------------------
  // Deleting

  /** `delete_one({'title': title})`: the first record with that title is removed. */
  function DeleteFirst(events: seq<Event>, title: string): seq<Event> {
    match FindTitle(events, title)
    case None => events
    case Some(i) => events[..i] + events[i + 1..]
  }

  function CountTitle(events: seq<Event>, title: string): nat
    decreases |events|
  {
    if |events| == 0 then 0
    else (if events[0].title == title then 1 else 0) + CountTitle(events[1..], title)
  }

  lemma {:induction false} CountTitleAppend(a: seq<Event>, b: seq<Event>, title: string)
    ensures CountTitle(a + b, title) == CountTitle(a, title) + CountTitle(b, title)
    decreases |a|
  {
    if |a| > 0 {
      assert (a + b)[1..] == a[1..] + b;
      CountTitleAppend(a[1..], b, title);
    } else {
      assert a + b == b;
    }
  }

  lemma {:induction false} CountTitleZero(events: seq<Event>, title: string)
    ensures CountTitle(events, title) == 0 <==> FindTitle(events, title).None?
    decreases |events|
  {
    if |events| > 0 {
      CountTitleZero(events[1..], title);
    }
  }

  /**
   * Delete removes exactly one record with the title when there is one, keeping the
   * others in order; with no such record nothing changes.
   */
  lemma {:induction false} DeleteFirstRemovesOne(events: seq<Event>, title: string)
    ensures FindTitle(events, title).None? ==> DeleteFirst(events, title) == events
    ensures FindTitle(events, title).Some? ==>
      && |DeleteFirst(events, title)| == |events| - 1
      && CountTitle(DeleteFirst(events, title), title) == CountTitle(events, title) - 1
      && multiset(DeleteFirst(events, title)) + multiset{events[FindTitle(events, title).value]} == multiset(events)
      && (forall j :: 0 <= j < FindTitle(events, title).value ==> DeleteFirst(events, title)[j] == events[j])
      && (forall j :: FindTitle(events, title).value <= j < |events| - 1 ==> DeleteFirst(events, title)[j] == events[j + 1])
  {
    match FindTitle(events, title)
    case None =>
    case Some(i) =>
      assert events == events[..i] + [events[i]] + events[i + 1..];
      CountTitleAppend(events[..i] + [events[i]], events[i + 1..], title);
      CountTitleAppend(events[..i], [events[i]], title);
      CountTitleAppend(events[..i], events[i + 1..], title);
      assert CountTitle([events[i]], title) == 1 by {
        assert [events[i]][1..] == [];
      }
  }

  /** When the title was unique, a lookup after the delete finds nothing. */
  lemma DeleteUniqueThenNotFound(events: seq<Event>, title: string)
    requires CountTitle(events, title) == 1
    ensures FindTitle(DeleteFirst(events, title), title).None?
  {
    CountTitleZero(events, title);
    DeleteFirstRemovesOne(events, title);
    CountTitleZero(DeleteFirst(events, title), title);
  }

  lemma DeleteKeepsWellFormed(events: seq<Event>, title: string)
    requires AllWellFormed(events)
    ensures AllWellFormed(DeleteFirst(events, title))
  {
    DeleteFirstRemovesOne(events, title);
  }
}
