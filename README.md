# Tournament bot event engine, in Dafny

This project models the event engine of a Discord bot that runs tournaments. The bot is a single Python file, `bot.py`.

Each Discord guild (a community) gets its own database namespace. The namespace is the guild name with spaces turned into underscores and letters lowered (the tenant key). Inside it, the bot keeps three collections:

- a `config` document per guild: the bot-operator, judge and recorder roles, five channels and a logo;
- an `events` collection of match records;
- a `results` collection.

The model covers the slash-command handlers that read and write these collections:

- `config_set` and `config_edit`;
- `events_create`, with its Judge and Recorder claim buttons;
- `events_edit`;
- `events_delete`, with its Confirm and Cancel buttons;
- `events_show`, `events_results` and `events_list`;
- `staff_work`;
- the title autocomplete.

It also covers `get_timestamp`, which turns a day, month, year, hour, minute and optional AM/PM into seconds since 1970 in UTC.

Files:

- `wrappers.dfy`: the `Option` type.
- `text.dfy`: the string operations the handlers rely on:
  - Python's `int()` on text, with CPython's limit of 4300 digits, and its inverse `IntToString`, with their round trip;
  - ASCII `lower()`, substring search, `split` and `join`;
  - Python truthiness of an optional string (`Truthy`, `OrElse`).
- `records.dfy`: the documents and command arguments (`Config`, `Event`, `CreateArgs`, `EditArgs`, `ResultRecord`, `ClaimView`) and guild members with their roles.
- `timestamp.dfy`: `get_timestamp`.
  - Dates are numbered the way CPython's `datetime` numbers them (proleptic Gregorian ordinals, years 1 to 9999).
  - A decoder `CivilOf` from timestamps back to dates, with both round trips proved.
  - The hour rule: `hour % 12`, plus 12 only for "pm".
  - The as-written function that lets `OverflowError` escape (see Findings).
- `tenant.dfy`: the tenant key.
- `configuration.dfy`: the `$set` of `config_edit` as a patch over the stored document.
- `events.dfy`: the `events` collection as a sequence in insertion order.
  - `find_one` / `update_one` / `delete_one` take the first record that matches.
  - Claim, edit-merge and delete are specification functions, with lemmas about them.
- `display.dfy`: the embeds the bot posts.
  - The created, shown and results layouts; the Staffs text with 'Awaiting selection'; the winner marks; the screenshot filters.
  - The edit handler's field-rewriting loop, as a method.
  - The claim buttons' Staffs splice as written.
- `queries.dfy`: the read-only queries: autocomplete, the event list and the judge report of `staff_work`.
- `community.dfy`: class `Community`.
  - Its fields are the collections of one tenant plus what the bot leaves on Discord: posted event messages by message id, each with the channel it was sent to and its embed; notices; results posts; channel permission grants; and transcript lines.
  - There is one method per handler. Each states its reply and its whole new state, and keeps the invariant `Valid()`: every stored record is well formed.

Each handler runs as one atomic step. Whether `bot.get_channel` finds a channel is modelled by the `reachable` set of channel ids. `fetch_message` on a channel succeeds only for a message posted in that channel; otherwise it raises `NotFound`.

Some things the bot does may look unintended. The model keeps each of them as the code has it:

- `get_timestamp` applies `hour % 12` even when no AM/PM is given, so hour 20 with no meridiem means 08:00.
- `config_set` checks that the requester holds the operator role named in the command, not the stored one.
- A claim writes no transcript line.
- The tenant key is not injective: "Spring Cup" and "spring_cup" share a database.
- `events_edit` writes the store before it rewrites the posted embed. When the rewrite raises, the record has changed but no transcript line is written, and the reply is modelled as `Raised`.
- The rewrite raises `UnboundLocalError` whenever the date was not fully supplied, because `timestamp` is then unbound.
- When the rewrite succeeds, it resets the Channel field to "Not specified" unless a channel is passed.
- Editing and deleting fetch the event's message from the schedule channel configured now. After `config_edit` moves the schedule channel to one the bot can find, that fetch raises for every event posted before the move. The store has already been changed by then, and nothing is logged.

## Model

| member | source | states |
|---|---|---|
| Text.ParseIntOfIntToString | bot.py:29-30 | `int()` parses back the decimal text of every integer of at most 4300 digits, so the numbers typed into the date arguments are read exactly |
| Text.TooManyDigits | bot.py:29-30 | `int()` refuses a digit string of more than 4300 digits, signed or not |
| Timestamp.MeridiemHour | bot.py:29 | the hour used is always in 0..23, is 12 or more exactly when the meridiem is "pm" in any case, and agrees with the typed hour modulo 12 |
| Timestamp.MeridiemExamples | bot.py:29 | 8 pm is 20:00, "PM" counts as pm, 12 am is 00:00, 12 pm is 12:00, and hour 20 with no meridiem is 08:00 |
| Timestamp.GetTimestamp | bot.py:27-33 | a timestamp is returned exactly when every part parses (at most 4300 digits each) and the date and time are valid, otherwise `None`; a returned timestamp is in the representable range and decodes back to the typed date and the meridiem-adjusted time |
| Timestamp.CivilRoundTrip | bot.py:30-31 | every valid date and time between years 1 and 9999 has a timestamp in range, and decoding it gives back that date and time |
| Timestamp.InstantRoundTrip | bot.py:30-31 | every whole-minute timestamp in range is the timestamp of its own decoding, so the encoding is onto the whole-minute instants |
| Timestamp.ToEpochInjective | bot.py:30-31 | two valid dates with the same timestamp are the same date |
| Timestamp.EveningExample | bot.py:27-31 | 25/12/2025 8:30 pm is the timestamp of 2025-12-25 20:30 UTC |
| Timestamp.NoThirtyFirstOfFebruary | bot.py:28-33 | 31/02 gives `None` and raises nothing |
| Timestamp.NoMinuteSixty | bot.py:28-33 | minute 60 gives `None` |
| Timestamp.NonNumericDay | bot.py:28-33 | a day that is not an integer gives `None` |
| Timestamp.OverlongPartRefused | bot.py:27-33 | a part of more than 4300 digits gives `None`, and as written nothing escapes |
| Timestamp.EpochIsZero | bot.py:27-31 | 1/1/1970 hour 12 with no meridiem is midnight UTC, timestamp 0 |
| Timestamp.GetTimestampAsWritten | bot.py:27-33 | as written, the function either returns what the corrected function returns or lets `OverflowError` escape; it raises exactly when every part parses within `int()`'s 4300-digit limit and the year, month, day or minute lies outside the C `int` range, input the corrected function rejects |
| Timestamp.OverflowEscapes | bot.py:30-33 | year "2147483648" makes the handler raise `OverflowError` as written, and the corrected function answers `None` |
| Tenant.TenantKey | bot.py:70 | the key has the name's length and maps character by character: a space becomes '_', an upper-case ASCII letter becomes its lower-case letter, and every other character is kept |
| Tenant.TenantKeyIdempotent | bot.py:116 | keying an already-keyed name changes nothing |
| Tenant.TenantKeyCollision | bot.py:116 | two different guild names can share one database |
| Configuration.EmptyPatchKeeps | bot.py:169-190 | a `config_edit` that supplies nothing leaves the stored document as it was |
| Configuration.ApplyPatchIdempotent | bot.py:190 | applying the same edit twice gives what applying it once gives |
| Configuration.FullPatchReplaces | bot.py:119-131 | an edit that supplies every field (with a non-empty logo) gives exactly the configuration `config_set` would store |
| Events.CreateTimestamp | bot.py:367-370 | create accepts exactly the inputs `get_timestamp` accepts, minus the falsy timestamp 0; an accepted time is in range and non-zero |
| Events.EpochRefused | bot.py:367-370 | an event at midnight UTC of 1 January 1970 is refused as an invalid date |
| Events.NewEventWellFormed | bot.py:456-472 | the inserted record is well formed, and its judge or recorder slot is empty exactly when none was given |
| Events.FindTitle | bot.py:533 | `find_one({'title': ...})`: the result is the first record with that title, and `None` exactly when no record has it |
| Events.FindMessage | bot.py:415-418 | the claim's filter finds the first record with that message id, and `None` exactly when none has it |
| Events.FindFirst | bot.py:415-418 | `find_one` with a filter: the first record the filter accepts, and `None` exactly when it accepts none |
| Events.ClaimSetsOnlyThatSlot | bot.py:415-438 | a claim puts the claimant in that slot of the matched record whoever held it, keeps every other field of that record, leaves every other record unchanged, and with no matching record changes nothing |
| Events.LastClaimWins | bot.py:415-418 | two claims of the same slot leave the second claimant in it |
| Events.ClaimsCommute | bot.py:415-438 | a judge claim and a recorder claim on one event give the same store in either order |
| Events.ClaimKeepsWellFormed | bot.py:415-438 | claims keep every record well formed |
| Events.EditTimestamp | bot.py:543-546 | the edit writes a timestamp exactly when all five date parts are given and `get_timestamp` gives a truthy result, and that result is the timestamp written; it decodes to the typed date |
| Events.MergeWellFormed | bot.py:538-571 | the merged record is well formed and keeps its message id |
| Events.MergeNothing | bot.py:568-571 | with nothing supplied, the merged record is the stored one |
| Events.MergeKeepsSlots | bot.py:559-562 | an edit that names no judge and no recorder keeps both slots |
| Events.MergeRemarksOnly | bot.py:565-571 | an edit of only the remarks changes only the remarks; empty remarks are no edit at all |
| Events.InvalidDateDropped | bot.py:543-546 | a fully supplied but invalid date is silently dropped, and the stored timestamp stays |
| Events.EditKeepsWellFormed | bot.py:571 | editing the first record with a title keeps every record well formed |
| Events.DeleteFirstRemovesOne | bot.py:631 | with no record titled so, delete changes nothing; otherwise it removes exactly the first such record: one fewer record, one fewer with that title, and the rest kept in their order |
| Events.DeleteUniqueThenNotFound | bot.py:631 | after deleting a title held by one record, a lookup of it finds nothing |
| Events.DeleteKeepsWellFormed | bot.py:631 | delete keeps every record well formed |
| Display.CreatedLayout | bot.py:377-390 | the created embed's fields are UTC Time, Local Time, Tournament, Group, Round, Channel, Team1 Captain, Team2 Captain and Staffs, then Remarks only when remarks were given; Staffs is at index 8 and reads 'Awaiting selection' for the judge when none was given |
| Display.StaffsTextInjective | bot.py:385-388 | the Staffs text determines both slots: two texts are equal only for the same judge and recorder |
| Display.CreatedContext | bot.py:378-388 | fields 1 to 8 of the created embed are those `events_show` renders from the stored record, and its title is the record's title |
| Display.ShowAgreesWithCreate | bot.py:662-678 | showing the record that create stored gives the embed create posted, except the UTC Time text: same title, same image, same fields from Local Time on |
| Display.ShowAfterJudgeClaim | bot.py:671-674 | after a judge claim on an event with no recorder, Show's Staffs field names the judge and 'Awaiting selection' |
| Display.WinnerRule | bot.py:750-752 | Team1 exactly when score1 > score2, Team2 exactly when score2 > score1, Draw exactly on equal scores; swapping the scores swaps the winner; the left trophy appears only for Team1, the right only for Team2, and a draw shows two skulls |
| Display.ResultsShareContext | bot.py:738-753 | the results embed starts with Show's Local Time to Staffs fields for the same record and puts the Results line right after them |
| Display.TruthyOnly | bot.py:761 | the screenshots kept are exactly the given non-empty ones |
| Display.TruthyOnlyAppend | bot.py:761 | filtering two lists of links one after the other gives the two filtered lists concatenated, so order and repeats are kept |
| Display.TruthyOnlyOne | bot.py:761 | one link is kept, as its text, exactly when it is truthy |
| Display.StoredScreenshotsAreTruthyOnes | bot.py:773 | the stored screenshot list is screenshot 1 followed by the others, keeping only the truthy ones, so it holds no empty link and at most one more than the others given |
| Display.EditBinding | bot.py:543-546 | `timestamp` is bound exactly when all five date parts are truthy, and then to `get_timestamp`'s result for them; it is bound and truthy exactly when the store update writes a timestamp |
| Display.RewriteFields | bot.py:578-601 | the loop succeeds exactly when no field's rewrite raises, and then each field is its rewritten version |
| Display.RewriteOfCreatedNeedsDate | bot.py:579 | rewriting an embed that create posted raises whenever the date was not fully supplied |
| Display.RewriteResetsChannel | bot.py:589-590 | a rewrite with no channel argument sets the Channel field to "Not specified" |
| Display.RewriteTimeFollowsStore | bot.py:578-582 | when the edit writes a timestamp, Local Time shows the merged record's timestamp and UTC Time the typed date; otherwise both time fields stay and the stored timestamp is unchanged |
| Display.RewriteStaffsFollowsStore | bot.py:595-599 | the rewritten Staffs field names the merged record's two holders, and the stored ones when neither slot is edited |
| Display.ClaimSpliceRaises | bot.py:406-408 | on an embed create posted (team 1 name without the split markers), both claim buttons' splices raise |
| Queries.MatchingTitles | bot.py:72-75 | a title is offered exactly when a stored event has it and it contains what was typed, ignoring letter case |
| Queries.MatchingTitlesAppend | bot.py:72-75 | the matches of two stores one after the other are their matches concatenated, so store order and repeated titles are kept |
| Queries.MatchingTitlesOne | bot.py:72-75 | one event yields its title exactly when the title contains what was typed, ignoring letter case |
| Queries.Autocomplete | bot.py:73-76 | exactly the first 25 matches, or all of them when there are at most 25 |
| Queries.AutocompleteSound | bot.py:73-76 | every choice is the title of a stored event that contains the typed text |
| Queries.EmptyQueryOffersAll | bot.py:75 | with nothing typed, every stored title matches, in store order |
| Queries.ExactTitleMatches | bot.py:75 | typing a stored title finds it |
| Queries.Listing | bot.py:789-795 | there is no list exactly when the store is empty |
| Queries.ListingShowsEvery | bot.py:790-795 | every stored event's line appears in the list |
| Queries.ListingSplitsIntoLines | bot.py:790-795 | when no title holds a line break, the list splits at line breaks into exactly one line per stored event, in store order |
| Text.SplitOnJoin | bot.py:795 | splitting at the separator undoes `"\n".join` of lines that do not contain it |
| Queries.JudgedBy | bot.py:298 | the report's records are exactly the stored ones whose judge is the staff member |
| Queries.JudgedByAppend | bot.py:298-302 | the report over two stores one after the other is their reports concatenated, so store order is kept |
| Queries.JudgedByOne | bot.py:298-302 | one event is reported exactly when its judge is the staff member |
| Queries.JudgedByCounts | bot.py:298-303 | the report's total is the number of records judged by the staff member |
| Queries.JudgeClaimCounts | bot.py:298-303 | a judge claim raises the claimant's total by one unless they already held that slot; a recorder claim changes no judge's total |
| Queries.WorkReport | bot.py:303-308 | "No events judged." exactly when the total is 0, otherwise the text starts with "Total Events Judged: " and the total |
| Bot.BuildConfig | bot.py:169-189 | the conditional assignments yield the stored document patched with the supplied fields; something is written exactly when some field was supplied |
| Bot.BuildEdit | bot.py:538-570 | something is written exactly when the edit supplies a truthy field or a valid full date; the new record is then the merge, and otherwise the stored one |
| Bot.EditTexts | bot.py:547-566 | each optional text is written exactly when it is truthy |
| Bot.EditIds | bot.py:553-562 | each channel or user argument given replaces the stored id |
| Bot.ClaimSyncsDisplay | bot.py:406-418 | after a claim as intended, the record holds the claimant, every other posted message is unchanged, and the message stays in its channel and its Staffs field names exactly the record's two holders |
| Bot.Community.LogAction | bot.py:800-805 | `log_action` appends one transcript line exactly when the guild has a configuration whose transcript channel can be found, and changes nothing else |
| Bot.Community.ConfigSet | bot.py:112-134 | without the named operator role: "no permission" and nothing changes; otherwise the guild's configuration is replaced (upsert) and the change is logged |
| Bot.Community.ConfigEdit | bot.py:161-194 | non-operators are refused; an edit supplying nothing is refused with nothing changed; otherwise the supplied fields are written and logged |
| Bot.Community.EventsCreate | bot.py:356-478 | refusals (no config, no permission, invalid date, schedule channel missing) change nothing; success appends the new record, posts the created embed, sends the notice when the channel exists, logs, and returns the claim view |
| Bot.Community.Claim | bot.py:401-439 | without the slot's role, the claim is refused with nothing changed; otherwise the record shown gets the claimant in that slot, the Staffs field is recomposed from the record, and channel access is granted when the channel exists |
| Bot.Community.ClaimAsWritten | bot.py:401-439 | as written: the refusal is the same, but when the field-6 splice raises nothing else happens; only a splice that succeeds updates the store |
| Bot.Community.EventsEdit | bot.py:526-609 | non-operators, an unknown title and an empty edit change nothing; otherwise the first record with the title is merged and its message is fetched from the configured schedule channel and rewritten; the edit is logged only when neither the fetch nor the rewrite raised |
| Bot.Community.RewriteBoard | bot.py:573-604 | the posted embed is replaced by its rewrite when the schedule channel exists; it fails exactly when the message is not in the configured schedule channel (gone, or posted in another) or a field rewrite raises |
| Bot.MovedScheduleRaises | bot.py:573-575 | a message posted in one channel cannot be fetched from another: after the schedule channel moves, the edit's rewrite and Confirm both raise, while Confirm from the original channel deletes it |
| Bot.Community.EventsDelete | bot.py:615-643 | the command itself deletes nothing: it refuses non-operators and unknown titles, and otherwise holds the first record with the title for confirmation |
| Bot.Community.ConfirmDelete | bot.py:629-637 | Confirm removes the first record with the title; when the schedule channel the prompt holds exists, the message is deleted from it and the deletion logged with the reason, and the reply is `Raised` with nothing logged when the message is not in that channel; nothing else changes |
| Bot.Community.RecordClaim | bot.py:415-418 | the `update_one` of a claim: the first record with the message id gets the claimant in that slot, everything else is unchanged, and every record stays well formed |
| Bot.Community.RemoveFirst | bot.py:631 | `delete_one` removes the first record with the title, keeps every record well formed, and changes nothing else |
| Bot.Community.RemoveMessageLogged | bot.py:632-635 | the message is deleted when the schedule channel exists, and the deletion is logged only when the fetch from that channel did not raise |
| Bot.Community.RemoveMessage | bot.py:632-635 | the message is deleted when the schedule channel exists, and the fetch fails exactly when the message is not in that channel (gone, or posted in another) |
| Bot.Community.CancelDelete | bot.py:639-641 | Cancel answers "Deletion cancelled." and changes nothing |
| Bot.Community.EventsShow | bot.py:649-681 | with no config, or no event with the title, nothing changes; otherwise the first record with the title is shown and the view is logged |
| Bot.Community.EventsResults | bot.py:721-777 | non-operators, an unknown title and a missing results channel change nothing; otherwise the screenshots and results embed are posted, a result record with the filtered screenshots is stored, and it is logged |
| Bot.Community.EventsList | bot.py:782-797 | an empty store is reported and not logged; otherwise one line per event is shown and the view is logged |
| Bot.Community.StaffWork | bot.py:291-311 | any member of a configured guild sees the judge report for the staff member, and the view is logged |

## Left out

- Discord I/O is reduced to the `Community` fields. Gateway events, `on_ready`, `bot.run`, modals, `set_permissions` beyond a record of the grant, and Discord's permission and rate-limit errors are not modelled. The message ids Discord assigns are parameters. Messages are modelled only as far as the handlers fetch, edit and delete them.
- The MongoDB client is reduced to in-memory sequences with first-match semantics. Indexes, concurrent writers and connection failures are not modelled.
- `create_tournament_image` is not modelled. It is drawing with random backgrounds and file output.
- `bot.get_user` is assumed to find every user. The `AttributeError` that a missing user would cause in `events_show`, `events_results` and the edit rewrite is not modelled.
- The server-local rendering of timestamps (`datetime.fromtimestamp(...).strftime` in `events_show` and `staff_work`) depends on the host's time zone, so it is a parameter: `clockText`, `dateOf`.
- `datetime.utcnow()` in the results record is the parameter `now`.
- Concurrency is not modelled. The handlers are async and can interleave; here each runs as one atomic step.
- `send_regis` and `staff_data` are not part of this model. They are registration plumbing with hard-coded channel ids.
- Python's `int()` is modelled on an optional sign followed by at most 4300 ASCII digits, CPython's default `sys.get_int_max_str_digits()`. Surrounding whitespace, underscores and non-ASCII digits, which CPython also accepts, are not modelled.
- `str.lower()` is modelled on ASCII letters only.
- The embed colours are not modelled.
- `Bot.Community.Claim`: the corrected Staffs text names each holder by mention only. It drops the " (name)" suffix that the as-written splice appends to the claimant, because the store keeps ids, not names.
- `Queries.WorkReport`: the contract states the total and the "No events judged." case. It does not state the per-event lines after the header; those come from `JudgedBy`, whose contract gives the records listed.
- `Bot.Community.EventsShow`: the UTC Time text is the parameter `clockText`, so the contract does not tie it to the stored timestamp.

## Findings

| source | as written | input that shows it | evidently intended | confidence | as-written member | corrected member |
|---|---|---|---|---|---|---|
| bot.py:30-33 | `datetime(...)` receives the parsed parts, and only `ValueError` is caught; CPython's C `datetime` raises `OverflowError` for a part outside the C `int` range, and that escapes the handler | year "2147483648" (with day "1", month "1", hour "0", minute "0") | an out-of-range part is an invalid date, so the result is `None` and the handler answers "Invalid date/time format!" | not executed | Timestamp.OverflowEscapes | Timestamp.GetTimestamp |
| bot.py:406-408 | both claim buttons rebuild Staffs from `embed.fields[6]`, which is "Team1 Captain", splitting on `'Recorder: '` / `'Judge: '`, text the created embed never contains (it reads `**Recorder**: `); the `[1]` raises `IndexError` before the store update | any event created with team 1 named "A", then a Judge claim by a member holding the judge role | set Staffs (field 8) from the two slots and record the claimant in the store | not executed | Display.ClaimSpliceRaises | Bot.Community.Claim |
