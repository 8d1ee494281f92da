/**
 * The read-only queries over a community's events: the title autocomplete
 * (bot.py:69-76), the list of `events_list` (bot.py:789-797) and the judge report of
 * `staff_work` (bot.py:298-310).
 */
module Queries {
  import opened Wrappers
  import opened Text
  import opened Records
  import opened Events

  /** The most choices Discord accepts from an autocomplete callback. */
  const MAX_CHOICES := 25

  // ---------------------------------------------------------------------------
  // Autocomplete

  /** `current.lower() in title.lower()`. */
  predicate Suggests(title: string, current: string) {
    Contains(Lower(title), Lower(current))
  }

  /** The titles, in store order, that contain what was typed so far, ignoring letter case. */
  function MatchingTitles(events: seq<Event>, current: string): (r: seq<string>)
    ensures |r| <= |events|
    ensures forall t :: t in r <==> exists i :: 0 <= i < |events| && events[i].title == t && Suggests(t, current)
    decreases |events|
  {
    if |events| == 0 then []
    else
      var rest := MatchingTitles(events[1..], current);
      assert forall i :: 1 <= i < |events| ==> events[i] == events[1..][i - 1];
      if Suggests(events[0].title, current) then [events[0].title] + rest else rest
  }

  /** Matching a concatenation matches each part and keeps store order. */
  lemma {:induction false} MatchingTitlesAppend(a: seq<Event>, b: seq<Event>, current: string)
    ensures MatchingTitles(a + b, current) == MatchingTitles(a, current) + MatchingTitles(b, current)
    decreases |a|
  {
    if |a| > 0 {
      assert (a + b)[1..] == a[1..] + b;
      MatchingTitlesAppend(a[1..], b, current);
    } else {
      assert a + b == b;
    }
  }

  /** One record offers its title exactly when the title contains the typed text. */
  lemma MatchingTitlesOne(e: Event, current: string)
    ensures MatchingTitles([e], current) == if Suggests(e.title, current) then [e.title] else []
  {
  }

  /** The choices `event_autocomplete` offers: the matching titles, cut to the first 25. */
  function Autocomplete(events: seq<Event>, current: string): (r: seq<string>)
    ensures |r| <= MAX_CHOICES
    ensures r <= MatchingTitles(events, current)
    ensures |MatchingTitles(events, current)| <= MAX_CHOICES ==> r == MatchingTitles(events, current)
    ensures |r| == if |MatchingTitles(events, current)| <= MAX_CHOICES then |MatchingTitles(events, current)| else MAX_CHOICES
  {
    var all := MatchingTitles(events, current);
    if |all| <= MAX_CHOICES then all else all[..MAX_CHOICES]
  }

  /** Every choice offered is the title of a stored event that contains the typed text. */
  lemma AutocompleteSound(events: seq<Event>, current: string, t: string)
    requires t in Autocomplete(events, current)
    ensures Suggests(t, current)
    ensures exists i :: 0 <= i < |events| && events[i].title == t
  {
    assert t in MatchingTitles(events, current);
  }

  lemma EmptyMatchesAll(s: string)
    ensures Contains(s, "")
  {
    assert OccursAt(s, "", 0);
  }

  /** With nothing typed every title matches, so a store of at most 25 events offers every title. */
  lemma {:induction false} EmptyQueryOffersAll(events: seq<Event>)
    ensures |MatchingTitles(events, "")| == |events|
    ensures forall i :: 0 <= i < |events| ==> MatchingTitles(events, "")[i] == events[i].title
    decreases |events|
  {
    if |events| > 0 {
      EmptyQueryOffersAll(events[1..]);
      EmptyMatchesAll(Lower(events[0].title));
      assert Lower("") == "";
    }
  }

  /** Typing a title exactly finds it, in any letter case, among the matches. */
  lemma ExactTitleMatches(events: seq<Event>, i: nat)
    requires i < |events|
    ensures events[i].title in MatchingTitles(events, events[i].title)
  {
    var s := Lower(events[i].title);
    assert OccursAt(s, s, 0) by { assert s[0..|s|] == s; }
  }

  // ---------------------------------------------------------------------------
  // events_list

  /** `f"- {event['title']} (<t:{event['timestamp']}:R>)"`. */
  function ListLine(e: Event): string {
    "- " + e.title + " (<t:" + IntToString(e.timestamp) + ":R>)"
  }

  function ListLines(events: seq<Event>): (lines: seq<string>)
    ensures |lines| == |events|
    ensures forall i :: 0 <= i < |events| ==> lines[i] == ListLine(events[i])
  {
    seq(|events|, i requires 0 <= i < |events| => ListLine(events[i]))
  }

  /** The description of the list embed, or `None` for "No events found!" when the store is empty. */
  function Listing(events: seq<Event>): (r: Option<string>)
    ensures r.None? <==> |events| == 0
  {
    if |events| == 0 then None else Some(Join(ListLines(events), "\n"))
  }

  /** The joined lines, one per stored event in store order. */
  lemma {:induction false} JoinedLinesInOrder(lines: seq<string>, i: nat)
    requires i < |lines|
    ensures Contains(Join(lines, "\n"), lines[i])
    decreases |lines|
  {
    var j := Join(lines, "\n");
    if |lines| == 1 {
      assert OccursAt(j, lines[0], 0) by { assert j[..|lines[0]|] == lines[0]; }
    } else if i == 0 {
      assert j == lines[0] + ("\n" + Join(lines[1..], "\n"));
      assert OccursAt(j, lines[0], 0) by { assert j[0..|lines[0]|] == lines[0]; }
    } else {
      JoinedLinesInOrder(lines[1..], i - 1);
      var rest := Join(lines[1..], "\n");
      var k :| 0 <= k <= |rest| - |lines[i]| && OccursAt(rest, lines[i], k);
      var off := |lines[0]| + 1;
      assert j == (lines[0] + "\n") + rest;
      assert j[off + k..off + k + |lines[i]|] == rest[k..k + |lines[i]|];
      assert OccursAt(j, lines[i], off + k);
    }
  }

  /** Every stored event has its line in the listing. */
  lemma ListingShowsEvery(events: seq<Event>, i: nat)
    requires i < |events|
    ensures Listing(events).Some? && Contains(Listing(events).value, ListLine(events[i]))
  {
    JoinedLinesInOrder(ListLines(events), i);
  }

  /** A rendered integer holds no line break. */
  lemma NoBreakInNumber(n: int)
    ensures '\n' !in IntToString(n)
  {
    var s := IntToString(n);
    var d := NatToString(if n < 0 then -n else n);
    assert s == (if n < 0 then "-" + d else d);
    assert forall k :: 0 <= k < |d| ==> IsDigit(d[k]);
  }

  /**
   * The listing holds exactly one line per stored event, in store order: splitting it
   * at line breaks gives back `ListLine` of each event, when no title holds a break.
   */
  lemma ListingSplitsIntoLines(events: seq<Event>)
    requires |events| > 0
    requires forall i :: 0 <= i < |events| ==> '\n' !in events[i].title
    ensures Listing(events).Some?
    ensures |SplitOn(Listing(events).value, '\n')| == |events|
    ensures forall i :: 0 <= i < |events| ==> SplitOn(Listing(events).value, '\n')[i] == ListLine(events[i])
  {
    var lines := ListLines(events);
    forall i | 0 <= i < |lines|
      ensures '\n' !in lines[i]
    {
      NoBreakInNumber(events[i].timestamp);
    }
    SplitOnJoin(lines, '\n');
  }

  // ---------------------------------------------------------------------------
  // staff_work

  /** `find({'judge_id': staff.id})`: the records whose judge is `staff`, in store order. */
  function JudgedBy(events: seq<Event>, staff: Id): (r: seq<Event>)
    ensures |r| <= |events|
    ensures forall e :: e in r <==> e in events && e.judgeId == Some(staff)
    decreases |events|
  {
    if |events| == 0 then []
    else
      var rest := JudgedBy(events[1..], staff);
      assert forall e :: e in events <==> e == events[0] || e in events[1..];
      if events[0].judgeId == Some(staff) then [events[0]] + rest else rest
  }

  /** The judged records of a concatenation are those of each part, in store order. */
  lemma {:induction false} JudgedByAppend(a: seq<Event>, b: seq<Event>, staff: Id)
    ensures JudgedBy(a + b, staff) == JudgedBy(a, staff) + JudgedBy(b, staff)
    decreases |a|
  {
    if |a| > 0 {
      assert (a + b)[1..] == a[1..] + b;
      JudgedByAppend(a[1..], b, staff);
    } else {
      assert a + b == b;
    }
  }

  /** One record is listed exactly when `staff` is its judge. */
  lemma JudgedByOne(e: Event, staff: Id)
    ensures JudgedBy([e], staff) == if e.judgeId == Some(staff) then [e] else []
  {
  }

  /** How many records name `staff` as judge. */
  function CountJudged(events: seq<Event>, staff: Id): nat
    decreases |events|
  {
    if |events| == 0 then 0
    else (if events[0].judgeId == Some(staff) then 1 else 0) + CountJudged(events[1..], staff)
  }

  /** The report's count is the number of records judged by `staff`. */
  lemma {:induction false} JudgedByCounts(events: seq<Event>, staff: Id)
    ensures |JudgedBy(events, staff)| == CountJudged(events, staff)
    decreases |events|
  {
    if |events| > 0 {
      JudgedByCounts(events[1..], staff);
    }
  }

  lemma {:induction false} CountJudgedSplit(events: seq<Event>, i: nat, staff: Id)
    requires i < |events|
    ensures CountJudged(events, staff)
         == CountJudged(events[..i], staff) + (if events[i].judgeId == Some(staff) then 1 else 0) + CountJudged(events[i + 1..], staff)
    decreases i
  {
    if i > 0 {
      CountJudgedSplit(events[1..], i - 1, staff);
      assert events[1..][..i - 1] == events[1..i];
      assert events[..i][1..] == events[1..i];
      assert events[1..][i - 1 + 1..] == events[i + 1..];
    } else {
      assert events[1..] == events[i + 1..];
    }
  }

  /**
   * After `staff` claims the judge slot of a displayed event, that event counts in
   * their report once more than before unless they already held the slot; a recorder
   * claim leaves every judge's count as it was.
   */
  lemma JudgeClaimCounts(events: seq<Event>, messageId: Id, staff: Id, other: Id)
    requires FindMessage(events, messageId).Some?
    ensures var i := FindMessage(events, messageId).value;
      CountJudged(ClaimUpdate(events, messageId, JudgeSlot, staff), staff)
        == CountJudged(events, staff) + (if events[i].judgeId == Some(staff) then 0 else 1)
    ensures CountJudged(ClaimUpdate(events, messageId, RecorderSlot, other), staff) == CountJudged(events, staff)
  {
    var i := FindMessage(events, messageId).value;
    var j := ClaimUpdate(events, messageId, JudgeSlot, staff);
    var r := ClaimUpdate(events, messageId, RecorderSlot, other);
    CountJudgedSplit(events, i, staff);
    CountJudgedSplit(j, i, staff);
    CountJudgedSplit(r, i, staff);
    assert j[..i] == events[..i] && j[i + 1..] == events[i + 1..];
    assert r[..i] == events[..i] && r[i + 1..] == events[i + 1..];
  }

  predicate StartsWith(s: string, prefix: string) { |prefix| <= |s| && s[..|prefix|] == prefix }

  /** `f"- {event['title']} ({date})"`, the date the server-local rendering of the timestamp. */
  function WorkLine(e: Event, dateText: string): string {
    "- " + e.title + " (" + dateText + ")"
  }

  /**
   * The description of the `staff_work` embed (bot.py:304-308). `dateOf` stands for
   * `datetime.fromtimestamp(ts).strftime('%d/%m/%Y')` in the server's time zone.
   */
  function WorkReport(events: seq<Event>, staff: Id, dateOf: int -> string): (r: string)
    ensures CountJudged(events, staff) == 0 ==> r == "No events judged."
    ensures CountJudged(events, staff) > 0 ==> StartsWith(r, "Total Events Judged: " + IntToString(CountJudged(events, staff)))
  {
    var judged := JudgedBy(events, staff);
    JudgedByCounts(events, staff);
    var lines := seq(|judged|, i requires 0 <= i < |judged| => WorkLine(judged[i], dateOf(judged[i].timestamp)));
    if |lines| > 0 then
      var head := "Total Events Judged: " + IntToString(|lines|);
      var r := head + "\n\n" + Join(lines, "\n");
      assert r[..|head|] == head;
      r
    else "No events judged."
  }
}
