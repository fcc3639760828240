/**
 * The status step of an auto-scheduled meeting. While the meeting waits for
 * answers, one step looks at the summary of the answers: a decline moves the
 * meeting to its next candidate slot and invites everyone again (or gives up
 * when no slot is left); once nobody is pending and nobody declined, the
 * current slot is selected and a calendar event is built for the attendees
 * and the host. The background task `process_meeting_status` and the polling
 * view `meeting_status` run the same step with different time zones.
 */
module MeetingTasks {
  import opened Wrappers
  import GraphClient
  import TeamsClient
  import opened MeetingModels
  import MeetingUtils

  /** A status is counted zero times exactly when no answer has it. */
  lemma {:induction false} CountZero(rs: seq<AttendeeResponse>, s: Reply)
    ensures Count(rs, s) == 0 <==> forall i :: 0 <= i < |rs| ==> rs[i].status != s
  {
    if rs != [] {
      var init := rs[..|rs| - 1];
      CountZero(init, s);
      assert forall i :: 0 <= i < |init| ==> init[i] == rs[i];
    }
  }

  /**
   * The summary counts a decline exactly when some attendee declined, and
   * shows nobody pending and nobody declining exactly when every attendee
   * accepted or answered tentatively.
   */
  lemma SummaryMeaning(vs: seq<AttendeeResponse>)
    requires AllKnown(vs)
    ensures TallyOf(vs).declined > 0 <==> exists i :: 0 <= i < |vs| && vs[i].status == Declined
    ensures TallyOf(vs).pending == 0 && TallyOf(vs).declined == 0 <==>
              forall i :: 0 <= i < |vs| ==> vs[i].status == Accepted || vs[i].status == Tentative
  {
    CountZero(vs, Reply.Pending);
    CountZero(vs, Declined);
  }

  /** What one status step did. */
  datatype Outcome =
    | Unchanged                                             // not waiting, or answers still outstanding
    | UnknownStatus(status: string)                         // the summary met a status it does not count
    | Rescheduled(deliveries: seq<MeetingUtils.Delivery>)   // next slot, everyone invited again
    | GaveUp                                                // a decline and no slot left
    | Scheduled(event: GraphClient.NewEvent)                // slot selected, event built
    | NoSelectedTime                                        // settled, but there is no current slot to book
    | NoSuchMeeting                                         // the task was given an unknown uuid
    | NoHostToken                                           // the host has no stored token

  /** Every answer reopened: the same attendees, each pending again with no response time. */
  ghost predicate Reopens(before: map<string, AttendeeResponse>, after: map<string, AttendeeResponse>) {
    after.Keys == before.Keys && forall e :: e in after ==> after[e] == Reopened(before[e])
  }

  /**
   * The event a settled meeting books: an online Teams meeting with the
   * meeting's title at the slot, every attendee in answer order and then the
   * host as required attendees, and the description as a text body when it is
   * not empty.
   */
  function EventOf(s: MeetingState, slot: GraphClient.Slot, zone: string): GraphClient.NewEvent {
    var emails := s.responseOrder + [s.hostEmail];
    GraphClient.NewEvent(
      s.title, GraphClient.DateTimeTimeZone(slot.start, zone), GraphClient.DateTimeTimeZone(slot.end, zone),
      "Teams 線上會議", true, "teamsForBusiness",
      Some(seq(|emails|, i requires 0 <= i < |emails| => GraphClient.EventAttendee("required", emails[i]))),
      if s.description != "" then Some(GraphClient.ItemBody("text", s.description)) else None)
  }

  /** The answers of a state, every one with a status the summary counts. */
  ghost predicate AllRepliesKnown(s: MeetingState)
    requires forall e :: e in s.responseOrder ==> e in s.responses
  {
    AllKnown(ValuesOf(s.responseOrder, s.responses))
  }

  /**
   * One status step takes a meeting from `s` to `t` with outcome `o`. Only a
   * waiting meeting moves, and only its status, try, answers and selected slot
   * can change:
   * - a summary that meets an uncounted status changes nothing;
   * - after a decline, with a slot left, the try advances, every answer is
   *   reopened, the meeting keeps waiting and every attendee with a chat gets
   *   a card for the new slot; with no slot left the meeting fails;
   * - with nobody pending and nobody declining the meeting is done, the
   *   current candidate is selected and, when there is one, the event is built;
   * - otherwise nothing changes.
   */
  ghost predicate Stepped(s: MeetingState, t: MeetingState, o: Outcome, uuid: string, redirect: string,
                          informLocalize: string -> Option<string>, selectLocalize: string -> Option<string>,
                          eventZone: string, instant: string -> int, render: int -> string,
                          send: (string, MeetingUtils.CardPayload) -> TeamsClient.SendResponse)
    requires forall e :: e in s.responseOrder ==> e in s.responses
  {
    && t == s.(status := t.status, currentTry := t.currentTry, responses := t.responses, selectedTime := t.selectedTime)
    && (s.status != Waiting ==> o == Unchanged && t == s)
    && (s.status == Waiting && !AllRepliesKnown(s) ==> o.UnknownStatus? && t == s)
    && (s.status == Waiting && AllRepliesKnown(s) ==>
          var tally := TallyOf(ValuesOf(s.responseOrder, s.responses));
          && (tally.declined > 0 && s.currentTry < |s.candidateTimes| - 1 ==>
                && t.status == Waiting && t.currentTry == s.currentTry + 1
                && Reopens(s.responses, t.responses) && t.selectedTime == s.selectedTime
                && CandidateTime(t.candidateTimes, t.currentTry, informLocalize).Some?
                && o == Rescheduled(MeetingUtils.Deliveries(
                          MeetingUtils.Invitation(s.title, uuid, s.description, MeetingUtils.WebhookBase(redirect),
                                                  CandidateTime(t.candidateTimes, t.currentTry, informLocalize).value),
                          s.responseOrder, t.responses, instant, render, send)))
          && (tally.declined > 0 && s.currentTry >= |s.candidateTimes| - 1 ==> t == s.(status := Failed) && o == GaveUp)
          && (tally.declined == 0 && tally.pending == 0 ==>
                && t == s.(status := Done, selectedTime := CandidateTime(s.candidateTimes, s.currentTry, selectLocalize))
                && (t.selectedTime.None? ==> o == NoSelectedTime)
                && (t.selectedTime.Some? ==> o == Scheduled(EventOf(s, t.selectedTime.value, eventZone))))
          && (tally.declined == 0 && tally.pending > 0 ==> o == Unchanged && t == s))
  }

  /**
   * A step only moves a waiting meeting, to failed or done; a meeting that
   * becomes done keeps its try and has the candidate it was at selected; a
   * meeting that keeps waiting either stays put or has moved to the next slot
   * with every answer pending again.
   */
  lemma StepMoves(s: MeetingState, t: MeetingState, o: Outcome, uuid: string, redirect: string,
                  informLocalize: string -> Option<string>, selectLocalize: string -> Option<string>,
                  eventZone: string, instant: string -> int, render: int -> string,
                  send: (string, MeetingUtils.CardPayload) -> TeamsClient.SendResponse)
    requires forall e :: e in s.responseOrder ==> e in s.responses
    requires Stepped(s, t, o, uuid, redirect, informLocalize, selectLocalize, eventZone, instant, render, send)
    ensures t.status == s.status || (s.status == Waiting && (t.status == Failed || t.status == Done))
    ensures t.status == Done && s.status != Done ==>
              t.currentTry == s.currentTry && t.selectedTime == CandidateTime(s.candidateTimes, s.currentTry, selectLocalize)
    ensures t.status == Waiting && t != s ==>
              t.currentTry == s.currentTry + 1 && Reopens(s.responses, t.responses) && o.Rescheduled?
    ensures t.status == Failed && s.status != Failed ==> t.currentTry == s.currentTry && t.responses == s.responses
  {
  }

  /**
   * The step after a decline: `try_next` and, when a slot is left, a new
   * round of cards from the now current candidate; otherwise the meeting has
   * failed.
   */
  method Reschedule(meeting: AutoScheduleMeeting, redirect: string, informLocalize: string -> Option<string>,
                    instant: string -> int, render: int -> string,
                    send: (string, MeetingUtils.CardPayload) -> TeamsClient.SendResponse)
    returns (o: Outcome)
    requires meeting.Valid() && meeting.TryInRange()
    modifies meeting
    ensures meeting.Valid() && meeting.TryInRange()
    ensures meeting.responseOrder == old(meeting.responseOrder) && meeting.candidateTimes == old(meeting.candidateTimes)
    ensures meeting.title == old(meeting.title) && meeting.description == old(meeting.description)
    ensures meeting.hostEmail == old(meeting.hostEmail) && meeting.selectedTime == old(meeting.selectedTime)
    ensures meeting.attendees == old(meeting.attendees) && meeting.duration == old(meeting.duration)
    ensures meeting.timeZone == old(meeting.timeZone)
    ensures old(meeting.currentTry) < |meeting.candidateTimes| - 1 ==>
              && meeting.status == old(meeting.status)
              && meeting.currentTry == old(meeting.currentTry) + 1
              && meeting.responses.Keys == old(meeting.responses).Keys
              && (forall e :: e in meeting.responses ==> meeting.responses[e] == Reopened(old(meeting.responses)[e]))
              && meeting.GetCandidateTime(informLocalize).Some?
              && o == Rescheduled(MeetingUtils.Deliveries(
                        MeetingUtils.Invitation(meeting.title, meeting.uuid, meeting.description,
                                                MeetingUtils.WebhookBase(redirect),
                                                meeting.GetCandidateTime(informLocalize).value),
                        meeting.responseOrder, meeting.responses, instant, render, send))
    ensures old(meeting.currentTry) >= |meeting.candidateTimes| - 1 ==>
              && meeting.status == Failed && o == GaveUp
              && meeting.currentTry == old(meeting.currentTry) && meeting.responses == old(meeting.responses)
  {
    var moved := meeting.TryNext();
    if !moved {
      meeting.status := Failed;
      return GaveUp;
    }
    var sent := MeetingUtils.InformAttendees(meeting, redirect, informLocalize, instant, render, send);
    return Rescheduled(sent.value);
  }

  /**
   * The step once everyone has agreed: the meeting is done, the current
   * candidate is selected, and an event is built for the attendees in answer
   * order followed by the host, with the description as its body.
   */
  method Settle(meeting: AutoScheduleMeeting, selectLocalize: string -> Option<string>, eventZone: string)
    returns (o: Outcome)
    modifies meeting
    ensures meeting.responseOrder == old(meeting.responseOrder) && meeting.candidateTimes == old(meeting.candidateTimes)
    ensures meeting.responses == old(meeting.responses) && meeting.currentTry == old(meeting.currentTry)
    ensures meeting.title == old(meeting.title) && meeting.description == old(meeting.description)
    ensures meeting.hostEmail == old(meeting.hostEmail) && meeting.attendees == old(meeting.attendees)
    ensures meeting.duration == old(meeting.duration) && meeting.timeZone == old(meeting.timeZone)
    ensures meeting.status == Done
    ensures meeting.selectedTime == old(meeting.GetCandidateTime(selectLocalize))
    ensures meeting.selectedTime.None? ==> o == NoSelectedTime
    ensures meeting.selectedTime.Some? ==>
              && o.Scheduled?
              && o.event.subject == meeting.title
              && o.event.start == GraphClient.DateTimeTimeZone(meeting.selectedTime.value.start, eventZone)
              && o.event.end == GraphClient.DateTimeTimeZone(meeting.selectedTime.value.end, eventZone)
              && o.event.attendees.Some?
              && |o.event.attendees.value| == |meeting.responseOrder| + 1
              && (forall i :: 0 <= i < |meeting.responseOrder| ==>
                    o.event.attendees.value[i] == GraphClient.EventAttendee("required", meeting.responseOrder[i]))
              && o.event.attendees.value[|meeting.responseOrder|] ==
                   GraphClient.EventAttendee("required", meeting.hostEmail)
              && (o.event.body.Some? <==> meeting.description != "")
              && o == Scheduled(EventOf(meeting.State(), meeting.selectedTime.value, eventZone))
  {
    meeting.status := Done;
    meeting.selectedTime := meeting.GetCandidateTime(selectLocalize);
    if meeting.selectedTime.None? {
      return NoSelectedTime;
    }
    var slot := meeting.selectedTime.value;
    var emails := meeting.responseOrder + [meeting.hostEmail];
    var event := GraphClient.CreateEventPayload(meeting.title, slot.start, slot.end, emails,
                                                Some(meeting.description), eventZone);
    assert forall i :: 0 <= i < |meeting.responseOrder| ==> emails[i] == meeting.responseOrder[i];
    ghost var expected := EventOf(meeting.State(), slot, eventZone);
    assert event.attendees.value == expected.attendees.value;
    return Scheduled(event);
  }

  /**
   * One status step. `informLocalize` converts times for the invitation cards,
   * `selectLocalize` for the selected slot, and `eventZone` is the zone the
   * event is booked in. Only a waiting meeting moves: a decline reschedules,
   * full agreement settles, anything else waits on.
   */
  method Advance(meeting: AutoScheduleMeeting, redirect: string,
                 informLocalize: string -> Option<string>, selectLocalize: string -> Option<string>,
                 eventZone: string, instant: string -> int, render: int -> string,
                 send: (string, MeetingUtils.CardPayload) -> TeamsClient.SendResponse)
    returns (o: Outcome)
    requires meeting.Valid() && meeting.TryInRange()
    modifies meeting
    ensures meeting.Valid() && meeting.TryInRange()
    ensures meeting.candidateTimes == old(meeting.candidateTimes)
    ensures !o.NoSuchMeeting? && !o.NoHostToken?
    ensures meeting.status == old(meeting.status) || (old(meeting.status) == Waiting && meeting.status in {Failed, Done})
    ensures old(meeting.status) != Done && meeting.status == Done ==>
              meeting.currentTry == old(meeting.currentTry) &&
              meeting.selectedTime == old(meeting.GetCandidateTime(selectLocalize))
    ensures o.Scheduled? ==> o.event.start.timeZone == eventZone && o.event.end.timeZone == eventZone
    ensures old(meeting.status) != Waiting ==> o == Unchanged && unchanged(meeting)
    ensures old(meeting.status) == Waiting && !AllKnown(old(meeting.Values())) ==>
              o.UnknownStatus? && unchanged(meeting)
    ensures Stepped(old(meeting.State()), meeting.State(), o, meeting.uuid, redirect, informLocalize, selectLocalize,
                    eventZone, instant, render, send)
  {
    if meeting.status != Waiting {
      return Unchanged;
    }
    var summary := meeting.GetResponseSummary();
    if summary.Err? {
      return UnknownStatus(summary.error);
    }
    var tally := summary.value;
    if tally.declined > 0 {
      o := Reschedule(meeting, redirect, informLocalize, instant, render, send);
    } else if tally.pending == 0 {
      o := Settle(meeting, selectLocalize, eventZone);
    } else {
      o := Unchanged;
    }
  }

  /** The conversion `get_candidate_time(tz=timezone.utc)` performs: a zone object is no zone name, so it always fails. */
  function UtcObjectLocalize(iso: string): (r: Option<string>)
    ensures r.None?
  {
    None
  }

  /**
   * `process_meeting_status(meeting_uuid)`: `found` is the meeting stored
   * under the uuid, and an unknown uuid is ignored; the host's stored token
   * must exist; then one status step, with the cards in Taipei time, the
   * selected slot taken raw (its UTC conversion always falls back) and the
   * event booked in UTC, sent as the host.
   */
  method ProcessMeetingStatus(found: Option<AutoScheduleMeeting>, hostUser: string -> Option<string>,
                              redirect: string, taipei: string -> Option<string>,
                              instant: string -> int, render: int -> string,
                              sendAs: string -> ((string, MeetingUtils.CardPayload) -> TeamsClient.SendResponse))
    returns (o: Outcome)
    requires found.Some? ==> found.value.Valid() && found.value.TryInRange()
    modifies if found.Some? then {found.value} else {}
    ensures found.None? ==> o == NoSuchMeeting
    ensures found.Some? ==>
              var m := found.value;
              && (hostUser(old(m.hostEmail)).None? ==> o == NoHostToken && unchanged(m))
              && (hostUser(old(m.hostEmail)).Some? ==>
                    Stepped(old(m.State()), m.State(), o, m.uuid, redirect, taipei, UtcObjectLocalize, "UTC",
                            instant, render, sendAs(hostUser(old(m.hostEmail)).value)))
              && m.Valid() && m.TryInRange()
              && (old(m.status) == m.status || (old(m.status) == Waiting && m.status in {Failed, Done}))
              && (old(m.status) != Done && m.status == Done ==>
                    m.currentTry == old(m.currentTry) &&
                    m.selectedTime == if m.candidateTimes == [] then None else Some(m.candidateTimes[m.currentTry]))
              && (o.Scheduled? ==> o.event.start.timeZone == "UTC" && o.event.end.timeZone == "UTC")
  {
    if found.None? {
      return NoSuchMeeting;
    }
    var meeting := found.value;
    var host := hostUser(meeting.hostEmail);
    if host.None? {
      return NoHostToken;
    }
    o := Advance(meeting, redirect, taipei, UtcObjectLocalize, "UTC", instant, render, sendAs(host.value));
  }
}
