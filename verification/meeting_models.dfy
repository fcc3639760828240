/**
 * `AutoScheduleMeeting` (automation/meetings/models.py): one scheduling attempt
 * with its ordered candidate slots, the index of the slot being tried, a status,
 * and the attendees' answers.
 *
 * The answers are a JSON object from email to record; Python dicts keep
 * insertion order, so the model keeps the keys in `responseOrder` beside the
 * map `responses`. Clock readings (`datetime.now().isoformat()`) are passed in
 * as text.
 */
module MeetingModels {
  import opened Wrappers
  import GraphClient

  /** `STATUS_CHOICES`. */
  datatype MeetingStatus = Pending | Waiting | Done | Failed

  /**
   * An attendee's status. The webhook stores whatever `response` text it is
   * given, so beside the four `RESPONSE_CHOICES` a status can be any other
   * text, kept in `Unlisted`.
   */
  datatype Reply = Pending | Accepted | Declined | Tentative | Unlisted(text: string)

  /** The stored text of a status. */
  function ReplyText(r: Reply): string {
    match r
    case Pending => "pending"
    case Accepted => "accepted"
    case Declined => "declined"
    case Tentative => "tentative"
    case Unlisted(text) => text
  }

  /** Reads a stored status text. */
  function ReplyOf(s: string): (r: Reply)
    ensures r.Unlisted? <==> s != "pending" && s != "accepted" && s != "declined" && s != "tentative"
  {
    if s == "pending" then Reply.Pending
    else if s == "accepted" then Accepted
    else if s == "declined" then Declined
    else if s == "tentative" then Tentative
    else Unlisted(s)
  }

  /** Reading a status back gives the text that was stored. */
  lemma ReplyRoundTrip(s: string)
    ensures ReplyText(ReplyOf(s)) == s
  {
  }

  /** Only the four `RESPONSE_CHOICES` have a counter. */
  predicate Known(r: Reply) {
    !r.Unlisted?
  }

  /** Every answer carries one of the four statuses the summary counts. */
  predicate AllKnown(vs: seq<AttendeeResponse>) {
    forall i :: 0 <= i < |vs| ==> Known(vs[i].status)
  }

  /** Answer `i` is the first whose status is not one of the four. */
  predicate FirstUnknown(vs: seq<AttendeeResponse>, i: int) {
    0 <= i < |vs| && !Known(vs[i].status) && forall j :: 0 <= j < i ==> Known(vs[j].status)
  }

  /** One element of `attendees_data`: an email with its looked-up ids. */
  datatype AttendeeData = AttendeeData(email: string, userId: Option<string>, chatId: Option<string>)

  /** The record kept per attendee email. */
  datatype AttendeeResponse = AttendeeResponse(
    status: Reply, responseTime: Option<string>, userId: Option<string>, chatId: Option<string>)

  /** The four counters of a response summary. */
  datatype Tally = Tally(pending: nat, accepted: nat, declined: nat, tentative: nat) {
    function Total(): nat {
      pending + accepted + declined + tentative
    }
  }

  predicate Distinct<T(==)>(s: seq<T>) {
    forall i, j :: 0 <= i < j < |s| ==> s[i] != s[j]
  }

  function Emails(data: seq<AttendeeData>): (emails: seq<string>)
    ensures |emails| == |data|
    ensures forall i :: 0 <= i < |data| ==> emails[i] == data[i].email
  {
    seq(|data|, i requires 0 <= i < |data| => data[i].email)
  }

  /**
   * The key order of a dict filled by assigning `keys` one after another:
   * each key where it first occurs, later repeats dropped.
   */
  function FirstOccurrences(keys: seq<string>): (order: seq<string>)
    ensures Distinct(order)
    ensures forall e :: e in order <==> e in keys
    ensures |order| <= |keys|
  {
    if keys == [] then []
    else
      var order := FirstOccurrences(keys[..|keys| - 1]);
      if keys[|keys| - 1] in order then order else order + [keys[|keys| - 1]]
  }

  lemma {:induction false} DistinctSize<T>(s: seq<T>)
    requires Distinct(s)
    ensures |set e | e in s| == |s|
  {
    if s != [] {
      var init := s[..|s| - 1];
      DistinctSize(init);
      assert (set e | e in s) == (set e | e in init) + {s[|s| - 1]};
    }
  }

  /** The answers in dict order. */
  function ValuesOf(order: seq<string>, responses: map<string, AttendeeResponse>): (vs: seq<AttendeeResponse>)
    requires forall e :: e in order ==> e in responses
    ensures |vs| == |order|
    ensures forall i :: 0 <= i < |order| ==> vs[i] == responses[order[i]]
  {
    seq(|order|, i requires 0 <= i < |order| => responses[order[i]])
  }

  /** How many of the answers have status `s`. */
  function Count(rs: seq<AttendeeResponse>, s: Reply): (n: nat)
    ensures n <= |rs|
  {
    if rs == [] then 0 else Count(rs[..|rs| - 1], s) + (if rs[|rs| - 1].status == s then 1 else 0)
  }

  /** The summary the counters describe once every status is one of the four. */
  function TallyOf(rs: seq<AttendeeResponse>): Tally {
    Tally(Count(rs, Reply.Pending), Count(rs, Accepted), Count(rs, Declined), Count(rs, Tentative))
  }

  /** The counters with one more answer of status `s` counted. */
  function Bump(t: Tally, s: Reply): Tally
    requires Known(s)
  {
    match s
    case Pending => t.(pending := t.pending + 1)
    case Accepted => t.(accepted := t.accepted + 1)
    case Declined => t.(declined := t.declined + 1)
    case Tentative => t.(tentative := t.tentative + 1)
  }

  lemma TallyStep(rs: seq<AttendeeResponse>, x: AttendeeResponse)
    requires Known(x.status)
    ensures TallyOf(rs + [x]) == Bump(TallyOf(rs), x.status)
  {
    assert (rs + [x])[..|rs|] == rs;
  }

  /** With only the four statuses present, the counters add up to the number of answers. */
  lemma {:induction false} TallyTotal(rs: seq<AttendeeResponse>)
    requires forall i :: 0 <= i < |rs| ==> Known(rs[i].status)
    ensures TallyOf(rs).Total() == |rs|
  {
    if rs != [] {
      TallyTotal(rs[..|rs| - 1]);
    }
  }

  /** The answers whose `user_id` is `userId`, in order. */
  function OfUser(rs: seq<AttendeeResponse>, userId: Option<string>): (sub: seq<AttendeeResponse>)
    ensures |sub| <= |rs|
  {
    if rs == [] then []
    else OfUser(rs[..|rs| - 1], userId) + (if rs[|rs| - 1].userId == userId then [rs[|rs| - 1]] else [])
  }

  lemma {:induction false} OfUserEmpty(rs: seq<AttendeeResponse>, userId: Option<string>)
    requires forall i :: 0 <= i < |rs| ==> rs[i].userId != userId
    ensures OfUser(rs, userId) == []
  {
    if rs != [] {
      OfUserEmpty(rs[..|rs| - 1], userId);
    }
  }

  /** The `user_id` values met among the answers. */
  function UserIds(rs: seq<AttendeeResponse>): set<Option<string>> {
    set i | 0 <= i < |rs| :: rs[i].userId
  }

  lemma UserIdsStep(rs: seq<AttendeeResponse>, x: AttendeeResponse)
    ensures UserIds(rs + [x]) == UserIds(rs) + {x.userId}
  {
    var ext := rs + [x];
    assert forall i :: 0 <= i < |rs| ==> ext[i] == rs[i];
    assert ext[|rs|] == x;
  }

  /** Counting the answers so far one more at a time. */
  lemma OfUserStep(rs: seq<AttendeeResponse>, x: AttendeeResponse, userId: Option<string>)
    ensures x.userId == userId ==> OfUser(rs + [x], userId) == OfUser(rs, userId) + [x]
    ensures x.userId != userId ==> OfUser(rs + [x], userId) == OfUser(rs, userId)
  {
    assert (rs + [x])[..|rs|] == rs;
    assert OfUser(rs, userId) + [] == OfUser(rs, userId);
  }

  /** `summary` holds, per user id met in `rs`, the counters of that user's answers. */
  ghost predicate Summarizes(summary: map<Option<string>, Tally>, rs: seq<AttendeeResponse>) {
    && summary.Keys == UserIds(rs)
    && forall u :: u in summary ==> summary[u] == TallyOf(OfUser(rs, u))
  }

  /** Counting one more answer under its user id keeps `Summarizes`. */
  lemma SummarizesStep(summary: map<Option<string>, Tally>, rs: seq<AttendeeResponse>, x: AttendeeResponse,
                       summary': map<Option<string>, Tally>)
    requires Summarizes(summary, rs) && Known(x.status)
    requires summary' == summary[x.userId := Bump(if x.userId in summary then summary[x.userId] else Tally(0, 0, 0, 0),
                                                   x.status)]
    ensures Summarizes(summary', rs + [x])
  {
    var u := x.userId;
    UserIdsStep(rs, x);
    if u !in summary {
      OfUserEmpty(rs, u);
    }
    OfUserStep(rs, x, u);
    TallyStep(OfUser(rs, u), x);
    forall v | v in summary'
      ensures summary'[v] == TallyOf(OfUser(rs + [x], v))
    {
      if v != u {
        OfUserStep(rs, x, v);
      }
    }
  }

  /** The emails in `order` whose record carries `userId`, in order. */
  function SelectByUser(order: seq<string>, responses: map<string, AttendeeResponse>, userId: Option<string>)
    : (emails: seq<string>)
    ensures forall e :: e in emails <==> e in order && e in responses && responses[e].userId == userId
    ensures Distinct(order) ==> Distinct(emails)
    ensures |emails| <= |order|
  {
    if order == [] then []
    else
      var rest := SelectByUser(order[1..], responses, userId);
      assert forall e :: e in order[1..] ==> e in order;
      if order[0] in responses && responses[order[0]].userId == userId then [order[0]] + rest else rest
  }

  /** The answer a meeting record keeps for a fresh attendee. */
  function Invited(a: AttendeeData): AttendeeResponse {
    AttendeeResponse(Reply.Pending, None, a.userId, a.chatId)
  }

  /** The answers `set_attendees` builds: each entry in turn writes a fresh answer under its email. */
  function Invitations(data: seq<AttendeeData>): (answers: map<string, AttendeeResponse>)
    ensures forall e :: e in answers <==> e in Emails(data)
  {
    if data == [] then map[]
    else
      assert Emails(data[..|data| - 1]) == Emails(data)[..|data| - 1];
      Invitations(data[..|data| - 1])[data[|data| - 1].email := Invited(data[|data| - 1])]
  }

  /** One assignment `responses[email] = ...`: a new email joins the key order, and its answer is set. */
  function AddEntry(order: seq<string>, answers: map<string, AttendeeResponse>, d: AttendeeData)
    : (seq<string>, map<string, AttendeeResponse>)
  {
    (if d.email in answers then order else order + [d.email], answers[d.email := Invited(d)])
  }

  /** Adding entry `i` to the dict of the first `i` entries gives the dict of the first `i + 1`. */
  lemma InvitationStep(data: seq<AttendeeData>, i: nat)
    requires i < |data|
    ensures AddEntry(FirstOccurrences(Emails(data[..i])), Invitations(data[..i]), data[i]) ==
              (FirstOccurrences(Emails(data[..i + 1])), Invitations(data[..i + 1]))
  {
    assert data[..i + 1][..i] == data[..i];
    assert Emails(data[..i + 1])[..i] == Emails(data[..i]);
  }

  /** The loop of `set_attendees`: fills the answers dict entry by entry. */
  method InviteAll(data: seq<AttendeeData>) returns (order: seq<string>, answers: map<string, AttendeeResponse>)
    ensures order == FirstOccurrences(Emails(data)) && answers == Invitations(data)
  {
    order := [];
    answers := map[];
    var i := 0;
    while i < |data|
      invariant 0 <= i <= |data|
      invariant (order, answers) == (FirstOccurrences(Emails(data[..i])), Invitations(data[..i]))
    {
      InvitationStep(data, i);
      var next := AddEntry(order, answers, data[i]);
      order, answers := next.0, next.1;
      i := i + 1;
    }
    assert data[..|data|] == data;
  }

  /** An email listed more than once keeps the ids of its last entry. */
  lemma {:induction false} InvitationsLastWins(data: seq<AttendeeData>, i: nat)
    requires i < |data|
    requires forall j :: i < j < |data| ==> data[j].email != data[i].email
    ensures Invitations(data)[data[i].email] == Invited(data[i])
  {
    if i < |data| - 1 {
      InvitationsLastWins(data[..|data| - 1], i);
    }
  }

  /** The loop of `get_user_summary` over the answers `vs` in dict order. */
  method SummarizeUsers(vs: seq<AttendeeResponse>) returns (r: Result<map<Option<string>, Tally>, string>)
    ensures r.Ok? <==> AllKnown(vs)
    ensures r.Ok? ==> r.value.Keys == UserIds(vs)
    ensures r.Ok? ==> forall u :: u in r.value ==> r.value[u] == TallyOf(OfUser(vs, u))
    ensures r.Err? ==> exists i :: FirstUnknown(vs, i) && r.error == ReplyText(vs[i].status)
  {
    var summary: map<Option<string>, Tally> := map[];
    var i := 0;
    while i < |vs|
      invariant 0 <= i <= |vs|
      invariant forall j :: 0 <= j < i ==> Known(vs[j].status)
      invariant Summarizes(summary, vs[..i])
    {
      var response := vs[i];
      var u := response.userId;
      if !Known(response.status) {
        return Err(ReplyText(response.status));
      }
      var t := Tally(0, 0, 0, 0);
      if u in summary {
        t := summary[u];
      }
      ghost var prev := summary;
      summary := summary[u := Bump(t, response.status)];
      SummarizesStep(prev, vs[..i], response, summary);
      assert vs[..i + 1] == vs[..i] + [response];
      i := i + 1;
    }
    assert vs[..i] == vs;
    return Ok(summary);
  }

  /** The answer after `try_next`: back to 'pending', ids kept. */
  function Reopened(r: AttendeeResponse): AttendeeResponse {
    r.(status := Reply.Pending, responseTime := None)
  }

  /** The stored fields of an `AutoScheduleMeeting`, as values. */
  datatype MeetingState = MeetingState(
    hostEmail: string, title: string, description: string, duration: int, timeZone: string,
    attendees: seq<string>, responseOrder: seq<string>, responses: map<string, AttendeeResponse>,
    candidateTimes: seq<GraphClient.Slot>, status: MeetingStatus, currentTry: int,
    selectedTime: Option<GraphClient.Slot>)

  /** The current candidate of `get_candidate_time`, on values: see AutoScheduleMeeting.GetCandidateTime. */
  function CandidateTime(candidates: seq<GraphClient.Slot>, currentTry: int, localize: string -> Option<string>)
    : Option<GraphClient.Slot>
  {
    if candidates == [] || currentTry < 0 || currentTry >= |candidates| then None
    else
      var raw := candidates[currentTry];
      match (localize(raw.start), localize(raw.end))
      case (Some(start), Some(end)) => Some(raw.(start := start, end := end))
      case _ => Some(raw)
  }

  class AutoScheduleMeeting {
    const uuid: string
    var hostEmail: string
    var title: string
    var description: string
    var duration: int
    var timeZone: string
    var attendees: seq<string>
    var responseOrder: seq<string>
    var responses: map<string, AttendeeResponse>
    var candidateTimes: seq<GraphClient.Slot>
    var status: MeetingStatus
    var currentTry: int
    var selectedTime: Option<GraphClient.Slot>

    /** The key order and the map describe the same dict. */
    ghost predicate Valid()
      reads this
    {
      && Distinct(responseOrder)
      && forall e :: e in responseOrder <==> e in responses
    }

    /** `current_try` names a candidate whenever there is one. */
    ghost predicate TryInRange()
      reads this
    {
      0 <= currentTry && (currentTry < |candidateTimes| || currentTry == 0)
    }

    /** A new record: status 'pending', `current_try` 0, no answers, no selected time. */
    constructor (uuid: string, hostEmail: string, title: string, description: string, duration: int,
                 timeZone: string, candidateTimes: seq<GraphClient.Slot>)
      ensures Valid() && TryInRange()
      ensures this.uuid == uuid && this.hostEmail == hostEmail && this.title == title
      ensures this.description == description && this.duration == duration && this.timeZone == timeZone
      ensures this.candidateTimes == candidateTimes
      ensures attendees == [] && responseOrder == [] && responses == map[]
      ensures status == MeetingStatus.Pending && currentTry == 0 && selectedTime == None
    {
      this.uuid := uuid;
      this.hostEmail := hostEmail;
      this.title := title;
      this.description := description;
      this.duration := duration;
      this.timeZone := timeZone;
      this.candidateTimes := candidateTimes;
      attendees := [];
      responseOrder := [];
      responses := map[];
      status := MeetingStatus.Pending;
      currentTry := 0;
      selectedTime := None;
    }

    /** The stored fields as one value. */
    function State(): MeetingState
      reads this
    {
      MeetingState(hostEmail, title, description, duration, timeZone, attendees, responseOrder, responses,
                   candidateTimes, status, currentTry, selectedTime)
    }

    /** The answers in dict order. */
    function Values(): (vs: seq<AttendeeResponse>)
      requires Valid()
      reads this
      ensures |vs| == |responseOrder|
    {
      ValuesOf(responseOrder, responses)
    }

    /**
     * `set_attendees(attendees_data)`: the emails in input order become the
     * attendee list, and every email gets a fresh 'pending' answer carrying the
     * ids of its last entry; repeated emails keep their first position.
     */
    method SetAttendees(data: seq<AttendeeData>)
      modifies this
      ensures Valid()
      ensures attendees == Emails(data)
      ensures responseOrder == FirstOccurrences(Emails(data))
      ensures responses == Invitations(data)
      ensures candidateTimes == old(candidateTimes) && currentTry == old(currentTry) && status == old(status)
      ensures selectedTime == old(selectedTime) && hostEmail == old(hostEmail)
      ensures title == old(title) && description == old(description)
      ensures duration == old(duration) && timeZone == old(timeZone)
    {
      var order, answers := InviteAll(data);
      attendees := Emails(data);
      responseOrder := order;
      responses := answers;
    }

    /**
     * `update_attendee_response(email, status, user_id, chat_id)`: for a known
     * email, records the status and the time, and overwrites the ids only when
     * given; every other answer stays. An unknown email changes nothing.
     */
    method UpdateAttendeeResponse(email: string, newStatus: Reply, now: string,
                                  userId: Option<string>, chatId: Option<string>)
      requires Valid()
      modifies this
      ensures Valid()
      ensures email !in old(responses) ==> responses == old(responses)
      ensures email in old(responses) ==>
                && responses.Keys == old(responses).Keys
                && responses[email].status == newStatus
                && responses[email].responseTime == Some(now)
                && responses[email].userId == (if userId.Some? then userId else old(responses)[email].userId)
                && responses[email].chatId == (if chatId.Some? then chatId else old(responses)[email].chatId)
                && forall e :: e in responses && e != email ==> responses[e] == old(responses)[e]
      ensures email in old(responses) ==> AttendeeStatus(email) == newStatus
      ensures responseOrder == old(responseOrder) && attendees == old(attendees)
      ensures candidateTimes == old(candidateTimes) && currentTry == old(currentTry) && status == old(status)
      ensures selectedTime == old(selectedTime) && hostEmail == old(hostEmail)
      ensures title == old(title) && description == old(description)
      ensures duration == old(duration) && timeZone == old(timeZone)
    {
      if email in responses {
        var r := responses[email];
        r := r.(status := newStatus, responseTime := Some(now));
        if userId.Some? {
          r := r.(userId := userId);
        }
        if chatId.Some? {
          r := r.(chatId := chatId);
        }
        responses := responses[email := r];
      }
    }

    /** `get_attendee_status(email)`: the stored status, 'pending' for an unknown email. */
    function AttendeeStatus(email: string): (s: Reply)
      reads this
      ensures email !in responses ==> s == Reply.Pending
      ensures email in responses ==> s == responses[email].status
    {
      if email in responses then responses[email].status else Reply.Pending
    }

    /** `get_attendees_by_user(user_id)`: the emails whose answer carries `userId`, in dict order. */
    function AttendeesByUser(userId: Option<string>): (emails: seq<string>)
      requires Valid()
      reads this
      ensures forall e :: e in emails <==> e in responses && responses[e].userId == userId
      ensures Distinct(emails)
    {
      SelectByUser(responseOrder, responses, userId)
    }

    /**
     * `get_response_summary()`: one counter per status over all answers; the
     * counters add up to the number of attendees. A status other than the four
     * makes the counter lookup fail at the first such answer, naming it.
     */
    method GetResponseSummary() returns (r: Result<Tally, string>)
      requires Valid()
      ensures r.Ok? <==> AllKnown(Values())
      ensures r.Ok? ==> r.value == TallyOf(Values()) && r.value.Total() == |responses|
      ensures r.Err? ==> exists i :: FirstUnknown(Values(), i) && r.error == ReplyText(Values()[i].status)
    {
      var vs := Values();
      var t := Tally(0, 0, 0, 0);
      var i := 0;
      while i < |vs|
        invariant 0 <= i <= |vs|
        invariant forall j :: 0 <= j < i ==> Known(vs[j].status)
        invariant t == TallyOf(vs[..i])
      {
        var s := vs[i].status;
        if !Known(s) {
          assert !Known(Values()[i].status);
          return Err(ReplyText(s));
        }
        assert vs[..i + 1] == vs[..i] + [vs[i]];
        TallyStep(vs[..i], vs[i]);
        t := Bump(t, s);
        i := i + 1;
      }
      assert vs[..i] == vs;
      TallyTotal(vs);
      DistinctSize(responseOrder);
      assert responses.Keys == set e | e in responseOrder;
      return Ok(t);
    }

    /**
     * `get_user_summary()`: per `user_id` met among the answers, the summary of
     * that user's answers; it fails like `get_response_summary` on an unknown status.
     */
    method GetUserSummary() returns (r: Result<map<Option<string>, Tally>, string>)
      requires Valid()
      ensures r.Ok? <==> AllKnown(Values())
      ensures r.Ok? ==> r.value.Keys == UserIds(Values())
      ensures r.Ok? ==> forall u :: u in r.value ==> r.value[u] == TallyOf(OfUser(Values(), u))
      ensures r.Err? ==> exists i :: FirstUnknown(Values(), i) && r.error == ReplyText(Values()[i].status)
    {
      r := SummarizeUsers(Values());
    }

    /**
     * `try_next()`: with no candidate after the current one the meeting fails
     * and the call raises (`ok` false), the index unchanged; otherwise the next
     * candidate becomes current and every answer is reopened.
     */
    method TryNext() returns (ok: bool)
      requires Valid()
      modifies this
      ensures Valid()
      ensures ok <==> old(currentTry) < |candidateTimes| - 1
      ensures !ok ==> status == Failed && currentTry == old(currentTry) && responses == old(responses)
      ensures ok ==> status == old(status) && currentTry == old(currentTry) + 1
      ensures ok ==> responses.Keys == old(responses).Keys &&
                     forall e :: e in responses ==> responses[e] == Reopened(old(responses)[e])
      ensures old(TryInRange()) ==> TryInRange()
      ensures responseOrder == old(responseOrder) && attendees == old(attendees)
      ensures candidateTimes == old(candidateTimes) && selectedTime == old(selectedTime)
      ensures hostEmail == old(hostEmail) && title == old(title) && description == old(description)
      ensures duration == old(duration) && timeZone == old(timeZone)
    {
      if currentTry >= |candidateTimes| - 1 {
        status := Failed;
        return false;
      }
      currentTry := currentTry + 1;
      var answers := responses;
      var i := 0;
      while i < |responseOrder|
        invariant 0 <= i <= |responseOrder|
        invariant answers.Keys == responses.Keys
        invariant forall e :: e in answers ==>
                    answers[e] == if e in responseOrder[..i] then Reopened(responses[e]) else responses[e]
      {
        var email := responseOrder[i];
        assert responseOrder[..i + 1] == responseOrder[..i] + [email];
        assert email !in responseOrder[..i];
        answers := answers[email := Reopened(answers[email])];
        i := i + 1;
      }
      assert responseOrder[..i] == responseOrder;
      responses := answers;
      return true;
    }

    /**
     * The index logic of `get_candidate_time(tz)`: nothing without a current
     * candidate; otherwise the current candidate with start and end converted by
     * `localize` (ISO parse, zone shift, "%Y-%m-%d %H:%M"), or the raw candidate
     * when a conversion fails.
     */
    function GetCandidateTime(localize: string -> Option<string>): (r: Option<GraphClient.Slot>)
      reads this
      ensures r.None? <==> candidateTimes == [] || currentTry < 0 || currentTry >= |candidateTimes|
      ensures r.Some? ==>
                var raw := candidateTimes[currentTry];
                && r.value.confidence == raw.confidence
                && r.value.attendeeAvailability == raw.attendeeAvailability
                && (if localize(raw.start).Some? && localize(raw.end).Some?
                    then r.value.start == localize(raw.start).value && r.value.end == localize(raw.end).value
                    else r.value == raw)
    {
      CandidateTime(candidateTimes, currentTry, localize)
    }

    /** While the index stays in range, a current candidate exists exactly when there are candidates. */
    lemma CandidateAvailable(localize: string -> Option<string>)
      requires TryInRange()
      ensures GetCandidateTime(localize).None? <==> candidateTimes == []
    {
    }
  }
}
