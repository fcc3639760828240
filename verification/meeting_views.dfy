/**
 * The two web endpoints of the meeting negotiator: the webhook behind the
 * card buttons, which records an attendee's answer, and the status poll,
 * which runs the status step and reports the meeting with one row per
 * attendee.
 */
module MeetingViews {
  import opened Wrappers
  import opened Text
  import GraphClient
  import TeamsClient
  import opened MeetingModels
  import MeetingUtils
  import MeetingTasks

  // ---------------------------------------------------------------------
  // Query strings
  // ---------------------------------------------------------------------

  /** The value of a hexadecimal digit, in either case. */
  function HexValue(c: char): (v: Option<nat>)
    ensures v.Some? ==> v.value < 16
  {
    if '0' <= c <= '9' then Some(c as int - '0' as int)
    else if 'a' <= c <= 'f' then Some(c as int - 'a' as int + 10)
    else if 'A' <= c <= 'F' then Some(c as int - 'A' as int + 10)
    else None
  }

  /**
   * How `request.GET` decodes a name or a value: '+' is a space, and `%XY`
   * with two hexadecimal digits is the character of that code; any other
   * '%' stays as it is. Only escapes of ASCII bytes (below `%80`) are decoded.
   */
  function Unquote(s: string): (r: string)
    ensures |r| <= |s|
    ensures s != [] ==> r != []
    ensures '%' !in s && '+' !in s ==> r == s
  {
    if s == [] then []
    else if s[0] == '+' then [' '] + Unquote(s[1..])
    else if s[0] == '%' && |s| >= 3 && HexValue(s[1]).Some? && HexValue(s[2]).Some? && HexValue(s[1]).value < 8 then
      [(16 * HexValue(s[1]).value + HexValue(s[2]).value) as char] + Unquote(s[3..])
    else
      assert s == [s[0]] + s[1..];
      [s[0]] + Unquote(s[1..])
  }

  /** One `name=value` piece: split at the first '=', both sides decoded; a piece without '=' has an empty value. */
  function Param(piece: string): (kv: (string, string))
    ensures '=' !in piece ==> kv == (Unquote(piece), "")
  {
    var nv := SplitFirst(piece, '=');
    (Unquote(nv.0), Unquote(nv.1))
  }

  /** The parameters of the pieces in order: empty pieces are skipped and a repeated name keeps its last value. */
  function ParamsOf(pieces: seq<string>): (q: map<string, string>)
    ensures forall i :: 0 <= i < |pieces| && pieces[i] != "" ==> Param(pieces[i]).0 in q
  {
    if pieces == [] then map[]
    else
      var last := pieces[|pieces| - 1];
      var q := ParamsOf(pieces[..|pieces| - 1]);
      if last == "" then q else q[Param(last).0 := Param(last).1]
  }

  /**
   * The parameters Django reads from a followed link: the browser drops any
   * `#` fragment, and the text after the first '?' is split at '&'.
   */
  function Query(url: string): map<string, string> {
    ParamsOf(Split(SplitFirst(SplitFirst(url, '#').0, '?').1, '&'))
  }

  /** The value of the last non-empty piece named `name` is the one the parameters keep. */
  lemma {:induction false} ParamsLastWins(pieces: seq<string>, i: nat)
    requires i < |pieces| && pieces[i] != ""
    requires forall j :: i < j < |pieces| && pieces[j] != "" ==> Param(pieces[j]).0 != Param(pieces[i]).0
    ensures ParamsOf(pieces)[Param(pieces[i]).0] == Param(pieces[i]).1
  {
    if i < |pieces| - 1 {
      ParamsLastWins(pieces[..|pieces| - 1], i);
    }
  }

  /** The parameters of a root without '?' followed by '?' and '&'-joined pieces are those of the pieces. */
  lemma QueryOfJoined(baseUrl: string, parts: seq<string>)
    requires '?' !in baseUrl && '#' !in baseUrl
    requires |parts| >= 1 && forall i :: 0 <= i < |parts| ==> '&' !in parts[i] && '#' !in parts[i]
    ensures Query(baseUrl + "?" + Join(parts, "&")) == ParamsOf(parts)
  {
    var joined := Join(parts, "&");
    JoinAvoids(parts, "&", '#');
    assert baseUrl + "?" + joined == baseUrl + ['?'] + joined;
    assert '#' !in baseUrl + "?" + joined;
    SplitFirstAt(baseUrl, joined, '?');
    assert "&" == ['&'];
    SplitJoin(parts, '&');
  }

  /** Three non-empty pieces give their three parameters, a later name overriding an earlier one. */
  lemma ParamsOfThree(a: string, b: string, c: string, pa: (string, string), pb: (string, string), pc: (string, string))
    requires a != "" && b != "" && c != ""
    requires Param(a) == pa && Param(b) == pb && Param(c) == pc
    ensures ParamsOf([a, b, c]) == map[][pa.0 := pa.1][pb.0 := pb.1][pc.0 := pc.1]
  {
    var pieces := [a, b, c];
    assert [a][..0] == [];
    assert ParamsOf([a]) == map[][Param(a).0 := Param(a).1];
    assert [a, b][..1] == [a];
    assert ParamsOf([a, b]) == ParamsOf([a])[Param(b).0 := Param(b).1];
    assert pieces[..2] == [a, b];
  }

  /** `name=value` with a name free of '=' is the parameter `name` with value `value`, both decoded. */
  lemma ParamAt(name: string, value: string)
    requires '=' !in name
    ensures Param(name + "=" + value) == (Unquote(name), Unquote(value))
  {
    assert name + "=" + value == name + ['='] + value;
    SplitFirstAt(name, value, '=');
  }

  /** A parameter name that needs no escaping and holds no separator. */
  predicate Plain(name: string) {
    '=' !in name && '%' !in name && '+' !in name && '&' !in name && '#' !in name
  }

  /** The keys of a card link are its three plain names, each followed by '='. */
  lemma LinkKeysPlain()
    ensures "userId="[..6] == "userId" && "uuid="[..4] == "uuid" && "response="[..8] == "response"
    ensures Plain("userId") && Plain("uuid") && Plain("response")
  {
  }

  /** A piece `name=value` with a plain name is that name with the decoded value, and is free of '&' and '#' when the value is. */
  lemma LinkPiece(key: string, value: string)
    requires |key| >= 1 && key[|key| - 1] == '=' && Plain(key[..|key| - 1])
    ensures Param(key + value) == (key[..|key| - 1], Unquote(value))
    ensures '&' !in value && '#' !in value ==> '&' !in key + value && '#' !in key + value
  {
    var name := key[..|key| - 1];
    assert key == name + "=";
    assert key + value == name + "=" + value;
    ParamAt(name, value);
  }

  /** The parameters of a card link, looked up by name. */
  lemma LinkParams(userId: string, uuid: string, response: string)
    ensures var q := map[]["userId" := userId]["uuid" := uuid]["response" := response];
            && q.Keys == {"userId", "uuid", "response"}
            && q["userId"] == userId && q["uuid"] == uuid && q["response"] == response
  {
    assert |"userId"| == 6 && |"uuid"| == 4 && |"response"| == 8;
  }

  /** A card link's query is its three pieces. */
  lemma CardLinkPieces(baseUrl: string, userId: string, uuid: string, response: string)
    requires '?' !in baseUrl && '#' !in baseUrl
    requires '&' !in userId && '&' !in uuid && '&' !in response
    requires '#' !in userId && '#' !in uuid && '#' !in response
    ensures Query(MeetingUtils.ResponseUrl(baseUrl, userId, uuid, response))
            == ParamsOf(["userId=" + userId, "uuid=" + uuid, "response=" + response])
  {
    LinkKeysPlain();
    LinkPiece("userId=", userId);
    LinkPiece("uuid=", uuid);
    LinkPiece("response=", response);
    QueryOfJoined(baseUrl, ["userId=" + userId, "uuid=" + uuid, "response=" + response]);
  }

  /** The parameters of a card link, as a map. */
  lemma CardLinkQuery(baseUrl: string, userId: string, uuid: string, response: string)
    requires '?' !in baseUrl && '#' !in baseUrl
    requires '&' !in userId && '&' !in uuid && '&' !in response
    requires '#' !in userId && '#' !in uuid && '#' !in response
    ensures Query(MeetingUtils.ResponseUrl(baseUrl, userId, uuid, response))
            == map[]["userId" := Unquote(userId)]["uuid" := Unquote(uuid)]["response" := Unquote(response)]
  {
    var a, b, c := "userId=" + userId, "uuid=" + uuid, "response=" + response;
    CardLinkPieces(baseUrl, userId, uuid, response);
    LinkKeysPlain();
    LinkPiece("userId=", userId);
    LinkPiece("uuid=", uuid);
    LinkPiece("response=", response);
    ParamsOfThree(a, b, c, ("userId", Unquote(userId)), ("uuid", Unquote(uuid)), ("response", Unquote(response)));
  }

  /**
   * The link behind a card button parses back to the user id, the meeting
   * uuid and the answer it was built from, each decoded, provided the root
   * has no '?' or '#' and no value contains '&' or '#'. A value without '%'
   * or '+', as Graph ids and uuids are, reads back unchanged.
   */
  lemma CardLinkParses(baseUrl: string, userId: string, uuid: string, response: string)
    requires '?' !in baseUrl && '#' !in baseUrl
    requires '&' !in userId && '&' !in uuid && '&' !in response
    requires '#' !in userId && '#' !in uuid && '#' !in response
    ensures var q := Query(MeetingUtils.ResponseUrl(baseUrl, userId, uuid, response));
            && q.Keys == {"userId", "uuid", "response"}
            && q["userId"] == Unquote(userId) && q["uuid"] == Unquote(uuid) && q["response"] == Unquote(response)
            && ('%' !in userId && '+' !in userId ==> q["userId"] == userId)
            && ('%' !in uuid && '+' !in uuid ==> q["uuid"] == uuid)
  {
    CardLinkQuery(baseUrl, userId, uuid, response);
    LinkParams(Unquote(userId), Unquote(uuid), Unquote(response));
  }

  /** How the fixed texts of the card links below decode. */
  lemma LiteralsDecode()
    ensures Unquote("accepted") == "accepted" && Unquote("a+b") == "a b"
  {
  }

  /** A '+' in a user id comes back as a space: the link does not escape it, and the reader decodes it. */
  lemma PlusInUserIdReadsAsSpace(baseUrl: string, uuid: string)
    requires '?' !in baseUrl && '#' !in baseUrl && '&' !in uuid && '#' !in uuid
    ensures var q := Query(MeetingUtils.ResponseUrl(baseUrl, "a+b", uuid, "accepted"));
            "userId" in q && q["userId"] == "a b"
  {
    CardLinkQuery(baseUrl, "a+b", uuid, "accepted");
    LiteralsDecode();
  }

  // ---------------------------------------------------------------------
  // The answer webhook
  // ---------------------------------------------------------------------

  const MissingParameters := "Missing parameters"
  const InvalidUuid := "Invalid meeting UUID"
  const AttendeeNotFound := "Attendee not found for tenant"

  /** A query parameter that is given and not empty. */
  predicate Present(query: map<string, string>, name: string) {
    name in query && query[name] != ""
  }

  /** The first email in `order` whose answer carries `userId`. */
  function FirstWithUser(order: seq<string>, responses: map<string, AttendeeResponse>, userId: Option<string>)
    : (e: Option<string>)
    ensures e.Some? ==> e.value in order && e.value in responses && responses[e.value].userId == userId
    ensures e.None? <==> forall k :: 0 <= k < |order| ==> order[k] !in responses || responses[order[k]].userId != userId
  {
    if order == [] then None
    else if order[0] in responses && responses[order[0]].userId == userId then Some(order[0])
    else
      var rest := FirstWithUser(order[1..], responses, userId);
      assert forall k :: 1 <= k < |order| ==> order[k] == order[1..][k - 1];
      rest
  }

  /** The webhook picks the first of the attendees `get_attendees_by_user` lists. */
  lemma {:induction false} FirstWithUserSelects(order: seq<string>, responses: map<string, AttendeeResponse>,
                                                userId: Option<string>)
    ensures var all := SelectByUser(order, responses, userId);
            FirstWithUser(order, responses, userId) == if all == [] then None else Some(all[0])
  {
    if order != [] {
      FirstWithUserSelects(order[1..], responses, userId);
    }
  }

  /** What the webhook answers: a 400 with a message, or the page confirming the recorded answer. */
  datatype WebhookReply = BadRequest(message: string) | Recorded(email: string, response: string)

  /**
   * `meeting_response(request)`: the three parameters must be given and not
   * empty; `found` is the meeting stored under the uuid parameter (None when
   * it is no UUID or names no meeting). The answer goes to the first attendee,
   * in answer order, whose user id is the given one; an empty email counts as
   * no match. The answer text is stored as given, with the current time.
   */
  method MeetingResponse(query: map<string, string>, found: Option<AutoScheduleMeeting>, now: string)
    returns (r: WebhookReply)
    requires found.Some? ==> found.value.Valid()
    modifies if found.Some? then {found.value} else {}
    ensures !(Present(query, "userId") && Present(query, "uuid") && Present(query, "response")) ==>
              r == BadRequest(MissingParameters)
    ensures Present(query, "userId") && Present(query, "uuid") && Present(query, "response") ==>
              && (found.None? ==> r == BadRequest(InvalidUuid))
              && (found.Some? ==>
                    var m := found.value;
                    var e := FirstWithUser(old(m.responseOrder), old(m.responses), Some(query["userId"]));
                    && (e.None? || e == Some("") ==> r == BadRequest(AttendeeNotFound))
                    && (e.Some? && e.value != "" ==>
                          && r == Recorded(e.value, query["response"])
                          && m.responses.Keys == old(m.responses).Keys
                          && m.AttendeeStatus(e.value) == ReplyOf(query["response"])
                          && m.responses[e.value].responseTime == Some(now)
                          && m.responses[e.value].userId == old(m.responses)[e.value].userId
                          && m.responses[e.value].chatId == old(m.responses)[e.value].chatId
                          && m.State() == old(m.State()).(responses := m.responses)
                          && forall o :: o in m.responses && o != e.value ==> m.responses[o] == old(m.responses)[o]))
    ensures found.Some? ==> found.value.Valid()
    ensures found.Some? && !r.Recorded? ==> unchanged(found.value)
  {
    if !(Present(query, "userId") && Present(query, "uuid") && Present(query, "response")) {
      return BadRequest(MissingParameters);
    }
    if found.None? {
      return BadRequest(InvalidUuid);
    }
    var meeting := found.value;
    var userId := Some(query["userId"]);
    var order := meeting.responseOrder;
    var responses := meeting.responses;
    var matched: Option<string> := None;
    var i := 0;
    while i < |order| && matched.None?
      invariant 0 <= i <= |order|
      invariant matched.None? ==> FirstWithUser(order, responses, userId) == FirstWithUser(order[i..], responses, userId)
      invariant matched.Some? ==> matched == FirstWithUser(order, responses, userId)
    {
      if order[i] in responses && responses[order[i]].userId == userId {
        matched := Some(order[i]);
      } else {
        assert order[i..][1..] == order[i + 1..];
      }
      i := i + 1;
    }
    if matched.None? || matched.value == "" {
      return BadRequest(AttendeeNotFound);
    }
    meeting.UpdateAttendeeResponse(matched.value, ReplyOf(query["response"]), now, None, None);
    return Recorded(matched.value, query["response"]);
  }

  /**
   * A card's accept link, followed to the webhook, records 'accepted' for
   * the first attendee carrying the card's user id: its parameters are the
   * user id, the meeting uuid and "accepted", and that text reads back as
   * the accepted status.
   */
  lemma AcceptLinkRecordsAcceptance(baseUrl: string, userId: string, uuid: string)
    requires '?' !in baseUrl && '#' !in baseUrl && '&' !in userId && '&' !in uuid && '#' !in userId && '#' !in uuid
    requires userId != "" && uuid != ""
    ensures var query := Query(MeetingUtils.ResponseUrl(baseUrl, userId, uuid, "accepted"));
            && Present(query, "userId") && Present(query, "uuid") && Present(query, "response")
            && query["userId"] == Unquote(userId) && query["uuid"] == Unquote(uuid)
            && ReplyOf(query["response"]) == Accepted
  {
    CardLinkParses(baseUrl, userId, uuid, "accepted");
    LiteralsDecode();
  }

  // ---------------------------------------------------------------------
  // The status poll
  // ---------------------------------------------------------------------

  /** The badge colour of an answer; a status outside the four is 'secondary'. */
  function ReplyClass(r: Reply): (c: string)
    ensures c == "secondary" <==> r.Unlisted?
    ensures c == "danger" <==> r.Declined?
  {
    match r
    case Pending => "warning"
    case Accepted => "success"
    case Declined => "danger"
    case Tentative => "info"
    case Unlisted(_) => "secondary"
  }

  /** The label of an answer; a status outside the four is '未知'. */
  function ReplyLabel(r: Reply): (l: string)
    ensures l == "未知" <==> r.Unlisted?
    ensures l == "Waiting for response" <==> r.Pending?
  {
    match r
    case Pending => "Waiting for response"
    case Accepted => "Accepted"
    case Declined => "Declined"
    case Tentative => "Tentative"
    case Unlisted(_) => "未知"
  }

  /** The message shown for a meeting status. */
  function StatusMessage(s: MeetingStatus): string {
    match s
    case Pending => "Initializng..."
    case Waiting => "Waiting..."
    case Done => "Meeting scheduled successfully!"
    case Failed => "Meeting scheduling failed"
  }

  /** The badge colour of a meeting status. */
  function StatusClass(s: MeetingStatus): string {
    match s
    case Pending => "info"
    case Waiting => "warning"
    case Done => "success"
    case Failed => "danger"
  }

  /** One attendee row of the status reply. */
  datatype StatusRow = StatusRow(email: string, status: string, statusClass: string, statusText: string,
                                 responseTime: Option<string>)

  function RowOf(email: string, answer: AttendeeResponse): StatusRow {
    StatusRow(email, ReplyText(answer.status), ReplyClass(answer.status), ReplyLabel(answer.status),
              answer.responseTime)
  }

  /** The attendee rows of the status reply, one per answer in dict order. */
  method StatusRows(order: seq<string>, responses: map<string, AttendeeResponse>) returns (rows: seq<StatusRow>)
    requires forall e :: e in order ==> e in responses
    ensures |rows| == |order|
    ensures forall i :: 0 <= i < |order| ==> rows[i] == RowOf(order[i], responses[order[i]])
  {
    rows := [];
    var i := 0;
    while i < |order|
      invariant 0 <= i <= |order|
      invariant |rows| == i
      invariant forall k :: 0 <= k < i ==> rows[k] == RowOf(order[k], responses[order[k]])
    {
      rows := rows + [RowOf(order[i], responses[order[i]])];
      i := i + 1;
    }
  }

  /** The JSON the poll returns: the meeting, a 404, or a 500 with the error text. */
  datatype StatusReply =
    | StatusJson(status: MeetingStatus, statusMessage: string, statusClass: string, attendees: seq<StatusRow>,
                 selectedTime: Option<GraphClient.Slot>)
    | NotFound
    | ServerError(error: string)

  /** The error text of a failed status step, as `str(e)` shows it. */
  function StepError(o: MeetingTasks.Outcome): string {
    match o
    case UnknownStatus(status) => "'" + status + "'"
    case _ => "'NoneType' object is not subscriptable"
  }

  /**
   * `meeting_status(request, meeting_uuid)`: a 404 for an unknown meeting;
   * otherwise one status step with everything in Taipei time and the event
   * booked in the meeting's own zone, then the meeting's status with its
   * message and colour, one row per attendee in answer order, and the
   * selected slot. A step that fails (an uncounted status, or no slot to
   * book) gives a 500, and so does a booking that Graph refuses: `book(e)` is
   * the error text of the `create_event` request for `e`, None when it is
   * accepted. The meeting is saved as done before the booking, so a refused
   * booking still leaves it done.
   */
  method MeetingStatusView(found: Option<AutoScheduleMeeting>, redirect: string, taipei: string -> Option<string>,
                           instant: string -> int, render: int -> string,
                           send: (string, MeetingUtils.CardPayload) -> TeamsClient.SendResponse,
                           book: GraphClient.NewEvent -> Option<string>)
    returns (r: StatusReply)
    requires found.Some? ==> found.value.Valid() && found.value.TryInRange()
    modifies if found.Some? then {found.value} else {}
    ensures found.None? <==> r == NotFound
    ensures found.Some? ==>
              var m := found.value;
              && m.Valid() && m.TryInRange()
              && (old(m.status) != Waiting ==> r.StatusJson? && unchanged(m))
              && (old(m.status) == Waiting && !MeetingModels.AllKnown(old(m.Values())) ==>
                    r.ServerError? && unchanged(m))
              && (exists o: MeetingTasks.Outcome ::
                    && MeetingTasks.Stepped(old(m.State()), m.State(), o, m.uuid, redirect, taipei, taipei,
                                            old(m.timeZone), instant, render, send)
                    && (r.ServerError? <==> o.UnknownStatus? || o.NoSelectedTime? || (o.Scheduled? && book(o.event).Some?))
                    && (o.Scheduled? && book(o.event).Some? ==> r == ServerError(book(o.event).value)))
              && (r.StatusJson? ==>
                    && r.status == m.status
                    && r.statusMessage == StatusMessage(m.status)
                    && r.statusClass == StatusClass(m.status)
                    && r.selectedTime == m.selectedTime
                    && |r.attendees| == |m.responseOrder|
                    && forall i :: 0 <= i < |m.responseOrder| ==>
                         r.attendees[i] == RowOf(m.responseOrder[i], m.responses[m.responseOrder[i]]))
  {
    if found.None? {
      return NotFound;
    }
    var meeting := found.value;
    var step := MeetingTasks.Advance(meeting, redirect, taipei, taipei, meeting.timeZone, instant, render, send);
    if step.UnknownStatus? || step.NoSelectedTime? {
      return ServerError(StepError(step));
    }
    if step.Scheduled? && book(step.event).Some? {
      return ServerError(book(step.event).value);
    }
    var rows := StatusRows(meeting.responseOrder, meeting.responses);
    return StatusJson(meeting.status, StatusMessage(meeting.status), StatusClass(meeting.status), rows,
                      meeting.selectedTime);
  }
}
