/**
 * Helpers of the meeting negotiator (automation/meetings/utils.py): binding
 * attendees to their Graph user and chat ids, the invitation card with its
 * accept and decline links, and sending that card to every attendee.
 *
 * Instants are whole minutes. Parsing a candidate's text into an instant
 * (`isoparse(...).astimezone()`) is the oracle `instant`, and
 * `strftime('%Y-%m-%d %H:%M')` is the oracle `render`.
 */
module MeetingUtils {
  import opened Wrappers
  import opened Text
  import GraphClient
  import TeamsClient
  import MeetingModels

  const EmptyAttendees: string := "Attendees list cannot be empty."
  const AttendeeDataError: string := "Error fetching attendee data: "

  /** How the Graph user lookup of one attendee can fail. */
  datatype LookupFailure = KeyMissing(key: string) | Raised(message: string)

  /** The `ValueError` text `get_attendee_data` raises for a failure. */
  function FailureMessage(f: LookupFailure): string {
    match f
    case KeyMissing(key) => "Missing expected key in response: '" + key + "'"
    case Raised(message) => AttendeeDataError + message
  }

  /**
   * The comprehension `[get_user_info_by_email(email).get('id') for email in attendees]`:
   * each attendee's user id in order (None when the answer has no id), or the
   * failure of the first lookup that fails.
   */
  function LookupUserIds(emails: seq<string>, lookup: string -> Result<Option<string>, LookupFailure>)
    : (r: Result<seq<Option<string>>, LookupFailure>)
    ensures r.Ok? <==> forall i :: 0 <= i < |emails| ==> lookup(emails[i]).Ok?
    ensures r.Ok? ==> |r.value| == |emails| && forall i :: 0 <= i < |emails| ==> lookup(emails[i]) == Ok(r.value[i])
    ensures r.Err? ==> exists i :: (0 <= i < |emails| && lookup(emails[i]) == Err(r.error) &&
                                    forall j :: 0 <= j < i ==> lookup(emails[j]).Ok?)
  {
    if emails == [] then Ok([])
    else
      match lookup(emails[0])
      case Err(f) => Err(f)
      case Ok(id) =>
        var rest := LookupUserIds(emails[1..], lookup);
        assert forall i :: 1 <= i < |emails| ==> emails[1..][i - 1] == emails[i];
        if rest.Err? then
          assert exists i :: (0 <= i < |emails| && lookup(emails[i]) == Err(rest.error) &&
                              forall j :: 0 <= j < i ==> lookup(emails[j]).Ok?) by {
            var i :| (0 <= i < |emails| - 1 && lookup(emails[1..][i]) == Err(rest.error) &&
                      forall j :: 0 <= j < i ==> lookup(emails[1..][j]).Ok?);
            assert lookup(emails[i + 1]) == Err(rest.error);
            forall j | 1 <= j < i + 1
              ensures lookup(emails[j]).Ok?
            {
              assert emails[1..][j - 1] == emails[j];
            }
          }
          Err(rest.error)
        else
          Ok([id] + rest.value)
  }

  /**
   * `get_attendee_data(graph_client, attendees)`: an error for an empty list;
   * otherwise entry i binds attendees[i] to its user id and to the first
   * one-on-one chat with that user. Every failure of the lookups or of
   * `get_chat_ids`, a failing members request included, becomes one error
   * text.
   */
  method GetAttendeeData(attendees: seq<string>, lookup: string -> Result<Option<string>, LookupFailure>,
                         allChats: Result<seq<GraphClient.Chat>, string>)
    returns (r: Result<seq<MeetingModels.AttendeeData>, string>)
    ensures attendees == [] ==> r == Err(EmptyAttendees)
    ensures attendees != [] && LookupUserIds(attendees, lookup).Err? ==>
              r == Err(FailureMessage(LookupUserIds(attendees, lookup).error))
    ensures attendees != [] && LookupUserIds(attendees, lookup).Ok? && allChats.Err? ==>
              r == Err(AttendeeDataError + GraphClient.ChatIdsError + allChats.error)
    ensures attendees != [] && LookupUserIds(attendees, lookup).Ok? && allChats == Ok([]) ==>
              r == Err(AttendeeDataError + GraphClient.ChatIdsError + GraphClient.NoChats)
    ensures attendees != [] && LookupUserIds(attendees, lookup).Ok? && allChats.Ok? && allChats.value != [] &&
            GraphClient.ChatIdsOf(allChats.value, LookupUserIds(attendees, lookup).value).Err? ==>
              r == Err(AttendeeDataError + GraphClient.ChatIdsError +
                       GraphClient.ChatIdsOf(allChats.value, LookupUserIds(attendees, lookup).value).error)
    ensures r.Ok? <==> attendees != [] && LookupUserIds(attendees, lookup).Ok? && allChats.Ok? && allChats.value != [] &&
                       GraphClient.ChatIdsOf(allChats.value, LookupUserIds(attendees, lookup).value).Ok?
    ensures r.Ok? ==> |r.value| == |attendees|
    ensures r.Ok? ==>
              forall i :: 0 <= i < |attendees| ==>
                r.value[i] == MeetingModels.AttendeeData(
                                attendees[i], LookupUserIds(attendees, lookup).value[i],
                                GraphClient.FirstChatWith(allChats.value, LookupUserIds(attendees, lookup).value[i]).value)
  {
    if attendees == [] {
      return Err(EmptyAttendees);
    }
    var lookedUp := LookupUserIds(attendees, lookup);
    if lookedUp.Err? {
      return Err(FailureMessage(lookedUp.error));
    }
    var userIds := lookedUp.value;
    var chatIds := GraphClient.GetChatIds(userIds, allChats);
    if chatIds.Err? {
      var cause := if allChats.Err? then allChats.error
                   else if allChats.value == [] then GraphClient.NoChats
                   else GraphClient.ChatIdsOf(allChats.value, userIds).error;
      assert chatIds.error == GraphClient.ChatIdsError + cause;
      assert AttendeeDataError + (GraphClient.ChatIdsError + cause) == AttendeeDataError + GraphClient.ChatIdsError + cause;
      return Err(AttendeeDataError + chatIds.error);
    }
    var data := ZipAttendees(attendees, userIds, chatIds.value);
    return Ok(data);
  }

  /** The loop of `get_attendee_data`: each email with its user id and chat id. */
  method ZipAttendees(emails: seq<string>, userIds: seq<Option<string>>, chatIds: seq<Option<string>>)
    returns (data: seq<MeetingModels.AttendeeData>)
    requires |userIds| == |emails| && |chatIds| == |emails|
    ensures |data| == |emails|
    ensures forall i :: 0 <= i < |emails| ==> data[i] == MeetingModels.AttendeeData(emails[i], userIds[i], chatIds[i])
  {
    data := [];
    var i := 0;
    while i < |emails|
      invariant 0 <= i <= |emails| && |data| == i
      invariant forall j :: 0 <= j < i ==> data[j] == MeetingModels.AttendeeData(emails[j], userIds[j], chatIds[j])
    {
      data := data + [MeetingModels.AttendeeData(emails[i], userIds[i], chatIds[i])];
      i := i + 1;
    }
  }

  /** A text block of the adaptive card; an absent attribute is None. */
  datatype TextBlock = TextBlock(text: string, weight: Option<string>, size: Option<string>)

  /** An `Action.OpenUrl` button. */
  datatype OpenUrl = OpenUrl(title: string, url: string)

  /** The adaptive card, which the payload carries JSON-encoded. */
  datatype AdaptiveCard = AdaptiveCard(version: string, body: seq<TextBlock>, actions: seq<OpenUrl>)

  /** The attachment that holds the card. */
  datatype CardAttachment = CardAttachment(id: string, contentType: string, content: AdaptiveCard)

  /** The chat message that carries the card. */
  datatype CardPayload = CardPayload(body: GraphClient.ItemBody, attachments: seq<CardAttachment>)

  /** The offset `create_card_payload` adds to both times: eight hours. */
  const ShiftMinutes: int := 8 * 60

  const AttachmentTag: string := "<attachment id=\"1\"></attachment>"

  const DefaultContent: string :=
    "This message was sent automatically by the Microsoft Automation Tool. " + AttachmentTag

  /** Python's `str()` of an optional text: "None" for None. */
  function PyStr(o: Option<string>): string {
    if o.Some? then o.value else "None"
  }

  /** A truthy optional text: present and not empty. */
  predicate Truthy(o: Option<string>) {
    o.Some? && o.value != ""
  }

  /** The link behind a card button: the webhook with the user id, meeting uuid and answer as query parameters. */
  function ResponseUrl(baseUrl: string, userId: string, uuid: string, response: string): string {
    baseUrl + "?" + Join(["userId=" + userId, "uuid=" + uuid, "response=" + response], "&")
  }

  /**
   * `create_card_payload(...)`: a card naming the subject and the times moved
   * eight hours ahead, with an accept button and a decline button for this
   * user and meeting; the message body is the description, or a fixed
   * sentence when there is none, followed by the tag of attachment "1".
   */
  function CreateCardPayload(subject: string, start: int, end: int, userId: Option<string>, uuid: string,
                             baseUrl: string, desc: Option<string>, render: int -> string): (p: CardPayload)
    ensures |p.attachments| == 1 && p.attachments[0].id == "1"
    ensures p.attachments[0].contentType == "application/vnd.microsoft.card.adaptive"
    ensures p.body.contentType == "html"
    ensures Truthy(desc) ==> p.body.content == desc.value + AttachmentTag
    ensures !Truthy(desc) ==> p.body.content == DefaultContent
    ensures var card := p.attachments[0].content;
            && |card.body| == 2
            && card.body[1].text == "\U{1F552} 時間: " + render(start + ShiftMinutes) + " ~ " + render(end + ShiftMinutes)
            && |card.actions| == 2
            && card.actions[0].url == ResponseUrl(baseUrl, PyStr(userId), uuid, "accepted")
            && card.actions[1].url == ResponseUrl(baseUrl, PyStr(userId), uuid, "declined")
  {
    var shiftedStart := start + ShiftMinutes;
    var shiftedEnd := end + ShiftMinutes;
    var card := AdaptiveCard(
      "1.4",
      [ TextBlock("\U{1F4E2} 會議邀請: " + subject, Some("Bolder"), Some("Medium")),
        TextBlock("\U{1F552} 時間: " + render(shiftedStart) + " ~ " + render(shiftedEnd), None, None) ],
      [ OpenUrl("\U{2705} 參加", ResponseUrl(baseUrl, PyStr(userId), uuid, "accepted")),
        OpenUrl("\U{274C} 不參加", ResponseUrl(baseUrl, PyStr(userId), uuid, "declined")) ]);
    CardPayload(
      GraphClient.ItemBody("html", if Truthy(desc) then desc.value + AttachmentTag else DefaultContent),
      [CardAttachment("1", "application/vnd.microsoft.card.adaptive", card)])
  }

  /** The emails of `order`, in order, whose answer has a truthy chat id. */
  function WithChat(order: seq<string>, responses: map<string, MeetingModels.AttendeeResponse>): (emails: seq<string>)
    ensures |emails| <= |order|
  {
    if order == [] then []
    else
      var last := order[|order| - 1];
      var init := WithChat(order[..|order| - 1], responses);
      if last in responses && Truthy(responses[last].chatId) then init + [last] else init
  }

  /** `WithChat` keeps exactly the emails of `order` that have an answer with a truthy chat id. */
  lemma {:induction false} WithChatMembers(order: seq<string>, responses: map<string, MeetingModels.AttendeeResponse>)
    ensures forall e :: e in WithChat(order, responses) <==> e in order && e in responses && Truthy(responses[e].chatId)
  {
    if order != [] {
      var init := order[..|order| - 1];
      WithChatMembers(init, responses);
      assert order == init + [order[|order| - 1]];
    }
  }

  datatype Delivery = Delivery(email: string, chatId: string, payload: CardPayload, delivered: bool)

  /** The webhook root derived from the redirect setting. */
  function WebhookBase(redirect: string): string {
    ReplaceAll(redirect, "/callback", "") + "/meetings/webhook/response/"
  }

  /** What every card of one round shares: the meeting's title, uuid and description, the link root and the slot. */
  datatype Invitation = Invitation(title: string, uuid: string, description: string, baseUrl: string,
                                   slot: GraphClient.Slot)

  /** The card one attendee receives, and the outcome of sending it to their chat. */
  function DeliveryFor(inv: Invitation, email: string, answer: MeetingModels.AttendeeResponse,
                       instant: string -> int, render: int -> string,
                       send: (string, CardPayload) -> TeamsClient.SendResponse): (d: Delivery)
    requires answer.chatId.Some?
    ensures d.email == email && d.chatId == answer.chatId.value
    ensures d.delivered <==> send(d.chatId, d.payload).status < 300
  {
    var payload := CreateCardPayload(inv.title, instant(inv.slot.start), instant(inv.slot.end), answer.userId,
                                     inv.uuid, inv.baseUrl, Some(inv.description), render);
    Delivery(email, answer.chatId.value, payload,
             TeamsClient.SendMessageToChat(send(answer.chatId.value, payload)).Ok?)
  }

  /** The deliveries of one round over `order`: attendees without a truthy chat id are skipped. */
  function Deliveries(inv: Invitation, order: seq<string>, responses: map<string, MeetingModels.AttendeeResponse>,
                      instant: string -> int, render: int -> string,
                      send: (string, CardPayload) -> TeamsClient.SendResponse): (ds: seq<Delivery>)
    ensures |ds| == |WithChat(order, responses)|
  {
    if order == [] then []
    else
      var last := order[|order| - 1];
      var init := Deliveries(inv, order[..|order| - 1], responses, instant, render, send);
      if last in responses && Truthy(responses[last].chatId)
      then init + [DeliveryFor(inv, last, responses[last], instant, render, send)]
      else init
  }

  /** Delivery `k` of a round goes to the `k`-th attendee with a chat id, with the card built for that attendee. */
  lemma {:induction false} DeliveriesTargets(inv: Invitation, order: seq<string>,
                                             responses: map<string, MeetingModels.AttendeeResponse>,
                                             instant: string -> int, render: int -> string,
                                             send: (string, CardPayload) -> TeamsClient.SendResponse)
    ensures forall k :: 0 <= k < |WithChat(order, responses)| ==>
              && WithChat(order, responses)[k] in responses
              && Truthy(responses[WithChat(order, responses)[k]].chatId)
              && Deliveries(inv, order, responses, instant, render, send)[k] ==
                   DeliveryFor(inv, WithChat(order, responses)[k], responses[WithChat(order, responses)[k]],
                               instant, render, send)
  {
    if order != [] {
      var init := order[..|order| - 1];
      var last := order[|order| - 1];
      DeliveriesTargets(inv, init, responses, instant, render, send);
      var targets := WithChat(order, responses);
      var ds := Deliveries(inv, order, responses, instant, render, send);
      var ti := WithChat(init, responses);
      var di := Deliveries(inv, init, responses, instant, render, send);
      if last in responses && Truthy(responses[last].chatId) {
        assert targets == ti + [last];
        assert ds == di + [DeliveryFor(inv, last, responses[last], instant, render, send)];
        forall k | 0 <= k < |targets|
          ensures && targets[k] in responses && Truthy(responses[targets[k]].chatId)
                  && ds[k] == DeliveryFor(inv, targets[k], responses[targets[k]], instant, render, send)
        {
          if k < |ti| {
            assert targets[k] == ti[k] && ds[k] == di[k];
          }
        }
      } else {
        assert targets == ti;
        assert ds == di;
      }
    }
  }

  /**
   * `inform_attendees(teams_client, meeting)`: in answer order, one card to
   * each attendee with a chat id, built from the current candidate; attendees
   * without one are skipped, and a failed send does not stop the ones after it.
   * With no current candidate the first card cannot be built and the call fails.
   */
  method InformAttendees(meeting: MeetingModels.AutoScheduleMeeting, redirect: string,
                         localize: string -> Option<string>, instant: string -> int, render: int -> string,
                         send: (string, CardPayload) -> TeamsClient.SendResponse)
    returns (r: Result<seq<Delivery>, string>)
    ensures var targets := WithChat(meeting.responseOrder, meeting.responses);
            var slot := meeting.GetCandidateTime(localize);
            && (r.Err? <==> slot.None? && targets != [])
            && (r.Ok? ==> |r.value| == |targets|)
            && (r.Ok? && slot.Some? ==>
                  r.value == Deliveries(Invitation(meeting.title, meeting.uuid, meeting.description,
                                                   WebhookBase(redirect), slot.value),
                                        meeting.responseOrder, meeting.responses, instant, render, send))
  {
    var candidate := meeting.GetCandidateTime(localize);
    var card: Option<Invitation> := None;
    if candidate.Some? {
      card := Some(Invitation(meeting.title, meeting.uuid, meeting.description, WebhookBase(redirect),
                              candidate.value));
    }
    r := SendCards(card, meeting.responseOrder, meeting.responses, instant, render, send);
  }

  /**
   * The loop of `inform_attendees` over the answers in order; `card` is the
   * invitation, or None when the current candidate cannot be read.
   */
  method SendCards(card: Option<Invitation>, order: seq<string>,
                   responses: map<string, MeetingModels.AttendeeResponse>, instant: string -> int,
                   render: int -> string, send: (string, CardPayload) -> TeamsClient.SendResponse)
    returns (r: Result<seq<Delivery>, string>)
    ensures r.Err? <==> card.None? && WithChat(order, responses) != []
    ensures r.Ok? ==> |r.value| == |WithChat(order, responses)|
    ensures r.Ok? && card.Some? ==> r.value == Deliveries(card.value, order, responses, instant, render, send)
  {
    var deliveries: seq<Delivery> := [];
    var i := 0;
    while i < |order|
      invariant 0 <= i <= |order|
      invariant WithChat(order[..i], responses) == [] || card.Some?
      invariant card.Some? ==> deliveries == Deliveries(card.value, order[..i], responses, instant, render, send)
      invariant card.None? ==> deliveries == []
    {
      var email := order[i];
      assert order[..i + 1][..i] == order[..i];
      if email in responses && Truthy(responses[email].chatId) {
        if card.None? {
          WithChatMembers(order, responses);
          assert email in WithChat(order, responses);
          return Err("'NoneType' object is not subscriptable");
        }
        deliveries := deliveries + [DeliveryFor(card.value, email, responses[email], instant, render, send)];
      }
      i := i + 1;
    }
    assert order[..i] == order;
    return Ok(deliveries);
  }
}
