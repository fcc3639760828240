/**
 * automation/core/teams_client.py: paging through Graph collections, finding a
 * chat by its topic (with the client's chat-id cache), sending a message and
 * finding the first reply that quotes a given message.
 *
 * Each Graph request is an oracle parameter: `fetch` maps an endpoint to the
 * page the server returns for it, and the body of a sent message is reduced to
 * its status and id. HTML-to-text conversion is the oracle `htmlToText`.
 */
module TeamsClient {
  import opened Wrappers
  import opened Text
  import GraphClient

  /** A JSON member that is missing, null, or present. */
  datatype Field<T> = Absent | Null | Present(value: T)

  /** `from.user` of a chat message; a missing and a null `id` both read as None. */
  datatype Identity = Identity(id: Option<string>, displayName: Field<string>)

  /** `from` of a chat message; its `user` member may be missing, null or present. */
  datatype Sender = Sender(user: Field<Identity>)

  /** An attachment of a chat message; a quoted reply has content type "messageReference". */
  datatype Attachment = Attachment(contentType: Option<string>, id: Option<string>, content: Option<string>)

  /** A chat message as `me/chats/{id}/messages` returns it. */
  datatype ChatMessage = ChatMessage(
    id: Option<string>, sender: Field<Sender>, bodyContent: Option<string>,
    createdDateTime: Option<string>, attachments: seq<Attachment>)

  /** A chat with the two fields `get_chat_id_by_name` selects. */
  datatype ChatSummary = ChatSummary(id: Option<string>, topic: Option<string>)

  /** One page of a Graph collection: the status code, `value` and `@odata.nextLink`. */
  datatype Page<X> = Page(status: int, value: seq<X>, nextLink: Option<string>)

  /** A next link made relative: the base URL removed wherever it occurs, then leading '/' stripped. */
  function NextEndpoint(baseUrl: string, link: string): (ep: string)
    requires |baseUrl| > 0
    ensures ep == [] || ep[0] != '/'
  {
    LStripChar(ReplaceAll(link, baseUrl, ""), '/')
  }

  /** The endpoint the paging loop requests next, or "" when it stops. */
  function Follow(baseUrl: string, nextLink: Option<string>): string
    requires |baseUrl| > 0
  {
    if nextLink.Some? && nextLink.value != "" then NextEndpoint(baseUrl, nextLink.value) else ""
  }

  /** Replacing a pattern that does not occur changes nothing. */
  lemma {:induction false} ReplaceAbsent(s: string, pat: string, rep: string)
    requires |pat| > 0 && !Contains(s, pat)
    ensures ReplaceAll(s, pat, rep) == s
    decreases |s|
  {
    if |s| >= |pat| {
      ReplaceAbsent(s[1..], pat, rep);
      assert [s[0]] + s[1..] == s;
    }
  }

  /** A full link built from an endpoint is turned back into that endpoint. */
  lemma NextLinkRoundTrip(ep: string)
    requires !Contains(ep, GraphClient.GraphUrl) && (ep == [] || ep[0] != '/')
    ensures NextEndpoint(GraphClient.GraphUrl, GraphClient.GraphUrl + "/" + ep) == ep
  {
    NextLinkRoundTripAt(GraphClient.GraphUrl, ep);
  }

  /** The same for any base URL that does not start with '/'. */
  lemma NextLinkRoundTripAt(base: string, ep: string)
    requires |base| > 0 && base[0] != '/'
    requires !Contains(ep, base) && (ep == [] || ep[0] != '/')
    ensures NextEndpoint(base, base + "/" + ep) == ep
  {
    SlashFree(base, ep);
    ReplaceLeading(base, "/" + ep);
    StripSlash(ep);
    ConcatAssoc(base, "/", ep);
  }

  lemma ConcatAssoc(a: string, b: string, c: string)
    ensures a + b + c == a + (b + c)
  {
  }

  /** Stripping the leading '/' of "/" + ep gives ep back when ep does not start with '/'. */
  lemma StripSlash(ep: string)
    requires ep == [] || ep[0] != '/'
    ensures LStripChar("/" + ep, '/') == ep
  {
    assert ("/" + ep)[1..] == ep;
  }

  /** A base that does not start with '/' does not occur in "/" + ep when it does not occur in ep. */
  lemma SlashFree(base: string, ep: string)
    requires |base| > 0 && base[0] != '/' && !Contains(ep, base)
    ensures !Contains("/" + ep, base)
  {
    var tail := "/" + ep;
    assert tail[1..] == ep;
    if |tail| >= |base| {
      assert tail[..|base|][0] == '/';
    }
  }

  /** Removing the pattern from `pat + tail` leaves `tail` when the pattern does not occur in it. */
  lemma ReplaceLeading(pat: string, tail: string)
    requires |pat| > 0 && !Contains(tail, pat)
    ensures ReplaceAll(pat + tail, pat, "") == tail
  {
    var link := pat + tail;
    assert link[..|pat|] == pat;
    assert link[|pat|..] == tail;
    ReplaceAbsent(tail, pat, "");
  }

  /** Following next links from `endpoint` stops (an error page or no next link) within `n` further pages. */
  ghost predicate EndsWithin<X>(fetch: string -> Page<X>, baseUrl: string, endpoint: string, n: nat)
    requires |baseUrl| > 0
    decreases n
  {
    var page := fetch(endpoint);
    page.status != 200 || Follow(baseUrl, page.nextLink) == "" ||
    (n > 0 && EndsWithin(fetch, baseUrl, Follow(baseUrl, page.nextLink), n - 1))
  }

  /** The items of all pages from `endpoint` on, in page order, or the status of the first page that is not 200. */
  ghost function AllPages<X>(fetch: string -> Page<X>, baseUrl: string, endpoint: string, n: nat): Result<seq<X>, int>
    requires |baseUrl| > 0 && EndsWithin(fetch, baseUrl, endpoint, n)
    decreases n
  {
    var page := fetch(endpoint);
    if page.status != 200 then Err(page.status)
    else if Follow(baseUrl, page.nextLink) == "" then Ok(page.value)
    else
      EndsWithinNext(fetch, baseUrl, endpoint, n);
      Prepend(page.value, AllPages(fetch, baseUrl, Follow(baseUrl, page.nextLink), n - 1))
  }

  /** A search that ends within `n` pages and goes on past `endpoint` ends within `n - 1` pages from the next link. */
  lemma EndsWithinNext<X>(fetch: string -> Page<X>, baseUrl: string, endpoint: string, n: nat)
    requires |baseUrl| > 0 && EndsWithin(fetch, baseUrl, endpoint, n)
    requires fetch(endpoint).status == 200 && Follow(baseUrl, fetch(endpoint).nextLink) != ""
    ensures n > 0 && EndsWithin(fetch, baseUrl, Follow(baseUrl, fetch(endpoint).nextLink), n - 1)
  {
  }

  /** `items` in front of a successful result. */
  function Prepend<X>(items: seq<X>, r: Result<seq<X>, int>): (r': Result<seq<X>, int>)
    ensures r'.Ok? <==> r.Ok?
    ensures r.Ok? ==> r'.value == items + r.value
    ensures r.Err? ==> r' == r
  {
    match r
    case Ok(rest) => Ok(items + rest)
    case Err(status) => Err(status)
  }

  /** Prepending twice is prepending the concatenation. */
  lemma PrependTwice<X>(a: seq<X>, b: seq<X>, r: Result<seq<X>, int>)
    ensures Prepend(a, Prepend(b, r)) == Prepend(a + b, r)
    ensures Prepend([], r) == r
  {
    if r.Ok? {
      assert a + (b + r.value) == (a + b) + r.value;
      assert [] + r.value == r.value;
    }
  }

  /** The collected items do not depend on how generous the bound on the page count is. */
  lemma {:induction false} AllPagesBoundIrrelevant<X>(fetch: string -> Page<X>, baseUrl: string, endpoint: string,
                                                      m: nat, n: nat)
    requires |baseUrl| > 0 && EndsWithin(fetch, baseUrl, endpoint, m) && EndsWithin(fetch, baseUrl, endpoint, n)
    ensures AllPages(fetch, baseUrl, endpoint, m) == AllPages(fetch, baseUrl, endpoint, n)
    decreases m
  {
    var page := fetch(endpoint);
    if page.status == 200 && Follow(baseUrl, page.nextLink) != "" {
      AllPagesBoundIrrelevant(fetch, baseUrl, Follow(baseUrl, page.nextLink), m - 1, n - 1);
    }
  }

  /**
   * The paging loop of `get_chats` and `list_msg_in_chats`: request the
   * endpoint, stop with the status of a page that is not 200, add the page's
   * items, and go on with the relative form of `@odata.nextLink` while there is one.
   */
  method FetchAllPages<X>(fetch: string -> Page<X>, baseUrl: string, start: string, ghost n: nat)
    returns (r: Result<seq<X>, int>)
    requires |baseUrl| > 0 && start != "" && EndsWithin(fetch, baseUrl, start, n)
    ensures r == AllPages(fetch, baseUrl, start, n)
  {
    var items: seq<X> := [];
    var link := start;
    ghost var m := n;
    PrependTwice(items, items, AllPages(fetch, baseUrl, start, n));
    while link != ""
      invariant link != "" ==> EndsWithin(fetch, baseUrl, link, m) &&
                               AllPages(fetch, baseUrl, start, n) == Prepend(items, AllPages(fetch, baseUrl, link, m))
      invariant link == "" ==> AllPages(fetch, baseUrl, start, n) == Ok(items)
      decreases if link == "" then 0 else m + 1
    {
      var page := fetch(link);
      if page.status != 200 {
        return Err(page.status);
      }
      var next := Follow(baseUrl, page.nextLink);
      if next != "" {
        PrependTwice(items, page.value, AllPages(fetch, baseUrl, next, m - 1));
        m := m - 1;
      } else {
        assert AllPages(fetch, baseUrl, link, m) == Ok(page.value);
      }
      items := items + page.value;
      link := next;
    }
    return Ok(items);
  }

  /** The ways `get_chat_id_by_name` fails. */
  datatype LookupError = PageFailed(status: int) | ChatNotFound(name: string)

  /** The first chat of the list whose topic is `name`: Some of its id, or None when there is none. */
  function FirstTopic(chats: seq<ChatSummary>, name: string): (r: Option<Option<string>>)
    ensures r.None? <==> forall i :: 0 <= i < |chats| ==> chats[i].topic != Some(name)
    ensures r.Some? ==> exists i :: (0 <= i < |chats| && chats[i].topic == Some(name) && r.value == chats[i].id &&
                                     forall j :: 0 <= j < i ==> chats[j].topic != Some(name))
  {
    if chats == [] then None
    else if chats[0].topic == Some(name) then Some(chats[0].id)
    else
      var r := FirstTopic(chats[1..], name);
      assert forall j :: 0 < j < |chats| ==> chats[j] == chats[1..][j - 1];
      r
  }

  /** The topic search stops (an error page, a match, or no next link) within `n` further pages. */
  ghost predicate TopicSearchEnds(fetch: string -> Page<ChatSummary>, baseUrl: string, endpoint: string, name: string,
                                  n: nat)
    requires |baseUrl| > 0
    decreases n
  {
    var page := fetch(endpoint);
    page.status != 200 || FirstTopic(page.value, name).Some? || Follow(baseUrl, page.nextLink) == "" ||
    (n > 0 && TopicSearchEnds(fetch, baseUrl, Follow(baseUrl, page.nextLink), name, n - 1))
  }

  /** The id of the first chat, page by page, whose topic is `name`. */
  ghost function FindChatByTopic(fetch: string -> Page<ChatSummary>, baseUrl: string, endpoint: string, name: string,
                                 n: nat): Result<Option<string>, LookupError>
    requires |baseUrl| > 0 && TopicSearchEnds(fetch, baseUrl, endpoint, name, n)
    decreases n
  {
    var page := fetch(endpoint);
    if page.status != 200 then Err(PageFailed(page.status))
    else if FirstTopic(page.value, name).Some? then Ok(FirstTopic(page.value, name).value)
    else if Follow(baseUrl, page.nextLink) == "" then Err(ChatNotFound(name))
    else
      TopicSearchNext(fetch, baseUrl, endpoint, name, n);
      FindChatByTopic(fetch, baseUrl, Follow(baseUrl, page.nextLink), name, n - 1)
  }

  /** A topic search that ends within `n` pages and goes on past `endpoint` ends within `n - 1` pages from the next link. */
  lemma TopicSearchNext(fetch: string -> Page<ChatSummary>, baseUrl: string, endpoint: string, name: string, n: nat)
    requires |baseUrl| > 0 && TopicSearchEnds(fetch, baseUrl, endpoint, name, n)
    requires fetch(endpoint).status == 200 && FirstTopic(fetch(endpoint).value, name).None?
    requires Follow(baseUrl, fetch(endpoint).nextLink) != ""
    ensures n > 0 && TopicSearchEnds(fetch, baseUrl, Follow(baseUrl, fetch(endpoint).nextLink), name, n - 1)
  {
  }

  /** The response to posting a message: its status and the new message's id. */
  datatype SendResponse = SendResponse(status: int, id: string)

  /** `send_message_to_chat`: the message id, or the status when it is 300 or more. */
  function SendMessageToChat(response: SendResponse): (r: Result<string, int>)
    ensures r.Ok? <==> response.status < 300
    ensures r.Ok? ==> r.value == response.id
    ensures r.Err? ==> r.error == response.status
  {
    if response.status >= 300 then Err(response.status) else Ok(response.id)
  }

  /**
   * `message.get("from", {}).get("user", {}).get("id")`: None inside when the
   * author has no id; None outside when `from` or `from.user` is null, where
   * calling `.get` on None raises.
   */
  function AuthorId(m: ChatMessage): (r: Option<Option<string>>)
    ensures r.None? <==> m.sender.Null? || (m.sender.Present? && m.sender.value.user.Null?)
    ensures r.Some? && r.value.Some? <==>
              m.sender.Present? && m.sender.value.user.Present? && m.sender.value.user.value.id.Some?
    ensures r.Some? && r.value.Some? ==> r.value == m.sender.value.user.value.id
  {
    match m.sender
    case Absent => Some(None)
    case Null => None
    case Present(s) =>
      match s.user
      case Absent => Some(None)
      case Null => None
      case Present(u) => Some(u.id)
  }

  /** The first attachment quotes message `msgId`. */
  predicate QuotesMessage(m: ChatMessage, msgId: string)
    requires m.attachments != []
  {
    m.attachments[0].contentType == Some("messageReference") && m.attachments[0].id == Some(msgId)
  }

  /** What the search loop does with one message. */
  datatype Verdict = Skip | Hit | Raise

  /**
   * The test of `_search_message_reference` on one message: skipped without
   * attachments; with the wildcard user "" only the quote counts; otherwise the
   * author is read first (which raises for a null `from` or `from.user`) and
   * must equal `userId`.
   */
  function Examine(m: ChatMessage, userId: Option<string>, msgId: string): Verdict
  {
    if m.attachments == [] then Skip
    else if userId == Some("") then (if QuotesMessage(m, msgId) then Hit else Skip)
    else if AuthorId(m).None? then Raise
    else if AuthorId(m).value == userId && QuotesMessage(m, msgId) then Hit
    else Skip
  }

  /** A message matches exactly when it has attachments, its author fits and its first attachment quotes `msgId`. */
  lemma ExamineHit(m: ChatMessage, userId: Option<string>, msgId: string)
    ensures Examine(m, userId, msgId) == Hit <==>
      m.attachments != [] && (userId == Some("") || AuthorId(m) == Some(userId)) && QuotesMessage(m, msgId)
    ensures Examine(m, userId, msgId) == Raise <==>
      m.attachments != [] && userId != Some("") && AuthorId(m).None?
  {
  }

  /**
   * Only "" is a wildcard: a missing user id (None) matches only messages
   * whose author is readable and has no id, and a message with a null `from`
   * or `from.user` raises instead.
   */
  lemma NoneIsNotWildcard(m: ChatMessage, msgId: string)
    requires Examine(m, None, msgId) == Hit
    ensures AuthorId(m) == Some(None)
    ensures !m.sender.Null? && !(m.sender.Present? && m.sender.value.user.Null?)
  {
  }

  /** The error text of reading the author of a message whose `from` is null. */
  const NullSender := "'NoneType' object has no attribute 'get'"

  /** The outcome of the reply search, decided by the first message that is not skipped. */
  function Reference(messages: seq<ChatMessage>, userId: Option<string>, msgId: string,
                     htmlToText: string -> string): Result<Option<string>, string>
  {
    if messages == [] then Ok(None)
    else
      match Examine(messages[0], userId, msgId)
      case Skip => Reference(messages[1..], userId, msgId, htmlToText)
      case Hit => Ok(Some(htmlToText(messages[0].bodyContent.GetOr(""))))
      case Raise => Err(NullSender)
  }

  /** Message `i` is the first that is not skipped, and `v` is what it gives. */
  predicate Decides(messages: seq<ChatMessage>, userId: Option<string>, msgId: string, i: int, v: Verdict) {
    0 <= i < |messages| && Examine(messages[i], userId, msgId) == v &&
    forall j :: 0 <= j < i ==> Examine(messages[j], userId, msgId) == Skip
  }

  /**
   * The search finds nothing exactly when every message is skipped; otherwise
   * the first message not skipped decides: its text when it matches, an error
   * when reading its author fails.
   */
  lemma {:induction false} ReferenceMeaning(messages: seq<ChatMessage>, userId: Option<string>, msgId: string,
                                            htmlToText: string -> string)
    ensures Reference(messages, userId, msgId, htmlToText) == Ok(None) <==>
              forall i :: 0 <= i < |messages| ==> Examine(messages[i], userId, msgId) == Skip
    ensures Reference(messages, userId, msgId, htmlToText).Ok? &&
            Reference(messages, userId, msgId, htmlToText).value.Some? ==>
              exists i :: Decides(messages, userId, msgId, i, Hit) &&
                          Reference(messages, userId, msgId, htmlToText).value.value ==
                            htmlToText(messages[i].bodyContent.GetOr(""))
    ensures Reference(messages, userId, msgId, htmlToText).Err? ==>
              exists i :: Decides(messages, userId, msgId, i, Raise)
  {
    if messages != [] && Examine(messages[0], userId, msgId) == Skip {
      var rest := messages[1..];
      ReferenceMeaning(rest, userId, msgId, htmlToText);
      assert forall i :: 1 <= i < |messages| ==> messages[i] == rest[i - 1];
      var r := Reference(rest, userId, msgId, htmlToText);
      if r.Ok? && r.value.Some? {
        var i :| Decides(rest, userId, msgId, i, Hit) && r.value.value == htmlToText(rest[i].bodyContent.GetOr(""));
        assert Decides(messages, userId, msgId, i + 1, Hit);
      }
      if r.Err? {
        var i :| Decides(rest, userId, msgId, i, Raise);
        assert Decides(messages, userId, msgId, i + 1, Raise);
      }
    } else if messages != [] {
      assert Decides(messages, userId, msgId, 0, Examine(messages[0], userId, msgId));
    }
  }

  /** The scan of one page of chats for the first whose topic is `name`. */
  method ScanTopics(chats: seq<ChatSummary>, name: string) returns (r: Option<Option<string>>)
    ensures r == FirstTopic(chats, name)
  {
    var k := 0;
    while k < |chats|
      invariant 0 <= k <= |chats|
      invariant FirstTopic(chats, name) == FirstTopic(chats[k..], name)
    {
      assert chats[k..][1..] == chats[k + 1..];
      if chats[k].topic == Some(name) {
        return Some(chats[k].id);
      }
      k := k + 1;
    }
    return None;
  }

  /** The paging loop of `get_chat_id_by_name`, from `endpoint` on. */
  method SearchChatByTopic(fetch: string -> Page<ChatSummary>, base: string, endpoint: string, name: string,
                           ghost n: nat) returns (r: Result<Option<string>, LookupError>)
    requires |base| > 0 && endpoint != "" && TopicSearchEnds(fetch, base, endpoint, name, n)
    ensures r == FindChatByTopic(fetch, base, endpoint, name, n)
  {
    var link := endpoint;
    ghost var m := n;
    while link != ""
      invariant link != "" ==> TopicSearchEnds(fetch, base, link, name, m) &&
                               FindChatByTopic(fetch, base, endpoint, name, n) ==
                               FindChatByTopic(fetch, base, link, name, m)
      invariant link == "" ==> FindChatByTopic(fetch, base, endpoint, name, n) == Err(ChatNotFound(name))
      decreases if link == "" then 0 else m + 1
    {
      var page := fetch(link);
      if page.status != 200 {
        return Err(PageFailed(page.status));
      }
      var found := ScanTopics(page.value, name);
      if found.Some? {
        return Ok(found.value);
      }
      var next := Follow(base, page.nextLink);
      if next != "" {
        m := m - 1;
      }
      link := next;
    }
    return Err(ChatNotFound(name));
  }

  /**
   * `TeamsClient`: a Graph client with a cache from chat name to chat id. The
   * cache is written by `get_chat_id_by_name` and read by nothing.
   */
  class TeamsClient {
    var chatIdCache: map<string, Option<string>>

    /** `TeamsClient(user_id)`: an empty cache. */
    constructor ()
      ensures chatIdCache == map[]
    {
      chatIdCache := map[];
    }

    /** `get_chats`: all chats of `me/chats`, page by page. */
    method GetChats(fetch: string -> Page<ChatSummary>, ghost n: nat) returns (r: Result<seq<ChatSummary>, int>)
      requires EndsWithin(fetch, GraphClient.GraphUrl, "me/chats", n)
      ensures r == AllPages(fetch, GraphClient.GraphUrl, "me/chats", n)
    {
      r := FetchAllPages(fetch, GraphClient.GraphUrl, "me/chats", n);
    }

    /** `list_msg_in_chats(chat_id)`: all messages of the chat, page by page. */
    method ListMsgInChats(fetch: string -> Page<ChatMessage>, chatId: string, ghost n: nat)
      returns (r: Result<seq<ChatMessage>, int>)
      requires EndsWithin(fetch, GraphClient.GraphUrl, "me/chats/" + chatId + "/messages", n)
      ensures r == AllPages(fetch, GraphClient.GraphUrl, "me/chats/" + chatId + "/messages", n)
    {
      r := FetchAllPages(fetch, GraphClient.GraphUrl, "me/chats/" + chatId + "/messages", n);
    }

    /**
     * `get_chat_id_by_name(chat_name)`: pages through `me/chats` and returns the
     * id of the first chat whose topic is the name, recording it in the cache; an
     * error for a failed page or when no page has such a chat.
     */
    method GetChatIdByName(fetch: string -> Page<ChatSummary>, chatName: string, ghost n: nat)
      returns (r: Result<Option<string>, LookupError>)
      requires TopicSearchEnds(fetch, GraphClient.GraphUrl, "me/chats", chatName, n)
      modifies this
      ensures r == FindChatByTopic(fetch, GraphClient.GraphUrl, "me/chats", chatName, n)
      ensures r.Ok? ==> chatIdCache == old(chatIdCache)[chatName := r.value]
      ensures r.Err? ==> chatIdCache == old(chatIdCache)
    {
      r := SearchChatByTopic(fetch, GraphClient.GraphUrl, "me/chats", chatName, n);
      if r.Ok? {
        chatIdCache := chatIdCache[chatName := r.value];
      }
    }

    /**
     * `_search_message_reference(messages, user_id, msg_id)`: the text of the
     * first message that quotes `msgId` (from `userId`, unless that is ""), or
     * None; it raises at a message with a null `from` or `from.user` when the author is read.
     */
    method SearchMessageReference(messages: seq<ChatMessage>, userId: Option<string>, msgId: string,
                                  htmlToText: string -> string) returns (r: Result<Option<string>, string>)
      ensures r == Reference(messages, userId, msgId, htmlToText)
    {
      var i := 0;
      while i < |messages|
        invariant 0 <= i <= |messages|
        invariant Reference(messages, userId, msgId, htmlToText) == Reference(messages[i..], userId, msgId, htmlToText)
      {
        assert messages[i..][1..] == messages[i + 1..];
        var message := messages[i];
        var attachments := message.attachments;
        if attachments == [] {
          i := i + 1;
          continue;
        }
        if userId != Some("") && (message.sender.Null? || (message.sender.Present? && message.sender.value.user.Null?)) {
          return Err(NullSender);
        }
        if (userId == Some("") || AuthorId(message).value == userId) &&
           attachments[0].contentType == Some("messageReference") && attachments[0].id == Some(msgId) {
          return Ok(Some(htmlToText(message.bodyContent.GetOr(""))));
        }
        i := i + 1;
      }
      return Ok(None);
    }
  }
}
