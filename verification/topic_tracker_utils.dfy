/**
 * Turning a Teams chat into an LLM prompt that asks for unanswered questions
 * (automation/Unanswered_Topic_Tracker/utils.py): parsing the messages Graph
 * returns, then rendering them as one line per message under a fixed header.
 *
 * HTML-to-text conversion and JSON decoding of a quoted-reply attachment are
 * the oracles `htmlToText` and `decode`. A message whose `from.user` is null
 * raises when its display name is read; a missing `user` or `displayName`
 * reads as "Unknown", and a null `displayName` is None, rendered "None".
 */
module TopicTrackerUtils {
  import opened Wrappers
  import opened Text
  import opened ReminderModels
  import opened TeamsClient
  import MeetingUtils

  /** The decoded JSON content of a quoted-reply attachment. */
  datatype Reference = Reference(messageId: Option<string>, messageSender: Option<Sender>, messagePreview: Option<string>)

  /** One entry of `reply_to_id`: the quoted message, its sender's display name and its preview. */
  datatype ReplyRef = ReplyRef(msgId: Option<string>, sender: Option<string>, preview: Option<string>)

  /** One parsed message. */
  datatype Parsed = Parsed(id: string, sender: Option<string>, text: string, timestamp: string,
                           replyTo: Option<seq<ReplyRef>>)

  /** The attachment is a quoted reply. */
  predicate IsReference(a: Attachment) {
    a.contentType == Some("messageReference")
  }

  /**
   * The entry a quoted reply contributes, or None when the attachment is not
   * one or its content is malformed: undecodable, or without a sender user
   * (reading it raises, which the parser catches).
   */
  function RefOf(a: Attachment, decode: string -> Option<Reference>): (r: Option<ReplyRef>)
    ensures r.Some? ==> IsReference(a)
  {
    if !IsReference(a) then None
    else
      match decode(a.content.GetOr("{}"))
      case None => None
      case Some(ref) =>
        if ref.messageSender.None? || !ref.messageSender.value.user.Present? then None
        else
          var name := ref.messageSender.value.user.value.displayName;
          Some(ReplyRef(ref.messageId, if name.Present? then Some(name.value) else None, ref.messagePreview))
  }

  /** The entries of a message's attachments, in attachment order. */
  function Refs(attachments: seq<Attachment>, decode: string -> Option<Reference>): seq<ReplyRef> {
    if attachments == [] then []
    else
      var r := RefOf(attachments[|attachments| - 1], decode);
      Refs(attachments[..|attachments| - 1], decode) + (if r.Some? then [r.value] else [])
  }

  /** The attachments that yield an entry. */
  predicate Readable(a: Attachment, decode: string -> Option<Reference>) {
    RefOf(a, decode).Some?
  }

  /**
   * `reply_to_id` lists the well-formed quoted replies in attachment order:
   * entry `i` comes from the `i`-th readable attachment, which is a quoted
   * reply. Other attachments and malformed replies add nothing.
   */
  lemma {:induction false} RefsInOrder(attachments: seq<Attachment>, decode: string -> Option<Reference>)
    ensures var f := Filter(attachments, (a: Attachment) => Readable(a, decode));
            && |Refs(attachments, decode)| == |f|
            && forall i :: 0 <= i < |f| ==>
                 IsReference(f[i]) && RefOf(f[i], decode) == Some(Refs(attachments, decode)[i])
  {
    if attachments != [] {
      RefsInOrder(attachments[..|attachments| - 1], decode);
    }
  }

  /** The inner loop of `parse_graph_chat_messages`: collects the entries of the quoted replies. */
  method ReplyRefs(attachments: seq<Attachment>, decode: string -> Option<Reference>) returns (refs: seq<ReplyRef>)
    ensures refs == Refs(attachments, decode)
  {
    refs := [];
    var i := 0;
    while i < |attachments|
      invariant 0 <= i <= |attachments|
      invariant refs == Refs(attachments[..i], decode)
    {
      assert attachments[..i + 1][..i] == attachments[..i];
      var r := RefOf(attachments[i], decode);
      if r.Some? {
        refs := refs + [r.value];
      }
      i := i + 1;
    }
    assert attachments[..|attachments|] == attachments;
  }

  /** The message has a non-null `from`, so the parser keeps it. */
  predicate HasFrom(m: ChatMessage) {
    m.sender.Present?
  }

  /** The parser can read the sender of a kept message: its `user` is not null. */
  predicate SenderReadable(m: ChatMessage) {
    m.sender.Present? ==> !m.sender.value.user.Null?
  }

  /**
   * `.get('user', {}).get('displayName', 'Unknown')` of a readable `from`:
   * "Unknown" when `user` or its `displayName` is missing, None when the
   * display name is null.
   */
  function DisplayName(user: Field<Identity>): (name: Option<string>)
    requires !user.Null?
    ensures name.None? <==> user.Present? && user.value.displayName.Null?
    ensures user.Present? && user.value.displayName.Present? ==> name == Some(user.value.displayName.value)
    ensures user.Absent? || (user.Present? && user.value.displayName.Absent?) ==> name == Some("Unknown")
  {
    match user
    case Absent => Some("Unknown")
    case Present(u) =>
      match u.displayName
      case Absent => Some("Unknown")
      case Null => None
      case Present(n) => Some(n)
  }

  /** A kept message parsed: id, display name, stripped text, timestamp, and its replies or None. */
  function ParsedOf(m: ChatMessage, decode: string -> Option<Reference>, htmlToText: string -> string): Parsed
    requires HasFrom(m) && SenderReadable(m)
  {
    var refs := Refs(m.attachments, decode);
    Parsed(m.id.GetOr(""), DisplayName(m.sender.value.user),
           Strip(htmlToText(m.bodyContent.GetOr(""))), m.createdDateTime.GetOr(""),
           if refs == [] then None else Some(refs))
  }

  /** `parse_graph_chat_messages`: the kept messages parsed in order, or the error the first unreadable sender raises. */
  function ParseAll(messages: seq<ChatMessage>, decode: string -> Option<Reference>, htmlToText: string -> string)
    : Result<seq<Parsed>, string>
  {
    if messages == [] then Ok([])
    else
      var m := messages[|messages| - 1];
      match ParseAll(messages[..|messages| - 1], decode, htmlToText)
      case Err(e) => Err(e)
      case Ok(ps) =>
        if !HasFrom(m) then Ok(ps)
        else if !SenderReadable(m) then Err(NullSender)
        else Ok(ps + [ParsedOf(m, decode, htmlToText)])
  }

  /** Parsing fails exactly when a kept message has a null sender user. */
  lemma {:induction false} ParseAllFails(messages: seq<ChatMessage>, decode: string -> Option<Reference>,
                                         htmlToText: string -> string)
    ensures ParseAll(messages, decode, htmlToText).Ok? <==> forall m :: m in messages ==> SenderReadable(m)
  {
    if messages != [] {
      var init := messages[..|messages| - 1];
      ParseAllFails(init, decode, htmlToText);
      assert messages == init + [messages[|messages| - 1]];
    }
  }

  /**
   * Messages with a null or missing `from` are dropped and the rest are
   * parsed in input order, with `reply_to_id` None exactly when no
   * attachment yields an entry.
   */
  lemma {:induction false} ParseAllKeepsOrder(messages: seq<ChatMessage>, decode: string -> Option<Reference>,
                                              htmlToText: string -> string)
    requires ParseAll(messages, decode, htmlToText).Ok?
    ensures var f := Filter(messages, HasFrom);
            var ps := ParseAll(messages, decode, htmlToText).value;
            && |ps| == |f|
            && forall i :: 0 <= i < |f| ==>
                 && HasFrom(f[i]) && SenderReadable(f[i])
                 && ps[i] == ParsedOf(f[i], decode, htmlToText)
                 && (ps[i].replyTo.None? <==> Refs(f[i].attachments, decode) == [])
  {
    if messages != [] {
      var init := messages[..|messages| - 1];
      var m := messages[|messages| - 1];
      ParseAllKeepsOrder(init, decode, htmlToText);
      var fi := Filter(init, HasFrom);
      var f := Filter(messages, HasFrom);
      var psi := ParseAll(init, decode, htmlToText).value;
      var ps := ParseAll(messages, decode, htmlToText).value;
      forall i | 0 <= i < |f|
        ensures HasFrom(f[i]) && SenderReadable(f[i]) && ps[i] == ParsedOf(f[i], decode, htmlToText)
      {
        if i < |fi| {
          assert f[i] == fi[i] && ps[i] == psi[i];
        } else {
          assert f[i] == m && ps[i] == ParsedOf(m, decode, htmlToText);
        }
      }
    }
  }

  /** `parse_graph_chat_messages`: the outer loop over the messages. */
  method ParseGraphChatMessages(messages: seq<ChatMessage>, decode: string -> Option<Reference>,
                                htmlToText: string -> string) returns (r: Result<seq<Parsed>, string>)
    ensures r == ParseAll(messages, decode, htmlToText)
  {
    var parsed: seq<Parsed> := [];
    var i := 0;
    while i < |messages|
      invariant 0 <= i <= |messages|
      invariant ParseAll(messages[..i], decode, htmlToText) == Ok(parsed)
    {
      assert messages[..i + 1][..i] == messages[..i];
      var m := messages[i];
      if m.sender.Present? {
        if m.sender.value.user.Null? {
          assert ParseAll(messages[..i + 1], decode, htmlToText).Err?;
          ParseErrorStays(messages, i + 1, decode, htmlToText);
          return Err(NullSender);
        }
        var refs := ReplyRefs(m.attachments, decode);
        parsed := parsed + [Parsed(m.id.GetOr(""), DisplayName(m.sender.value.user),
                                   Strip(htmlToText(m.bodyContent.GetOr(""))), m.createdDateTime.GetOr(""),
                                   if refs == [] then None else Some(refs))];
      }
      i := i + 1;
    }
    assert messages[..|messages|] == messages;
    r := Ok(parsed);
  }

  /** Once a prefix fails to parse, the whole list fails with the same error. */
  lemma {:induction false} ParseErrorStays(messages: seq<ChatMessage>, k: nat, decode: string -> Option<Reference>,
                                           htmlToText: string -> string)
    requires k <= |messages| && ParseAll(messages[..k], decode, htmlToText).Err?
    ensures ParseAll(messages, decode, htmlToText) == ParseAll(messages[..k], decode, htmlToText)
    decreases |messages| - k
  {
    if k < |messages| {
      assert messages[..k + 1][..k] == messages[..k];
      ParseErrorStays(messages, k + 1, decode, htmlToText);
    } else {
      assert messages[..k] == messages;
    }
  }

  /** The prompt's header, up to the dialog. */
  const Header := "\n        請你講中文。\n        你是一位會議對話分析師，專門從團隊聊天室中找出那些提問但完全沒有人回應的問題。\n\n        請逐步思考每一則訊息，流程如下：\n        1. 判斷這則訊息是否為一個問題（即詢問某人某事）。\n        2. 如果是問題，再判斷是否有任何人對此訊息進行了回應（無論內容是否完整，只要有「回覆」即視為已回應）。\n\n        \U{26A0}\U{FE0F} 僅當問題**完全沒有任何回應**時，才視為「未回應問題」。\n        - 若有其他人稍作回應、表達看法、或僅部分回覆，也算「有回應」。\n        - 即使回覆不是直接回答問題，只要有「回應」動作就算。\n\n        如果所有問題都有被回應，請只回覆 `None`。\n\n        若有找到未被回應的問題，請以如下格式列出，**不要包含多餘對話**：\n        ---\n        問題內容：\n        提問者：\n        時間：\n        為何被視為未回應問題：\n\n        [以下是對話內容]\n        "

  /** The error `.strip()` raises on a reply entry whose preview is None. */
  const NullPreview := "'NoneType' object has no attribute 'strip'"

  /** The timestamps are in ascending string order. */
  predicate ByTime(ps: seq<Parsed>) {
    forall i, j :: 0 <= i < j < |ps| ==> LexLe(ps[i].timestamp, ps[j].timestamp)
  }

  /** Puts `p` before the first message that is not earlier than it. */
  function InsertByTime(p: Parsed, ps: seq<Parsed>): (r: seq<Parsed>)
    ensures multiset(r) == multiset(ps) + multiset{p}
  {
    if ps == [] then [p]
    else if LexLe(p.timestamp, ps[0].timestamp) then [p] + ps
    else
      assert ps == [ps[0]] + ps[1..];
      [ps[0]] + InsertByTime(p, ps[1..])
  }

  /** `sorted(processed_msgs, key=timestamp)`: a stable insertion sort by timestamp. */
  function SortByTime(ps: seq<Parsed>): (r: seq<Parsed>)
    ensures multiset(r) == multiset(ps)
  {
    if ps == [] then []
    else
      assert ps == [ps[0]] + ps[1..];
      InsertByTime(ps[0], SortByTime(ps[1..]))
  }

  lemma {:induction false} InsertMembers(p: Parsed, ps: seq<Parsed>)
    ensures forall x :: x in InsertByTime(p, ps) ==> x == p || x in ps
    decreases |ps|
  {
    if ps != [] && !LexLe(p.timestamp, ps[0].timestamp) {
      InsertMembers(p, ps[1..]);
    }
  }

  lemma {:induction false} InsertKeepsOrder(p: Parsed, ps: seq<Parsed>)
    requires ByTime(ps)
    ensures ByTime(InsertByTime(p, ps))
    decreases |ps|
  {
    if ps == [] {
    } else if LexLe(p.timestamp, ps[0].timestamp) {
      var r := [p] + ps;
      forall i, j | 0 <= i < j < |r|
        ensures LexLe(r[i].timestamp, r[j].timestamp)
      {
        if i == 0 && j > 1 {
          LexLeTransitive(p.timestamp, ps[0].timestamp, ps[j - 1].timestamp);
        }
      }
    } else {
      LexLeTotal(p.timestamp, ps[0].timestamp);
      var rest := InsertByTime(p, ps[1..]);
      InsertKeepsOrder(p, ps[1..]);
      InsertMembers(p, ps[1..]);
      var r := [ps[0]] + rest;
      forall i, j | 0 <= i < j < |r|
        ensures LexLe(r[i].timestamp, r[j].timestamp)
      {
        if i == 0 {
          assert r[j] == rest[j - 1] && rest[j - 1] in rest;
          if rest[j - 1] != p {
            var k :| 0 <= k < |ps[1..]| && ps[1..][k] == rest[j - 1];
            assert ps[k + 1] == rest[j - 1];
          }
        } else {
          assert r[i] == rest[i - 1] && r[j] == rest[j - 1];
        }
      }
    }
  }

  /**
   * The dialog is in ascending timestamp order and holds every parsed
   * message exactly as often as the input does.
   */
  lemma {:induction false} SortByTimeSorts(ps: seq<Parsed>)
    ensures ByTime(SortByTime(ps)) && multiset(SortByTime(ps)) == multiset(ps)
  {
    if ps != [] {
      SortByTimeSorts(ps[1..]);
      InsertKeepsOrder(ps[0], SortByTime(ps[1..]));
    }
  }

  /** The reply tag of a line: the first entry's sender and its one-line preview, or nothing. */
  function ReplyTag(replyTo: Option<seq<ReplyRef>>): Result<string, string> {
    if replyTo.None? || replyTo.value == [] then Ok("")
    else
      var first := replyTo.value[0];
      if first.preview.None? then Err(NullPreview)
      else Ok("(回覆: " + MeetingUtils.PyStr(first.sender) + "「" + ReplaceChar(Strip(first.preview.value), '\n', ' ') + "」)")
  }

  /** One dialog line: `{time} - {sender} {reply_tag}: {text}`, the text on one line. */
  function Line(p: Parsed): Result<string, string> {
    match ReplyTag(p.replyTo)
    case Err(e) => Err(e)
    case Ok(tag) => Ok(p.timestamp + " - " + MeetingUtils.PyStr(p.sender) + " " + tag + ": " + ReplaceChar(p.text, '\n', ' '))
  }

  /** How many messages the loop renders: all of them, or at most `max_len` when it is set and not 0. */
  function Rendered(n: nat, maxLen: Option<int>): (k: nat)
    ensures k <= n
    ensures maxLen.Some? && maxLen.value != 0 ==> k <= if maxLen.value < 0 then 0 else maxLen.value
    ensures (maxLen.None? || maxLen.value == 0) ==> k == n
  {
    if maxLen.Some? && maxLen.value != 0 && maxLen.value < n then (if maxLen.value < 0 then 0 else maxLen.value)
    else n
  }

  /** The lines of the first `ps` messages, or the error of the first line that fails. */
  function Lines(ps: seq<Parsed>): Result<seq<string>, string> {
    if ps == [] then Ok([])
    else
      match Lines(ps[..|ps| - 1])
      case Err(e) => Err(e)
      case Ok(ls) =>
        match Line(ps[|ps| - 1])
        case Err(e) => Err(e)
        case Ok(l) => Ok(ls + [l])
  }

  /** The whole prompt with every line break and no-break space turned into a space. */
  function Flatten(dialog: string): (prompt: string)
    ensures '\n' !in prompt && '\U{A0}' !in prompt
  {
    ReplaceChar(ReplaceChar(Header + dialog + "\n", '\n', ' '), '\U{A0}', ' ')
  }

  /** The loop of `make_prompt_for_unanswered_questions`: renders messages until `max_len` is reached. */
  method DialogLines(sorted: seq<Parsed>, maxLen: Option<int>) returns (r: Result<seq<string>, string>)
    ensures r == Lines(sorted[..Rendered(|sorted|, maxLen)])
  {
    var lines: seq<string> := [];
    var count := 0;
    while count < |sorted|
      invariant 0 <= count <= Rendered(|sorted|, maxLen)
      invariant Lines(sorted[..count]) == Ok(lines)
      decreases |sorted| - count
    {
      if maxLen.Some? && maxLen.value != 0 && count >= maxLen.value {
        break;
      }
      assert sorted[..count + 1][..count] == sorted[..count];
      var line := Line(sorted[count]);
      if line.Err? {
        LinesErrorStays(sorted[..Rendered(|sorted|, maxLen)], count + 1);
        assert sorted[..Rendered(|sorted|, maxLen)][..count + 1] == sorted[..count + 1];
        return Err(line.error);
      }
      lines := lines + [line.value];
      count := count + 1;
    }
    assert count == Rendered(|sorted|, maxLen);
    r := Ok(lines);
  }

  /**
   * `make_prompt_for_unanswered_questions`: sorts the messages by timestamp,
   * renders the first ones up to `max_len`, joins the lines and flattens the
   * prompt onto one line.
   */
  method MakePrompt(processed: seq<Parsed>, maxLen: Option<int>) returns (r: Result<string, string>)
    ensures var sorted := SortByTime(processed);
            match Lines(sorted[..Rendered(|sorted|, maxLen)])
            case Err(e) => r == Err(e)
            case Ok(ls) => r == Ok(Flatten(Join(ls, "\n")))
  {
    var sorted := SortByTime(processed);
    var lines := DialogLines(sorted, maxLen);
    if lines.Err? {
      return Err(lines.error);
    }
    r := Ok(Flatten(Join(lines.value, "\n")));
  }

  /** Once a prefix fails to render, the whole list fails with the same error. */
  lemma {:induction false} LinesErrorStays(ps: seq<Parsed>, k: nat)
    requires k <= |ps| && Lines(ps[..k]).Err?
    ensures Lines(ps) == Lines(ps[..k])
    decreases |ps| - k
  {
    if k < |ps| {
      assert ps[..k + 1][..k] == ps[..k];
      LinesErrorStays(ps, k + 1);
    } else {
      assert ps[..k] == ps;
    }
  }

  /** Line `i` renders the `i`-th message; rendering fails exactly when some line fails. */
  lemma {:induction false} LinesRenderInOrder(ps: seq<Parsed>)
    ensures Lines(ps).Ok? ==>
              && |Lines(ps).value| == |ps|
              && forall i :: 0 <= i < |ps| ==> Line(ps[i]).Ok? && Lines(ps).value[i] == Line(ps[i]).value
    ensures Lines(ps).Err? <==> exists i :: 0 <= i < |ps| && Line(ps[i]).Err?
  {
    if ps != [] {
      LinesRenderInOrder(ps[..|ps| - 1]);
      assert forall i :: 0 <= i < |ps| - 1 ==> ps[..|ps| - 1][i] == ps[i];
    }
  }

  /** The fields a line takes from its message, other than the text, are free of line breaks. */
  predicate OneLineFields(p: Parsed) {
    && '\n' !in p.timestamp && (p.sender.Some? ==> '\n' !in p.sender.value)
    && (p.replyTo.Some? && p.replyTo.value != [] && p.replyTo.value[0].sender.Some? ==>
          '\n' !in p.replyTo.value[0].sender.value)
  }

  /** A rendered line holds no line break when its message's time and senders hold none. */
  lemma LineIsOneLine(p: Parsed)
    requires OneLineFields(p) && Line(p).Ok?
    ensures '\n' !in Line(p).value
  {
    var tag := ReplyTag(p.replyTo).value;
    TagIsOneLine(p.replyTo);
    var text := ReplaceChar(p.text, '\n', ' ');
    assert '\n' !in text;
    var sender := MeetingUtils.PyStr(p.sender);
    assert '\n' !in sender;
    NoBreakJoin(p.timestamp, " - ");
    NoBreakJoin(p.timestamp + " - ", sender);
    NoBreakJoin(p.timestamp + " - " + sender, " ");
    NoBreakJoin(p.timestamp + " - " + sender + " ", tag);
    NoBreakJoin(p.timestamp + " - " + sender + " " + tag, ": ");
    NoBreakJoin(p.timestamp + " - " + sender + " " + tag + ": ", text);
  }

  /** The reply tag holds no line break when the quoted sender holds none. */
  lemma TagIsOneLine(replyTo: Option<seq<ReplyRef>>)
    requires ReplyTag(replyTo).Ok?
    requires replyTo.Some? && replyTo.value != [] && replyTo.value[0].sender.Some? ==>
               '\n' !in replyTo.value[0].sender.value
    ensures '\n' !in ReplyTag(replyTo).value
  {
    if replyTo.Some? && replyTo.value != [] {
      var first := replyTo.value[0];
      assert '\n' !in MeetingUtils.PyStr(first.sender);
      var quoted := ReplaceChar(Strip(first.preview.value), '\n', ' ');
      assert '\n' !in quoted;
      NoBreakJoin("(回覆: ", MeetingUtils.PyStr(first.sender));
      NoBreakJoin("(回覆: " + MeetingUtils.PyStr(first.sender), "「");
      NoBreakJoin("(回覆: " + MeetingUtils.PyStr(first.sender) + "「", quoted);
      NoBreakJoin("(回覆: " + MeetingUtils.PyStr(first.sender) + "「" + quoted, "」)");
    }
  }

  /** Two texts without a line break join into one without a line break. */
  lemma NoBreakJoin(a: string, b: string)
    requires '\n' !in a && '\n' !in b
    ensures '\n' !in a + b
  {
  }

  /**
   * The dialog holds one line per rendered message: splitting it at line
   * breaks gives the lines back, when no time or sender holds a line break.
   */
  lemma DialogSplits(ps: seq<Parsed>)
    requires ps != [] && Lines(ps).Ok?
    requires forall i :: 0 <= i < |ps| ==> OneLineFields(ps[i])
    ensures Split(Join(Lines(ps).value, "\n"), '\n') == Lines(ps).value
  {
    var ls := Lines(ps).value;
    LinesRenderInOrder(ps);
    forall i | 0 <= i < |ls|
      ensures '\n' !in ls[i]
    {
      LineIsOneLine(ps[i]);
    }
    SplitJoin(ls, '\n');
  }
}
