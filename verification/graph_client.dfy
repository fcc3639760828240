/**
 * The pure and list-building parts of automation/core/graph_client.py: the
 * Windows-to-IANA time-zone table, matching users to one-on-one chats, the
 * find-meeting-times request and the flattening of its suggestions, the
 * new-event payload and the e-mail search.
 *
 * Every call to Microsoft Graph is replaced by its answer, passed in as a
 * parameter: the list of chats with each one's members request, the meeting-time
 * suggestions, the users found by a search.
 */
module GraphClient {
  import opened Wrappers
  import opened Text

  /** `GRAPH_URL`: every endpoint is relative to it. */
  const GraphUrl: string := "https://graph.microsoft.com/v1.0"

  /**
   * `zone_mappings`: Windows time-zone names to IANA names. The entries are those
   * of the source, split into groups of rows so that facts about them can be
   * checked a group at a time; the two the application relies on are written last.
   */
  const ZoneMappings: map<string, string> :=
    ZoneRows1 + ZoneRows2 + ZoneRows3 + ZoneRows4 + ZoneRows5 + ZoneRows6 + ZoneRows7
    + ZoneRows8 + ZoneRows9 + ZoneRows10 + ZoneRows11 + ZoneRows12 + ZoneRows13 + ZoneRows14
    + ZoneRows15 + ZoneRows16 + ZoneRows17 + ZoneRows18 + ZoneRows19 + ZoneRows20 + ZoneRows21
    + ZoneRows22 + ZoneRows23 + ZoneRows24 + ZoneRows25 + ZoneRows26 + ZoneRows27 + ZoneRows28

  const ZoneRows1: map<string, string> :=
    map[
      "Dateline Standard Time" := "Etc/GMT+12",
      "UTC-11" := "Etc/GMT+11",
      "Aleutian Standard Time" := "America/Adak",
      "Hawaiian Standard Time" := "Pacific/Honolulu",
      "Marquesas Standard Time" := "Pacific/Marquesas"
    ]

  const ZoneRows2: map<string, string> :=
    map[
      "Alaskan Standard Time" := "America/Anchorage",
      "UTC-09" := "Etc/GMT+9",
      "Pacific Standard Time (Mexico)" := "America/Tijuana",
      "UTC-08" := "Etc/GMT+8",
      "Pacific Standard Time" := "America/Los_Angeles"
    ]

  const ZoneRows3: map<string, string> :=
    map[
      "US Mountain Standard Time" := "America/Phoenix",
      "Mountain Standard Time (Mexico)" := "America/Chihuahua",
      "Mountain Standard Time" := "America/Denver",
      "Central America Standard Time" := "America/Guatemala",
      "Central Standard Time" := "America/Chicago"
    ]

  const ZoneRows4: map<string, string> :=
    map[
      "Easter Island Standard Time" := "Pacific/Easter",
      "Central Standard Time (Mexico)" := "America/Mexico_City",
      "Canada Central Standard Time" := "America/Regina",
      "SA Pacific Standard Time" := "America/Bogota",
      "Eastern Standard Time (Mexico)" := "America/Cancun"
    ]

  const ZoneRows5: map<string, string> :=
    map[
      "Eastern Standard Time" := "America/New_York",
      "Haiti Standard Time" := "America/Port-au-Prince",
      "Cuba Standard Time" := "America/Havana",
      "US Eastern Standard Time" := "America/Indianapolis",
      "Turks And Caicos Standard Time" := "America/Grand_Turk"
    ]

  const ZoneRows6: map<string, string> :=
    map[
      "Paraguay Standard Time" := "America/Asuncion",
      "Atlantic Standard Time" := "America/Halifax",
      "Venezuela Standard Time" := "America/Caracas",
      "Central Brazilian Standard Time" := "America/Cuiaba",
      "SA Western Standard Time" := "America/La_Paz"
    ]

  const ZoneRows7: map<string, string> :=
    map[
      "Pacific SA Standard Time" := "America/Santiago",
      "Newfoundland Standard Time" := "America/St_Johns",
      "Tocantins Standard Time" := "America/Araguaina",
      "E. South America Standard Time" := "America/Sao_Paulo",
      "SA Eastern Standard Time" := "America/Cayenne"
    ]

  const ZoneRows8: map<string, string> :=
    map[
      "Argentina Standard Time" := "America/Buenos_Aires",
      "Greenland Standard Time" := "America/Godthab",
      "Montevideo Standard Time" := "America/Montevideo",
      "Magallanes Standard Time" := "America/Punta_Arenas",
      "Saint Pierre Standard Time" := "America/Miquelon"
    ]

  const ZoneRows9: map<string, string> :=
    map[
      "Bahia Standard Time" := "America/Bahia",
      "UTC-02" := "Etc/GMT+2",
      "Azores Standard Time" := "Atlantic/Azores",
      "Cape Verde Standard Time" := "Atlantic/Cape_Verde",
      "GMT Standard Time" := "Europe/London"
    ]

  const ZoneRows10: map<string, string> :=
    map[
      "Greenwich Standard Time" := "Atlantic/Reykjavik",
      "Sao Tome Standard Time" := "Africa/Sao_Tome",
      "Morocco Standard Time" := "Africa/Casablanca",
      "W. Europe Standard Time" := "Europe/Berlin",
      "Central Europe Standard Time" := "Europe/Budapest"
    ]

  const ZoneRows11: map<string, string> :=
    map[
      "Romance Standard Time" := "Europe/Paris",
      "Central European Standard Time" := "Europe/Warsaw",
      "W. Central Africa Standard Time" := "Africa/Lagos",
      "Jordan Standard Time" := "Asia/Amman",
      "GTB Standard Time" := "Europe/Bucharest"
    ]

  const ZoneRows12: map<string, string> :=
    map[
      "Middle East Standard Time" := "Asia/Beirut",
      "Egypt Standard Time" := "Africa/Cairo",
      "E. Europe Standard Time" := "Europe/Chisinau",
      "Syria Standard Time" := "Asia/Damascus",
      "West Bank Standard Time" := "Asia/Hebron"
    ]

  const ZoneRows13: map<string, string> :=
    map[
      "South Africa Standard Time" := "Africa/Johannesburg",
      "FLE Standard Time" := "Europe/Kiev",
      "Israel Standard Time" := "Asia/Jerusalem",
      "Kaliningrad Standard Time" := "Europe/Kaliningrad",
      "Sudan Standard Time" := "Africa/Khartoum"
    ]

  const ZoneRows14: map<string, string> :=
    map[
      "Libya Standard Time" := "Africa/Tripoli",
      "Namibia Standard Time" := "Africa/Windhoek",
      "Arabic Standard Time" := "Asia/Baghdad",
      "Turkey Standard Time" := "Europe/Istanbul",
      "Arab Standard Time" := "Asia/Riyadh"
    ]

  const ZoneRows15: map<string, string> :=
    map[
      "Belarus Standard Time" := "Europe/Minsk",
      "Russian Standard Time" := "Europe/Moscow",
      "E. Africa Standard Time" := "Africa/Nairobi",
      "Iran Standard Time" := "Asia/Tehran",
      "Arabian Standard Time" := "Asia/Dubai"
    ]

  const ZoneRows16: map<string, string> :=
    map[
      "Astrakhan Standard Time" := "Europe/Astrakhan",
      "Azerbaijan Standard Time" := "Asia/Baku",
      "Russia Time Zone 3" := "Europe/Samara",
      "Mauritius Standard Time" := "Indian/Mauritius",
      "Saratov Standard Time" := "Europe/Saratov"
    ]

  const ZoneRows17: map<string, string> :=
    map[
      "Georgian Standard Time" := "Asia/Tbilisi",
      "Volgograd Standard Time" := "Europe/Volgograd",
      "Caucasus Standard Time" := "Asia/Yerevan",
      "Afghanistan Standard Time" := "Asia/Kabul",
      "West Asia Standard Time" := "Asia/Tashkent"
    ]

  const ZoneRows18: map<string, string> :=
    map[
      "Ekaterinburg Standard Time" := "Asia/Yekaterinburg",
      "Pakistan Standard Time" := "Asia/Karachi",
      "Qyzylorda Standard Time" := "Asia/Qyzylorda",
      "India Standard Time" := "Asia/Calcutta",
      "Sri Lanka Standard Time" := "Asia/Colombo"
    ]

  const ZoneRows19: map<string, string> :=
    map[
      "Nepal Standard Time" := "Asia/Katmandu",
      "Central Asia Standard Time" := "Asia/Almaty",
      "Bangladesh Standard Time" := "Asia/Dhaka",
      "Omsk Standard Time" := "Asia/Omsk",
      "Myanmar Standard Time" := "Asia/Rangoon"
    ]

  const ZoneRows20: map<string, string> :=
    map[
      "SE Asia Standard Time" := "Asia/Bangkok",
      "Altai Standard Time" := "Asia/Barnaul",
      "W. Mongolia Standard Time" := "Asia/Hovd",
      "North Asia Standard Time" := "Asia/Krasnoyarsk",
      "N. Central Asia Standard Time" := "Asia/Novosibirsk"
    ]

  const ZoneRows21: map<string, string> :=
    map[
      "Tomsk Standard Time" := "Asia/Tomsk",
      "China Standard Time" := "Asia/Shanghai",
      "North Asia East Standard Time" := "Asia/Irkutsk",
      "Singapore Standard Time" := "Asia/Singapore",
      "W. Australia Standard Time" := "Australia/Perth"
    ]

  const ZoneRows22: map<string, string> :=
    map[
      "Ulaanbaatar Standard Time" := "Asia/Ulaanbaatar",
      "Aus Central W. Standard Time" := "Australia/Eucla",
      "Transbaikal Standard Time" := "Asia/Chita",
      "Tokyo Standard Time" := "Asia/Tokyo",
      "North Korea Standard Time" := "Asia/Pyongyang"
    ]

  const ZoneRows23: map<string, string> :=
    map[
      "Korea Standard Time" := "Asia/Seoul",
      "Yakutsk Standard Time" := "Asia/Yakutsk",
      "Cen. Australia Standard Time" := "Australia/Adelaide",
      "AUS Central Standard Time" := "Australia/Darwin",
      "E. Australia Standard Time" := "Australia/Brisbane"
    ]

  const ZoneRows24: map<string, string> :=
    map[
      "AUS Eastern Standard Time" := "Australia/Sydney",
      "West Pacific Standard Time" := "Pacific/Port_Moresby",
      "Tasmania Standard Time" := "Australia/Hobart",
      "Vladivostok Standard Time" := "Asia/Vladivostok",
      "Lord Howe Standard Time" := "Australia/Lord_Howe"
    ]

  const ZoneRows25: map<string, string> :=
    map[
      "Bougainville Standard Time" := "Pacific/Bougainville",
      "Russia Time Zone 10" := "Asia/Srednekolymsk",
      "Magadan Standard Time" := "Asia/Magadan",
      "Norfolk Standard Time" := "Pacific/Norfolk",
      "Sakhalin Standard Time" := "Asia/Sakhalin"
    ]

  const ZoneRows26: map<string, string> :=
    map[
      "Central Pacific Standard Time" := "Pacific/Guadalcanal",
      "Russia Time Zone 11" := "Asia/Kamchatka",
      "New Zealand Standard Time" := "Pacific/Auckland",
      "UTC+12" := "Etc/GMT-12",
      "Fiji Standard Time" := "Pacific/Fiji"
    ]

  const ZoneRows27: map<string, string> :=
    map[
      "Chatham Islands Standard Time" := "Pacific/Chatham",
      "UTC+13" := "Etc/GMT-13",
      "Tonga Standard Time" := "Pacific/Tongatapu",
      "Samoa Standard Time" := "Pacific/Apia",
      "Line Islands Standard Time" := "Pacific/Kiritimati"
    ]

  const ZoneRows28: map<string, string> :=
    map[
      "UTC" := "Etc/GMT",
      "Taipei Standard Time" := "Asia/Taipei"
    ]

  /** `get_iana_from_windows`: the mapped IANA name, or the input itself when it is not a Windows name. */
  function GetIanaFromWindows(windowsName: string): (r: string)
    ensures windowsName in ZoneMappings ==> r == ZoneMappings[windowsName]
    ensures windowsName !in ZoneMappings ==> r == windowsName
  {
    if windowsName in ZoneMappings then ZoneMappings[windowsName] else windowsName
  }

  /** No Windows name of the table holds a '/'. */
  ghost predicate WindowsNames(m: map<string, string>) {
    forall w :: w in m ==> '/' !in w
  }

  /** Every IANA name of the table holds a '/'. */
  ghost predicate IanaNames(m: map<string, string>) {
    forall w :: w in m ==> '/' in m[w]
  }

  /** The two sides of a table are told apart by '/'. */
  ghost predicate Apart(m: map<string, string>) {
    WindowsNames(m) && IanaNames(m)
  }

  lemma ApartUnion(a: map<string, string>, b: map<string, string>)
    requires Apart(a) && Apart(b)
    ensures Apart(a + b)
  {
  }

  // The Windows names, one group of rows at a time.
  lemma ZoneRows1Keys() ensures WindowsNames(ZoneRows1) {}
  lemma ZoneRows2Keys() ensures WindowsNames(ZoneRows2) {}
  lemma ZoneRows3Keys() ensures WindowsNames(ZoneRows3) {}
  lemma ZoneRows4Keys() ensures WindowsNames(ZoneRows4) {}
  lemma ZoneRows5Keys() ensures WindowsNames(ZoneRows5) {}
  lemma ZoneRows6Keys() ensures WindowsNames(ZoneRows6) {}
  lemma ZoneRows7Keys() ensures WindowsNames(ZoneRows7) {}
  lemma ZoneRows8Keys() ensures WindowsNames(ZoneRows8) {}
  lemma ZoneRows9Keys() ensures WindowsNames(ZoneRows9) {}
  lemma ZoneRows10Keys() ensures WindowsNames(ZoneRows10) {}
  lemma ZoneRows11Keys() ensures WindowsNames(ZoneRows11) {}
  lemma ZoneRows12Keys() ensures WindowsNames(ZoneRows12) {}
  lemma ZoneRows13Keys() ensures WindowsNames(ZoneRows13) {}
  lemma ZoneRows14Keys() ensures WindowsNames(ZoneRows14) {}
  lemma ZoneRows15Keys() ensures WindowsNames(ZoneRows15) {}
  lemma ZoneRows16Keys() ensures WindowsNames(ZoneRows16) {}
  lemma ZoneRows17Keys() ensures WindowsNames(ZoneRows17) {}
  lemma ZoneRows18Keys() ensures WindowsNames(ZoneRows18) {}
  lemma ZoneRows19Keys() ensures WindowsNames(ZoneRows19) {}
  lemma ZoneRows20Keys() ensures WindowsNames(ZoneRows20) {}
  lemma ZoneRows21Keys() ensures WindowsNames(ZoneRows21) {}
  lemma ZoneRows22Keys() ensures WindowsNames(ZoneRows22) {}
  lemma ZoneRows23Keys() ensures WindowsNames(ZoneRows23) {}
  lemma ZoneRows24Keys() ensures WindowsNames(ZoneRows24) {}
  lemma ZoneRows25Keys() ensures WindowsNames(ZoneRows25) {}
  lemma ZoneRows26Keys() ensures WindowsNames(ZoneRows26) {}
  lemma ZoneRows27Keys() ensures WindowsNames(ZoneRows27) {}
  lemma ZoneRows28Keys() ensures WindowsNames(ZoneRows28) {}

  // The IANA names, one group of rows at a time.
  lemma ZoneRows1Values() ensures IanaNames(ZoneRows1) {}
  lemma ZoneRows2Values() ensures IanaNames(ZoneRows2) {}
  lemma ZoneRows3Values() ensures IanaNames(ZoneRows3) {}
  lemma ZoneRows4Values() ensures IanaNames(ZoneRows4) {}
  lemma ZoneRows5Values() ensures IanaNames(ZoneRows5) {}
  lemma ZoneRows6Values() ensures IanaNames(ZoneRows6) {}
  lemma ZoneRows7Values() ensures IanaNames(ZoneRows7) {}
  lemma ZoneRows8Values() ensures IanaNames(ZoneRows8) {}
  lemma ZoneRows9Values() ensures IanaNames(ZoneRows9) {}
  lemma ZoneRows10Values() ensures IanaNames(ZoneRows10) {}
  lemma ZoneRows11Values() ensures IanaNames(ZoneRows11) {}
  lemma ZoneRows12Values() ensures IanaNames(ZoneRows12) {}
  lemma ZoneRows13Values() ensures IanaNames(ZoneRows13) {}
  lemma ZoneRows14Values() ensures IanaNames(ZoneRows14) {}
  lemma ZoneRows15Values() ensures IanaNames(ZoneRows15) {}
  lemma ZoneRows16Values() ensures IanaNames(ZoneRows16) {}
  lemma ZoneRows17Values() ensures IanaNames(ZoneRows17) {}
  lemma ZoneRows18Values() ensures IanaNames(ZoneRows18) {}
  lemma ZoneRows19Values() ensures IanaNames(ZoneRows19) {}
  lemma ZoneRows20Values() ensures IanaNames(ZoneRows20) {}
  lemma ZoneRows21Values() ensures IanaNames(ZoneRows21) {}
  lemma ZoneRows22Values() ensures IanaNames(ZoneRows22) {}
  lemma ZoneRows23Values() ensures IanaNames(ZoneRows23) {}
  lemma ZoneRows24Values() ensures IanaNames(ZoneRows24) {}
  lemma ZoneRows25Values() ensures IanaNames(ZoneRows25) {}
  lemma ZoneRows26Values() ensures IanaNames(ZoneRows26) {}
  lemma ZoneRows27Values() ensures IanaNames(ZoneRows27) {}
  lemma ZoneRows28Values() ensures IanaNames(ZoneRows28) {}

  /** The whole table keeps its Windows names and IANA names apart. */
  lemma ZoneNamesApart()
    ensures Apart(ZoneMappings)
  {
    ZoneRows1Keys(); ZoneRows1Values();
    ghost var seen := ZoneRows1;
    ZoneRows2Keys(); ZoneRows2Values(); ApartUnion(seen, ZoneRows2); seen := seen + ZoneRows2;
    ZoneRows3Keys(); ZoneRows3Values(); ApartUnion(seen, ZoneRows3); seen := seen + ZoneRows3;
    ZoneRows4Keys(); ZoneRows4Values(); ApartUnion(seen, ZoneRows4); seen := seen + ZoneRows4;
    ZoneRows5Keys(); ZoneRows5Values(); ApartUnion(seen, ZoneRows5); seen := seen + ZoneRows5;
    ZoneRows6Keys(); ZoneRows6Values(); ApartUnion(seen, ZoneRows6); seen := seen + ZoneRows6;
    ZoneRows7Keys(); ZoneRows7Values(); ApartUnion(seen, ZoneRows7); seen := seen + ZoneRows7;
    ZoneRows8Keys(); ZoneRows8Values(); ApartUnion(seen, ZoneRows8); seen := seen + ZoneRows8;
    ZoneRows9Keys(); ZoneRows9Values(); ApartUnion(seen, ZoneRows9); seen := seen + ZoneRows9;
    ZoneRows10Keys(); ZoneRows10Values(); ApartUnion(seen, ZoneRows10); seen := seen + ZoneRows10;
    ZoneRows11Keys(); ZoneRows11Values(); ApartUnion(seen, ZoneRows11); seen := seen + ZoneRows11;
    ZoneRows12Keys(); ZoneRows12Values(); ApartUnion(seen, ZoneRows12); seen := seen + ZoneRows12;
    ZoneRows13Keys(); ZoneRows13Values(); ApartUnion(seen, ZoneRows13); seen := seen + ZoneRows13;
    ZoneRows14Keys(); ZoneRows14Values(); ApartUnion(seen, ZoneRows14); seen := seen + ZoneRows14;
    ZoneRows15Keys(); ZoneRows15Values(); ApartUnion(seen, ZoneRows15); seen := seen + ZoneRows15;
    ZoneRows16Keys(); ZoneRows16Values(); ApartUnion(seen, ZoneRows16); seen := seen + ZoneRows16;
    ZoneRows17Keys(); ZoneRows17Values(); ApartUnion(seen, ZoneRows17); seen := seen + ZoneRows17;
    ZoneRows18Keys(); ZoneRows18Values(); ApartUnion(seen, ZoneRows18); seen := seen + ZoneRows18;
    ZoneRows19Keys(); ZoneRows19Values(); ApartUnion(seen, ZoneRows19); seen := seen + ZoneRows19;
    ZoneRows20Keys(); ZoneRows20Values(); ApartUnion(seen, ZoneRows20); seen := seen + ZoneRows20;
    ZoneRows21Keys(); ZoneRows21Values(); ApartUnion(seen, ZoneRows21); seen := seen + ZoneRows21;
    ZoneRows22Keys(); ZoneRows22Values(); ApartUnion(seen, ZoneRows22); seen := seen + ZoneRows22;
    ZoneRows23Keys(); ZoneRows23Values(); ApartUnion(seen, ZoneRows23); seen := seen + ZoneRows23;
    ZoneRows24Keys(); ZoneRows24Values(); ApartUnion(seen, ZoneRows24); seen := seen + ZoneRows24;
    ZoneRows25Keys(); ZoneRows25Values(); ApartUnion(seen, ZoneRows25); seen := seen + ZoneRows25;
    ZoneRows26Keys(); ZoneRows26Values(); ApartUnion(seen, ZoneRows26); seen := seen + ZoneRows26;
    ZoneRows27Keys(); ZoneRows27Values(); ApartUnion(seen, ZoneRows27); seen := seen + ZoneRows27;
    ZoneRows28Keys(); ZoneRows28Values(); ApartUnion(seen, ZoneRows28); seen := seen + ZoneRows28;
    assert seen == ZoneMappings;
  }

  /**
   * Translating is idempotent: a translated name is never itself a Windows
   * name, so passing it through again (the "already IANA" fallback) keeps it.
   */
  lemma IanaStable(windowsName: string)
    ensures GetIanaFromWindows(windowsName) == windowsName || GetIanaFromWindows(windowsName) in ZoneMappings.Values
    ensures GetIanaFromWindows(GetIanaFromWindows(windowsName)) == GetIanaFromWindows(windowsName)
    ensures windowsName in ZoneMappings ==> GetIanaFromWindows(windowsName) !in ZoneMappings
  {
    IanaRange(windowsName);
    IanaNoChain(windowsName);
    IanaIdempotent(windowsName);
  }

  /** Translating a translated name keeps it. */
  lemma IanaIdempotent(windowsName: string)
    ensures GetIanaFromWindows(GetIanaFromWindows(windowsName)) == GetIanaFromWindows(windowsName)
  {
    IanaNoChain(windowsName);
  }

  /** A name is kept or translated into one of the table's IANA names. */
  lemma IanaRange(windowsName: string)
    ensures GetIanaFromWindows(windowsName) == windowsName || GetIanaFromWindows(windowsName) in ZoneMappings.Values
  {
  }

  /** A translated name is never itself a Windows name of the table. */
  lemma IanaNoChain(windowsName: string)
    ensures windowsName in ZoneMappings ==> GetIanaFromWindows(windowsName) !in ZoneMappings
  {
    ZoneNamesApart();
    ApartNoChain(ZoneMappings, windowsName);
  }

  /** In a table whose names are apart, no translation is itself a key. */
  lemma ApartNoChain(m: map<string, string>, w: string)
    requires Apart(m)
    ensures w in m ==> m[w] in m.Values && m[w] !in m
  {
    if w in m {
      assert '/' in m[w];
    }
  }

  /** The two entries the application relies on. */
  lemma TaipeiZone()
    ensures GetIanaFromWindows("Taipei Standard Time") == "Asia/Taipei"
  {
  }

  lemma UtcZone()
    ensures GetIanaFromWindows("UTC") == "Etc/GMT"
  {
    UtcLastRow();
  }

  /** "UTC" is a key of the table, and its last group of rows gives its translation. */
  lemma UtcLastRow()
    ensures "UTC" in ZoneMappings
    ensures ZoneMappings["UTC"] == ZoneRows28["UTC"] == "Etc/GMT"
  {
    UtcRowValue();
  }

  lemma UtcRowValue()
    ensures "UTC" in ZoneRows28 && ZoneRows28["UTC"] == "Etc/GMT"
  {
  }

  /** A member of a chat as `chats/{id}/members` lists it. */
  datatype ChatMember = ChatMember(userId: Option<string>)

  /**
   * A chat of `me/chats`, with the answer of its own `chats/{id}/members`
   * request: the members listed, or the error text the request raises.
   */
  datatype Chat = Chat(id: Option<string>, chatType: Option<string>, members: Result<seq<ChatMember>, string>)

  /** Only one-on-one chats have their members requested. */
  predicate IsOneOnOne(chat: Chat) {
    chat.chatType == Some("oneOnOne")
  }

  /**
   * The chat is a one-on-one chat whose members were listed with `userId`
   * among them; a missing user id (None) matches a member listed without one.
   */
  predicate IsOneOnOneWith(chat: Chat, userId: Option<string>) {
    IsOneOnOne(chat) && chat.members.Ok? && exists m :: m in chat.members.value && m.userId == userId
  }

  /** The search stops at this chat: it matches, or its members request fails. */
  predicate Stops(chat: Chat, userId: Option<string>) {
    IsOneOnOneWith(chat, userId) || (IsOneOnOne(chat) && chat.members.Err?)
  }

  /**
   * Reference for the `next(...)` search of `get_chat_ids`: the id of the
   * first matching chat, else None; a failing members request of a
   * one-on-one chat reached before the match raises its error.
   */
  function FirstChatWith(chats: seq<Chat>, userId: Option<string>): Result<Option<string>, string>
  {
    if chats == [] then Ok(None)
    else if IsOneOnOne(chats[0]) && chats[0].members.Err? then Err(chats[0].members.error)
    else if IsOneOnOneWith(chats[0], userId) then Ok(chats[0].id)
    else FirstChatWith(chats[1..], userId)
  }

  /**
   * The first chat the search stops at decides: its id when it matches, the
   * error of its members request when that fails; with no such chat the
   * answer is None.
   */
  lemma {:induction false} FirstChatWithSpec(chats: seq<Chat>, userId: Option<string>)
    ensures (forall i :: 0 <= i < |chats| ==> !Stops(chats[i], userId)) ==> FirstChatWith(chats, userId) == Ok(None)
    ensures forall i :: 0 <= i < |chats| && Stops(chats[i], userId) &&
                        (forall j :: 0 <= j < i ==> !Stops(chats[j], userId)) ==>
                        FirstChatWith(chats, userId) ==
                          if chats[i].members.Err? then Err(chats[i].members.error) else Ok(chats[i].id)
  {
    if chats != [] {
      FirstChatWithSpec(chats[1..], userId);
      forall i | 0 < i < |chats| && Stops(chats[i], userId) &&
                 (forall j :: 0 <= j < i ==> !Stops(chats[j], userId))
        ensures FirstChatWith(chats[1..], userId) ==
                  if chats[i].members.Err? then Err(chats[i].members.error) else Ok(chats[i].id)
      {
        assert chats[1..][i - 1] == chats[i];
        forall j | 0 <= j < i - 1
          ensures !Stops(chats[1..][j], userId)
        {
          assert chats[1..][j] == chats[j + 1];
        }
      }
      if forall i :: 0 <= i < |chats| ==> !Stops(chats[i], userId) {
        forall j | 0 <= j < |chats| - 1
          ensures !Stops(chats[1..][j], userId)
        {
          assert chats[1..][j] == chats[j + 1];
        }
      }
    }
  }

  /**
   * The lazy `next(...)` over the chats: requests the members of each
   * one-on-one chat in turn and stops at the first with `userId`, or at the
   * first request that fails.
   */
  method MatchChat(chats: seq<Chat>, userId: Option<string>) returns (matched: Result<Option<string>, string>)
    ensures matched == FirstChatWith(chats, userId)
  {
    var i := 0;
    while i < |chats|
      invariant 0 <= i <= |chats|
      invariant FirstChatWith(chats, userId) == FirstChatWith(chats[i..], userId)
    {
      assert chats[i..][1..] == chats[i + 1..];
      if IsOneOnOne(chats[i]) {
        var members := chats[i].members;
        if members.Err? {
          return Err(members.error);
        }
        if exists m :: m in members.value && m.userId == userId {
          return Ok(chats[i].id);
        }
      }
      i := i + 1;
    }
    return Ok(None);
  }

  /**
   * The searches of `get_chat_ids` for each user in order: every user's chat
   * id when no search fails, otherwise the error of the first that fails.
   */
  function ChatIdsOf(chats: seq<Chat>, userIds: seq<Option<string>>): (r: Result<seq<Option<string>>, string>)
    ensures r.Ok? <==> forall i :: 0 <= i < |userIds| ==> FirstChatWith(chats, userIds[i]).Ok?
    ensures r.Ok? ==> |r.value| == |userIds| &&
                      forall i :: 0 <= i < |userIds| ==> r.value[i] == FirstChatWith(chats, userIds[i]).value
    ensures r.Err? ==> exists k :: 0 <= k < |userIds| && FirstChatWith(chats, userIds[k]) == Err(r.error) &&
                                   forall i :: 0 <= i < k ==> FirstChatWith(chats, userIds[i]).Ok?
  {
    if userIds == [] then Ok([])
    else
      var first := FirstChatWith(chats, userIds[0]);
      var rest := ChatIdsOf(chats, userIds[1..]);
      assert forall i :: 1 <= i < |userIds| ==> userIds[1..][i - 1] == userIds[i];
      if first.Err? then Err(first.error)
      else if rest.Err? then
        assert exists k :: 0 <= k < |userIds[1..]| && FirstChatWith(chats, userIds[1..][k]) == Err(rest.error) &&
                           forall i :: 0 <= i < k ==> FirstChatWith(chats, userIds[1..][i]).Ok?;
        var k :| 0 <= k < |userIds[1..]| && FirstChatWith(chats, userIds[1..][k]) == Err(rest.error) &&
                 forall i :: 0 <= i < k ==> FirstChatWith(chats, userIds[1..][i]).Ok?;
        assert FirstChatWith(chats, userIds[k + 1]) == Err(rest.error);
        Err(rest.error)
      else Ok([first.value] + rest.value)
  }

  const EmptyUserIds: string := "User IDs list cannot be empty."
  const ChatIdsError: string := "Error fetching chat IDs: "
  const NoChats: string := "No chats found for the authenticated user."

  /**
   * `get_chat_ids(user_ids)`: an error for an empty list; otherwise the chats
   * (an error when fetching them failed or none came back) and, per user in
   * order, the id of the first one-on-one chat with that user, or None; a
   * members request that fails on the way raises, and every raise after the
   * empty-list check comes out as "Error fetching chat IDs: ...".
   */
  method GetChatIds(userIds: seq<Option<string>>, allChats: Result<seq<Chat>, string>) returns (r: Result<seq<Option<string>>, string>)
    ensures userIds == [] ==> r == Err(EmptyUserIds)
    ensures userIds != [] && allChats.Err? ==> r == Err(ChatIdsError + allChats.error)
    ensures userIds != [] && allChats == Ok([]) ==>
              r == Err(ChatIdsError + NoChats)
    ensures userIds != [] && allChats.Ok? && allChats.value != [] ==>
              && (ChatIdsOf(allChats.value, userIds).Ok? ==> r == ChatIdsOf(allChats.value, userIds))
              && (ChatIdsOf(allChats.value, userIds).Err? ==> r == Err(ChatIdsError + ChatIdsOf(allChats.value, userIds).error))
  {
    if userIds == [] {
      return Err(EmptyUserIds);
    }
    if allChats.Err? {
      return Err(ChatIdsError + allChats.error);
    }
    var chats := allChats.value;
    if chats == [] {
      return Err(ChatIdsError + NoChats);
    }
    var chatIds: seq<Option<string>> := [];
    var k := 0;
    while k < |userIds|
      invariant 0 <= k <= |userIds| && |chatIds| == k
      invariant forall i :: 0 <= i < k ==> FirstChatWith(chats, userIds[i]) == Ok(chatIds[i])
    {
      var matched := MatchChat(chats, userIds[k]);
      if matched.Err? {
        ChatIdsFirstFailure(chats, userIds, k);
        return Err(ChatIdsError + matched.error);
      }
      chatIds := chatIds + [matched.value];
      k := k + 1;
    }
    assert ChatIdsOf(chats, userIds).value == chatIds;
    return Ok(chatIds);
  }

  /** When the searches before user `k` succeed and the search for `k` fails, the collected answer is that failure. */
  lemma {:induction false} ChatIdsFirstFailure(chats: seq<Chat>, userIds: seq<Option<string>>, k: nat)
    requires k < |userIds| && FirstChatWith(chats, userIds[k]).Err?
    requires forall i :: 0 <= i < k ==> FirstChatWith(chats, userIds[i]).Ok?
    ensures ChatIdsOf(chats, userIds) == Err(FirstChatWith(chats, userIds[k]).error)
  {
    if k > 0 {
      assert forall i :: 0 <= i < k - 1 ==> userIds[1..][i] == userIds[i + 1];
      ChatIdsFirstFailure(chats, userIds[1..], k - 1);
    }
  }

  /** An attendee of the `findMeetingTimes` request. */
  datatype RequestAttendee = RequestAttendee(address: string, attendeeType: string)

  /** A date-time with its time zone, as Graph writes both. */
  datatype DateTimeTimeZone = DateTimeTimeZone(dateTime: string, timeZone: string)

  /** The body of `me/findMeetingTimes`. */
  datatype FindMeetingTimesBody =
    FindMeetingTimesBody(attendees: seq<RequestAttendee>, timeslots: seq<(DateTimeTimeZone, DateTimeTimeZone)>,
                         meetingDuration: string)

  /** `f"PT{duration}M"`: the ISO 8601 duration of that many minutes. */
  function DurationMinutes(duration: int): (d: string)
    ensures |d| >= 4 && d[..2] == "PT" && d[|d| - 1] == 'M'
  {
    "PT" + IntToString(duration) + "M"
  }

  /** The minute count of the duration string reads back as the meeting's duration. */
  lemma DurationRoundTrip(duration: nat)
    ensures var d := DurationMinutes(duration); AllDigits(d[2..|d| - 1]) && ParseDecimal(d[2..|d| - 1]) == duration
  {
    var d := DurationMinutes(duration);
    assert d[2..|d| - 1] == NatToString(duration);
    ParseNatToString(duration);
  }

  /**
   * The request of `get_meeting_times_slots`: every attendee and then the host,
   * all "Required"; one time slot from start to end in the given zone; the
   * duration in minutes.
   */
  function MeetingTimesBody(attendees: seq<string>, hostEmail: string, start: string, end: string,
                            timeZone: string, duration: int): (b: FindMeetingTimesBody)
    ensures |b.attendees| == |attendees| + 1
    ensures forall i :: 0 <= i < |attendees| ==> b.attendees[i] == RequestAttendee(attendees[i], "Required")
    ensures b.attendees[|attendees|] == RequestAttendee(hostEmail, "Required")
    ensures b.timeslots == [(DateTimeTimeZone(start, timeZone), DateTimeTimeZone(end, timeZone))]
    ensures b.meetingDuration == DurationMinutes(duration)
  {
    var everyone := attendees + [hostEmail];
    FindMeetingTimesBody(
      seq(|everyone|, i requires 0 <= i < |everyone| => RequestAttendee(everyone[i], "Required")),
      [(DateTimeTimeZone(start, timeZone), DateTimeTimeZone(end, timeZone))],
      DurationMinutes(duration))
  }

  /** The availability of one attendee in a suggestion. */
  datatype Availability = Availability(address: string, availability: string)

  /** One entry of `meetingTimeSuggestions`. */
  datatype Suggestion = Suggestion(confidence: real, attendeeAvailability: seq<Availability>, start: string, end: string)

  /** One slot returned by `get_meeting_times_slots`. */
  datatype Slot = Slot(confidence: real, attendeeAvailability: seq<Availability>, start: string, end: string)

  /**
   * The loop of `get_meeting_times_slots` over the suggestions: an error when
   * there are none; otherwise one slot per suggestion in order, with the start
   * and end normalised by `parse` (`parse_datetime(...).isoformat()`), and the
   * error of the first suggestion whose start, then end, does not parse.
   */
  method FlattenSlots(suggestions: seq<Suggestion>, parse: string -> Option<string>) returns (r: Result<seq<Slot>, string>)
    ensures suggestions == [] ==> r == Err("No available meeting time slots found in the response.")
    ensures r.Ok? <==> suggestions != [] && forall i :: 0 <= i < |suggestions| ==>
                         parse(suggestions[i].start).Some? && parse(suggestions[i].end).Some?
    ensures r.Ok? ==> |r.value| == |suggestions| && forall i :: 0 <= i < |suggestions| ==>
              var s := suggestions[i];
              r.value[i] == Slot(s.confidence, s.attendeeAvailability, parse(s.start).value, parse(s.end).value)
    ensures r.Err? && suggestions != [] ==>
              exists i :: (0 <= i < |suggestions| &&
                (forall j :: 0 <= j < i ==> parse(suggestions[j].start).Some? && parse(suggestions[j].end).Some?) &&
                r.error == (if parse(suggestions[i].start).None?
                            then "Invalid start datetime format: " + suggestions[i].start
                            else "Invalid end datetime format: " + suggestions[i].end))
  {
    if suggestions == [] {
      return Err("No available meeting time slots found in the response.");
    }
    var slots: seq<Slot> := [];
    var i := 0;
    while i < |suggestions|
      invariant 0 <= i <= |suggestions| && |slots| == i
      invariant forall j :: 0 <= j < i ==> parse(suggestions[j].start).Some? && parse(suggestions[j].end).Some?
      invariant forall j :: 0 <= j < i ==>
                  var s := suggestions[j];
                  slots[j] == Slot(s.confidence, s.attendeeAvailability, parse(s.start).value, parse(s.end).value)
    {
      var s := suggestions[i];
      var startDt := parse(s.start);
      if startDt.None? {
        return Err("Invalid start datetime format: " + s.start);
      }
      var endDt := parse(s.end);
      if endDt.None? {
        return Err("Invalid end datetime format: " + s.end);
      }
      slots := slots + [Slot(s.confidence, s.attendeeAvailability, startDt.value, endDt.value)];
      i := i + 1;
    }
    return Ok(slots);
  }

  /** An attendee of a new event. */
  datatype EventAttendee = EventAttendee(attendeeType: string, address: string)

  /** The body of a new event. */
  datatype ItemBody = ItemBody(contentType: string, content: string)

  /** The `new_event` dictionary of `create_event`; an absent key is None. */
  datatype NewEvent = NewEvent(
    subject: string, start: DateTimeTimeZone, end: DateTimeTimeZone, location: string,
    isOnlineMeeting: bool, onlineMeetingProvider: string,
    attendees: Option<seq<EventAttendee>>, body: Option<ItemBody>)

  /**
   * The payload built by `create_event`: a Teams online meeting; one 'required'
   * attendee per e-mail in order, the key left out when there are none; a text
   * body only when a non-empty one is given.
   */
  method CreateEventPayload(subject: string, start: string, end: string, attendees: seq<string>,
                            body: Option<string>, timeZone: string) returns (e: NewEvent)
    ensures e.subject == subject && e.start == DateTimeTimeZone(start, timeZone) && e.end == DateTimeTimeZone(end, timeZone)
    ensures e.isOnlineMeeting && e.onlineMeetingProvider == "teamsForBusiness" && e.location == "Teams 線上會議"
    ensures e.attendees.None? <==> attendees == []
    ensures e.attendees.Some? ==>
              (|e.attendees.value| == |attendees| &&
               forall i :: 0 <= i < |attendees| ==> e.attendees.value[i] == EventAttendee("required", attendees[i]))
    ensures e.body.Some? <==> body.Some? && body.value != ""
    ensures e.body.Some? ==> e.body.value == ItemBody("text", body.value)
  {
    e := NewEvent(subject, DateTimeTimeZone(start, timeZone), DateTimeTimeZone(end, timeZone), "Teams 線上會議",
                  true, "teamsForBusiness", None, None);
    if attendees != [] {
      var attendeeList: seq<EventAttendee> := [];
      var i := 0;
      while i < |attendees|
        invariant 0 <= i <= |attendees| && |attendeeList| == i
        invariant forall j :: 0 <= j < i ==> attendeeList[j] == EventAttendee("required", attendees[j])
      {
        attendeeList := attendeeList + [EventAttendee("required", attendees[i])];
        i := i + 1;
      }
      e := e.(attendees := Some(attendeeList));
    }
    if body.Some? && body.value != "" {
      e := e.(body := Some(ItemBody("text", body.value)));
    }
  }

  /** A user of the `users` search, with the fields it selects; a missing field is None. */
  datatype GraphUser = GraphUser(displayName: Option<string>, mail: Option<string>, userPrincipalName: Option<string>)

  /** One contact of the search result. */
  datatype Contact = Contact(name: string, email: string)

  /** The ways `search_email` fails. */
  datatype SearchError =
    | QueryRequired                 // ValueError("Query parameter is required")
    | RequestFailed(reason: string) // the request raised
    | InvalidResponse               // ValueError("Invalid response from Graph API")
    | DictHasNoJson                 // AttributeError: the decoded dict has no `json`

  /** The answer of the `users` request: the error it raised, or the decoded body's `value` (None when absent). */
  type UsersAnswer = Result<Option<seq<GraphUser>>, string>

  /** `user.get("mail") or user.get("userPrincipalName")`, with a missing or empty value as "". */
  function EmailOf(u: GraphUser): (email: string)
    ensures email != "" ==> Some(email) == u.mail || Some(email) == u.userPrincipalName
    ensures u.mail.Some? && u.mail.value != "" ==> email == u.mail.value
  {
    if u.mail.Some? && u.mail.value != "" then u.mail.value else u.userPrincipalName.GetOr("")
  }

  /** The contacts the search is meant to return: users with an e-mail, in order. */
  function ContactsOf(users: seq<GraphUser>): seq<Contact>
  {
    if users == [] then []
    else
      var u := users[|users| - 1];
      ContactsOf(users[..|users| - 1])
        + (if EmailOf(u) != "" then [Contact(u.displayName.GetOr(""), EmailOf(u))] else [])
  }

  /** User `u` stands for contact `c`: it has an e-mail, and `c` carries its name and that e-mail. */
  predicate Yields(u: GraphUser, c: Contact) {
    EmailOf(u) != "" && c == Contact(u.displayName.GetOr(""), EmailOf(u))
  }

  /** A contact is returned exactly when some user has that name and a non-empty e-mail. */
  lemma {:induction false} ContactsOfMembership(users: seq<GraphUser>, c: Contact)
    ensures c in ContactsOf(users) <==> exists i :: 0 <= i < |users| && Yields(users[i], c)
  {
    if users != [] {
      var front := users[..|users| - 1];
      ContactsOfMembership(front, c);
      if exists i :: 0 <= i < |front| && Yields(front[i], c) {
        var i :| 0 <= i < |front| && Yields(front[i], c);
        assert users[i] == front[i];
      }
      if exists i :: 0 <= i < |users| && Yields(users[i], c) {
        var i :| 0 <= i < |users| && Yields(users[i], c);
        if i < |front| {
          assert front[i] == users[i];
        }
      }
    }
  }

  /** `query` is missing or "" (falsy in Python). */
  predicate Falsy(query: Option<string>) {
    query.None? || query.value == ""
  }

  /**
   * `search_email` as written: after the guards and the "value" check it calls
   * `.json()` on the dictionary that `.json()` already returned, which raises.
   */
  function SearchEmailAsWritten(query: Option<string>, answer: UsersAnswer): Result<seq<Contact>, SearchError>
  {
    if Falsy(query) then Ok([])
    else if Strip(query.value) == "" then Err(QueryRequired)
    else if answer.Err? then Err(RequestFailed(answer.error))
    else if answer.value.None? then Err(InvalidResponse)
    else Err(DictHasNoJson)
  }

  /** As written, no query that survives the guards ever returns contacts. */
  lemma SearchEmailAsWrittenNeverFinds(query: string, answer: UsersAnswer)
    requires Strip(query) != ""
    ensures SearchEmailAsWritten(Some(query), answer).Err?
  {
  }

  /** As written, a query that is not blank fails even when the directory answers with users. */
  lemma SearchEmailAsWrittenFails(query: string, users: seq<GraphUser>)
    requires Strip(query) != ""
    ensures SearchEmailAsWritten(Some(query), Ok(Some(users))) == Err(DictHasNoJson)
  {
  }

  /** The query of the counterexample. */
  const AnnQuery: string := "ann"

  /** The directory entry of the counterexample. */
  const Ann: GraphUser := GraphUser(Some("Ann"), Some("ann@x.com"), None)

  /** Ann is a contact: a search that worked would return her. */
  lemma AnnIsContact()
    ensures ContactsOf([Ann]) == [Contact("Ann", "ann@x.com")]
  {
    OneContact(Ann);
  }

  /**
   * The counterexample: the query "ann" and one user Ann with an e-mail; the
   * user is a contact (AnnIsContact), yet the search fails.
   */
  lemma SearchEmailAsWrittenCounterexample()
    ensures SearchEmailAsWritten(Some(AnnQuery), Ok(Some([Ann]))) == Err(DictHasNoJson)
  {
    StripKeeps(AnnQuery);
    SearchEmailAsWrittenFails(AnnQuery, [Ann]);
  }

  /** A single user with an e-mail gives a single contact. */
  lemma OneContact(u: GraphUser)
    requires u.mail.Some? && u.mail.value != ""
    ensures ContactsOf([u]) == [Contact(u.displayName.GetOr(""), u.mail.value)]
  {
    assert [u][..0] == [];
  }

  /**
   * `search_email` as intended: [] for a missing or empty query, an error for a
   * blank one, the request's errors, and otherwise the contacts of the users
   * found, built by the loop over `data["value"]`.
   */
  method SearchEmail(query: Option<string>, answer: UsersAnswer) returns (r: Result<seq<Contact>, SearchError>)
    ensures Falsy(query) ==> r == Ok([])
    ensures !Falsy(query) && Strip(query.value) == "" ==> r == Err(QueryRequired)
    ensures !Falsy(query) && Strip(query.value) != "" ==>
              r == match answer
                   case Err(e) => Err(RequestFailed(e))
                   case Ok(None) => Err(InvalidResponse)
                   case Ok(Some(users)) => Ok(ContactsOf(users))
  {
    if Falsy(query) {
      return Ok([]);
    }
    var q := Strip(query.value);
    if q == "" {
      return Err(QueryRequired);
    }
    if answer.Err? {
      return Err(RequestFailed(answer.error));
    }
    if answer.value.None? {
      return Err(InvalidResponse);
    }
    var contacts := CollectContacts(answer.value.value);
    r := Ok(contacts);
  }

  /** The loop over `data["value"]`: one contact per user with an e-mail, in order. */
  method CollectContacts(users: seq<GraphUser>) returns (contacts: seq<Contact>)
    ensures contacts == ContactsOf(users)
  {
    contacts := [];
    var i := 0;
    while i < |users|
      invariant 0 <= i <= |users|
      invariant contacts == ContactsOf(users[..i])
    {
      assert users[..i + 1][..i] == users[..i];
      var email := EmailOf(users[i]);
      if email != "" {
        contacts := contacts + [Contact(users[i].displayName.GetOr(""), email)];
      }
      i := i + 1;
    }
    assert users[..i] == users;
  }
}
