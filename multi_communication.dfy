/**
 * The chat-and-video panel of the multiplayer page.
 *
 * - Joining reads the player's name and room from the page's query and
 *   announces the player with a notice that carries the joining time as
 *   "H:MM": hours unpadded, minutes padded to two digits.
 * - Posting composes a message under the player's own id and name (the
 *   placeholder glyph for an empty input) and clears the input.  The panel
 *   does not append its own message: it reaches the history only if the
 *   server sends it back to the sender as an incoming message.
 * - Incoming messages and notices are appended to the history in order of
 *   arrival; incoming remote video streams to the stream list.  (The source's
 *   stream handler throws before its append: `StreamHandlerAsWritten` models
 *   it as written, `Communication.ReceiveStream` the append it intends.)
 * - The four video slots take the remote streams in arrival order, and the
 *   shared `localVideo` ref where there is no stream for the slot.
 */
module MultiCommunication {
  import opened Wrappers
  import opened Decimal
  import opened ChatText

  /** The query parameter holding the player's name. */
  const NameParam := "name"
  /** The query parameter holding the room. */
  const RoomParam := "room"

  /** A chat message or a presence notice as it travels and as the history keeps it. */
  datatype ChatMessage = ChatMessage(userId: string, userName: Option<string>, userMsg: string)

  /** The join request announced to the room. */
  datatype JoinRequest = JoinRequest(userId: string, userName: Option<string>, userRoom: Option<string>, userMsg: string)

  /** The value of a query parameter; `None` when the query lacks it. */
  function Lookup(query: map<string, string>, key: string): (v: Option<string>)
    ensures v.Some? <==> key in query
    ensures v.Some? ==> v.value == query[key]
  {
    if key in query then Some(query[key]) else None
  }

  // ---- the join notice ----

  /**
   * The minutes of the clock: a leading '0' below ten.  The result is at least
   * two digits long and denotes the minutes.
   */
  function MinuteText(minutes: nat): (t: string)
    ensures |t| >= 2 && AllDigits(t)
    ensures ParseDigits(t) == minutes
  {
    ParseNatToString(minutes);
    if minutes < 10 then
      var t := "0" + NatToString(minutes);
      assert NatToString(minutes) == [DigitChar(minutes)];
      ParseDigitsSnoc("0", DigitChar(minutes));
      assert t == "0" + [DigitChar(minutes)];
      assert ParseDigits("0") == ParseDigits([]) * 10 + DigitValue('0');
      t
    else
      NatToString(minutes)
  }

  /**
   * The clock "H:MM" of the join notice: the printed hours, one ':', then the
   * minute digits; every other character is a digit.
   */
  function ClockText(hours: nat, minutes: nat): (t: string)
    ensures var k := |NatToString(hours)|;
            k < |t| && t[k] == ':' && t[..k] == NatToString(hours) && t[k + 1..] == MinuteText(minutes)
    ensures forall j :: 0 <= j < |t| ==> (t[j] == ':' <==> j == |NatToString(hours)|)
  {
    var h, m := NatToString(hours), MinuteText(minutes);
    var t := h + ":" + m;
    assert forall j :: 0 <= j < |h| ==> t[j] == h[j];
    assert forall j :: |h| < j < |t| ==> t[j] == m[j - |h| - 1];
    t
  }

  /** The text of the template literal before the clock (the line ends after "at "). */
  const NoticePrefix: string := "I have joined the game ヾ(・ﻌ・)ゞ at \n        "
  /** The text of the template literal after the clock. */
  const NoticeSuffix: string := "\n        "

  /** The join notice for a clock reading of `hours`:`minutes`: the fixed greeting, the clock, the template's closing whitespace. */
  function JoinNotice(hours: nat, minutes: nat): (s: string)
    ensures |s| == |NoticePrefix| + |ClockText(hours, minutes)| + |NoticeSuffix|
    ensures s[..|NoticePrefix|] == NoticePrefix && s[|s| - |NoticeSuffix|..] == NoticeSuffix
    ensures s[|NoticePrefix|..|s| - |NoticeSuffix|] == ClockText(hours, minutes)
  {
    NoticePrefix + ClockText(hours, minutes) + NoticeSuffix
  }

  /** Minutes of an hour (0 to 59) always print as exactly two digits that read back as the minutes. */
  lemma MinuteTextTwoDigits(minutes: nat)
    requires minutes < 60
    ensures |MinuteText(minutes)| == 2 && AllDigits(MinuteText(minutes))
    ensures ParseDigits(MinuteText(minutes)) == minutes
  {
  }

  /** The hours print unpadded: the shortest numeral, with a leading '0' only for hour 0. */
  lemma HourTextUnpadded(hours: nat, minutes: nat)
    ensures var c := ClockText(hours, minutes);
            exists k :: 0 < k < |c| && c[k] == ':' && Canonical(c[..k]) && ParseDigits(c[..k]) == hours &&
                        (k == 1 <==> hours < 10)
    ensures hours >= 10 ==> ClockText(hours, minutes)[0] != '0'
    ensures hours < 10 ==> ClockText(hours, minutes)[1] == ':'
  {
    var c := ClockText(hours, minutes);
    var k := |NatToString(hours)|;
    ParseNatToString(hours);
    assert c[..k] == NatToString(hours);
    assert c[0] == c[..k][0];
  }

  /** The position of the first ':' in `s`, if any. */
  function ColonIndex(s: string): (r: Option<nat>)
    ensures r.Some? ==> r.value < |s| && s[r.value] == ':' && forall j :: 0 <= j < r.value ==> s[j] != ':'
    ensures r.None? ==> forall j :: 0 <= j < |s| ==> s[j] != ':'
    decreases |s|
  {
    if s == [] then None
    else if s[0] == ':' then Some(0)
    else match ColonIndex(s[1..])
      case None => None
      case Some(i) => Some(i + 1)
  }

  /**
   * Read a clock back: a canonical hour numeral, ':', two minute digits below
   * 60.  The reading direction of `ClockText`.
   */
  function ParseClock(s: string): Option<(nat, nat)> {
    match ColonIndex(s)
    case None => None
    case Some(i) =>
      var h, m := s[..i], s[i + 1..];
      if Canonical(h) && |m| == 2 && AllDigits(m) && ParseDigits(m) < 60
      then Some((ParseDigits(h), ParseDigits(m)))
      else None
  }

  /** The clock of a join notice reads back as the hours and minutes it was made from. */
  lemma ClockRoundTrip(hours: nat, minutes: nat)
    requires minutes < 60
    ensures ParseClock(ClockText(hours, minutes)) == Some((hours, minutes))
  {
    var h := NatToString(hours);
    var s := ClockText(hours, minutes);
    assert forall j :: 0 <= j < |h| ==> s[j] == h[j];
    assert s[|h|] == ':';
    assert ColonIndex(s) == Some(|h|);
    assert s[..|h|] == h;
    assert s[|h| + 1..] == MinuteText(minutes);
    MinuteTextTwoDigits(minutes);
    ParseNatToString(hours);
  }

  /** Every clock string that reads back is the clock of exactly the time it reads as. */
  lemma ClockParseRoundTrip(s: string)
    requires ParseClock(s).Some?
    ensures var (hours, minutes) := ParseClock(s).value;
            minutes < 60 && ClockText(hours, minutes) == s
  {
    var i := ColonIndex(s).value;
    var h, m := s[..i], s[i + 1..];
    assert s == h + ":" + m;
    var hours, minutes := ParseDigits(h), ParseDigits(m);
    assert ParseClock(s) == Some((hours, minutes));
    NatToStringParse(h);
    MinuteTextTwoDigits(minutes);
    SameTwoDigits(MinuteText(minutes), m);
    ClockTextSplits(hours, minutes);
  }

  /** The clock text is the printed hours, ':', and the minute text. */
  lemma ClockTextSplits(hours: nat, minutes: nat)
    ensures ClockText(hours, minutes) == NatToString(hours) + ":" + MinuteText(minutes)
  {
  }

  /** Two two-digit strings with the same value are the same string. */
  lemma SameTwoDigits(t: string, m: string)
    requires |t| == 2 && AllDigits(t) && |m| == 2 && AllDigits(m)
    requires ParseDigits(t) == ParseDigits(m)
    ensures t == m
  {
    DigitsOfTwo(t);
    DigitsOfTwo(m);
    assert DigitValue(t[1]) == DigitValue(m[1]);
    assert DigitValue(t[0]) == DigitValue(m[0]);
    assert t[0] == DigitChar(DigitValue(t[0])) == m[0];
    assert t[1] == DigitChar(DigitValue(t[1])) == m[1];
  }

  /** The value of a two-digit string, digit by digit. */
  lemma DigitsOfTwo(t: string)
    requires |t| == 2 && AllDigits(t)
    ensures ParseDigits(t) == DigitValue(t[0]) * 10 + DigitValue(t[1])
  {
    assert t[..1] == [t[0]];
    assert [t[0]][..0] == [];
    assert ParseDigits(t[..1]) == ParseDigits([]) * 10 + DigitValue(t[0]);
  }

  /** The clock sits between the notice's fixed text, and reads back as the time of joining. */
  lemma JoinNoticeClock(hours: nat, minutes: nat)
    requires minutes < 60
    ensures var s := JoinNotice(hours, minutes);
            |NoticePrefix| + |NoticeSuffix| <= |s| &&
            s[..|NoticePrefix|] == NoticePrefix && s[|s| - |NoticeSuffix|..] == NoticeSuffix &&
            ParseClock(s[|NoticePrefix|..|s| - |NoticeSuffix|]) == Some((hours, minutes))
  {
    var s := JoinNotice(hours, minutes);
    assert s[|NoticePrefix|..|s| - |NoticeSuffix|] == ClockText(hours, minutes);
    assert s[..|NoticePrefix|] == NoticePrefix;
    ClockRoundTrip(hours, minutes);
  }

  // ---- the video slots ----

  /** What one video slot is given: a remote stream, or the `localVideo` ref that all four slots share. */
  datatype SlotSource<V> = Remote(stream: V) | LocalVideo

  /**
   * The four slots: slot k (k = 1, 2, 3) shows stream k-1 when there are at
   * least k streams; slot 4 shows stream 3 only when there are exactly four.
   */
  function Slots<V>(streams: seq<V>): (r: seq<SlotSource<V>>)
    ensures |r| == 4
    ensures forall k :: 0 <= k < 4 ==> r[k] == LocalVideo || (k < |streams| && r[k] == Remote(streams[k]))
  {
    [ if |streams| >= 1 then Remote(streams[0]) else LocalVideo,
      if |streams| >= 2 then Remote(streams[1]) else LocalVideo,
      if |streams| >= 3 then Remote(streams[2]) else LocalVideo,
      if |streams| == 4 then Remote(streams[3]) else LocalVideo ]
  }

  /** Slot k (1 to 3) shows a remote stream exactly when at least k streams exist; slot 4 exactly when four do. */
  lemma SlotRule<V>(streams: seq<V>)
    ensures Slots(streams)[0].Remote? <==> |streams| >= 1
    ensures Slots(streams)[1].Remote? <==> |streams| >= 2
    ensures Slots(streams)[2].Remote? <==> |streams| >= 3
    ensures Slots(streams)[3].Remote? <==> |streams| == 4
  {
  }

  /** The remote streams the slots show, in slot order. */
  function Shown<V>(slots: seq<SlotSource<V>>): seq<V>
    decreases |slots|
  {
    if slots == [] then []
    else ShownBy(slots[0]) + Shown(slots[1..])
  }

  /**
   * With up to four streams every stream is shown, once, in arrival order;
   * with more, only the first three are shown and the fourth slot falls back
   * to the `localVideo` ref.
   */
  lemma ShownStreams<V>(streams: seq<V>)
    ensures |streams| <= 4 ==> Shown(Slots(streams)) == streams
    ensures |streams| > 4 ==> Shown(Slots(streams)) == streams[..3]
  {
    var r := Slots(streams);
    ShownOfFour(r);
    var n := |streams|;
    if n == 0 {
    } else if n == 1 {
      assert streams == [streams[0]];
    } else if n == 2 {
      assert streams == [streams[0], streams[1]];
    } else if n == 3 {
      assert streams == [streams[0], streams[1], streams[2]];
    } else if n == 4 {
      assert streams == [streams[0], streams[1], streams[2], streams[3]];
    } else {
      assert streams[..3] == [streams[0], streams[1], streams[2]];
    }
  }

  /** The streams a single slot shows. */
  function ShownBy<V>(slot: SlotSource<V>): seq<V> {
    match slot
    case Remote(v) => [v]
    case LocalVideo => []
  }

  lemma ShownOfFour<V>(r: seq<SlotSource<V>>)
    requires |r| == 4
    ensures Shown(r) == ShownBy(r[0]) + ShownBy(r[1]) + ShownBy(r[2]) + ShownBy(r[3])
  {
    var r1, r2, r3 := r[1..], r[2..], r[3..];
    assert r1[1..] == r2 && r2[1..] == r3 && r3[1..] == [];
    assert Shown(r3) == ShownBy(r[3]);
    assert Shown(r2) == ShownBy(r[2]) + Shown(r3);
    assert Shown(r1) == ShownBy(r[1]) + Shown(r2);
  }

  /**
   * The stream handler as the source writes it: it first stores the stream
   * into the element held by the `otherVideo` ref, then pushes that element.
   * The ref is never attached to a rendered element, so it holds null
   * (`None`), the store throws, and the push is never reached: the handler
   * then yields `None` and the stream list is left as it was.
   */
  function StreamHandlerAsWritten<V>(streams: seq<V>, otherVideo: Option<V>): (r: Option<seq<V>>)
    ensures r.None? <==> otherVideo.None?
    ensures r.Some? ==> r.value == streams + [otherVideo.value]
  {
    match otherVideo
    case None => None
    case Some(video) => Some(streams + [video])
  }

  /** The stream list after `events` stream events handled as written; a throwing event changes nothing. */
  function StreamsAsWritten<V>(streams: seq<V>, events: nat, otherVideo: Option<V>): seq<V>
    decreases events
  {
    if events == 0 then streams
    else
      var before := StreamsAsWritten(streams, events - 1, otherVideo);
      match StreamHandlerAsWritten(before, otherVideo)
      case None => before
      case Some(after) => after
  }

  /**
   * With the ref left null, no number of stream events ever adds a stream:
   * the list stays empty and all four slots take the local-video branch.
   * (A direct induction: the handler never yields a value when the ref is null.)
   */
  lemma {:induction false} NoStreamEverShown<V>(events: nat)
    ensures StreamsAsWritten<V>([], events, None) == []
    ensures Slots(StreamsAsWritten<V>([], events, None)) == [LocalVideo, LocalVideo, LocalVideo, LocalVideo]
    decreases events
  {
    if events > 0 {
      NoStreamEverShown<V>(events - 1);
    }
  }

  /** The panel's state. */
  class Communication<V> {
    /** The per-session player id. */
    const userId: string
    var userName: Option<string>
    var userRoom: Option<string>
    /** The chat input. */
    var userMsg: string
    var chatHistory: seq<ChatMessage>
    var videoStreams: seq<V>

    /** The initial hook values for a session with id `id`. */
    constructor (id: string)
      ensures userId == id && userName == Some([]) && userRoom == Some([]) && userMsg == []
      ensures chatHistory == [] && videoStreams == []
    {
      userId := id;
      userName := Some([]);
      userRoom := Some([]);
      userMsg := [];
      chatHistory := [];
      videoStreams := [];
    }

    /** Append one incoming message or notice to the history. */
    method UpdateChatHistory(incoming: ChatMessage)
      modifies this`chatHistory
      ensures chatHistory == old(chatHistory) + [incoming]
    {
      chatHistory := chatHistory + [incoming];
    }

    /**
     * The effect run when the page's location is known: take name and room
     * from the query and build the join request announcing the player at
     * the clock reading `hours`:`minutes`.
     */
    method Join(query: map<string, string>, hours: nat, minutes: nat) returns (request: JoinRequest)
      modifies this`userName, this`userRoom
      ensures userName == Lookup(query, NameParam) && userRoom == Lookup(query, RoomParam)
      ensures request == JoinRequest(userId, userName, userRoom, JoinNotice(hours, minutes))
    {
      userName := Lookup(query, NameParam);
      userRoom := Lookup(query, RoomParam);
      request := JoinRequest(userId, Lookup(query, NameParam), Lookup(query, RoomParam), JoinNotice(hours, minutes));
    }

    /** The input's change handler. */
    method Type(text: string)
      modifies this`userMsg
      ensures userMsg == text
    {
      userMsg := text;
    }

    /** The post button: compose the message to broadcast and clear the input. */
    method PostNewChat() returns (posted: ChatMessage)
      modifies this`userMsg
      ensures posted.userId == userId && posted.userName == userName
      ensures posted.userMsg == Body(old(userMsg))
      ensures userMsg == []
    {
      posted := ChatMessage(userId, userName, Placeholder);
      if |userMsg| != 0 {
        posted := posted.(userMsg := userMsg);
      }
      userMsg := [];
    }

    /** A remote stream arrives: append it to the stream list. */
    method ReceiveStream(video: V)
      modifies this`videoStreams
      ensures videoStreams == old(videoStreams) + [video]
    {
      videoStreams := videoStreams + [video];
    }

    /** The render's slot selection. */
    function VideoSlots(): (r: seq<SlotSource<V>>)
      reads this
      ensures r == Slots(videoStreams)
      ensures |videoStreams| <= 4 ==> Shown(r) == videoStreams
    {
      ShownStreams(videoStreams);
      Slots(videoStreams)
    }
  }
}
