/**
 * The live-events page: the countdown text of an upcoming event, the split
 * of the events into live and upcoming ones, and the chat of the selected
 * event (simulated messages kept to the last 50, and messages the viewer
 * sends).
 *
 * Times are milliseconds. The random interval and the random picks of the
 * simulated chat are parameters: each tick names the user and message it
 * picked.
 */
module LiveStream {
  import opened Wrappers
  import opened Text
  import opened Seqs

  datatype LiveEvent = LiveEvent(
    id: string,
    title: string,
    description: string,
    startTime: int,
    duration: nat,
    isLive: bool,
    viewerCount: nat,
    category: string,
    host: string)

  datatype ChatMessage = ChatMessage(id: string, user: string, message: string, timestamp: int, isHost: bool)

  const HourMs: nat := 3600000
  const MinuteMs: nat := 60000

  /** The three events, as the page builds them at time `now`. */
  function LiveEvents(now: int): seq<LiveEvent>
  {
    [LiveEvent("1", "CineStream Awards 2024 - Live Ceremony", "Join us for the biggest night in streaming entertainment",
       now + 3600000, 180, false, 0, "Awards", "CineStream Official"),
     LiveEvent("2", "Behind the Scenes: The Quantum Heist", "Exclusive behind-the-scenes content with cast and crew",
       now, 90, true, 15420, "Behind the Scenes", "Director Commentary"),
     LiveEvent("3", "Q&A with Midnight Chronicles Cast", "Live Q&A session with the stars of our hit series",
       now - 1800000, 60, true, 8934, "Q&A", "Cast & Crew")]
  }

  /** The chat every selection starts from. */
  function InitialChatMessages(now: int): seq<ChatMessage>
  {
    [ChatMessage("1", "MovieFan2024", "This is amazing! Love the behind-the-scenes content \U{F0}\U{178}\U{17D}\U{AC}", now - 300000, false),
     ChatMessage("2", "CineStream Official", "Welcome everyone! Thanks for joining us live!", now - 240000, true),
     ChatMessage("3", "SeriesAddict", "When will season 2 be released?", now - 180000, false),
     ChatMessage("4", "ActionLover", "The stunts in this movie were incredible!", now - 120000, false)]
  }

  const RandomMessages: seq<string> := [
    "This is so cool!", "Amazing content! \U{F0}\U{178}\U{201D}\U{A5}", "Love this show!", "When is the next episode?",
    "Best streaming platform ever!", "The cinematography is stunning", "Can't wait for more content like this"]

  const RandomUsers: seq<string> := ["StreamFan123", "MovieBuff", "CinemaLover", "BingeWatcher", "FilmCritic", "SeriesJunkie"]

  // ---------------------------------------------------------------------
  // Countdown

  /** How far off an event is, in the units the countdown shows. */
  datatype Countdown = LiveNow | StartsIn(hours: nat, minutes: nat)

  /**
   * The arithmetic of `getTimeUntilStart`, for `diff` milliseconds until the
   * start: whole hours, then the whole minutes left over.
   */
  function CountdownOf(diff: int): (c: Countdown)
    ensures c.LiveNow? <==> diff <= 0
    ensures c.StartsIn? ==> (c.minutes < 60 &&
      c.hours * HourMs + c.minutes * MinuteMs <= diff < c.hours * HourMs + (c.minutes + 1) * MinuteMs)
  {
    if diff <= 0 then LiveNow
    else StartsIn(diff / 3600000, (diff % 3600000) / 60000)
  }

  function CountdownText(c: Countdown): string
  {
    match c
    case LiveNow => "Live Now"
    case StartsIn(h, m) =>
      if h > 0 then "Starts in " + NatToString(h) + "h " + NatToString(m) + "m"
      else "Starts in " + NatToString(m) + "m"
  }

  /** `getTimeUntilStart(startTime)`, given `diff = startTime - now`. */
  function TimeUntilStart(diff: int): (r: string)
  {
    CountdownText(CountdownOf(diff))
  }

  /**
   * "Live Now" is shown exactly when the start is not in the future, and an
   * hour count appears exactly from one hour before the start on.
   */
  lemma TimeUntilStartShape(diff: int)
    ensures TimeUntilStart(diff) == "Live Now" <==> diff <= 0
    ensures 'h' in TimeUntilStart(diff) <==> diff >= HourMs
  {
    var c := CountdownOf(diff);
    var r := TimeUntilStart(diff);
    assert "Live Now"[0] == 'L';
    match c
    case LiveNow =>
      assert r == "Live Now";
      assert forall i :: 0 <= i < |r| ==> r[i] != 'h';
    case StartsIn(h, m) =>
      assert r[0] == 'S';
      DigitsHaveNo(NatToString(h), 'h');
      DigitsHaveNo(NatToString(m), 'h');
      var prefix := "Starts in ";
      assert forall i :: 0 <= i < |prefix| ==> prefix[i] != 'h';
      if h > 0 {
        assert r[|prefix| + |NatToString(h)|] == 'h';
      } else {
        assert r == prefix + NatToString(m) + "m";
        assert 'h' !in prefix + NatToString(m) + "m";
      }
  }

  // ---------------------------------------------------------------------
  // Live and upcoming

  predicate IsLive(e: LiveEvent)
  {
    e.isLive
  }

  predicate IsUpcoming(e: LiveEvent)
  {
    !e.isLive
  }

  /** The "Live Now" and "Upcoming Events" sections together show every event exactly once. */
  lemma SectionsPartitionEvents(events: seq<LiveEvent>)
    ensures |Filter(events, IsLive)| + |Filter(events, IsUpcoming)| == |events|
    ensures multiset(Filter(events, IsLive)) + multiset(Filter(events, IsUpcoming)) == multiset(events)
    ensures forall i :: 0 <= i < |Filter(events, IsLive)| ==> Filter(events, IsLive)[i].isLive
    ensures forall i :: 0 <= i < |Filter(events, IsUpcoming)| ==> !Filter(events, IsUpcoming)[i].isLive
  {
    FilterPartition(events, IsLive, IsUpcoming);
  }

  // ---------------------------------------------------------------------
  // Chat

  /** `list.slice(-50)`: the last 50 entries, or all of them when there are fewer. */
  function LastFifty(list: seq<ChatMessage>): (r: seq<ChatMessage>)
    ensures |r| == if |list| <= 50 then |list| else 50
    ensures r == list[|list| - |r|..]
  {
    if |list| <= 50 then list else list[|list| - 50..]
  }

  /** Appending and trimming keeps the new message last and never more than 50 messages. */
  lemma AppendTrimmed(list: seq<ChatMessage>, m: ChatMessage)
    ensures var r := LastFifty(list + [m]);
      |r| <= 50 && |r| >= 1 && r[|r| - 1] == m &&
      r[..|r| - 1] == list[|list| - (|r| - 1)..]
  {
    var l := list + [m];
    var r := LastFifty(l);
    var n := |r|;
    assert r[n - 1] == l[|l| - 1];
    assert r[..n - 1] == l[|l| - n..|l| - 1];
    assert l[|l| - n..|l| - 1] == list[|list| - (n - 1)..];
  }

  class LiveChat {
    var selectedEvent: Option<LiveEvent>
    var chatMessage: string
    var chatMessages: seq<ChatMessage>

    /** The page as mounted at time `now`: no event selected, and the chat effect has loaded the initial chat. */
    constructor (now: int)
      ensures selectedEvent == None && chatMessage == "" && chatMessages == InitialChatMessages(now)
    {
      selectedEvent := None;
      chatMessage := "";
      chatMessages := InitialChatMessages(now);
    }

    /** Choosing an event; the chat effect that runs on every selection resets the chat. */
    method SelectEvent(e: Option<LiveEvent>, now: int)
      modifies this
      ensures selectedEvent == e && chatMessages == InitialChatMessages(now) && chatMessage == old(chatMessage)
    {
      selectedEvent := e;
      chatMessages := InitialChatMessages(now);
    }

    method TypeMessage(text: string)
      modifies this
      ensures chatMessage == text && chatMessages == old(chatMessages) && selectedEvent == old(selectedEvent)
    {
      chatMessage := text;
    }

    /** One firing of the simulated-chat interval, with the user and message it drew. */
    method SimulatedMessage(userIndex: nat, messageIndex: nat, now: nat)
      requires userIndex < |RandomUsers| && messageIndex < |RandomMessages|
      modifies this
      ensures var m := ChatMessage(NatToString(now), RandomUsers[userIndex], RandomMessages[messageIndex], now, false);
        chatMessages == if selectedEvent.Some? && selectedEvent.value.isLive
                        then LastFifty(old(chatMessages) + [m]) else old(chatMessages)
      ensures selectedEvent == old(selectedEvent) && chatMessage == old(chatMessage)
    {
      if selectedEvent.Some? && selectedEvent.value.isLive {
        var m := ChatMessage(NatToString(now), RandomUsers[userIndex], RandomMessages[messageIndex], now, false);
        chatMessages := LastFifty(chatMessages + [m]);
      }
    }

    /**
     * `handleSendMessage`: a message that is not blank, sent while the
     * selected event is live, goes at the end as typed (untrimmed, no cap)
     * under the viewer's name or "You", and the input is cleared. Otherwise
     * nothing changes.
     */
    method HandleSendMessage(userName: Option<string>, now: nat)
      modifies this
      ensures var sent := Trim(old(chatMessage)) != "" && selectedEvent.Some? && selectedEvent.value.isLive;
        var author := if userName.Some? && userName.value != "" then userName.value else "You";
        (sent ==> chatMessages == old(chatMessages) + [ChatMessage(NatToString(now), author, old(chatMessage), now, false)] &&
                  chatMessage == "") &&
        (!sent ==> chatMessages == old(chatMessages) && chatMessage == old(chatMessage))
      ensures selectedEvent == old(selectedEvent)
    {
      if Trim(chatMessage) != "" && selectedEvent.Some? && selectedEvent.value.isLive {
        var author := if userName.Some? && userName.value != "" then userName.value else "You";
        chatMessages := chatMessages + [ChatMessage(NatToString(now), author, chatMessage, now, false)];
        chatMessage := "";
      }
    }
  }

  /** A whitespace-only message is never sent. */
  lemma BlankMessagesAreDropped(text: string)
    requires IsBlank(text)
    ensures Trim(text) == ""
  {
    TrimEmptyIffBlank(text);
  }
}
