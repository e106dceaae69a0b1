/**
 * The watch party page: the movie chosen by the route id ("create" shows
 * the movie picker instead), the shared play button, the party members and
 * the party chat.
 *
 * The clock text of a chat message comes from the browser's locale and is a
 * parameter; member avatars are left out.
 */
module WatchParty {
  import opened Wrappers
  import opened Text
  import opened Seqs
  import opened MockData
  import ClockFormat

  datatype PartyMember = PartyMember(id: string, name: string, isHost: bool, isOnline: bool)

  datatype PartyMessage = PartyMessage(id: string, user: string, message: string, timestamp: string)

  const PartyMembers: seq<PartyMember> := [
    PartyMember("1", "You", true, true),
    PartyMember("2", "Sarah Johnson", false, true),
    PartyMember("3", "Mike Chen", false, true),
    PartyMember("4", "Emma Davis", false, false)]

  const InitialMessages: seq<PartyMessage> := [
    PartyMessage("1", "Sarah Johnson", "Hey everyone! Ready for movie night? \U{1F37F}", "8:30 PM"),
    PartyMessage("2", "Mike Chen", "Absolutely! This movie looks amazing", "8:31 PM"),
    PartyMessage("3", "You", "Let's start in 2 minutes!", "8:32 PM")]

  /** The route id that shows the movie picker. */
  const CreateId := "create"

  /** The movies the picker offers. */
  function CreateChoices(catalogue: seq<Movie>): (r: seq<Movie>)
    ensures |r| <= 8 && r <= catalogue
  {
    Take(catalogue, 8)
  }

  predicate IsOnline(m: PartyMember)
  {
    m.isOnline
  }

  /** The number in "Party with N friends". */
  function OnlineCount(members: seq<PartyMember>): (r: nat)
    ensures r <= |members|
  {
    |Filter(members, IsOnline)|
  }

  /** Members online and offline add up to the party; the mock party has three of four online. */
  lemma OnlineCountSplit(members: seq<PartyMember>)
    ensures OnlineCount(members) + |Filter(members, (m: PartyMember) => !m.isOnline)| == |members|
    ensures OnlineCount(PartyMembers) == 3
  {
    FilterPartition(members, IsOnline, (m: PartyMember) => !m.isOnline);
    var p := PartyMembers;
    assert p[1..][1..][1..][1..] == [];
    assert Filter(p, IsOnline) == [p[0]] + Filter(p[1..], IsOnline);
    assert Filter(p[1..], IsOnline) == [p[1]] + Filter(p[1..][1..], IsOnline);
    assert Filter(p[1..][1..], IsOnline) == [p[2]] + Filter(p[1..][1..][1..], IsOnline);
  }

  class WatchPartyPage {
    const catalogue: seq<Movie>
    var movie: Option<Movie>
    var isPlaying: bool
    /** The position shown under the progress bar; no handler ever changes it. */
    const currentTime: nat
    var chatMessage: string
    var chatMessages: seq<PartyMessage>

    constructor (movieCatalogue: seq<Movie>)
      ensures catalogue == movieCatalogue && movie == None && !isPlaying && currentTime == 0
      ensures chatMessage == "" && chatMessages == InitialMessages
    {
      catalogue := movieCatalogue;
      movie := None;
      isPlaying := false;
      currentTime := 0;
      chatMessage := "";
      chatMessages := InitialMessages;
    }

    /** The effect on the route id: an id other than "create" that names a catalogue movie shows it. */
    method Load(id: Option<string>)
      modifies this
      ensures id.Some? && id.value != CreateId && Find(catalogue, (m: Movie) => m.id == id.value).Some? ==>
        movie == Find(catalogue, (m: Movie) => m.id == id.value)
      ensures !(id.Some? && id.value != CreateId && Find(catalogue, (m: Movie) => m.id == id.value).Some?) ==>
        movie == old(movie)
      ensures isPlaying == old(isPlaying) && chatMessages == old(chatMessages) && chatMessage == old(chatMessage)
    {
      if id.Some? && id.value != CreateId {
        var k := FindIndex(catalogue, (m: Movie) => m.id == id.value);
        if k.Some? {
          movie := Some(catalogue[k.value]);
        }
      }
    }

    /** Both play buttons flip the same flag. */
    method TogglePlay()
      modifies this
      ensures isPlaying == !old(isPlaying)
      ensures movie == old(movie) && chatMessages == old(chatMessages) && chatMessage == old(chatMessage)
    {
      isPlaying := !isPlaying;
    }

    method TypeMessage(text: string)
      modifies this
      ensures chatMessage == text && chatMessages == old(chatMessages) && movie == old(movie)
    {
      chatMessage := text;
    }

    /**
     * `handleSendMessage`: a message that is not blank is appended as typed,
     * from "You", and the input is cleared; a blank one changes nothing.
     */
    method HandleSendMessage(now: nat, clockText: string)
      modifies this
      ensures !IsBlank(old(chatMessage)) ==>
        chatMessages == old(chatMessages) + [PartyMessage(NatToString(now), "You", old(chatMessage), clockText)] &&
        chatMessage == ""
      ensures IsBlank(old(chatMessage)) ==> chatMessages == old(chatMessages) && chatMessage == old(chatMessage)
      ensures movie == old(movie) && isPlaying == old(isPlaying)
    {
      TrimEmptyIffBlank(chatMessage);
      if Trim(chatMessage) != "" {
        chatMessages := chatMessages + [PartyMessage(NatToString(now), "You", chatMessage, clockText)];
        chatMessage := "";
      }
    }

    /** The text under the progress bar, which stays at the start. */
    function ProgressText(): (r: string)
      reads this
      ensures currentTime == 0 ==> r == "0:00"
      ensures ClockFormat.ParseClock(r) == Some([currentTime / 60, currentTime % 60])
    {
      ClockFormat.MinutesSecondsRoundTrip(currentTime);
      assert TwoDigits(0) == "00";
      ClockFormat.FormatMinutesSeconds(currentTime)
    }
  }
}
