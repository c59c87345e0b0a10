/** Chat (src/chat.rs): chat input either runs a `/time` or `/gamemode` command or is
    broadcast to the chat history, and players joining or leaving are announced. */
module Chat {
  import opened Wrappers
  import opened Items
  import Skybox
  import opened Players

  const I32_MAX: int := 0x7fff_ffff
  const CHAT_FONT_SIZE: real := 8.0
  const CHAT_TEXT_COLOR: string := "#ffffff"

  /** `messages::InterfaceTextUpdate`. */
  datatype TextUpdate = TextUpdate(interfacePath: string, index: int, text: string, fontSize: real, color: string)

  /** `messages::InterfaceTextInput` from a client. */
  datatype ChatMessage = ChatMessage(player: Entity, interfacePath: string, text: string)

  datatype TimeOfDay = Noon | Midnight | Sunrise | Sunset

  /** What a line of chat input asks for. */
  datatype Command =
    | SetTime(when: TimeOfDay)
    | SetGameMode(mode: GameMode)
    | Unrecognised
    | Say

  /** `str::strip_prefix`. */
  function StripPrefix(s: string, prefix: string): (r: Option<string>)
    ensures r.Some? <==> prefix <= s
    ensures r.Some? ==> s == prefix + r.value
  {
    if prefix <= s then Some(s[|prefix|..]) else None
  }

  predicate IsCommand(text: string) {
    |text| > 0 && text[0] == '/'
  }

  /** The command test of `handle_chat_messages`: text starting with `/` is a command and is
      never said; of the commands only four `/time` and two `/gamemode` arguments do
      anything. */
  function Classify(text: string): (c: Command)
    ensures c == Say <==> !IsCommand(text)
  {
    if !IsCommand(text) then Say
    else match StripPrefix(text, "/time ")
      case Some(when) =>
        if when == "noon" then SetTime(Noon)
        else if when == "midnight" then SetTime(Midnight)
        else if when == "sunrise" then SetTime(Sunrise)
        else if when == "sunset" then SetTime(Sunset)
        else Unrecognised
      case None =>
        match StripPrefix(text, "/gamemode ")
          case Some(mode) =>
            if mode == "0" then SetGameMode(Survival)
            else if mode == "1" then SetGameMode(Creative)
            else Unrecognised
          case None => Unrecognised
  }

  /** `/time ` followed by one of the four times of day selects that setter; any other
      argument does nothing. */
  lemma TimeCommand(when: string)
    ensures var c := Classify("/time " + when);
      && (when == "noon" ==> c == SetTime(Noon))
      && (when == "midnight" ==> c == SetTime(Midnight))
      && (when == "sunrise" ==> c == SetTime(Sunrise))
      && (when == "sunset" ==> c == SetTime(Sunset))
      && (when !in {"noon", "midnight", "sunrise", "sunset"} ==> c == Unrecognised)
  {
    var text := "/time " + when;
    assert StripPrefix(text, "/time ") == Some(when) by {
      assert text[|"/time "|..] == when;
    }
  }

  /** `/gamemode 0` selects Survival, `/gamemode 1` Creative; any other argument does
      nothing. */
  lemma GameModeCommand(mode: string)
    ensures var c := Classify("/gamemode " + mode);
      && (mode == "0" ==> c == SetGameMode(Survival))
      && (mode == "1" ==> c == SetGameMode(Creative))
      && (mode != "0" && mode != "1" ==> c == Unrecognised)
  {
    var text := "/gamemode " + mode;
    assert StripPrefix(text, "/time ") == None by {
      assert text[1] == 'g';
    }
    assert StripPrefix(text, "/gamemode ") == Some(mode) by {
      assert text[|"/gamemode "|..] == mode;
    }
  }

  /** A line of the chat history. */
  function HistoryLine(text: string): TextUpdate {
    TextUpdate("chat/history", I32_MAX, text, CHAT_FONT_SIZE, CHAT_TEXT_COLOR)
  }

  /** How said text is shown: the speaker's name in brackets, then the text. */
  function SaidText(username: string, text: string): string {
    "[" + username + "] " + text
  }

  function TimeNanos(when: TimeOfDay): nat {
    match when
      case Sunrise => 0
      case Noon => 300 * Skybox.NANOS_PER_SECOND
      case Sunset => 600 * Skybox.NANOS_PER_SECOND
      case Midnight => 900 * Skybox.NANOS_PER_SECOND
  }

  /** What chat input can change: the clock, the players' game modes, and the updates
      broadcast so far. */
  datatype ChatState = ChatState(time: nat, modes: map<Entity, GameMode>, sent: seq<TextUpdate>)

  /** The effect of one message. Input to another interface, or from an entity that is not a
      player with a game mode, is ignored. */
  function Handle(st: ChatState, msg: ChatMessage, usernames: map<Entity, string>): (r: ChatState)
    ensures r.modes.Keys == st.modes.Keys
  {
    if msg.interfacePath != "chat/input" || msg.player !in usernames || msg.player !in st.modes then st
    else match Classify(msg.text)
      case SetTime(when) => st.(time := TimeNanos(when))
      case SetGameMode(mode) => st.(modes := st.modes[msg.player := mode])
      case Unrecognised => st
      case Say => st.(sent := st.sent + [HistoryLine(SaidText(usernames[msg.player], msg.text))])
  }

  /** The effect of the messages in order. */
  function HandleAll(st: ChatState, msgs: seq<ChatMessage>, usernames: map<Entity, string>): ChatState
  {
    if msgs == [] then st
    else Handle(HandleAll(st, msgs[..|msgs| - 1], usernames), msgs[|msgs| - 1], usernames)
  }

  /** `handle_chat_messages`: the game modes are the players' `GameMode` components, the
      clock is the `Clock` resource; returns the new game modes and the broadcast updates. */
  method HandleChatMessages(msgs: seq<ChatMessage>, usernames: map<Entity, string>, modes: map<Entity, GameMode>, clock: Skybox.Clock)
    returns (newModes: map<Entity, GameMode>, sent: seq<TextUpdate>)
    modifies clock
    ensures ChatState(clock.time, newModes, sent) == HandleAll(ChatState(old(clock.time), modes, []), msgs, usernames)
  {
    newModes, sent := modes, [];
    var i := 0;
    while i < |msgs|
      invariant i <= |msgs|
      invariant ChatState(clock.time, newModes, sent) == HandleAll(ChatState(old(clock.time), modes, []), msgs[..i], usernames)
    {
      var msg := msgs[i];
      assert msgs[..i + 1][..i] == msgs[..i];
      if msg.interfacePath != "chat/input" || msg.player !in usernames || msg.player !in newModes {
        i := i + 1;
        continue;
      }
      if IsCommand(msg.text) {
        var time := StripPrefix(msg.text, "/time ");
        if time.Some? {
          if time.value == "noon" {
            clock.SetNoon();
          } else if time.value == "midnight" {
            clock.SetMidnight();
          } else if time.value == "sunrise" {
            clock.SetSunrise();
          } else if time.value == "sunset" {
            clock.SetSunset();
          }
        } else {
          var mode := StripPrefix(msg.text, "/gamemode ");
          if mode.Some? {
            if mode.value == "0" {
              newModes := newModes[msg.player := Survival];
            } else if mode.value == "1" {
              newModes := newModes[msg.player := Creative];
            }
          }
        }
      } else {
        sent := sent + [HistoryLine(SaidText(usernames[msg.player], msg.text))];
      }
      i := i + 1;
    }
    assert msgs[..|msgs|] == msgs;
  }

  /** Input that is not for the chat, or not from a player, changes nothing. */
  lemma IgnoredMessage(st: ChatState, msg: ChatMessage, usernames: map<Entity, string>)
    requires msg.interfacePath != "chat/input" || msg.player !in usernames || msg.player !in st.modes
    ensures Handle(st, msg, usernames) == st
  {
  }

  /** A message said in the chat by a player, as opposed to a command or other input. */
  predicate Says(msg: ChatMessage, usernames: map<Entity, string>) {
    msg.interfacePath == "chat/input" && msg.player in usernames && !IsCommand(msg.text)
  }

  /** `u` is the history line of some message that was said in `msgs`. */
  predicate SaidIn(u: TextUpdate, msgs: seq<ChatMessage>, usernames: map<Entity, string>) {
    exists i :: 0 <= i < |msgs| && Says(msgs[i], usernames) &&
      u == HistoryLine(SaidText(usernames[msgs[i].player], msgs[i].text))
  }

  /** Commands are never broadcast: every update sent is the chat-history line of a message
      said by a player, one whose text does not start with `/`. */
  lemma {:induction false} OnlySaidTextIsSent(st: ChatState, msgs: seq<ChatMessage>, usernames: map<Entity, string>)
    ensures var r := HandleAll(st, msgs, usernames);
      && st.sent <= r.sent
      && forall k :: |st.sent| <= k < |r.sent| ==> SaidIn(r.sent[k], msgs, usernames)
  {
    if msgs != [] {
      var front := msgs[..|msgs| - 1];
      var last := msgs[|msgs| - 1];
      OnlySaidTextIsSent(st, front, usernames);
      var mid := HandleAll(st, front, usernames);
      var r := Handle(mid, last, usernames);
      assert r.sent == mid.sent || (Says(last, usernames) &&
        r.sent == mid.sent + [HistoryLine(SaidText(usernames[last.player], last.text))]);
      assert HandleAll(st, msgs, usernames) == r;
      assert st.sent <= r.sent by {
        assert mid.sent <= r.sent;
      }
      forall k | |st.sent| <= k < |r.sent|
        ensures SaidIn(r.sent[k], msgs, usernames)
      {
        if k < |mid.sent| {
          assert r.sent[k] == mid.sent[k];
          var i :| 0 <= i < |front| && Says(front[i], usernames) &&
            mid.sent[k] == HistoryLine(SaidText(usernames[front[i].player], front[i].text));
          assert msgs[i] == front[i];
        } else {
          assert msgs[|msgs| - 1] == last;
        }
      }
    }
  }

  /** Said text from a player reaches the chat history as their bracketed name and the text. */
  lemma SaidTextIsBroadcast(st: ChatState, msg: ChatMessage, usernames: map<Entity, string>)
    requires msg.interfacePath == "chat/input" && msg.player in usernames && msg.player in st.modes
    requires !IsCommand(msg.text)
    ensures Handle(st, msg, usernames) ==
      st.(sent := st.sent + [TextUpdate("chat/history", I32_MAX, "[" + usernames[msg.player] + "] " + msg.text, 8.0, "#ffffff")])
  {
  }

  datatype NetworkEvent = Connected(entity: Entity) | Disconnected(entity: Entity)

  /** The announcement for a player joining or leaving. */
  function ConnectionText(event: NetworkEvent, usernames: map<Entity, string>): string
    requires event.entity in usernames
  {
    match event
      case Connected(e) => usernames[e] + " joined the game"
      case Disconnected(e) => usernames[e] + " left the game"
  }

  /** `send_connection_messages`: one chat-history line per event, in order. Every event is
      for a player (the source unwraps the player lookup). */
  method SendConnectionMessages(events: seq<NetworkEvent>, usernames: map<Entity, string>) returns (sent: seq<TextUpdate>)
    requires forall i :: 0 <= i < |events| ==> events[i].entity in usernames
    ensures |sent| == |events|
    ensures forall i :: 0 <= i < |events| ==>
      sent[i] == HistoryLine(ConnectionText(events[i], usernames))
  {
    sent := [];
    for i := 0 to |events|
      invariant |sent| == i
      invariant forall k :: 0 <= k < i ==> sent[k] == HistoryLine(ConnectionText(events[k], usernames))
    {
      var name := usernames[events[i].entity];
      match events[i]
      case Connected(_) =>
        sent := sent + [HistoryLine(name + " joined the game")];
      case Disconnected(_) =>
        sent := sent + [HistoryLine(name + " left the game")];
    }
  }

  /** The announcement starts with the player's name, and joining and leaving read
      differently. */
  lemma ConnectionTextNamesPlayer(event: NetworkEvent, usernames: map<Entity, string>)
    requires event.entity in usernames
    ensures usernames[event.entity] <= ConnectionText(event, usernames)
    ensures ConnectionText(Connected(event.entity), usernames) != ConnectionText(Disconnected(event.entity), usernames)
  {
    var name := usernames[event.entity];
    var joined, left := name + " joined the game", name + " left the game";
    assert joined[|name| + 1] == 'j' && left[|name| + 1] == 'l';
  }
}
