/** The chat-session store shared by the chat pages: a list of chat sessions, the id of the current
    one and the selected persona. Every update is a `map` or `filter` of the list; generated ids,
    the clock and the locale's date rendering are parameters. */
module ChatContext {

  import opened Wrappers
  import Lists

  datatype Author = User | Assistant

  datatype Message = Message(id: string, role: Author, content: string, timestamp: int)

  datatype ChatSession = ChatSession(
    id: string,
    name: string,
    personaId: string,
    messages: seq<Message>,
    createdAt: int,
    updatedAt: int)

  /** The session list and the current chat id together. */
  datatype View = View(sessions: seq<ChatSession>, current: Option<string>)

  const CHAT_NAME_PREFIX: string := "Chat "

  /** The session `createNewChat` builds: `dateText` is the locale rendering of the clock, and an empty
      `personaId` is falsy, so the selected persona is used. */
  function NewChat(id: string, personaId: string, selectedPersonaId: string, dateText: string, now: int): ChatSession {
    ChatSession(id, CHAT_NAME_PREFIX + dateText, if personaId != "" then personaId else selectedPersonaId, [], now, now)
  }

  /** `chats.map(chat => chat.id === id ? f(chat) : chat)`. */
  function UpdateWhere(chats: seq<ChatSession>, id: string, f: ChatSession -> ChatSession): (r: seq<ChatSession>)
    ensures |r| == |chats|
    ensures forall i :: 0 <= i < |chats| ==> r[i] == if chats[i].id == id then f(chats[i]) else chats[i]
  {
    seq(|chats|, i requires 0 <= i < |chats| => if chats[i].id == id then f(chats[i]) else chats[i])
  }

  /** `!currentChatId`: no current chat, or the empty id. */
  predicate NoCurrent(current: Option<string>) {
    current.None? || current.value == ""
  }

  function MessageAdded(chats: seq<ChatSession>, chatId: string, m: Message, now: int): seq<ChatSession> {
    UpdateWhere(chats, chatId, (c: ChatSession) => c.(messages := c.messages + [m], updatedAt := now))
  }

  /** `messages.map(msg => msg.id === messageId ? { ...msg, content } : msg)`. */
  function ContentSet(msgs: seq<Message>, messageId: string, content: string): (r: seq<Message>)
    ensures |r| == |msgs|
  {
    seq(|msgs|, i requires 0 <= i < |msgs| => if msgs[i].id == messageId then msgs[i].(content := content) else msgs[i])
  }

  function ContentUpdated(chats: seq<ChatSession>, chatId: string, messageId: string, content: string, now: int)
    : seq<ChatSession>
  {
    UpdateWhere(chats, chatId, (c: ChatSession) => c.(messages := ContentSet(c.messages, messageId, content), updatedAt := now))
  }

  function ChatCleared(chats: seq<ChatSession>, chatId: string, now: int): seq<ChatSession> {
    UpdateWhere(chats, chatId, (c: ChatSession) => c.(messages := [], updatedAt := now))
  }

  function ChatRenamed(chats: seq<ChatSession>, chatId: string, name: string, now: int): seq<ChatSession> {
    UpdateWhere(chats, chatId, (c: ChatSession) => c.(name := name, updatedAt := now))
  }

  function Without(chats: seq<ChatSession>, chatId: string): seq<ChatSession> {
    Lists.Filter(chats, (c: ChatSession) => c.id != chatId)
  }

  function OfPersona(chats: seq<ChatSession>, personaId: string): seq<ChatSession> {
    Lists.Filter(chats, (c: ChatSession) => c.personaId == personaId)
  }

  /** `getCurrentChat`: the first session whose id is the current id. */
  function CurrentChat(chats: seq<ChatSession>, current: Option<string>): Option<ChatSession> {
    Lists.Find(chats, (c: ChatSession) => current == Some(c.id))
  }

  /** The first session of `personaId` becomes current, or else a new session for it is appended and
      becomes current; both the persona-change effect and `deleteChatSession` do this. */
  function SwitchTo(chats: seq<ChatSession>, personaId: string, newId: string, dateText: string, now: int): View {
    var personaChats := OfPersona(chats, personaId);
    if |personaChats| > 0 then View(chats, Some(personaChats[0].id))
    else View(chats + [NewChat(newId, personaId, personaId, dateText, now)], Some(newId))
  }

  /** `deleteChatSession(chatId)`: the filtered list, and a new current chat when the current one was
      deleted. The session `createNewChat` appends from inside the updater lands after the filter. */
  function Deleted(v: View, selectedPersonaId: string, chatId: string, newId: string, dateText: string, now: int): View {
    var rest := Without(v.sessions, chatId);
    if v.current == Some(chatId) then SwitchTo(rest, selectedPersonaId, newId, dateText, now)
    else View(rest, v.current)
  }

  class ChatStore {
    var chatSessions: seq<ChatSession>
    var currentChatId: Option<string>
    var selectedPersonaId: string

    function Current(): View
      reads this
    {
      View(chatSessions, currentChatId)
    }

    /** The provider before the mount effect: no sessions, no current chat, the first persona. */
    constructor(defaultPersonaId: string)
      ensures chatSessions == [] && currentChatId.None? && selectedPersonaId == defaultPersonaId
    {
      chatSessions := [];
      currentChatId := None;
      selectedPersonaId := defaultPersonaId;
    }

    /** `createNewChat(personaId)`; `id` stands for the generated uuid. */
    method CreateNewChat(personaId: string, id: string, dateText: string, now: int) returns (newId: string)
      modifies this
      ensures chatSessions == old(chatSessions) + [NewChat(id, personaId, selectedPersonaId, dateText, now)]
      ensures newId == id
      ensures currentChatId == old(currentChatId) && selectedPersonaId == old(selectedPersonaId)
    {
      chatSessions := chatSessions + [NewChat(id, personaId, selectedPersonaId, dateText, now)];
      return id;
    }

    function GetCurrentChat(): Option<ChatSession>
      reads this
    {
      CurrentChat(chatSessions, currentChatId)
    }

    /** `addMessage(message)`; `messageId` stands for the generated uuid. The function a render hands
        out reads the `currentChatId` of that render, so a caller holding an older render's function
        passes that render's id as `renderChatId`; a fresh call passes `currentChatId`. */
    method AddMessage(renderChatId: Option<string>, role: Author, content: string, messageId: string, now: int)
      returns (r: string)
      modifies this
      ensures NoCurrent(renderChatId) ==> r == "" && chatSessions == old(chatSessions)
      ensures !NoCurrent(renderChatId) ==>
        r == messageId
        && chatSessions == MessageAdded(old(chatSessions), renderChatId.value, Message(messageId, role, content, now), now)
      ensures currentChatId == old(currentChatId) && selectedPersonaId == old(selectedPersonaId)
    {
      if NoCurrent(renderChatId) {
        return "";
      }
      chatSessions := MessageAdded(chatSessions, renderChatId.value, Message(messageId, role, content, now), now);
      return messageId;
    }

    /** `updateLastAssistantMessage(messageId, content)`, through the function of the render whose
        `currentChatId` was `renderChatId`. */
    method UpdateLastAssistantMessage(renderChatId: Option<string>, messageId: string, content: string, now: int)
      modifies this
      ensures NoCurrent(renderChatId) ==> chatSessions == old(chatSessions)
      ensures !NoCurrent(renderChatId) ==>
        chatSessions == ContentUpdated(old(chatSessions), renderChatId.value, messageId, content, now)
      ensures currentChatId == old(currentChatId) && selectedPersonaId == old(selectedPersonaId)
    {
      if NoCurrent(renderChatId) {
        return;
      }
      chatSessions := ContentUpdated(chatSessions, renderChatId.value, messageId, content, now);
    }

    method ClearCurrentChat(now: int)
      modifies this
      ensures NoCurrent(old(currentChatId)) ==> chatSessions == old(chatSessions)
      ensures !NoCurrent(old(currentChatId)) ==> chatSessions == ChatCleared(old(chatSessions), old(currentChatId).value, now)
      ensures currentChatId == old(currentChatId) && selectedPersonaId == old(selectedPersonaId)
    {
      if NoCurrent(currentChatId) {
        return;
      }
      chatSessions := ChatCleared(chatSessions, currentChatId.value, now);
    }

    /** `clearAllChats`: the list is emptied, then one new chat for the selected persona is appended
        and made current. */
    method ClearAllChats(newId: string, dateText: string, now: int)
      modifies this
      ensures chatSessions == [NewChat(newId, selectedPersonaId, selectedPersonaId, dateText, now)]
      ensures currentChatId == Some(newId) && selectedPersonaId == old(selectedPersonaId)
    {
      chatSessions := [];
      var id := CreateNewChat(selectedPersonaId, newId, dateText, now);
      currentChatId := Some(id);
    }

    method RenameChatSession(chatId: string, newName: string, now: int)
      modifies this
      ensures chatSessions == ChatRenamed(old(chatSessions), chatId, newName, now)
      ensures currentChatId == old(currentChatId) && selectedPersonaId == old(selectedPersonaId)
    {
      chatSessions := ChatRenamed(chatSessions, chatId, newName, now);
    }

    method DeleteChatSession(chatId: string, newId: string, dateText: string, now: int)
      modifies this
      ensures Current() == Deleted(old(Current()), selectedPersonaId, chatId, newId, dateText, now)
      ensures selectedPersonaId == old(selectedPersonaId)
    {
      var newSessions := Without(chatSessions, chatId);
      chatSessions := newSessions;
      if currentChatId == Some(chatId) {
        SwitchToPersona(selectedPersonaId, newId, dateText, now);
      }
    }

    /** `setSelectedPersona(persona)` and the effect that follows a change of its id. */
    method SelectPersona(personaId: string, newId: string, dateText: string, now: int)
      modifies this
      ensures personaId == old(selectedPersonaId) ==> Current() == old(Current())
      ensures personaId != old(selectedPersonaId) ==> Current() == SwitchTo(old(chatSessions), personaId, newId, dateText, now)
      ensures selectedPersonaId == personaId
    {
      if personaId == selectedPersonaId {
        return;
      }
      selectedPersonaId := personaId;
      SwitchToPersona(personaId, newId, dateText, now);
    }

    method SwitchToPersona(personaId: string, newId: string, dateText: string, now: int)
      modifies this
      ensures Current() == SwitchTo(old(chatSessions), personaId, newId, dateText, now)
      ensures selectedPersonaId == old(selectedPersonaId)
    {
      var personaChats := OfPersona(chatSessions, personaId);
      if |personaChats| > 0 {
        currentChatId := Some(personaChats[0].id);
      } else {
        chatSessions := chatSessions + [NewChat(newId, personaId, personaId, dateText, now)];
        currentChatId := Some(newId);
      }
    }
  }

  /** `createNewChat` appends exactly one empty session, for the given persona or else the selected
      one, and leaves the existing sessions as they were. */
  lemma {:induction false} NewChatAppends(chats: seq<ChatSession>, id: string, personaId: string,
                                          selectedPersonaId: string, dateText: string, now: int)
    ensures var r := chats + [NewChat(id, personaId, selectedPersonaId, dateText, now)];
      |r| == |chats| + 1 && r[..|chats|] == chats && r[|chats|].id == id && r[|chats|].messages == []
      && r[|chats|].personaId == (if personaId == "" then selectedPersonaId else personaId)
  {
    assert (chats + [NewChat(id, personaId, selectedPersonaId, dateText, now)])[..|chats|] == chats;
  }

  /** `addMessage` appends the message to every session with the current id and changes no other
      session. */
  lemma {:induction false} MessageAddedOnlyThere(chats: seq<ChatSession>, chatId: string, m: Message, now: int)
    ensures var r := MessageAdded(chats, chatId, m, now);
      |r| == |chats|
      && (forall i :: 0 <= i < |chats| && chats[i].id != chatId ==> r[i] == chats[i])
      && (forall i :: 0 <= i < |chats| && chats[i].id == chatId ==>
            r[i].messages == chats[i].messages + [m] && r[i].messages[|r[i].messages| - 1] == m
            && r[i].id == chats[i].id && r[i].name == chats[i].name && r[i].personaId == chats[i].personaId)
  {
  }

  /** The content replacement touches only the messages with that id, and only their content. */
  lemma {:induction false} ContentSetOnlyThere(msgs: seq<Message>, messageId: string, content: string)
    ensures var r := ContentSet(msgs, messageId, content);
      |r| == |msgs|
      && (forall i :: 0 <= i < |msgs| && msgs[i].id != messageId ==> r[i] == msgs[i])
      && (forall i :: 0 <= i < |msgs| && msgs[i].id == messageId ==> r[i] == msgs[i].(content := content))
  {
  }

  /** `updateLastAssistantMessage` replaces the content of the matching message in the current chat
      only; no session gains or loses messages and the other sessions are untouched. */
  lemma {:induction false} ContentUpdatedOnlyThere(chats: seq<ChatSession>, chatId: string, messageId: string,
                                                   content: string, now: int)
    ensures var r := ContentUpdated(chats, chatId, messageId, content, now);
      |r| == |chats|
      && (forall i :: 0 <= i < |chats| ==> |r[i].messages| == |chats[i].messages| && r[i].id == chats[i].id)
      && (forall i :: 0 <= i < |chats| && chats[i].id != chatId ==> r[i] == chats[i])
      && (forall i :: 0 <= i < |chats| && chats[i].id == chatId ==>
            r[i].messages == ContentSet(chats[i].messages, messageId, content))
  {
  }

  /** `clearCurrentChat` empties the current chat only; `renameChatSession` changes only the name (and
      the update stamp) of the matching chat. */
  lemma {:induction false} ClearAndRenameOnlyThere(chats: seq<ChatSession>, chatId: string, name: string, now: int)
    ensures var r := ChatCleared(chats, chatId, now);
      |r| == |chats|
      && (forall i :: 0 <= i < |chats| ==> r[i] == if chats[i].id == chatId then chats[i].(messages := [], updatedAt := now) else chats[i])
    ensures var r := ChatRenamed(chats, chatId, name, now);
      |r| == |chats|
      && (forall i :: 0 <= i < |chats| ==> r[i].messages == chats[i].messages && r[i].id == chats[i].id)
      && (forall i :: 0 <= i < |chats| && chats[i].id != chatId ==> r[i] == chats[i])
      && (forall i :: 0 <= i < |chats| && chats[i].id == chatId ==> r[i] == chats[i].(name := name, updatedAt := now))
  {
  }

  /** Clearing a chat twice is clearing it once (with the later stamp). */
  lemma {:induction false} ClearTwice(chats: seq<ChatSession>, chatId: string, now1: int, now2: int)
    ensures ChatCleared(ChatCleared(chats, chatId, now1), chatId, now2) == ChatCleared(chats, chatId, now2)
  {
    var once := ChatCleared(chats, chatId, now1);
    var twice := ChatCleared(once, chatId, now2);
    var direct := ChatCleared(chats, chatId, now2);
    assert |twice| == |direct|;
    forall i | 0 <= i < |chats| ensures twice[i] == direct[i] {
      assert once[i].id == chats[i].id;
    }
  }

  /** Replacing a message's content twice is replacing it once with the later content (and stamp):
      a streamed reply shows only its latest text. */
  lemma {:induction false} ContentUpdatedLastWins(chats: seq<ChatSession>, chatId: string, messageId: string,
                                                  first: string, second: string, now1: int, now2: int)
    ensures ContentUpdated(ContentUpdated(chats, chatId, messageId, first, now1), chatId, messageId, second, now2)
            == ContentUpdated(chats, chatId, messageId, second, now2)
  {
    var once := ContentUpdated(chats, chatId, messageId, first, now1);
    var twice := ContentUpdated(once, chatId, messageId, second, now2);
    var direct := ContentUpdated(chats, chatId, messageId, second, now2);
    assert |twice| == |direct|;
    forall i | 0 <= i < |chats| ensures twice[i] == direct[i] {
      assert once[i].id == chats[i].id;
      if chats[i].id == chatId {
        var m := chats[i].messages;
        var a := ContentSet(ContentSet(m, messageId, first), messageId, second);
        var b := ContentSet(m, messageId, second);
        assert |a| == |b|;
        forall j | 0 <= j < |m| ensures a[j] == b[j] {
          assert ContentSet(m, messageId, first)[j].id == m[j].id;
        }
        assert a == b;
      }
    }
  }

  /** `deleteChatSession` removes every session with that id and keeps the others in order; when the
      current chat is deleted, the first remaining session of the selected persona becomes current,
      or a new one for it is appended and becomes current; otherwise the current id stays. */
  lemma {:induction false} DeleteSpec(v: View, selectedPersonaId: string, chatId: string, newId: string,
                                      dateText: string, now: int)
    ensures var r := Deleted(v, selectedPersonaId, chatId, newId, dateText, now);
      var rest := Without(v.sessions, chatId);
      (forall c :: c in rest ==> c.id != chatId && c in v.sessions)
      && (forall c :: c in v.sessions && c.id != chatId ==> c in rest)
      && (v.current != Some(chatId) ==> r == View(rest, v.current))
      && (v.current == Some(chatId) && |OfPersona(rest, selectedPersonaId)| > 0 ==>
            r.sessions == rest && r.current == Some(OfPersona(rest, selectedPersonaId)[0].id)
            && OfPersona(rest, selectedPersonaId)[0].personaId == selectedPersonaId)
      && (v.current == Some(chatId) && |OfPersona(rest, selectedPersonaId)| == 0 ==>
            r.sessions == rest + [NewChat(newId, selectedPersonaId, selectedPersonaId, dateText, now)]
            && r.current == Some(newId))
  {
    var rest := Without(v.sessions, chatId);
    var personaChats := OfPersona(rest, selectedPersonaId);
    if |personaChats| > 0 {
      assert personaChats[0] in personaChats;
    }
  }

  /** Deleting distributes over the list: the kept sessions keep their relative order. */
  lemma {:induction false} DeleteKeepsOrder(a: seq<ChatSession>, b: seq<ChatSession>, chatId: string)
    ensures Without(a + b, chatId) == Without(a, chatId) + Without(b, chatId)
  {
    Lists.FilterAppend(a, b, (c: ChatSession) => c.id != chatId);
  }

  /** `clearAllChats` leaves exactly one empty session, for the selected persona, and it is current. */
  lemma {:induction false} ClearAllLeavesOne(selectedPersonaId: string, newId: string, dateText: string, now: int)
    ensures var c := NewChat(newId, selectedPersonaId, selectedPersonaId, dateText, now);
      CurrentChat([c], Some(newId)) == Some(c) && c.messages == [] && c.personaId == selectedPersonaId
  {
  }

  /** `getCurrentChat` finds a session exactly when one has the current id, and then the first. */
  lemma {:induction false} CurrentChatSpec(chats: seq<ChatSession>, current: Option<string>)
    ensures CurrentChat(chats, current).None? <==> forall i :: 0 <= i < |chats| ==> current != Some(chats[i].id)
    ensures CurrentChat(chats, current).Some? ==>
      exists i :: 0 <= i < |chats| && chats[i] == CurrentChat(chats, current).value && current == Some(chats[i].id)
                  && forall j :: 0 <= j < i ==> current != Some(chats[j].id)
  {
    Lists.FindSpec(chats, (c: ChatSession) => current == Some(c.id));
  }

  /** After `addMessage`, `getCurrentChat` finds the chat it found before, with the message appended. */
  lemma {:induction false} MessageAddedCurrent(chats: seq<ChatSession>, chatId: string, m: Message, now: int)
    ensures CurrentChat(MessageAdded(chats, chatId, m, now), Some(chatId))
            == match CurrentChat(chats, Some(chatId))
               case None => None
               case Some(c) => Some(c.(messages := c.messages + [m], updatedAt := now))
    decreases |chats|
  {
    if chats != [] {
      var r := MessageAdded(chats, chatId, m, now);
      assert r[1..] == MessageAdded(chats[1..], chatId, m, now);
      if chats[0].id != chatId {
        MessageAddedCurrent(chats[1..], chatId, m, now);
      }
    }
  }

  /** After `updateLastAssistantMessage`, `getCurrentChat` finds the chat it found before, with the
      content replaced. */
  lemma {:induction false} ContentUpdatedCurrent(chats: seq<ChatSession>, chatId: string, messageId: string,
                                                 content: string, now: int)
    ensures CurrentChat(ContentUpdated(chats, chatId, messageId, content, now), Some(chatId))
            == match CurrentChat(chats, Some(chatId))
               case None => None
               case Some(c) => Some(c.(messages := ContentSet(c.messages, messageId, content), updatedAt := now))
    decreases |chats|
  {
    if chats != [] {
      var r := ContentUpdated(chats, chatId, messageId, content, now);
      assert r[1..] == ContentUpdated(chats[1..], chatId, messageId, content, now);
      if chats[0].id != chatId {
        ContentUpdatedCurrent(chats[1..], chatId, messageId, content, now);
      }
    }
  }

  /** After switching, the current chat is a session of the persona, found by `getCurrentChat`. */
  lemma {:induction false} SwitchFindsPersonaChat(chats: seq<ChatSession>, personaId: string, newId: string,
                                                   dateText: string, now: int)
    ensures var r := SwitchTo(chats, personaId, newId, dateText, now);
      r.current.Some? && CurrentChat(r.sessions, r.current).Some?
  {
    var r := SwitchTo(chats, personaId, newId, dateText, now);
    var personaChats := OfPersona(chats, personaId);
    if |personaChats| > 0 {
      assert personaChats[0] in chats;
    } else {
      assert r.sessions[|chats|].id == newId;
    }
    CurrentChatSpec(r.sessions, r.current);
  }
}
