/** The chat-session sidebar: the persona's chats, most recently updated first, and the rename and
    section-expansion handlers. */
module ChatSidebar {

  import opened Wrappers
  import Text
  import Lists
  import StableSort
  import ChatContext

  type ChatSession = ChatContext.ChatSession

  /** The values `getTimestamp` may meet: nothing, a number, or text that `new Date` reads (its
      reading is the parameter `parse`). */
  datatype StampValue = Absent | Number(n: int) | DateText(text: string)

  /** `getTimestamp`: falsy values give 0, numbers are returned unchanged. */
  function GetTimestamp(value: StampValue, parse: string -> int): (r: int)
    ensures value.Absent? || value == Number(0) || value == DateText("") ==> r == 0
    ensures value.Number? ==> r == value.n
    ensures value.DateText? && value.text != "" ==> r == parse(value.text)
  {
    match value
    case Absent => 0
    case Number(n) => n
    case DateText(text) => if text == "" then 0 else parse(text)
  }

  /** `sortByUpdatedAt`, for sessions whose `updatedAt` is a number. */
  function SortByUpdatedAt(a: ChatSession, b: ChatSession): int {
    var getTimestamp := (v: int) => GetTimestamp(Number(v), (t: string) => 0);
    getTimestamp(b.updatedAt) - getTimestamp(a.updatedAt)
  }

  /** Most recently updated first. */
  function RecencyRank(): ChatSession -> StableSort.Rank {
    (c: ChatSession) => StableSort.Rank(-c.updatedAt, 0)
  }

  lemma {:induction false} ComparatorIsRankOrder(a: ChatSession, b: ChatSession)
    ensures var c := StableSort.Compare(RecencyRank()(a), RecencyRank()(b));
      var s := SortByUpdatedAt(a, b);
      (s < 0 <==> c < 0) && (s == 0 <==> c == 0) && (s > 0 <==> c > 0)
  {
  }

  /** `chatSessions.filter(chat of the persona).sort(sortByUpdatedAt)`. */
  function PersonaChats(chatSessions: seq<ChatSession>, personaId: string): seq<ChatSession> {
    StableSort.SortByRank(ChatContext.OfPersona(chatSessions, personaId), RecencyRank())
  }

  /** The list holds exactly the persona's sessions, each as often as in the store, most recently
      updated first. */
  lemma {:induction false} PersonaChatsSpec(chatSessions: seq<ChatSession>, personaId: string)
    ensures var r := PersonaChats(chatSessions, personaId);
      multiset(r) == multiset(ChatContext.OfPersona(chatSessions, personaId))
      && (forall c :: c in r <==> c in chatSessions && c.personaId == personaId)
      && (forall i, j :: 0 <= i < j < |r| ==> r[i].updatedAt >= r[j].updatedAt)
      && (forall i, j :: 0 <= i < j < |r| ==> SortByUpdatedAt(r[i], r[j]) <= 0)
  {
    var r := PersonaChats(chatSessions, personaId);
    var mine := ChatContext.OfPersona(chatSessions, personaId);
    StableSort.SortSpec(mine, RecencyRank());
    forall c ensures c in r <==> c in mine {
      assert c in r <==> c in multiset(r);
    }
    forall i, j | 0 <= i < j < |r| ensures r[i].updatedAt >= r[j].updatedAt {
      assert StableSort.RankLe(RecencyRank()(r[i]), RecencyRank()(r[j]));
    }
  }

  /** The sidebar's own fields; `expanded` is `expandedSection === 'active'`. */
  class SidebarState {
    var editingChatId: Option<string>
    var newChatName: string
    var expanded: bool

    constructor()
      ensures editingChatId.None? && newChatName == "" && expanded
    {
      editingChatId := None;
      newChatName := "";
      expanded := true;
    }

    method StartEditing(chat: ChatSession)
      modifies this
      ensures editingChatId == Some(chat.id) && newChatName == chat.name && expanded == old(expanded)
    {
      editingChatId := Some(chat.id);
      newChatName := chat.name;
    }

    /** `handleSaveEdit`: with an editing id and a name that is not blank, renames that chat to the
        trimmed name and leaves editing; otherwise nothing changes. */
    method SaveEdit(store: ChatContext.ChatStore, now: int)
      modifies this, store
      ensures var name := Text.Trim(old(newChatName));
        if old(editingChatId).Some? && old(editingChatId).value != "" && name != "" then
          store.chatSessions == ChatContext.ChatRenamed(old(store.chatSessions), old(editingChatId).value, name, now)
          && editingChatId.None? && newChatName == ""
        else
          store.chatSessions == old(store.chatSessions)
          && editingChatId == old(editingChatId) && newChatName == old(newChatName)
      ensures store.currentChatId == old(store.currentChatId) && store.selectedPersonaId == old(store.selectedPersonaId)
      ensures expanded == old(expanded)
    {
      var name := Text.Trim(newChatName);
      if editingChatId.Some? && editingChatId.value != "" && name != "" {
        store.RenameChatSession(editingChatId.value, name, now);
        editingChatId := None;
        newChatName := "";
      }
    }

    /** `handleKeyDown`: Enter saves, Escape leaves editing without renaming, other keys do nothing. */
    method KeyDown(key: string, store: ChatContext.ChatStore, now: int)
      modifies this, store
      ensures key == "Escape" ==>
        editingChatId.None? && newChatName == "" && store.chatSessions == old(store.chatSessions)
      ensures key != "Enter" && key != "Escape" ==>
        editingChatId == old(editingChatId) && newChatName == old(newChatName)
        && store.chatSessions == old(store.chatSessions)
      ensures key == "Enter" ==>
        var name := Text.Trim(old(newChatName));
        if old(editingChatId).Some? && old(editingChatId).value != "" && name != "" then
          store.chatSessions == ChatContext.ChatRenamed(old(store.chatSessions), old(editingChatId).value, name, now)
          && editingChatId.None? && newChatName == ""
        else
          store.chatSessions == old(store.chatSessions)
          && editingChatId == old(editingChatId) && newChatName == old(newChatName)
      ensures store.currentChatId == old(store.currentChatId) && store.selectedPersonaId == old(store.selectedPersonaId)
      ensures expanded == old(expanded)
    {
      if key == "Enter" {
        SaveEdit(store, now);
      } else if key == "Escape" {
        editingChatId := None;
        newChatName := "";
      }
    }

    /** `toggleSectionExpansion('active')`: 'active' and `null` alternate. */
    method ToggleSectionExpansion()
      modifies this
      ensures expanded == !old(expanded)
      ensures editingChatId == old(editingChatId) && newChatName == old(newChatName)
    {
      expanded := !expanded;
    }
  }
}
