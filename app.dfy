/**
 * The chat-session state behind the Streamlit front end (src/app.py): the
 * login gate, a table of chats keyed by id, the chat currently shown, and
 * the step that records a question and its answer in the current chat.
 *
 * `st.session_state` is the class `SessionState`; which of its keys have
 * been set so far is the field `present`. The random chat id, the clock and
 * the call into the answering pipeline are parameters.
 */
module ChatApp {
  import opened Wrappers
  import opened Strings

  type ChatId = string

  datatype Role = User | Assistant

  datatype Message = Message(role: Role, content: string)

  type Hour = h: nat | h < 24
  type Minute = m: nat | m < 60

  /** A reading of the wall clock, as far as the chats use it: its hour and minute. */
  datatype Instant = Instant(hour: Hour, minute: Minute)

  datatype Chat = Chat(title: string, messages: seq<Message>, createdAt: Instant)

  /** What the answering pipeline does with a question: answer it, or raise with a message. */
  datatype RagReply = Answered(text: string) | RagRaised(message: string)

  /** The keys `init_session` gives defaults to, in the order it visits them. */
  datatype Key = Authenticated | Username | Chats | CurrentChatId

  const DefaultKeys: seq<Key> := [Authenticated, Username, Chats, CurrentChatId]

  /** Where a key stands in `DefaultKeys`. */
  function Position(k: Key): (i: nat)
    ensures i < |DefaultKeys| && DefaultKeys[i] == k
  {
    match k
    case Authenticated => 0
    case Username => 1
    case Chats => 2
    case CurrentChatId => 3
  }

  const AdminUser: string := "admin"
  const AdminPassword: string := "123"
  const NewChatPrefix: string := "New Chat "
  const RagErrorPrefix: string := "Lỗi xử lý RAG: "
  /** How many characters of the first question become the chat title. */
  const TitleLength: nat := 30
  const Ellipsis: string := "..."

  function DigitValue(c: char): int {
    c as int - '0' as int
  }

  /** A number below 100 in two decimal digits, zero-padded as `%H` and `%M` print it. */
  function TwoDigits(n: nat): (s: string)
    requires n < 100
    ensures |s| == 2 && '0' <= s[0] <= '9' && '0' <= s[1] <= '9'
    ensures DigitValue(s[0]) * 10 + DigitValue(s[1]) == n
  {
    [('0' as int + n / 10) as char, ('0' as int + n % 10) as char]
  }

  /** The title of a fresh chat, `"New Chat HH:MM"`; hour and minute can be read back from it. */
  function NewChatTitle(now: Instant): (title: string)
    ensures |title| == |NewChatPrefix| + 5 && title[..|NewChatPrefix|] == NewChatPrefix
    ensures title[|NewChatPrefix| + 2] == ':'
    ensures title[|NewChatPrefix|..|NewChatPrefix| + 2] == TwoDigits(now.hour)
    ensures title[|NewChatPrefix| + 3..] == TwoDigits(now.minute)
    ensures DigitValue(title[9]) * 10 + DigitValue(title[10]) == now.hour
    ensures DigitValue(title[12]) * 10 + DigitValue(title[13]) == now.minute
  {
    NewChatPrefix + TwoDigits(now.hour) + ":" + TwoDigits(now.minute)
  }

  /** The chat `create_new_chat` opens at time `now`. */
  function EmptyChat(now: Instant): Chat {
    Chat(NewChatTitle(now), [], now)
  }

  /** The title a chat takes from its first question: its first 30 characters and an ellipsis. */
  function FirstQuestionTitle(prompt: string): (title: string)
    ensures |title| == (if |prompt| <= TitleLength then |prompt| else TitleLength) + |Ellipsis|
    ensures title[..|title| - |Ellipsis|] == prompt[..|title| - |Ellipsis|]
    ensures title[|title| - |Ellipsis|..] == Ellipsis
  {
    Take(prompt, TitleLength) + Ellipsis
  }

  /** `call_rag_api`: never fails; an exception from the pipeline becomes a message with the error prefix. */
  function CallRagApi(getRagResponse: string -> RagReply, query: string): (response: string)
    ensures getRagResponse(query).Answered? ==> response == getRagResponse(query).text
    ensures getRagResponse(query).RagRaised? ==>
      RagErrorPrefix <= response && response[|RagErrorPrefix|..] == getRagResponse(query).message
  {
    match getRagResponse(query)
    case Answered(responseText) => responseText
    case RagRaised(message) => RagErrorPrefix + message
  }

  /** Python truthiness of `current_chat_id`: None and the empty id are both false. */
  predicate NoCurrentChat(current: Option<ChatId>) {
    current == None || current == Some("")
  }

  class SessionState {
    var present: set<Key>
    var authenticated: bool
    var username: string
    var chats: map<ChatId, Chat>
    var currentChatId: Option<ChatId>

    /** Every key has been given a value. */
    ghost predicate Initialized()
      reads this
    {
      forall k: Key :: k in present
    }

    /** Initialized, and the current chat, if any, is one of the chats. */
    ghost predicate Valid()
      reads this
    {
      Initialized() && (currentChatId.Some? ==> currentChatId.value in chats)
    }

    /** A new browser session: no key is set yet (the field values stand for nothing). */
    constructor ()
      ensures present == {}
    {
      present := {};
      authenticated := false;
      username := "";
      chats := map[];
      currentChatId := None;
    }

    /** `init_session`: each key missing from the session gets its default; keys already set keep their values. */
    method InitSession()
      modifies this
      ensures Initialized()
      ensures authenticated == if Authenticated in old(present) then old(authenticated) else false
      ensures username == if Username in old(present) then old(username) else ""
      ensures chats == if Chats in old(present) then old(chats) else map[]
      ensures currentChatId == if CurrentChatId in old(present) then old(currentChatId) else None
      ensures old(present) == {} ==> Valid()
      ensures old(Initialized()) ==>
        && present == old(present) && authenticated == old(authenticated) && username == old(username)
        && chats == old(chats) && currentChatId == old(currentChatId)
    {
      for i := 0 to |DefaultKeys|
        invariant forall k :: k in present <==> k in old(present) || Position(k) < i
        invariant authenticated == if 0 < i && Authenticated !in old(present) then false else old(authenticated)
        invariant username == if 1 < i && Username !in old(present) then "" else old(username)
        invariant chats == if 2 < i && Chats !in old(present) then map[] else old(chats)
        invariant currentChatId == if 3 < i && CurrentChatId !in old(present) then None else old(currentChatId)
      {
        var key := DefaultKeys[i];
        assert Position(key) == i;
        if key !in present {
          match key {
            case Authenticated => authenticated := false;
            case Username => username := "";
            case Chats => chats := map[];
            case CurrentChatId => currentChatId := None;
          }
          present := present + {key};
        }
      }
    }

    /** `create_new_chat`: add an empty chat under the new id, make it current, and return the id. */
    method CreateNewChat(newId: ChatId, now: Instant) returns (id: ChatId)
      requires Valid()
      modifies this
      ensures Valid()
      ensures id == newId && currentChatId == Some(newId)
      ensures chats == old(chats)[newId := EmptyChat(now)]
      ensures newId !in old(chats) ==> |chats| == |old(chats)| + 1
      ensures present == old(present) && authenticated == old(authenticated) && username == old(username)
    {
      chats := chats[newId := EmptyChat(now)];
      currentChatId := Some(newId);
      id := newId;
    }

    /** `delete_chat`: remove the chat if it exists, and forget it as the current chat. */
    method DeleteChat(chatId: ChatId)
      requires Valid()
      modifies this
      ensures Valid()
      ensures chats == old(chats) - {chatId}
      ensures forall k :: k in old(chats) && k != chatId ==> k in chats && chats[k] == old(chats)[k]
      ensures currentChatId == if old(currentChatId) == Some(chatId) then None else old(currentChatId)
      ensures present == old(present) && authenticated == old(authenticated) && username == old(username)
    {
      if chatId in chats {
        chats := chats - {chatId};
      }
      if currentChatId == Some(chatId) {
        currentChatId := None;
      }
    }

    /** Submitting the login form: only admin / 123 gets in, and a first login opens a chat. */
    method SubmitLogin(user: string, pwd: string, newId: ChatId, now: Instant) returns (granted: bool)
      requires Valid()
      modifies this
      ensures Valid()
      ensures granted <==> user == AdminUser && pwd == AdminPassword
      ensures !granted ==> unchanged(this)
      ensures granted ==> authenticated && username == user && present == old(present)
      ensures granted && old(chats) == map[] ==>
        chats == map[newId := EmptyChat(now)] && currentChatId == Some(newId)
      ensures granted && old(chats) != map[] ==>
        chats == old(chats) && currentChatId == old(currentChatId)
    {
      granted := user == AdminUser && pwd == AdminPassword;
      if granted {
        authenticated := true;
        username := user;
        if chats == map[] {
          var _ := CreateNewChat(newId, now);
        }
      }
    }

    /** The Logout button: only the flag is cleared; the chats stay. */
    method Logout()
      requires Valid()
      modifies this
      ensures Valid()
      ensures !authenticated
      ensures username == old(username) && chats == old(chats) && currentChatId == old(currentChatId)
      ensures present == old(present)
    {
      authenticated := false;
    }

    /** Clicking a chat in the history list makes it current. */
    method SelectChat(chatId: ChatId)
      requires Valid() && chatId in chats
      modifies this
      ensures Valid()
      ensures currentChatId == Some(chatId)
      ensures chats == old(chats) && authenticated == old(authenticated) && username == old(username)
      ensures present == old(present)
    {
      currentChatId := Some(chatId);
    }

    /** The start of the chat area: open a new chat when none is current, so that indexing the current chat is safe. */
    method EnsureCurrentChat(newId: ChatId, now: Instant)
      requires Valid()
      modifies this
      ensures Valid()
      ensures currentChatId.Some? && currentChatId.value in chats
      ensures !NoCurrentChat(old(currentChatId)) ==> unchanged(this)
      ensures NoCurrentChat(old(currentChatId)) ==>
        chats == old(chats)[newId := EmptyChat(now)] && currentChatId == Some(newId)
      ensures present == old(present) && authenticated == old(authenticated) && username == old(username)
    {
      if NoCurrentChat(currentChatId) {
        var _ := CreateNewChat(newId, now);
      }
    }

    /**
     * A submitted question: the question, then the pipeline's answer, are
     * appended to the current chat; the first question also names the chat.
     * An empty input is no submission.
     */
    method SubmitPrompt(prompt: string, getRagResponse: string -> RagReply)
      requires Valid() && currentChatId.Some?
      modifies this
      ensures Valid()
      ensures currentChatId == old(currentChatId) && present == old(present)
      ensures prompt == "" ==> unchanged(this)
      ensures prompt != "" ==>
        var id := old(currentChatId).value;
        var before := old(chats)[id];
        && chats.Keys == old(chats).Keys
        && (forall k :: k in chats && k != id ==> chats[k] == old(chats)[k])
        && chats[id].messages == before.messages + [Message(User, prompt), Message(Assistant, CallRagApi(getRagResponse, prompt))]
        && chats[id].title == (if before.messages == [] then FirstQuestionTitle(prompt) else before.title)
        && chats[id].createdAt == before.createdAt
      ensures authenticated == old(authenticated) && username == old(username)
    {
      if prompt == "" {
        return;
      }
      var currentId := currentChatId.value;
      var chat := chats[currentId];
      chats := chats[currentId := chat.(messages := chat.messages + [Message(User, prompt)])];
      // The list shown on screen is the stored list, so it already holds the question.
      var currentMessages := chats[currentId].messages;
      if |currentMessages| == 1 {
        chats := chats[currentId := chats[currentId].(title := FirstQuestionTitle(prompt))];
      }
      var responseText := CallRagApi(getRagResponse, prompt);
      chats := chats[currentId := chats[currentId].(messages := chats[currentId].messages + [Message(Assistant, responseText)])];
    }

    /** One pass over the chat area: make sure a chat is current, then handle the input, if any. */
    method MainUiStep(input: string, newId: ChatId, now: Instant, getRagResponse: string -> RagReply)
      requires Valid()
      modifies this
      ensures Valid()
      ensures currentChatId.Some? && currentChatId.value in chats
      ensures NoCurrentChat(old(currentChatId)) ==> currentChatId == Some(newId)
      ensures !NoCurrentChat(old(currentChatId)) ==> currentChatId == old(currentChatId)
      ensures
        var id := currentChatId.value;
        var before := if NoCurrentChat(old(currentChatId)) then EmptyChat(now) else old(chats)[id];
        && chats.Keys == old(chats).Keys + {id}
        && (input == "" ==> chats[id] == before)
        && (input != "" ==>
              && chats[id].messages == before.messages + [Message(User, input), Message(Assistant, CallRagApi(getRagResponse, input))]
              && chats[id].title == (if before.messages == [] then FirstQuestionTitle(input) else before.title)
              && chats[id].createdAt == before.createdAt)
      ensures forall k :: k in old(chats) && Some(k) != currentChatId ==> k in chats && chats[k] == old(chats)[k]
      ensures present == old(present) && authenticated == old(authenticated) && username == old(username)
    {
      EnsureCurrentChat(newId, now);
      SubmitPrompt(input, getRagResponse);
    }
  }
}
