/**
 * The chat route's in-memory session store and its gatekeeper (the health classifier).
 *
 * A module-level map sends each session id to a growable array of role-tagged turns.
 * `POST` classifies the message, lazily creates the session seeded with one system turn,
 * appends the user turn, truncates the history to the system turn plus the last 19 turns
 * once it is longer than 20, calls the completion API and appends the assistant reply.
 * `GET` reads a history without its system turn and `DELETE` drops a session.
 *
 * The two upstream calls are inputs: what the classifier call came back with and what the
 * completion call came back with. The store itself is modelled twice: `PostSpec`,
 * `GetSpec` and `DeleteSpec` on values, and the class `ChatStore`, whose histories are
 * objects held by reference exactly as the JavaScript arrays are, proved to agree with them.
 */
module ChatRoute {
  import opened Wrappers
  import opened Ascii

  datatype Role = System | User | Assistant

  datatype Turn = Turn(role: Role, content: string)

  /** The longest history the truncation step lets stand. */
  const MaxTurns: nat := 20

  /** How many of the most recent turns survive a truncation, beside the system turn. */
  const KeptRecent: nat := 19

  const DefaultSessionId: string := "default"

  const SystemInstruction: string :=
    "You are a helpful AI health assistant. "
    + "You specialize in providing information about health, medical topics, wellness, fitness, nutrition, mental health, and healthcare. "
    + "Be concise, friendly, and informative in your responses. "
    + "Always remind users to consult healthcare professionals for serious medical concerns and that your advice should not replace professional medical consultation."

  const SystemTurn: Turn := Turn(System, SystemInstruction)

  const FallbackReply: string := "Sorry, I could not generate a response."

  const RefusalReply: string :=
    "I'm sorry, but I can only assist with health-related questions. "
    + "Please ask me something about health, medical topics, wellness, fitness, nutrition, mental health, or healthcare."

  /** What the classifier call produced: it threw, its first choice had no content, or some text. */
  datatype ClassifierOutcome = ClassifierThrew | ClassifierNoContent | ClassifierReplied(text: string)

  /** What the completion call produced: it threw, or its first choice's content (possibly missing). */
  datatype CompletionOutcome = CompletionThrew | CompletionReplied(content: Option<string>)

  datatype PostResponse =
    | MessageRequired   // status 400, "Message is required"
    | Answer(response: string, sessionId: string, conversationLength: int, filtered: bool)
    | UpstreamFailure   // status 500, "Failed to get AI response"

  /** The body of a `GET`; an absent session's body carries no `sessionId` field. */
  datatype GetResponse = GetResponse(messages: seq<Turn>, conversationLength: nat, sessionId: Option<string>)

  datatype DeleteResponse = Cleared(sessionId: string)

  /** Everything a `POST` decides: the new store, the response, and what went to each upstream call. */
  datatype PostOutcome = PostOutcome(
    store: map<string, seq<Turn>>,
    response: PostResponse,
    classified: Option<string>,
    completionRequest: Option<seq<Turn>>)

  /** `!message`: an absent (or null) message and the empty string are both refused. */
  predicate IsFalsy(message: Option<string>) {
    message.None? || message.value == []
  }

  /** The POST body's `sessionId = 'default'` default applies only when the field is absent. */
  function PostSessionKey(sessionId: Option<string>): (key: string)
    ensures sessionId.None? ==> key == DefaultSessionId
    ensures sessionId.Some? ==> key == sessionId.value
  {
    sessionId.GetOr(DefaultSessionId)
  }

  /** The query parameter's `|| 'default'` also replaces the empty string. */
  function QuerySessionKey(sessionId: Option<string>): (key: string)
    ensures key != []
    ensures sessionId.None? ==> key == DefaultSessionId
    ensures sessionId.Some? && sessionId.value != [] ==> key == sessionId.value
  {
    if sessionId.None? || sessionId.value == [] then DefaultSessionId else sessionId.value
  }

  /** The classifier verdict, failing open: a thrown call lets the message through. */
  function IsHealthRelated(outcome: ClassifierOutcome): (accepted: bool)
    ensures outcome.ClassifierThrew? ==> accepted
    ensures outcome.ClassifierNoContent? ==> !accepted
    ensures outcome.ClassifierReplied? && accepted ==> 3 <= |outcome.text|
  {
    match outcome
    case ClassifierThrew => true
    case ClassifierNoContent => false
    case ClassifierReplied(text) => ToLower(Trim(text)) == "yes"
  }

  /** `content || fallback`: the assistant turn is never empty. */
  function ReplyContent(content: Option<string>): (r: string)
    ensures r != []
    ensures content.Some? && content.value != [] ==> r == content.value
    ensures content.None? || content.value == [] ==> r == FallbackReply
  {
    if content.Some? && content.value != [] then content.value else FallbackReply
  }

  /** The history a `POST` works on: the stored one, or a fresh one holding only the system turn. */
  function Prior(store: map<string, seq<Turn>>, key: string): seq<Turn> {
    if key in store then store[key] else [SystemTurn]
  }

  /** The truncation step: `[conversation[0], ...conversation.slice(-19)]` once longer than 20. */
  function Truncated(conversation: seq<Turn>): (r: seq<Turn>)
    requires conversation != []
    ensures |r| == if |conversation| > MaxTurns then MaxTurns else |conversation|
    ensures r[0] == conversation[0]
    ensures r[1..] == conversation[|conversation| - |r| + 1..]
  {
    if |conversation| > MaxTurns
    then [conversation[0]] + conversation[|conversation| - KeptRecent..]
    else conversation
  }

  /**
   * `POST` on values: the 400 for a missing message, the refusal for a message the classifier
   * turns down, and otherwise `AdmittedPost`.
   */
  function PostSpec(
    store: map<string, seq<Turn>>, message: Option<string>, sessionId: Option<string>,
    classifier: ClassifierOutcome, completion: CompletionOutcome): (o: PostOutcome)
    ensures o.classified.Some? ==> !IsFalsy(message) && o.classified == message
    ensures o.completionRequest.Some? ==> o.classified.Some? && IsHealthRelated(classifier)
  {
    if IsFalsy(message) then PostOutcome(store, MessageRequired, None, None)
    else
      var key := PostSessionKey(sessionId);
      if !IsHealthRelated(classifier) then
        PostOutcome(store, Answer(RefusalReply, key, 0, true), Some(message.value), None)
      else AdmittedPost(store, key, message.value, completion)
  }

  /**
   * `POST` from the session lookup on, for a message the gate has let through. `conversation`
   * is the array the map held once the session exists; the user turn is pushed onto it. When
   * truncation fires the map is given a new array, while the assistant turn is still pushed
   * onto `conversation`, which is also what the reported length is read from.
   */
  function AdmittedPost(store: map<string, seq<Turn>>, key: string, text: string, completion: CompletionOutcome): (o: PostOutcome)
    ensures key in o.store && o.store.Keys == store.Keys + {key}
    ensures forall k :: k in store && k != key ==> o.store[k] == store[k]
    ensures o.classified == Some(text)
  {
    var conversation := Prior(store, key) + [Turn(User, text)];
    var stored := Truncated(conversation);
    match completion
    case CompletionThrew =>
      PostOutcome(store[key := stored], UpstreamFailure, Some(text), Some(stored))
    case CompletionReplied(content) =>
      var reply := ReplyContent(content);
      var pushed := conversation + [Turn(Assistant, reply)];
      var kept := if |conversation| > MaxTurns then stored else pushed;
      PostOutcome(store[key := kept], Answer(reply, key, |pushed| - 1, false), Some(text), Some(stored))
  }

  /** `GET` on values: the history without its first (system) turn. */
  function GetSpec(store: map<string, seq<Turn>>, sessionId: Option<string>): (r: GetResponse)
    ensures r.conversationLength == |r.messages|
    ensures r.sessionId.Some? <==> QuerySessionKey(sessionId) in store
    ensures r.sessionId.Some? ==> r.sessionId.value == QuerySessionKey(sessionId)
    ensures r.sessionId.None? ==> r.messages == []
  {
    var key := QuerySessionKey(sessionId);
    if key in store then
      var rest := if store[key] == [] then [] else store[key][1..];
      GetResponse(rest, |rest|, Some(key))
    else GetResponse([], 0, None)
  }

  /** `DELETE` on values: the key is dropped, whether or not it was there. */
  function DeleteSpec(store: map<string, seq<Turn>>, sessionId: Option<string>): (r: map<string, seq<Turn>>)
    ensures r.Keys == store.Keys - {QuerySessionKey(sessionId)}
    ensures forall k :: k in r ==> r[k] == store[k]
  {
    store - {QuerySessionKey(sessionId)}
  }

  /** A stored history: the system turn first and nowhere else, no empty turn, 1 to 21 turns long. */
  predicate WellFormed(history: seq<Turn>) {
    && 1 <= |history| <= MaxTurns + 1
    && history[0] == SystemTurn
    && forall i :: 1 <= i < |history| ==> history[i].role != System && history[i].content != []
  }

  predicate StoreInvariant(store: map<string, seq<Turn>>) {
    forall key :: key in store ==> WellFormed(store[key])
  }

  /** One JavaScript history array, held by reference and grown in place with `push`. */
  class Conversation {
    var turns: seq<Turn>

    constructor (initial: seq<Turn>)
      ensures turns == initial
    {
      turns := initial;
    }

    method Push(turn: Turn)
      modifies this
      ensures turns == old(turns) + [turn]
    {
      turns := turns + [turn];
    }
  }

  /** The module-level `conversations` map, with the histories as shared objects. */
  class ChatStore {
    var conversations: map<string, Conversation>

    /** No two sessions share one array. */
    ghost predicate Unshared()
      reads this
    {
      forall k1, k2 :: k1 in conversations && k2 in conversations && k1 != k2 ==>
        conversations[k1] != conversations[k2]
    }

    /** Arrays are not shared, and every history is well formed. */
    ghost predicate Valid()
      reads this, conversations.Values
    {
      Unshared() && StoreInvariant(Histories())
    }

    /** The abstract value: each session's history as a sequence of turns. */
    ghost function Histories(): map<string, seq<Turn>>
      reads this, conversations.Values
    {
      map key | key in conversations :: conversations[key].turns
    }

    constructor ()
      ensures Valid() && Histories() == map[]
    {
      conversations := map[];
    }

    /** `if (!conversations.has(id)) conversations.set(id, [system])` followed by `conversations.get(id)`. */
    method Attach(key: string) returns (conversation: Conversation)
      requires Unshared()
      modifies this
      ensures Unshared()
      ensures key in conversations && conversations[key] == conversation
      ensures conversation.turns == Prior(old(Histories()), key)
      ensures conversation in old(conversations.Values) || fresh(conversation)
      ensures conversations.Values <= old(conversations.Values) + {conversation}
      ensures Histories() == old(Histories())[key := Prior(old(Histories()), key)]
    {
      if key !in conversations {
        conversation := new Conversation([SystemTurn]);
        conversations := conversations[key := conversation];
      } else {
        conversation := conversations[key];
        assert Histories() == old(Histories())[key := Prior(old(Histories()), key)];
      }
    }

    /** `conversation.push(turn)` on the array the map holds under `key`. */
    method PushStored(key: string, turn: Turn)
      requires Unshared() && key in conversations
      modifies conversations[key]
      ensures Unshared() && conversations == old(conversations)
      ensures conversations[key].turns == old(conversations[key].turns) + [turn]
      ensures Histories() == old(Histories())[key := old(Histories())[key] + [turn]]
    {
      var conversation := conversations[key];
      conversation.Push(turn);
      forall k | k in conversations
        ensures Histories()[k] == old(Histories())[key := old(Histories())[key] + [turn]][k]
      {
        if k != key { assert conversations[k] != conversation; }
      }
    }

    /** `conversations.set(key, turns)` with a new array. */
    method Replace(key: string, turns: seq<Turn>) returns (replacement: Conversation)
      requires Unshared() && key in conversations
      modifies this
      ensures Unshared() && fresh(replacement)
      ensures conversations == old(conversations)[key := replacement]
      ensures old(conversations[key]) !in conversations.Values
      ensures Histories() == old(Histories())[key := turns]
    {
      replacement := new Conversation(turns);
      ghost var superseded := conversations[key];
      conversations := conversations[key := replacement];
      forall k | k in conversations ensures conversations[k] != superseded {
        if k != key { assert old(conversations)[k] != superseded; }
      }
    }

    /** `conversation.push(turn)` on an array the map no longer holds: no history changes. */
    method PushDetached(conversation: Conversation, turn: Turn)
      requires conversation !in conversations.Values
      modifies conversation
      ensures conversation.turns == old(conversation.turns) + [turn]
      ensures Histories() == old(Histories())
    {
      conversation.Push(turn);
      forall k | k in conversations ensures Histories()[k] == old(Histories())[k] {
        assert conversations[k] in conversations.Values;
      }
    }

    /**
     * Lines 83-106 of the route: get or create the session, push the user turn, and when the
     * array is then longer than 20 install a new, truncated array under the same key. The
     * array the map held on entry (`conversation`) is returned either way.
     */
    method RecordUserTurn(key: string, message: string) returns (conversation: Conversation, truncating: bool)
      requires Unshared()
      modifies this, conversations.Values
      ensures Unshared() && key in conversations
      ensures conversation in old(conversations.Values) || fresh(conversation)
      ensures conversation.turns == Prior(old(Histories()), key) + [Turn(User, message)]
      ensures truncating == (|conversation.turns| > MaxTurns)
      ensures truncating ==> conversation !in conversations.Values
      ensures !truncating ==> conversations[key] == conversation
      ensures Histories() == old(Histories())[key := Truncated(conversation.turns)]
    {
      conversation := PushUserTurn(key, message);
      truncating := |conversation.turns| > MaxTurns;
      if truncating {
        TruncateStored(key);
        UpdateTwice(old(Histories()), key, conversation.turns, Truncated(conversation.turns));
      }
    }

    /** Get or create the session, then `conversation.push` the user turn onto it. */
    method PushUserTurn(key: string, message: string) returns (conversation: Conversation)
      requires Unshared()
      modifies this, conversations.Values
      ensures Unshared() && key in conversations && conversations[key] == conversation
      ensures conversation in old(conversations.Values) || fresh(conversation)
      ensures conversation.turns == Prior(old(Histories()), key) + [Turn(User, message)]
      ensures Histories() == old(Histories())[key := conversation.turns]
    {
      conversation := Attach(key);
      PushStored(key, Turn(User, message));
    }

    /** `conversations.set(id, [systemMessage, ...recentMessages])`: a new, truncated array under `key`. */
    method TruncateStored(key: string)
      requires Unshared() && key in conversations && |conversations[key].turns| > MaxTurns
      modifies this
      ensures Unshared() && key in conversations
      ensures old(conversations[key]) !in conversations.Values
      ensures Histories() == old(Histories())[key := Truncated(old(conversations[key].turns))]
    {
      var turns := conversations[key].turns;
      var systemMessage := turns[0];
      var recentMessages := turns[|turns| - KeptRecent..];
      var _ := Replace(key, [systemMessage] + recentMessages);
    }

    /** `POST`: the gate, then `Admit`. */
    method Post(message: Option<string>, sessionId: Option<string>,
                classifier: ClassifierOutcome, completion: CompletionOutcome)
      returns (response: PostResponse, classified: Option<string>, completionRequest: Option<seq<Turn>>)
      requires Valid()
      modifies this, conversations.Values
      ensures Valid()
      ensures var o := PostSpec(old(Histories()), message, sessionId, classifier, completion);
        Histories() == o.store && response == o.response &&
        classified == o.classified && completionRequest == o.completionRequest
    {
      if message.None? || message.value == [] {
        return MessageRequired, None, None;
      }
      var key := PostSessionKey(sessionId);
      if !IsHealthRelated(classifier) {
        return Answer(RefusalReply, key, 0, true), Some(message.value), None;
      }
      AdmittedPostKeepsInvariant(Histories(), key, message.value, completion);
      response, completionRequest := Admit(key, message.value, completion);
      classified := Some(message.value);
    }

    /** Lines 83-127 of the route: record the user turn, then the completion and the assistant turn. */
    method Admit(key: string, text: string, completion: CompletionOutcome)
      returns (response: PostResponse, completionRequest: Option<seq<Turn>>)
      requires Unshared()
      modifies this, conversations.Values
      ensures Unshared()
      ensures var o := AdmittedPost(old(Histories()), key, text, completion);
        Histories() == o.store && response == o.response && completionRequest == o.completionRequest
    {
      ghost var before := Histories();
      var conversation, truncating := RecordUserTurn(key, text);
      ghost var stored := Truncated(Prior(before, key) + [Turn(User, text)]);
      assert conversations[key].turns == Histories()[key] == stored;
      completionRequest := Some(conversations[key].turns);
      response := Respond(key, conversation, truncating, completion);
      if completion.CompletionReplied? && !truncating {
        UpdateTwice(before, key, stored, stored + [Turn(Assistant, ReplyContent(completion.content))]);
      }
    }

    /**
     * Lines 108-127 of the route after the completion call: a failure answers 500; a reply
     * is pushed by `AppendReply` and answered with the length of the array it went onto.
     */
    method Respond(key: string, conversation: Conversation, truncating: bool, completion: CompletionOutcome)
      returns (response: PostResponse)
      requires Unshared() && key in conversations
      requires truncating ==> conversation !in conversations.Values
      requires !truncating ==> conversations[key] == conversation
      modifies conversation
      ensures completion.CompletionThrew? ==>
        response == UpstreamFailure && conversation.turns == old(conversation.turns) && Histories() == old(Histories())
      ensures completion.CompletionReplied? ==>
        var turn := Turn(Assistant, ReplyContent(completion.content));
        && response == Answer(turn.content, key, |old(conversation.turns)|, false)
        && conversation.turns == old(conversation.turns) + [turn]
        && Histories() == if truncating then old(Histories()) else old(Histories())[key := old(Histories())[key] + [turn]]
    {
      match completion
      case CompletionThrew =>
        response := UpstreamFailure;
      case CompletionReplied(content) =>
        var aiResponse := ReplyContent(content);
        AppendReply(key, conversation, truncating, Turn(Assistant, aiResponse));
        response := Answer(aiResponse, key, |conversation.turns| - 1, false);
    }

    /**
     * `conversation.push` of the assistant turn: onto the stored history, or, after a
     * truncation, onto the superseded array, which leaves every stored history as it was.
     */
    method AppendReply(key: string, conversation: Conversation, truncating: bool, turn: Turn)
      requires Unshared() && key in conversations
      requires truncating ==> conversation !in conversations.Values
      requires !truncating ==> conversations[key] == conversation
      modifies conversation
      ensures conversation.turns == old(conversation.turns) + [turn]
      ensures truncating ==> Histories() == old(Histories())
      ensures !truncating ==> Histories() == old(Histories())[key := old(Histories())[key] + [turn]]
    {
      if truncating {
        PushDetached(conversation, turn);
      } else {
        PushStored(key, turn);
      }
    }

    method Get(sessionId: Option<string>) returns (response: GetResponse)
      requires Valid()
      ensures response == GetSpec(Histories(), sessionId)
    {
      var key := QuerySessionKey(sessionId);
      if key !in conversations {
        return GetResponse([], 0, None);
      }
      var conversation := conversations[key].turns;
      assert conversation == Histories()[key];
      var userMessages := if conversation == [] then [] else conversation[1..];
      response := GetResponse(userMessages, |userMessages|, Some(key));
    }

    method Delete(sessionId: Option<string>) returns (response: DeleteResponse)
      requires Valid()
      modifies this
      ensures Valid()
      ensures Histories() == DeleteSpec(old(Histories()), sessionId)
      ensures response == Cleared(QuerySessionKey(sessionId))
    {
      var key := QuerySessionKey(sessionId);
      conversations := conversations - {key};
      response := Cleared(key);
      assert Histories() == DeleteSpec(old(Histories()), sessionId);
    }
  }

  /** Every `POST` leaves every history well formed: 1 to 21 turns, one system turn in front, none empty. */
  lemma PostKeepsInvariant(
    store: map<string, seq<Turn>>, message: Option<string>, sessionId: Option<string>,
    classifier: ClassifierOutcome, completion: CompletionOutcome)
    requires StoreInvariant(store)
    ensures StoreInvariant(PostSpec(store, message, sessionId, classifier, completion).store)
  {
    if !IsFalsy(message) && IsHealthRelated(classifier) {
      AdmittedPostKeepsInvariant(store, PostSessionKey(sessionId), message.value, completion);
    }
  }

  /** The admitted part of `POST` keeps every history well formed, whatever the completion did. */
  lemma AdmittedPostKeepsInvariant(store: map<string, seq<Turn>>, key: string, text: string, completion: CompletionOutcome)
    requires StoreInvariant(store) && text != []
    ensures StoreInvariant(AdmittedPost(store, key, text, completion).store)
  {
    var prior := Prior(store, key);
    var conversation := prior + [Turn(User, text)];
    assert WellFormed(prior);
    TruncatedWellFormed(conversation);
    var o := AdmittedPost(store, key, text, completion);
    if completion.CompletionReplied? && |conversation| <= MaxTurns {
      var pushed := conversation + [Turn(Assistant, ReplyContent(completion.content))];
      assert WellFormed(pushed) by {
        forall i | 1 <= i < |pushed|
          ensures pushed[i].role != System && pushed[i].content != []
        {
          if i < |prior| { assert pushed[i] == prior[i]; }
        }
      }
      assert o.store == store[key := pushed];
    } else {
      assert o.store == store[key := Truncated(conversation)];
    }
  }

  /** A second update of the same key replaces the first. */
  lemma UpdateTwice<K, V>(m: map<K, V>, k: K, first: V, second: V)
    ensures m[k := first][k := second] == m[k := second]
  {
  }

  /** Truncating a history that is well formed but for one extra user turn makes it well formed. */
  lemma TruncatedWellFormed(conversation: seq<Turn>)
    requires 2 <= |conversation| <= MaxTurns + 2
    requires conversation[0] == SystemTurn
    requires forall i :: 1 <= i < |conversation| ==> conversation[i].role != System && conversation[i].content != []
    ensures WellFormed(Truncated(conversation))
    ensures |conversation| <= MaxTurns ==> Truncated(conversation) == conversation
    ensures |conversation| > MaxTurns ==> |Truncated(conversation)| == MaxTurns
  {
    var t := Truncated(conversation);
    if |conversation| > MaxTurns {
      forall i | 1 <= i < |t|
        ensures t[i].role != System && t[i].content != []
      {
        assert t[i] == conversation[|conversation| - KeptRecent + i - 1];
      }
    }
  }
}
