/**
 * What the chat route promises, stated about the value-level model in `ChatRoute`
 * (which `ChatRoute.ChatStore` is proved to follow step for step).
 */
module ChatProperties {
  import opened Wrappers
  import opened Ascii
  import opened ChatRoute

  /** An accepted `POST`: a truthy message that the classifier lets through. */
  predicate Accepted(message: Option<string>, classifier: ClassifierOutcome) {
    !IsFalsy(message) && IsHealthRelated(classifier)
  }

  // ---------------------------------------------------------------------------------------
  // The gatekeeper
  // ---------------------------------------------------------------------------------------

  /** A missing or empty message is answered 400 before classification and changes nothing. */
  lemma MissingMessageRejected(
    store: map<string, seq<Turn>>, message: Option<string>, sessionId: Option<string>,
    classifier: ClassifierOutcome, completion: CompletionOutcome)
    ensures var o := PostSpec(store, message, sessionId, classifier, completion);
      && (o.response == MessageRequired <==> IsFalsy(message))
      && (IsFalsy(message) ==> o.store == store && o.classified == None && o.completionRequest == None)
      && (!IsFalsy(message) ==> o.classified == message)
  {
  }

  /** The reply is "yes" in some letter case, with nothing but whitespace around it. */
  predicate IsPaddedYes(text: string) {
    exists i, j :: 0 <= i <= j <= |text| && PaddedYesAt(text, i, j)
  }

  predicate PaddedYesAt(text: string, i: int, j: int)
    requires 0 <= i <= j <= |text|
  {
    AllWhitespace(text[..i]) && AllWhitespace(text[j..]) && ToLower(text[i..j]) == "yes"
  }

  /** A thrown classifier call lets the message through (fail-open); a reply without content does not. */
  lemma ClassifierFailsOpen()
    ensures IsHealthRelated(ClassifierThrew) && !IsHealthRelated(ClassifierNoContent)
  {
  }

  /** Every reply that passes is a padded "yes". */
  lemma AcceptedReplyIsYes(text: string)
    requires IsHealthRelated(ClassifierReplied(text))
    ensures IsPaddedYes(text)
  {
    TrimCutsWhitespace(text);
    var i, j :| 0 <= i <= j <= |text| && Trim(text) == text[i..j]
      && AllWhitespace(text[..i]) && AllWhitespace(text[j..]);
    assert PaddedYesAt(text, i, j);
  }

  /** Every padded "yes" passes, whatever its letter case and surrounding whitespace. */
  lemma YesReplyIsAccepted(text: string)
    requires IsPaddedYes(text)
    ensures IsHealthRelated(ClassifierReplied(text))
  {
    var i, j :| 0 <= i <= j <= |text| && PaddedYesAt(text, i, j);
    var w := text[i..j];
    assert |ToLower(w)| == |w| == 3;
    assert ToLower(w)[0] == 'y' && ToLower(w)[2] == 's';
    assert !IsWhitespace(w[0]) && !IsWhitespace(w[2]);
    assert text == text[..i] + w + text[j..];
    TrimOfPadded(text[..i], w, text[j..]);
  }

  /** A message the classifier turns down gets the fixed refusal, and no completion call and no store change. */
  lemma RefusalLeavesStoreUnchanged(
    store: map<string, seq<Turn>>, message: Option<string>, sessionId: Option<string>,
    classifier: ClassifierOutcome, completion: CompletionOutcome)
    requires !IsFalsy(message) && !IsHealthRelated(classifier)
    ensures var o := PostSpec(store, message, sessionId, classifier, completion);
      && o.store == store
      && o.response == Answer(RefusalReply, PostSessionKey(sessionId), 0, true)
      && o.completionRequest == None
  {
  }

  /** An absent session id means "default"; only the query string also maps "" to "default". */
  lemma SessionKeyDefaults(id: string)
    ensures PostSessionKey(None) == QuerySessionKey(None) == QuerySessionKey(Some([])) == DefaultSessionId
    ensures PostSessionKey(Some(id)) == id
    ensures id != [] ==> QuerySessionKey(Some(id)) == id
  {
  }

  // ---------------------------------------------------------------------------------------
  // Session creation, truncation and the assistant turn
  // ---------------------------------------------------------------------------------------

  /** A message the gate lets through reaches the session step with its text and its key. */
  lemma AcceptedMessageReachesSession(
    store: map<string, seq<Turn>>, message: Option<string>, sessionId: Option<string>,
    classifier: ClassifierOutcome, completion: CompletionOutcome)
    requires Accepted(message, classifier)
    ensures PostSpec(store, message, sessionId, classifier, completion)
         == AdmittedPost(store, PostSessionKey(sessionId), message.value, completion)
  {
  }

  /** The first admitted message of an unknown session stores the system turn, then the user turn. */
  lemma FirstMessageCreatesSession(
    store: map<string, seq<Turn>>, key: string, text: string, completion: CompletionOutcome)
    requires key !in store
    ensures var o := AdmittedPost(store, key, text, completion);
      && o.store.Keys == store.Keys + {key}
      && (completion.CompletionThrew? ==> o.store[key] == [SystemTurn, Turn(User, text)])
      && (completion.CompletionReplied? ==>
            o.store[key] == [SystemTurn, Turn(User, text), Turn(Assistant, ReplyContent(completion.content))]
            && o.response.conversationLength == 2)
  {
  }

  /**
   * Past 20 turns the map gets the system turn and the last 19 turns, and that is also what
   * the completion is asked about; the assistant turn goes to the superseded array, so the
   * stored history ends with the user turn and the reported length counts the lost reply.
   */
  lemma TruncatingPostDropsReply(
    store: map<string, seq<Turn>>, key: string, text: string, completion: CompletionOutcome)
    requires |Prior(store, key)| + 1 > MaxTurns
    ensures var o := AdmittedPost(store, key, text, completion);
      var prior := Prior(store, key);
      var conversation := prior + [Turn(User, text)];
      && |o.store[key]| == MaxTurns
      && o.store[key][0] == prior[0]
      && o.store[key][1..] == conversation[|conversation| - KeptRecent..]
      && o.store[key][MaxTurns - 1] == Turn(User, text)
      && o.completionRequest == Some(o.store[key])
      && (completion.CompletionReplied? ==>
            o.response.conversationLength == |prior| + 1
            && (key != [] ==> GetSpec(o.store, Some(key)).conversationLength == MaxTurns - 1))
  {
    var o := AdmittedPost(store, key, text, completion);
    assert |o.store[key]| == MaxTurns;
  }

  /** Without truncation the stored history grows by exactly the user turn and the assistant turn. */
  lemma PlainPostAppendsExchange(store: map<string, seq<Turn>>, key: string, text: string, content: Option<string>)
    requires |Prior(store, key)| + 1 <= MaxTurns
    ensures var o := AdmittedPost(store, key, text, CompletionReplied(content));
      && o.store[key] == Prior(store, key) + [Turn(User, text), Turn(Assistant, ReplyContent(content))]
      && o.response.conversationLength == |o.store[key]| - 1
      && o.completionRequest == Some(Prior(store, key) + [Turn(User, text)])
  {
  }

  /** A failed completion answers 500 and leaves the user turn stored with no reply after it. */
  lemma CompletionFailureKeepsUserTurn(store: map<string, seq<Turn>>, key: string, text: string)
    ensures var o := AdmittedPost(store, key, text, CompletionThrew);
      && o.response == UpstreamFailure
      && o.store[key] == Truncated(Prior(store, key) + [Turn(User, text)])
      && o.store[key][|o.store[key]| - 1] == Turn(User, text)
  {
  }

  /** Every other session is left alone by a `POST`. */
  lemma PostTouchesOnlyItsSession(
    store: map<string, seq<Turn>>, message: Option<string>, sessionId: Option<string>,
    classifier: ClassifierOutcome, completion: CompletionOutcome, other: string)
    requires other != PostSessionKey(sessionId)
    ensures var o := PostSpec(store, message, sessionId, classifier, completion);
      (other in o.store <==> other in store) && (other in store ==> o.store[other] == store[other])
  {
  }

  // ---------------------------------------------------------------------------------------
  // GET and DELETE
  // ---------------------------------------------------------------------------------------

  /** `GET` gives the history after its system turn, or nothing for an unknown session. */
  lemma GetOmitsSystemTurn(store: map<string, seq<Turn>>, sessionId: Option<string>)
    requires StoreInvariant(store)
    ensures var r := GetSpec(store, sessionId);
      var key := QuerySessionKey(sessionId);
      && (key in store ==> [SystemTurn] + r.messages == store[key] && r.sessionId == Some(key))
      && (key !in store ==> r == GetResponse([], 0, None))
      && r.conversationLength == |r.messages| <= MaxTurns
      && forall i :: 0 <= i < |r.messages| ==> r.messages[i].role != System
  {
    var key := QuerySessionKey(sessionId);
    if key in store {
      assert WellFormed(store[key]);
      assert [store[key][0]] + store[key][1..] == store[key];
    }
  }

  /** `DELETE` removes exactly its key, twice is the same as once, and a `GET` then finds nothing. */
  lemma DeleteClearsOnlyItsSession(store: map<string, seq<Turn>>, sessionId: Option<string>)
    ensures var s := DeleteSpec(store, sessionId);
      && s.Keys == store.Keys - {QuerySessionKey(sessionId)}
      && (forall k :: k in s ==> s[k] == store[k])
      && DeleteSpec(s, sessionId) == s
      && GetSpec(s, sessionId) == GetResponse([], 0, None)
  {
  }

  // ---------------------------------------------------------------------------------------
  // Any sequence of requests
  // ---------------------------------------------------------------------------------------

  datatype Request =
    | PostRequest(message: Option<string>, sessionId: Option<string>,
                  classifier: ClassifierOutcome, completion: CompletionOutcome)
    | GetRequest(sessionId: Option<string>)
    | DeleteRequest(sessionId: Option<string>)

  /** The store after one request; a `GET` changes nothing. */
  function Serve(store: map<string, seq<Turn>>, request: Request): map<string, seq<Turn>> {
    match request
    case PostRequest(m, id, c, r) => PostSpec(store, m, id, c, r).store
    case GetRequest(_) => store
    case DeleteRequest(id) => DeleteSpec(store, id)
  }

  /** The store after a sequence of requests, each served whole before the next. */
  function Replay(store: map<string, seq<Turn>>, requests: seq<Request>): map<string, seq<Turn>>
    decreases |requests|
  {
    if requests == [] then store else Replay(Serve(store, requests[0]), requests[1..])
  }

  /**
   * From any store whose histories are well formed (the empty store the route starts with among
   * them), after any sequence of requests every stored history still has the system turn first
   * and nowhere else, holds 1 to 21 turns, and has no empty turn.
   */
  lemma {:induction false} ReplayKeepsInvariant(store: map<string, seq<Turn>>, requests: seq<Request>)
    requires StoreInvariant(store)
    ensures StoreInvariant(Replay(store, requests))
    decreases |requests|
  {
    if requests != [] {
      if requests[0].PostRequest? {
        var r := requests[0];
        PostKeepsInvariant(store, r.message, r.sessionId, r.classifier, r.completion);
      }
      ReplayKeepsInvariant(Serve(store, requests[0]), requests[1..]);
    }
  }

  // ---------------------------------------------------------------------------------------
  // A conversation run to its end on one session
  // ---------------------------------------------------------------------------------------

  /** One exchange past the gate: the message, and what the completion returned. */
  datatype Exchange = Exchange(message: string, reply: Option<string>)

  function Send(store: map<string, seq<Turn>>, key: string, e: Exchange): PostOutcome {
    AdmittedPost(store, key, e.message, CompletionReplied(e.reply))
  }

  /** The store after the exchanges, oldest first. */
  function Converse(store: map<string, seq<Turn>>, key: string, exchanges: seq<Exchange>): map<string, seq<Turn>>
    decreases |exchanges|
  {
    if exchanges == [] then store
    else Send(Converse(store, key, exchanges[..|exchanges| - 1]), key, exchanges[|exchanges| - 1]).store
  }

  /**
   * On a new session, n accepted exchanges leave 2n + 1 turns while n <= 10, and 20 turns
   * from then on: after the tenth exchange every one truncates.
   */
  lemma {:induction false} StoredLengthAfterExchanges(
    store: map<string, seq<Turn>>, key: string, exchanges: seq<Exchange>)
    requires key !in store
    ensures var n := |exchanges|;
      && (n == 0 ==> key !in Converse(store, key, exchanges))
      && (n > 0 ==>
            key in Converse(store, key, exchanges)
            && |Converse(store, key, exchanges)[key]| == if n <= 10 then 2 * n + 1 else MaxTurns)
    decreases |exchanges|
  {
    var n := |exchanges|;
    if n > 0 {
      var earlier := exchanges[..n - 1];
      StoredLengthAfterExchanges(store, key, earlier);
      SendLength(Converse(store, key, earlier), key, exchanges[n - 1]);
    }
  }

  /** One exchange adds two turns, unless the history then exceeds 20 turns and is cut to 20. */
  lemma SendLength(store: map<string, seq<Turn>>, key: string, e: Exchange)
    ensures var o := Send(store, key, e);
      var before := |Prior(store, key)|;
      key in o.store && |o.store[key]| == if before + 1 > MaxTurns then MaxTurns else before + 2
  {
    if |Prior(store, key)| + 1 > MaxTurns {
      TruncatingPostDropsReply(store, key, e.message, CompletionReplied(e.reply));
    } else {
      PlainPostAppendsExchange(store, key, e.message, e.reply);
    }
  }

  /**
   * The length the n-th exchange reports: 2n up to the tenth, 22 for the eleventh (the
   * 21-turn history plus the user and assistant turns, less the system turn) and 21 for
   * every later one, while `GET` then reports 19.
   */
  lemma ReportedLengthOfExchange(
    store: map<string, seq<Turn>>, key: string, exchanges: seq<Exchange>, next: Exchange)
    requires key !in store
    ensures var n := |exchanges| + 1;
      var o := Send(Converse(store, key, exchanges), key, next);
      && o.response.conversationLength == (if n <= 10 then 2 * n else if n == 11 then 22 else 21)
      && (key != [] ==> GetSpec(o.store, Some(key)).conversationLength == (if n <= 10 then 2 * n else 19))
  {
    StoredLengthAfterExchanges(store, key, exchanges);
    var before := Converse(store, key, exchanges);
    var n := |exchanges| + 1;
    var prior := Prior(before, key);
    assert |prior| == if n == 1 then 1 else if n <= 11 then 2 * n - 1 else MaxTurns;
    if |prior| + 1 > MaxTurns {
      TruncatingPostDropsReply(before, key, next.message, CompletionReplied(next.reply));
    } else {
      PlainPostAppendsExchange(before, key, next.message, next.reply);
    }
  }

  // ---------------------------------------------------------------------------------------
  // The reply lost after truncation, and the evidently intended behaviour
  // ---------------------------------------------------------------------------------------

  /** A concrete input: a 20-turn history; the next exchange stores no reply and reports 21 turns where GET sees 19. */
  lemma LostReplyWitness()
    ensures var history := [SystemTurn] + seq(19, _ => Turn(User, "q"));
      var o := AdmittedPost(map["s" := history], "s", "m", CompletionReplied(Some("a")));
      && o.response == Answer("a", "s", 21, false)
      && Turn(Assistant, "a") !in o.store["s"]
      && GetSpec(o.store, Some("s")).conversationLength == 19
  {
    var history := [SystemTurn] + seq(19, _ => Turn(User, "q"));
    var conversation := history + [Turn(User, "m")];
    assert |conversation| == 21;
    var stored := Truncated(conversation);
    assert stored == [SystemTurn] + conversation[2..];
    assert forall i :: 0 <= i < |stored| ==> stored[i].role != Assistant;
    var o := AdmittedPost(map["s" := history], "s", "m", CompletionReplied(Some("a")));
    assert o.store["s"] == stored;
  }

  /**
   * The admitted `POST` the route evidently intends: the assistant turn is appended to the
   * history the map holds after truncation, and the reported length is read from that history.
   */
  function IntendedAdmittedPost(store: map<string, seq<Turn>>, key: string, text: string, completion: CompletionOutcome): PostOutcome {
    var stored := Truncated(Prior(store, key) + [Turn(User, text)]);
    match completion
    case CompletionThrew =>
      PostOutcome(store[key := stored], UpstreamFailure, Some(text), Some(stored))
    case CompletionReplied(content) =>
      var reply := ReplyContent(content);
      var kept := stored + [Turn(Assistant, reply)];
      PostOutcome(store[key := kept], Answer(reply, key, |kept| - 1, false), Some(text), Some(stored))
  }

  /**
   * With the intended behaviour every answered exchange ends the stored history with the user
   * turn and the reply, and histories stay well formed.
   */
  lemma IntendedPostKeepsReply(store: map<string, seq<Turn>>, key: string, text: string, content: Option<string>)
    requires StoreInvariant(store) && text != []
    ensures var o := IntendedAdmittedPost(store, key, text, CompletionReplied(content));
      var h := o.store[key];
      && StoreInvariant(o.store)
      && |h| >= 3
      && h[|h| - 2..] == [Turn(User, text), Turn(Assistant, ReplyContent(content))]
  {
    var prior := Prior(store, key);
    var conversation := prior + [Turn(User, text)];
    assert WellFormed(prior);
    TruncatedWellFormed(conversation);
    var stored := Truncated(conversation);
    var h := stored + [Turn(Assistant, ReplyContent(content))];
    assert h[|h| - 2..] == [Turn(User, text), Turn(Assistant, ReplyContent(content))] by {
      assert stored[|stored| - 1] == Turn(User, text);
    }
    AppendedTurnWellFormed(stored, Turn(Assistant, ReplyContent(content)));
    assert IntendedAdmittedPost(store, key, text, CompletionReplied(content)).store == store[key := h];
  }

  /** With the intended behaviour the reported length is the stored length less one, which is what `GET` reports. */
  lemma IntendedLengthAgreesWithGet(store: map<string, seq<Turn>>, key: string, text: string, content: Option<string>)
    requires key != []
    ensures var o := IntendedAdmittedPost(store, key, text, CompletionReplied(content));
      && o.response.conversationLength == |o.store[key]| - 1
      && o.response.conversationLength == GetSpec(o.store, Some(key)).conversationLength
  {
    var o := IntendedAdmittedPost(store, key, text, CompletionReplied(content));
    assert o.store[key] != [];
  }

  /** A non-system, non-empty turn appended to a well-formed history of at most 20 turns keeps it well formed. */
  lemma AppendedTurnWellFormed(history: seq<Turn>, turn: Turn)
    requires WellFormed(history) && |history| <= MaxTurns
    requires turn.role != System && turn.content != []
    ensures WellFormed(history + [turn])
  {
    var h := history + [turn];
    forall i | 1 <= i < |h| ensures h[i].role != System && h[i].content != [] {
      if i < |history| { assert h[i] == history[i]; }
    }
  }

  /** The intended and the written behaviour differ only when a truncation happens. */
  lemma IntendedAgreesWithoutTruncation(store: map<string, seq<Turn>>, key: string, text: string, completion: CompletionOutcome)
    requires |Prior(store, key)| + 1 <= MaxTurns
    ensures IntendedAdmittedPost(store, key, text, completion) == AdmittedPost(store, key, text, completion)
  {
  }
}
