/**
 * The chat state machine of the case and client chat areas
 * (`CaseChatArea`, `ClientChatArea`): a FIFO queue of deltas filled by the
 * stream callback, the message list, the cached chat id and the
 * `submitting` flag. The 15 ms interval becomes an explicit `Tick` that any
 * caller may interleave with `Push`.
 *
 * `crypto.randomUUID()` is modelled by a counter: every new message takes
 * the next number, so ids are fresh and distinct.
 */
module ChatSession {
  import opened Wrappers
  import opened Text
  import opened Scopes
  import StreamDecoder

  datatype Role = User | Assistant

  /** `ChatMessage`: an id, who wrote it and its text. */
  datatype ChatMessage = ChatMessage(id: nat, role: Role, content: string)

  /** A network request the chat area issues. */
  datatype Request =
    | CreateChat(endpoint: string)
    | Ask(ask: StreamDecoder.AskRequest)

  /** The last message is an assistant message, the one a delta grows. */
  predicate EndsWithAssistant(msgs: seq<ChatMessage>)
  {
    msgs != [] && msgs[|msgs| - 1].role == Assistant
  }

  /** The text of the trailing assistant message, or "" when there is none. */
  function Trailing(msgs: seq<ChatMessage>): string
  {
    if EndsWithAssistant(msgs) then msgs[|msgs| - 1].content else ""
  }

  /** The user messages of a list, in order. */
  function UserMessages(msgs: seq<ChatMessage>): seq<ChatMessage>
  {
    if msgs == [] then []
    else
      var last := msgs[|msgs| - 1];
      UserMessages(msgs[..|msgs| - 1]) + (if last.role == User then [last] else [])
  }

  /** Ids strictly increase along the list and stay below the next id to hand out. */
  predicate IdsBelow(msgs: seq<ChatMessage>, bound: nat)
  {
    && (forall i, j | 0 <= i < j < |msgs| :: msgs[i].id < msgs[j].id)
    && (forall i | 0 <= i < |msgs| :: msgs[i].id < bound)
  }

  /** Assistant messages are only created from, and grown by, non-empty deltas. */
  predicate AssistantsNonEmpty(msgs: seq<ChatMessage>)
  {
    forall i | 0 <= i < |msgs| && msgs[i].role == Assistant :: msgs[i].content != ""
  }

  /**
   * The `setMessages` updater of a tick: a trailing assistant message grows
   * by the delta, otherwise a new assistant message holding exactly the delta
   * is appended. Every other message is left as it was.
   */
  function FoldDelta(prev: seq<ChatMessage>, delta: string, freshId: nat): (r: seq<ChatMessage>)
    ensures |r| == if EndsWithAssistant(prev) then |prev| else |prev| + 1
    ensures EndsWithAssistant(r) && Trailing(r) == Trailing(prev) + delta
    ensures forall i | 0 <= i < |r| - 1 :: r[i] == prev[i]
    ensures r[|r| - 1].id == if EndsWithAssistant(prev) then prev[|prev| - 1].id else freshId
  {
    if EndsWithAssistant(prev) then
      var last := prev[|prev| - 1];
      prev[|prev| - 1 := last.(content := last.content + delta)]
    else
      prev + [ChatMessage(freshId, Assistant, delta)]
  }

  /** A tick never adds, removes or edits a user message. */
  lemma FoldDeltaKeepsUserMessages(prev: seq<ChatMessage>, delta: string, freshId: nat)
    ensures UserMessages(FoldDelta(prev, delta, freshId)) == UserMessages(prev)
  {
    var r := FoldDelta(prev, delta, freshId);
    assert r[..|r| - 1] == prev[..|r| - 1];
    if EndsWithAssistant(prev) {
      assert UserMessages(r) == UserMessages(r[..|r| - 1]);
    } else {
      assert r[..|r| - 1] == prev;
    }
  }

  /** A tick keeps ids fresh and increasing and assistant texts non-empty. */
  lemma FoldDeltaKeepsInvariant(prev: seq<ChatMessage>, delta: string, freshId: nat)
    requires IdsBelow(prev, freshId) && AssistantsNonEmpty(prev) && delta != ""
    ensures var r := FoldDelta(prev, delta, freshId);
      IdsBelow(r, freshId + 1) && AssistantsNonEmpty(r)
  {
  }

  /** Appending a user message with the next fresh id keeps ids fresh and ends any assistant turn. */
  lemma AppendUserKeepsInvariant(prev: seq<ChatMessage>, prompt: string, freshId: nat)
    requires IdsBelow(prev, freshId) && AssistantsNonEmpty(prev)
    ensures var r := prev + [ChatMessage(freshId, User, prompt)];
      IdsBelow(r, freshId + 1) && AssistantsNonEmpty(r) && Trailing(r) == ""
  {
  }

  /** Several ticks in a row over deltas that are not empty, each taking the next fresh id. */
  function FoldDeltas(prev: seq<ChatMessage>, deltas: seq<string>, freshId: nat): (r: seq<ChatMessage>)
    ensures |prev| <= |r| <= |prev| + |deltas|
    ensures forall i | 0 <= i < |prev| - 1 :: r[i] == prev[i]
    decreases |deltas|
  {
    if deltas == [] then prev
    else FoldDeltas(FoldDelta(prev, deltas[0], freshId), deltas[1..], freshId + 1)
  }

  /** Deltas folded into a trailing assistant message are appended to it, in order. */
  lemma {:induction false} FoldDeltasGrow(prev: seq<ChatMessage>, deltas: seq<string>, freshId: nat)
    requires EndsWithAssistant(prev)
    ensures var r, last := FoldDeltas(prev, deltas, freshId), prev[|prev| - 1];
      r == prev[|prev| - 1 := last.(content := last.content + Concat(deltas))]
    decreases |deltas|
  {
    var last := prev[|prev| - 1];
    if deltas == [] {
      assert last.content + Concat(deltas) == last.content;
      assert prev[|prev| - 1 := last] == prev;
    } else {
      var grown := last.(content := last.content + deltas[0]);
      var next := FoldDelta(prev, deltas[0], freshId);
      assert next == prev[|prev| - 1 := grown];
      assert FoldDeltas(prev, deltas, freshId) == FoldDeltas(next, deltas[1..], freshId + 1);
      FoldDeltasGrow(next, deltas[1..], freshId + 1);
      assert next[|next| - 1] == grown;
      ConcatCons(deltas[0], deltas[1..]);
      assert deltas == [deltas[0]] + deltas[1..];
      assert grown.content + Concat(deltas[1..]) == last.content + Concat(deltas);
      assert grown.(content := grown.content + Concat(deltas[1..]))
          == last.(content := last.content + Concat(deltas));
    }
  }

  /**
   * The answer to a question: after a user message, the deltas of one
   * exchange become exactly one new assistant message holding their
   * in-order concatenation; no delta at all leaves the list as it was.
   * `FoldDeltas` folds every delta, where a tick skips an empty one; the
   * two agree on decoded streams, which never hold an empty delta
   * (`StreamDecoder.Decode`).
   */
  lemma FoldDeltasAfterUser(prev: seq<ChatMessage>, deltas: seq<string>, freshId: nat)
    requires prev != [] && prev[|prev| - 1].role == User
    ensures FoldDeltas(prev, deltas, freshId)
      == if deltas == [] then prev else prev + [ChatMessage(freshId, Assistant, Concat(deltas))]
  {
    if deltas != [] {
      var rest := deltas[1..];
      var created := ChatMessage(freshId, Assistant, deltas[0]);
      var whole := ChatMessage(freshId, Assistant, deltas[0] + Concat(rest));
      var first := prev + [created];
      assert FoldDelta(prev, deltas[0], freshId) == first;
      assert FoldDeltas(prev, deltas, freshId) == FoldDeltas(first, rest, freshId + 1);
      FoldDeltasGrow(first, rest, freshId + 1);
      assert FoldDeltas(prev, deltas, freshId) == first[|prev| := whole];
      ReplaceLast(prev, created, whole);
      ConcatCons(deltas[0], rest);
      assert deltas == [deltas[0]] + rest;
    }
  }

  /** Replacing the element just appended is appending the replacement. */
  lemma ReplaceLast(prev: seq<ChatMessage>, m: ChatMessage, x: ChatMessage)
    ensures (prev + [m])[|prev| := x] == prev + [x]
  {
    assert (prev + [m])[|prev| := x] == prev + [x];
  }


  /**
   * End to end: once the decoded deltas of a streamed body have all been
   * ticked in after the user's question, the conversation ends with one
   * assistant message holding their concatenation, or is unchanged when the
   * body carried no `data:` line.
   */
  lemma StreamedAnswer(prev: seq<ChatMessage>, body: string, freshId: nat)
    requires prev != [] && prev[|prev| - 1].role == User
    ensures var d := StreamDecoder.Decode(body);
      FoldDeltas(prev, d, freshId)
        == if d == [] then prev else prev + [ChatMessage(freshId, Assistant, Concat(d))]
  {
    FoldDeltasAfterUser(prev, StreamDecoder.Decode(body), freshId);
  }

  /**
   * A question ends the answer before it: the first delta after a user
   * message starts a new assistant message instead of growing the old one.
   */
  lemma QuestionSeparatesAnswers(prev: seq<ChatMessage>, question: ChatMessage, delta: string, freshId: nat)
    requires question.role == User
    ensures FoldDelta(prev + [question], delta, freshId)
      == prev + [question, ChatMessage(freshId, Assistant, delta)]
  {
    assert (prev + [question]) + [ChatMessage(freshId, Assistant, delta)]
        == prev + [question, ChatMessage(freshId, Assistant, delta)];
  }

  /** Extending a prefix of a list by its next element. */
  lemma AppendNext(p: seq<string>, deltas: seq<string>, k: nat)
    requires k < |deltas|
    ensures p + deltas[..k + 1] == (p + deltas[..k]) + [deltas[k]]
  {
    assert deltas[..k + 1] == deltas[..k] + [deltas[k]];
  }

  /**
   * The chat area's invariant on values: ids are fresh and distinct,
   * assistant messages are never empty, and the deltas of the current
   * exchange are the trailing assistant text followed by what is still
   * queued, so nothing is lost, duplicated or reordered between the stream
   * callback and the screen.
   */
  ghost predicate Inv(messages: seq<ChatMessage>, nextId: nat, queue: seq<string>, turn: seq<string>)
  {
    && IdsBelow(messages, nextId)
    && AssistantsNonEmpty(messages)
    && Concat(turn) == Trailing(messages) + Concat(queue)
  }

  /** A tick keeps the invariant, whether the delta it takes is empty or not. */
  lemma TickKeepsInvariant(messages: seq<ChatMessage>, nextId: nat, queue: seq<string>, turn: seq<string>)
    requires Inv(messages, nextId, queue, turn) && queue != []
    ensures var next := queue[0];
      if next == "" then Inv(messages, nextId, queue[1..], turn)
      else Inv(FoldDelta(messages, next, nextId), nextId + 1, queue[1..], turn)
  {
    var next, rest := queue[0], queue[1..];
    ConcatCons(next, rest);
    assert queue == [next] + rest;
    if next != "" {
      FoldDeltaKeepsInvariant(messages, next, nextId);
      var grown, shown := FoldDelta(messages, next, nextId), Trailing(messages);
      assert Trailing(grown) == shown + next;
      assert (shown + next) + Concat(rest) == shown + (next + Concat(rest));
    }
  }

  /** Pushing the same deltas onto the queue and the turn keeps the invariant. */
  lemma PushKeepsInvariant(messages: seq<ChatMessage>, nextId: nat, queue: seq<string>, turn: seq<string>,
                           deltas: seq<string>)
    requires Inv(messages, nextId, queue, turn)
    ensures Inv(messages, nextId, queue + deltas, turn + deltas)
  {
    ConcatAppend(queue, deltas);
    ConcatAppend(turn, deltas);
    var a, b, c := Trailing(messages), Concat(queue), Concat(deltas);
    assert (a + b) + c == a + (b + c);
  }

  /** A cached chat id that can be used: present and not "". */
  predicate Usable(chatId: Option<string>)
  {
    chatId.Some? && chatId.value != ""
  }

  /** The chat a send answers in: the usable cached id, else the one the creation returned, if any. */
  function ChatFor(cached: Option<string>, created: Option<string>): (chat: Option<string>)
    ensures chat.None? <==> !Usable(cached) && created.None?
    ensures Usable(cached) ==> chat == cached
    ensures !Usable(cached) ==> chat == created
  {
    if Usable(cached) then cached else created
  }

  /**
   * The requests one send issues after the prompt is shown: a creation
   * request only when no usable chat id is cached, then exactly one ask with
   * the prompt, unless the creation failed.
   */
  function Issued(scope: Scope, entityId: string, cached: Option<string>, created: Option<string>,
                  prompt: string): (r: seq<Request>)
    ensures |r| == (if Usable(cached) then 0 else 1) + (if ChatFor(cached, created).Some? then 1 else 0)
    ensures !Usable(cached) ==> r[0] == CreateChat(ChatsEndpoint(scope, entityId))
    ensures Usable(cached) ==> |r| == 1 && r[0].Ask?
    ensures ChatFor(cached, created).Some? ==>
      r[|r| - 1] == Ask(StreamDecoder.AskRequest(StreamDecoder.AskEndpoint, prompt, ChatFor(cached, created)))
    ensures forall i | 0 <= i < |r| && r[i].Ask? ::
      i == |r| - 1 && r[i].ask == StreamDecoder.AskRequest(StreamDecoder.AskEndpoint, prompt, ChatFor(cached, created))
  {
    var chat := ChatFor(cached, created);
    (if Usable(cached) then [] else [CreateChat(ChatsEndpoint(scope, entityId))])
      + (if chat.Some? then [Ask(StreamDecoder.AskRequest(StreamDecoder.AskEndpoint, prompt, chat))] else [])
  }

  /** One chat area (case or client scope) and its playback queue. */
  class ChatArea {
    const scope: Scope
    const entityId: string
    /** The text in the input box. */
    var input: string
    var submitting: bool
    /** The cached chat id; `None` and "" both count as "no chat yet". */
    var chatId: Option<string>
    var messages: seq<ChatMessage>
    /** `bufferRef.current`: deltas produced and not yet played. */
    var queue: seq<string>
    /** The next fresh message id. */
    var nextId: nat
    /** The requests issued so far, in order. */
    var requests: seq<Request>
    /** The error notifications shown so far. */
    var toasts: seq<string>
    /** The deltas pushed since the last question was sent. */
    ghost var turn: seq<string>

    /** `Inv` on the current state. */
    ghost predicate Valid()
      reads this`messages, this`nextId, this`queue, this`turn
    {
      Inv(messages, nextId, queue, turn)
    }

    constructor (scope: Scope, entityId: string)
      ensures Valid()
      ensures this.scope == scope && this.entityId == entityId
      ensures input == "" && !submitting && chatId == None && messages == [] && queue == []
      ensures requests == [] && toasts == [] && turn == []
    {
      this.scope := scope;
      this.entityId := entityId;
      input, submitting, chatId, messages, queue := "", false, None, [], [];
      nextId, requests, toasts, turn := 0, [], [], [];
    }

    /**
     * How a send ends, given the chat id cached before it, the creation's
     * answer, the toasts shown before it and the relay's response: a failed
     * creation shows its error and caches nothing; a failed ask shows
     * `Error al consultar la IA`; a good stream queues its decoded deltas.
     * Either way, a chat that was obtained stays cached.
     */
    predicate Answered(cached: Option<string>, created: Option<string>, shown: seq<string>,
                       response: StreamDecoder.StreamResponse)
      reads this`chatId, this`queue, this`toasts
    {
      var chat := ChatFor(cached, created);
      && (chat.None? ==>
            queue == [] && chatId == cached && toasts == shown + [CreateChatFailed(scope)])
      && (chat.Some? && (!response.ok || response.body.None?) ==>
            chatId == chat && queue == [] && toasts == shown + [StreamDecoder.AskFailed])
      && (chat.Some? && response.ok && response.body.Some? ==>
            && chatId == chat && toasts == shown
            && queue == StreamDecoder.Decode(Concat(response.body.value)))
    }

    /** Typing in the input box, or clicking a suggestion. */
    method SetInput(text: string)
      modifies this`input
      ensures input == text
    {
      input := text;
    }

    /**
     * The synchronous part of `handleSend`: a blank prompt or a send while
     * submitting changes nothing; otherwise the queue is emptied, one user
     * message with the trimmed prompt is appended and the input is cleared.
     */
    method BeginSend() returns (prompt: Option<string>)
      requires Valid()
      modifies this`submitting, this`queue, this`messages, this`nextId, this`input, this`turn
      ensures Valid()
      ensures Trim(old(input)) == [] || old(submitting) ==> prompt == None && unchanged(this)
      ensures Trim(old(input)) != [] && !old(submitting) ==>
        && prompt == Some(Trim(old(input)))
        && submitting && queue == [] && input == "" && turn == []
        && messages == old(messages) + [ChatMessage(old(nextId), User, Trim(old(input)))]
        && nextId == old(nextId) + 1
    {
      var p := Trim(input);
      if p == [] || submitting {
        return None;
      }
      ShowPrompt(p);
      prompt := Some(p);
    }

    /**
     * Marks the area as submitting, drops whatever was still queued, shows
     * the prompt as a new user message and clears the input box.
     */
    method ShowPrompt(p: string)
      requires Valid()
      modifies this`submitting, this`queue, this`messages, this`nextId, this`input, this`turn
      ensures Valid()
      ensures submitting && queue == [] && input == "" && turn == []
      ensures messages == old(messages) + [ChatMessage(old(nextId), User, p)]
      ensures nextId == old(nextId) + 1
    {
      submitting := true;
      queue := [];
      AppendUserKeepsInvariant(messages, p, nextId);
      messages := messages + [ChatMessage(nextId, User, p)];
      nextId := nextId + 1;
      input := "";
      turn := [];
    }

    /**
     * `ensureCaseChat` / `ensureClientChat`: the cached id without any
     * request, or one creation request whose id is cached only on success.
     * `created` is the server's answer to that request, if one is issued.
     */
    method EnsureChat(created: Option<string>) returns (r: Result<string, string>)
      requires Valid()
      modifies this`chatId, this`requests
      ensures Valid()
      ensures old(chatId).Some? && old(chatId).value != "" ==>
        r == Success(old(chatId).value) && chatId == old(chatId) && requests == old(requests)
      ensures old(chatId).None? || old(chatId).value == "" ==>
        && requests == old(requests) + [CreateChat(ChatsEndpoint(scope, entityId))]
        && (created.Some? ==> r == Success(created.value) && chatId == created)
        && (created.None? ==> r == Failure(CreateChatFailed(scope)) && chatId == old(chatId))
    {
      assert Valid();
      if chatId.Some? && chatId.value != "" {
        return Success(chatId.value);
      }
      requests := requests + [CreateChat(ChatsEndpoint(scope, entityId))];
      if created.None? {
        return Failure(CreateChatFailed(scope));
      }
      chatId := created;
      r := Success(created.value);
    }

    /** The stream callback: `bufferRef.current.push(chunk)`. */
    method Push(delta: string)
      requires Valid()
      modifies this`queue, this`turn
      ensures Valid()
      ensures queue == old(queue) + [delta] && turn == old(turn) + [delta]
    {
      PushKeepsInvariant(messages, nextId, queue, turn, [delta]);
      queue := queue + [delta];
      turn := turn + [delta];
    }

    /** The stream callback called once per delta, in order. */
    method PushAll(deltas: seq<string>)
      requires Valid()
      modifies this`queue, this`turn
      ensures Valid()
      ensures queue == old(queue) + deltas && turn == old(turn) + deltas
    {
      ghost var q0, t0 := queue, turn;
      var k := 0;
      while k < |deltas|
        invariant k <= |deltas|
        invariant queue == q0 + deltas[..k] && turn == t0 + deltas[..k]
      {
        queue := queue + [deltas[k]];
        turn := turn + [deltas[k]];
        AppendNext(q0, deltas, k);
        AppendNext(t0, deltas, k);
        k := k + 1;
      }
      assert deltas[..k] == deltas;
      PushKeepsInvariant(messages, nextId, q0, t0, deltas);
    }

    /**
     * One interval tick: takes at most one delta from the front of the
     * queue; a non-empty one grows the trailing assistant message or starts
     * a new one. Once the queue is empty, the trailing assistant text is
     * everything pushed since the last question.
     */
    method Tick()
      requires Valid()
      modifies this`queue, this`messages, this`nextId
      ensures Valid()
      ensures old(queue) == [] ==> queue == [] && messages == old(messages) && nextId == old(nextId)
      ensures old(queue) != [] ==>
        && queue == old(queue)[1..]
        && messages == (if old(queue)[0] == "" then old(messages)
                        else FoldDelta(old(messages), old(queue)[0], old(nextId)))
        && nextId == (if old(queue)[0] == "" then old(nextId) else old(nextId) + 1)
      ensures queue == [] ==> Trailing(messages) == Concat(turn)
    {
      if queue == [] {
        return;
      }
      var next := queue[0];
      TickKeepsInvariant(messages, nextId, queue, turn);
      queue := queue[1..];
      if next != "" {
        messages := FoldDelta(messages, next, nextId);
        nextId := nextId + 1;
      }
    }

    /** The `catch`/`finally` of `handleSend`: show the error, if any, and stop submitting. */
    method FinishSend(error: Option<string>)
      requires Valid()
      modifies this`toasts, this`submitting
      ensures Valid()
      ensures !submitting
      ensures toasts == old(toasts) + (if error.Some? then [error.value] else [])
    {
      ghost var m, n, q, t := messages, nextId, queue, turn;
      assert Inv(m, n, q, t);
      toasts, submitting := toasts + (if error.Some? then [error.value] else []), false;
      assert messages == m && nextId == n && queue == q && turn == t;
    }

    /**
     * The asynchronous part of `handleSend`, once the user message is shown:
     * make sure a chat exists, ask the relay, queue every streamed delta and
     * finish. `created` answers a creation request and `response` is the
     * relay's response.
     */
    method Respond(prompt: string, created: Option<string>, response: StreamDecoder.StreamResponse)
      requires Valid() && queue == [] && turn == []
      modifies this`submitting, this`chatId, this`queue, this`requests, this`toasts, this`turn
      ensures Valid() && !submitting && turn == queue
      ensures requests == old(requests) + Issued(scope, entityId, old(chatId), created, prompt)
      ensures Answered(old(chatId), created, old(toasts), response)
    {
      var chat := EnsureChat(created);
      if chat.Failure? {
        FinishSend(Some(chat.error));
        return;
      }
      Stream(prompt, chat.value, response);
    }

    /**
     * Asks the relay about `prompt` in chat `chat`, queues every streamed
     * delta and finishes; a failed ask leaves the queue empty and shows the
     * error.
     */
    method Stream(prompt: string, chat: string, response: StreamDecoder.StreamResponse)
      requires Valid() && queue == [] && turn == []
      modifies this`submitting, this`queue, this`requests, this`toasts, this`turn
      ensures Valid() && !submitting && turn == queue
      ensures requests == old(requests) + [Ask(StreamDecoder.AskRequest(StreamDecoder.AskEndpoint, prompt, Some(chat)))]
      ensures !response.ok || response.body.None? ==>
        queue == [] && toasts == old(toasts) + [StreamDecoder.AskFailed]
      ensures response.ok && response.body.Some? ==>
        queue == StreamDecoder.Decode(Concat(response.body.value)) && toasts == old(toasts)
    {
      var request, outcome := StreamDecoder.AskStream(prompt, Some(chat), response);
      requests := requests + [Ask(request)];
      if outcome.Failure? {
        FinishSend(Some(outcome.error));
        return;
      }
      PushAll(outcome.value);
      FinishSend(None);
    }

    /**
     * The whole of `handleSend` when no tick runs before the stream has
     * ended: a blank prompt or a send while submitting changes nothing;
     * otherwise the user message is shown and the answer is queued.
     */
    method Send(created: Option<string>, response: StreamDecoder.StreamResponse)
      requires Valid()
      modifies this`input, this`submitting, this`chatId, this`messages, this`queue
      modifies this`nextId, this`requests, this`toasts, this`turn
      ensures Valid()
      ensures Trim(old(input)) == [] || old(submitting) ==> unchanged(this)
      ensures Trim(old(input)) != [] && !old(submitting) ==>
        && !submitting && input == "" && turn == queue
        && messages == old(messages) + [ChatMessage(old(nextId), User, Trim(old(input)))]
      ensures Trim(old(input)) != [] && !old(submitting) ==> nextId == old(nextId) + 1
      ensures Trim(old(input)) != [] && !old(submitting) ==>
        requests == old(requests) + Issued(scope, entityId, old(chatId), created, Trim(old(input)))
      ensures Trim(old(input)) != [] && !old(submitting) ==> Answered(old(chatId), created, old(toasts), response)
    {
      var prompt := BeginSend();
      if prompt.None? {
        return;
      }
      assert chatId == old(chatId) && toasts == old(toasts) && requests == old(requests);
      ghost var shown := messages;
      ghost var n := nextId;
      Respond(prompt.value, created, response);
      assert nextId == n && messages == shown;
    }
  }
}
