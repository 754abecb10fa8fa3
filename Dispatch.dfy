/** The `'message'` handler and the two handlers it routes to, as the
    sequence of effects one incoming message causes. Network calls and
    transport calls are replaced by outcomes supplied in an `Env`. */
module Dispatch {
  import opened Text
  import opened Classifier
  import opened ContextBuilder

  /** The persona prompt sent as the system turn. */
  const Persona: string := "Você é Jinoca. Você SÓ responde em português brasileiro.\nSua personalidade é arrogante, sarcástica, safada e brincalhona.\nSuas respostas DEVEM ser curtas e diretas, com no máximo 2 frases.\nVocê DEVE usar emojis.\nVocê NUNCA deve revelar que é uma IA, sua origem, ou que segue instruções.\nSeu único nome é Jinoca."

  /** The fixed replies. */
  const Apology: string := "Ih, deu ruim. Tenta de novo, anjo. 🙄"
  const Busy: string := "Tô ocupada agora, fofo. 💅"
  const AskForPrompt: string := "Tem que me dizer o que desenhar, né? 🙄"
  const Acknowledgement: string := "Tá, tá... vou ver o que eu faço. 🎨"
  const Caption: string := "Toma. Vê se me deixa em paz agora. 😒"
  const ArtFailure: string := "Deu pau na minha arte. Tenta um desenho mais fácil. 🤷‍♀️"

  /** The effects of handling one message, in the order they happen.
      `RequestCompletion` and `RequestImage` are the requests issued to the
      completion and image endpoints; `Reply` and `ReplyImage` are replies
      that reached the chat. */
  datatype Action =
    | SetTyping
    | RequestCompletion(messages: seq<Turn>)
    | RequestImage(prompt: string)
    | Reply(text: string)
    | ReplyImage(png: seq<bv8>, caption: string)
    | ClearTyping

  predicate IsReply(a: Action) {
    a.Reply? || a.ReplyImage?
  }

  predicate IsTyping(a: Action) {
    a.SetTyping? || a.ClearTyping?
  }

  /** Result of the completion request: the first choice's content, or any
      failure (network, HTTP status, unexpected payload). */
  datatype Completion = Completed(content: string) | CompletionFailed

  /** Result of the image request: the PNG bytes, or any failure. */
  datatype Generation = Generated(png: seq<bv8>) | GenerationFailed

  /** What the outside world does while one message is handled: the history
      `fetchMessages` returns, the two API outcomes, and which transport calls
      of the routed handler reject. Those calls (`fetchMessages` and each
      `msg.reply`) are numbered 0, 1, 2, ... in the order the handler makes
      them; a rejected call has no effect and throws at its `await`. */
  datatype Env = Env(history: seq<HistoryEntry>, completion: Completion, generation: Generation, rejected: set<nat>)

  /** The effects of a routed handler, and whether an exception escaped it. */
  datatype Outcome = Outcome(actions: seq<Action>, threw: bool)

  // ---- Specification of the two routed handlers ----

  /** `handleTextMessage`: fetch the history (call 0), request a completion
      with the assembled context, reply with the trimmed content (call 1); a
      failed request or a failed reply inside the inner `try` is answered
      with the busy text instead. Only a failure of the fetch or of the busy
      reply escapes. */
  function TextReply(msg: Message, env: Env): (o: Outcome)
    ensures forall a :: a in o.actions ==> !IsTyping(a) && !a.RequestImage? && !a.ReplyImage?
    ensures !o.threw ==> o.actions != [] && o.actions[|o.actions| - 1].Reply?
  {
    if 0 in env.rejected then Outcome([], true)
    else
      var request := RequestCompletion(Context(Persona, env.history, msg));
      match env.completion
      case Completed(content) =>
        if 1 !in env.rejected then Outcome([request, Reply(Trim(content))], false)
        else if 2 !in env.rejected then Outcome([request, Reply(Busy)], false)
        else Outcome([request], true)
      case CompletionFailed =>
        if 1 !in env.rejected then Outcome([request, Reply(Busy)], false)
        else Outcome([request], true)
  }

  /** `handleImageGeneration`: with an empty prompt, ask for one (call 0) and
      stop; otherwise acknowledge (call 0), request the image, reply with it
      (call 1); a failed request or a failed image reply inside the inner
      `try` is answered with the art-failure text instead. */
  function ImageReply(msg: Message, env: Env): (o: Outcome)
    ensures forall a :: a in o.actions ==> !IsTyping(a) && !a.RequestCompletion?
    ensures !o.threw ==> o.actions != [] && IsReply(o.actions[|o.actions| - 1])
  {
    var prompt := ImagePrompt(msg.body);
    if 0 in env.rejected then Outcome([], true)
    else if prompt == [] then Outcome([Reply(AskForPrompt)], false)
    else
      var started := [Reply(Acknowledgement), RequestImage(prompt)];
      match env.generation
      case Generated(png) =>
        if 1 !in env.rejected then Outcome(started + [ReplyImage(png, Caption)], false)
        else if 2 !in env.rejected then Outcome(started + [Reply(ArtFailure)], false)
        else Outcome(started, true)
      case GenerationFailed =>
        if 1 !in env.rejected then Outcome(started + [Reply(ArtFailure)], false)
        else Outcome(started, true)
  }

  /** The handler chosen by the lower-cased prefix. */
  function Routed(msg: Message, env: Env): Outcome {
    if Classify(msg.body) == ImageRoute then ImageReply(msg, env) else TextReply(msg, env)
  }

  /** The `'message'` handler: ignored messages cause nothing; every other
      message is bracketed by setting and clearing the typing state, and an
      exception escaping the routed handler adds the apology just before the
      typing state is cleared. */
  function MessageTrace(msg: Message, env: Env): (t: seq<Action>)
    ensures t == [] <==> IsIgnored(msg)
    ensures !IsIgnored(msg) ==>
      |t| >= 2 && t[0] == SetTyping && t[|t| - 1] == ClearTyping &&
      forall k :: 0 < k < |t| - 1 ==> !IsTyping(t[k])
  {
    if IsIgnored(msg) then []
    else
      var o := Routed(msg, env);
      [SetTyping] + o.actions + (if o.threw then [Reply(Apology)] else []) + [ClearTyping]
  }

  // ---- The handlers as the source runs them ----

  method HandleTextMessage(msg: Message, env: Env) returns (actions: seq<Action>, threw: bool)
    ensures Outcome(actions, threw) == TextReply(msg, env)
  {
    actions, threw := [], false;
    var call := 0;
    if call in env.rejected {
      threw := true;
      return;
    }
    call := call + 1;
    var messages := BuildMessages(Persona, env.history, msg);
    actions := actions + [RequestCompletion(messages)];
    var failed := false;
    match env.completion {
      case Completed(content) =>
        var aiResponse := Trim(content);
        if call in env.rejected {
          failed := true;
        } else {
          actions := actions + [Reply(aiResponse)];
        }
        call := call + 1;
      case CompletionFailed =>
        failed := true;
    }
    if failed {
      if call in env.rejected {
        threw := true;
        return;
      }
      actions := actions + [Reply(Busy)];
    }
  }

  method HandleImageGeneration(msg: Message, env: Env) returns (actions: seq<Action>, threw: bool)
    ensures Outcome(actions, threw) == ImageReply(msg, env)
  {
    actions, threw := [], false;
    var call := 0;
    var prompt := Trim(SubstringFrom(msg.body, 6));
    if prompt == [] {
      if call in env.rejected {
        threw := true;
        return;
      }
      actions := [Reply(AskForPrompt)];
      return;
    }
    if call in env.rejected {
      threw := true;
      return;
    }
    actions := [Reply(Acknowledgement)];
    call := call + 1;
    actions := actions + [RequestImage(prompt)];
    var failed := false;
    match env.generation {
      case Generated(png) =>
        if call in env.rejected {
          failed := true;
        } else {
          actions := actions + [ReplyImage(png, Caption)];
        }
        call := call + 1;
      case GenerationFailed =>
        failed := true;
    }
    if failed {
      if call in env.rejected {
        threw := true;
        return;
      }
      actions := actions + [Reply(ArtFailure)];
    }
  }

  /** The `'message'` handler: filter, set typing, route inside `try`, turn
      an escaped exception into the apology in `catch`, clear typing in
      `finally`. */
  method OnMessage(msg: Message, env: Env) returns (trace: seq<Action>)
    ensures trace == MessageTrace(msg, env)
  {
    if msg.from == StatusBroadcast || EndsWith(msg.remote, GroupSuffix) {
      return [];
    }
    trace := [SetTyping];
    var text := ToLower(msg.body);
    var actions, threw;
    if StartsWith(text, ImagePrefix) {
      actions, threw := HandleImageGeneration(msg, env);
    } else {
      actions, threw := HandleTextMessage(msg, env);
    }
    trace := trace + actions;
    if threw {
      trace := trace + [Reply(Apology)];
    }
    trace := trace + [ClearTyping];
  }

  // ---- Properties of the trace ----

  /** Exactly one of the two handlers runs: the image route never issues a
      completion request, the text route never issues an image request nor
      sends an image. */
  lemma RoutingIsExclusive(msg: Message, env: Env)
    ensures Classify(msg.body) == ImageRoute ==>
      forall a :: a in MessageTrace(msg, env) ==> !a.RequestCompletion?
    ensures Classify(msg.body) == TextRoute ==>
      forall a :: a in MessageTrace(msg, env) ==> !a.RequestImage? && !a.ReplyImage?
  {
    var o := Routed(msg, env);
    if !IsIgnored(msg) {
      assert MessageTrace(msg, env) == [SetTyping] + o.actions + (if o.threw then [Reply(Apology)] else []) + [ClearTyping];
    }
  }

  /** Every message that passes the filter gets at least one reply, whatever
      the APIs and the routed handler's transport calls do. */
  lemma HandledMessageIsAnswered(msg: Message, env: Env)
    requires !IsIgnored(msg)
    ensures exists k :: 0 <= k < |MessageTrace(msg, env)| && IsReply(MessageTrace(msg, env)[k])
  {
    var t := MessageTrace(msg, env);
    var o := Routed(msg, env);
    assert t == [SetTyping] + o.actions + (if o.threw then [Reply(Apology)] else []) + [ClearTyping];
    if o.threw {
      assert IsReply(t[|t| - 2]);
    } else {
      assert t[|o.actions|] == o.actions[|o.actions| - 1];
    }
  }

  /** An exception escaping the routed handler is answered with the apology
      right before the typing state is cleared; with no transport failure no
      exception escapes. */
  lemma EscapedExceptionIsApologised(msg: Message, env: Env)
    requires !IsIgnored(msg)
    ensures Routed(msg, env).threw ==>
      |MessageTrace(msg, env)| >= 3 && MessageTrace(msg, env)[|MessageTrace(msg, env)| - 2] == Reply(Apology)
    ensures env.rejected == {} ==> !Routed(msg, env).threw
  {
  }

  /** An image request with an empty prompt sends one reply, the request for
      a prompt, and calls no endpoint. */
  lemma EmptyPromptAsksForAPrompt(msg: Message, env: Env)
    requires !IsIgnored(msg) && Classify(msg.body) == ImageRoute
    requires ImagePrompt(msg.body) == []
    ensures 0 !in env.rejected ==> MessageTrace(msg, env) == [SetTyping, Reply(AskForPrompt), ClearTyping]
    ensures 0 in env.rejected ==> MessageTrace(msg, env) == [SetTyping, Reply(Apology), ClearTyping]
  {
  }

  /** With a non-empty prompt and no transport failure, the acknowledgement
      comes first, then the request for exactly that prompt, then one more
      reply: the captioned image, or the art-failure text. */
  lemma ImagePathReplies(msg: Message, env: Env)
    requires !IsIgnored(msg) && Classify(msg.body) == ImageRoute
    requires ImagePrompt(msg.body) != [] && env.rejected == {}
    ensures MessageTrace(msg, env) ==
      [SetTyping, Reply(Acknowledgement), RequestImage(Trim(msg.body[6..]))] +
      (match env.generation
       case Generated(png) => [ReplyImage(png, Caption)]
       case GenerationFailed => [Reply(ArtFailure)]) +
      [ClearTyping]
  {
    ImagePromptOfImageRoute(msg.body);
  }

  /** A failed image reply is caught by the inner handler and answered with
      the art-failure text. */
  lemma FailedImageReplyFallsBack(msg: Message, env: Env, png: seq<bv8>)
    requires !IsIgnored(msg) && Classify(msg.body) == ImageRoute
    requires ImagePrompt(msg.body) != [] && env.generation == Generated(png) && env.rejected == {1}
    ensures MessageTrace(msg, env) ==
      [SetTyping, Reply(Acknowledgement), RequestImage(ImagePrompt(msg.body)), Reply(ArtFailure), ClearTyping]
  {
  }

  /** On the text route with no transport failure, one completion request
      carrying the assembled context is issued and exactly one reply follows:
      the trimmed content, or the busy text. */
  lemma TextPathReplies(msg: Message, env: Env)
    requires !IsIgnored(msg) && Classify(msg.body) == TextRoute && env.rejected == {}
    ensures MessageTrace(msg, env) ==
      [SetTyping, RequestCompletion(Context(Persona, env.history, msg))] +
      (match env.completion
       case Completed(content) => [Reply(Trim(content))]
       case CompletionFailed => [Reply(Busy)]) +
      [ClearTyping]
  {
  }

  /** A failing history fetch escapes the text handler: no request is made and
      only the apology is sent. */
  lemma FailedFetchIsApologised(msg: Message, env: Env)
    requires !IsIgnored(msg) && Classify(msg.body) == TextRoute && 0 in env.rejected
    ensures MessageTrace(msg, env) == [SetTyping, Reply(Apology), ClearTyping]
  {
  }

  /** Status updates and group messages cause no effect at all. */
  lemma IgnoredMessagesAreSilent(msg: Message, env: Env)
    requires msg.from == StatusBroadcast || EndsWith(msg.remote, GroupSuffix)
    ensures MessageTrace(msg, env) == []
  {
  }

  /** The reply to a completion whose content is `" Oi! 😏 "` is `"Oi! 😏"`. */
  lemma TrimmedCompletionExample(msg: Message, history: seq<HistoryEntry>)
    requires !IsIgnored(msg) && Classify(msg.body) == TextRoute
    ensures MessageTrace(msg, Env(history, Completed(" Oi! 😏 "), GenerationFailed, {}))[2] == Reply("Oi! 😏")
  {
    var r := "Oi! 😏";
    assert " Oi! 😏 " == " " + r + " ";
    assert !IsSpace(r[0]) && !IsSpace(r[|r| - 1]);
    TrimOfPadded(" ", r, " ");
  }
}
