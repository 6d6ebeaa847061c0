/** One chat turn: `Chatter.BuildSession` assembles the message list the
    vendor sees (stored session, meta line, system text made of context,
    pattern, strategy prompt and language, then the user's message), and
    `Chatter.Send` hands it to the vendor, collects the reply (streamed or
    not), appends it as the assistant's answer and saves named sessions.

    The stores, template engine, pattern engine, `GetVendorMessages`,
    `ParseFileChanges` and the vendor itself are not part of this model:
    they are the functions held by `Env` and `Vendor`. */
module Chatter {
  import opened Common
  import Strategy

  const NoSessionPatternUserMessages := "no session, pattern or user messages provided"
  const CodingFeaturePattern := "create_coding_feature"

  /** The placeholder user message put in when the request carries none. */
  const Placeholder := Message(User, " ")

  datatype ChatError =
    | SessionNotFound(session: string, reason: string)
    | ContextNotFound(context: string, reason: string)
    | TemplateFailed(reason: string)
    | PatternNotFound(pattern: string, reason: string)
    | StrategyFailed(strategy: string, cause: Strategy.LoadError)
    | NoMessages                   // "no messages provided"
    | VendorFailed(reason: string)
    | EmptyResponse                // "empty response"
    | SaveFailed(reason: string)
    | Hangs(received: string)      // the stream is never closed: `Send` never returns
    | Panics                       // a send on a closed channel

  /** The vendor (`ai.Vendor`), as functions of the messages and options. */
  datatype Vendor = Vendor(
    send: (seq<Message>, ChatOptions) -> Result<string, string>,
    sendStream: (seq<Message>, ChatOptions) -> StreamRun)

  /** The collaborators of the chatter whose code is not part of this model. */
  datatype Env = Env(
    // `db.Sessions.Get`: the stored messages of a session, or why it could not be read
    loadSession: string -> Result<seq<Message>, string>,
    // `db.Contexts.Get(name).Content`
    loadContext: string -> Result<string, string>,
    // `template.ApplyTemplate(content, variables, "")`: Go returns a text even with an error
    applyTemplate: (string, map<string, string>) -> (string, Option<string>),
    // `db.Patterns.GetApplyVariables(name, variables, input).Pattern`
    applyPattern: (string, map<string, string>, string) -> Result<string, string>,
    // the strategies directory `strategy.LoadStrategy` reads
    strategies: Strategy.StrategyDir,
    // `Session.GetVendorMessages`
    vendorMessages: seq<Message> -> seq<Message>,
    // the summary returned by `common.ParseFileChanges`, whatever its error
    summary: string -> string,
    // what `db.Sessions.SaveSession` fails with, if it fails
    saveError: Option<string>)

  /** `common.ChatRequest`. Only `message` is changed by the chatter. */
  class ChatRequest {
    const contextName: string
    const sessionName: string
    const patternName: string
    const patternVariables: map<string, string>
    const strategyName: string
    const language: string
    const meta: string
    const inputHasVars: bool
    var message: Option<Message>

    constructor (contextName: string, sessionName: string, patternName: string,
                 patternVariables: map<string, string>, strategyName: string, language: string,
                 meta: string, inputHasVars: bool, message: Option<Message>)
      ensures this.contextName == contextName && this.sessionName == sessionName
      ensures this.patternName == patternName && this.patternVariables == patternVariables
      ensures this.strategyName == strategyName && this.language == language
      ensures this.meta == meta && this.inputHasVars == inputHasVars && this.message == message
    {
      this.contextName := contextName;
      this.sessionName := sessionName;
      this.patternName := patternName;
      this.patternVariables := patternVariables;
      this.strategyName := strategyName;
      this.language := language;
      this.meta := meta;
      this.inputHasVars := inputHasVars;
      this.message := message;
    }
  }

  /** `fsdb.Session`: a name ("" for an unsaved session) and its messages. */
  class Session {
    const name: string
    var messages: seq<Message>

    constructor (name: string, messages: seq<Message>)
      ensures this.name == name && this.messages == messages
    {
      this.name := name;
      this.messages := messages;
    }

    method Append(m: Message)
      modifies this
      ensures messages == old(messages) + [m]
    {
      messages := messages + [m];
    }
  }

  // ---------------------------------------------------------------------------
  // The system text

  const LanguagePrefix := ". Please use the language '"
  const LanguageSuffix := "' for the output."

  /** The sentence the language option adds at the end of the system text. */
  function LanguageInstruction(language: string): string {
    LanguagePrefix + language + LanguageSuffix
  }

  /** True when a strategy was loaded and its prompt is not empty. */
  predicate HasPrompt(strategy: Option<Strategy.Strategy>) {
    strategy.Some? && strategy.value.prompt != ""
  }

  /** The system text: trimmed context then trimmed pattern, with no
      separator; the strategy prompt and a newline in front of it; the
      language instruction after it. */
  function SystemText(context: string, pattern: string, strategy: Option<Strategy.Strategy>, language: string): string {
    Compose(TrimSpace(context) + TrimSpace(pattern), strategy, language)
  }

  /** The strategy prompt and the language instruction around the composed text. */
  function Compose(composed: string, strategy: Option<Strategy.Strategy>, language: string): string {
    var prompted := if HasPrompt(strategy) then strategy.value.prompt + "\n" + composed else composed;
    if language != "" then prompted + LanguageInstruction(language) else prompted
  }

  /** No system text is produced exactly when context and pattern are blank,
      no strategy prompt applies and no language is asked for. */
  lemma SystemTextEmpty(context: string, pattern: string, strategy: Option<Strategy.Strategy>, language: string)
    ensures SystemText(context, pattern, strategy, language) == ""
        <==> TrimSpace(context) == "" && TrimSpace(pattern) == "" && !HasPrompt(strategy) && language == ""
  {
    var s := SystemText(context, pattern, strategy, language);
    if language != "" {
      assert |s| >= |LanguageInstruction(language)|;
    } else if HasPrompt(strategy) {
      assert |s| >= |strategy.value.prompt + "\n"|;
    }
  }

  /** The strategy prompt comes first and the language instruction last; the
      trimmed context and pattern sit between them, the context first. */
  lemma SystemTextLayout(context: string, pattern: string, strategy: Option<Strategy.Strategy>, language: string)
    ensures var head := if HasPrompt(strategy) then strategy.value.prompt + "\n" else "";
      var tail := if language != "" then LanguageInstruction(language) else "";
      SystemText(context, pattern, strategy, language) == head + TrimSpace(context) + TrimSpace(pattern) + tail
  {
    ComposeLayout(TrimSpace(context), TrimSpace(pattern), strategy, language);
  }

  lemma ComposeLayout(c: string, p: string, strategy: Option<Strategy.Strategy>, language: string)
    ensures var head := if HasPrompt(strategy) then strategy.value.prompt + "\n" else "";
      var tail := if language != "" then LanguageInstruction(language) else "";
      Compose(c + p, strategy, language) == head + c + p + tail
  {
    var head := if HasPrompt(strategy) then strategy.value.prompt + "\n" else "";
    assert head + (c + p) == head + c + p;
  }

  // ---------------------------------------------------------------------------
  // BuildSession, as a specification

  /** The user message after the placeholder and template steps. */
  function UserMessage(env: Env, message: Option<Message>, inputHasVars: bool, variables: map<string, string>): Message {
    var m := if message.Some? then message.value else Placeholder;
    if inputHasVars then m.(content := env.applyTemplate(m.content, variables).0) else m
  }

  /** What follows the session's earlier messages and the meta line: in raw
      mode the user message, its content replaced by the system text when
      there is any; in normal mode a system message (when there is system
      text) and then the user message. */
  function Place(system: string, user: Message, raw: bool): (p: seq<Message>)
    ensures 1 <= |p| <= 2 && p[|p| - 1].role == user.role
    ensures raw ==> |p| == 1
    ensures !raw ==> p[|p| - 1] == user && (|p| == 2 <==> system != "")
    ensures |p| == 2 ==> p[0] == Message(System, system)
  {
    if raw then [if system != "" then user.(content := system) else user]
    else (if system != "" then [Message(System, system)] else []) + [user]
  }

  /** What `BuildSession` yields: the session's messages (`None` for a nil
      session), the error, and what `request.Message` holds afterwards. */
  datatype Built = Built(session: Option<seq<Message>>, err: Option<ChatError>, message: Option<Message>)

  /** `BuildSession` as a function of the request's fields: the session
      store and the context store are read first. */
  function BuildSpec(env: Env, sessionName: string, meta: string, contextName: string, message: Option<Message>,
                     inputHasVars: bool, variables: map<string, string>, patternName: string,
                     strategyName: string, language: string, raw: bool): (b: Built)
    ensures b.err.None? ==>
      && b.session.Some? && b.message.Some? && b.session.value != []
      && b.session.value[|b.session.value| - 1] == b.message.value
    ensures b.err.Some? && b.session.Some? ==> b.err.value.ContextNotFound?
  {
    var loaded := if sessionName != "" then env.loadSession(sessionName) else Ok([]);
    var context := if contextName != "" then env.loadContext(contextName) else Ok("");
    if loaded.Err? then Built(None, Some(SessionNotFound(sessionName, loaded.error)), message)
    else
      var prior := loaded.value + (if meta != "" then [Message(Meta, meta)] else []);
      // the session is already set when the context lookup fails, and is returned with the error
      if context.Err? then Built(Some(prior), Some(ContextNotFound(contextName, context.error)), message)
      else Resolve(env, prior, context.value, message, inputHasVars, variables, patternName, strategyName, language, raw)
  }

  /** The rest of `BuildSession`, once the session (with its meta line) and
      the context are there: placeholder, template, pattern, strategy,
      language, and the placing of the system text and the user message. */
  function Resolve(env: Env, prior: seq<Message>, context: string, message: Option<Message>,
                   inputHasVars: bool, variables: map<string, string>, patternName: string,
                   strategyName: string, language: string, raw: bool): (b: Built)
    ensures b.session.Some? <==> b.err.None?
    ensures b.err.None? ==>
      && b.message.Some? && |b.session.value| > |prior| && b.session.value[..|prior|] == prior
      && b.session.value[|b.session.value| - 1] == b.message.value
  {
    var user := UserMessage(env, message, inputHasVars, variables);
    var templateError := if inputHasVars then env.applyTemplate((if message.Some? then message.value else Placeholder).content, variables).1 else None;
    if templateError.Some? then Built(None, Some(TemplateFailed(templateError.value)), Some(user))
    else Finish(env, prior, context, user, variables, patternName, strategyName, language, raw)
  }

  /** What follows the template step: the pattern, the strategy, and the
      placement of the system text and the user message. */
  function Finish(env: Env, prior: seq<Message>, context: string, user: Message, variables: map<string, string>,
                  patternName: string, strategyName: string, language: string, raw: bool): (b: Built)
    ensures b.session.Some? <==> b.err.None?
    ensures b.message == Some(user) || b.err.None?
    ensures b.err.None? ==>
      && b.message.Some? && |b.session.value| > |prior| && b.session.value[..|prior|] == prior
      && b.session.value[|b.session.value| - 1] == b.message.value && b.message.value.role == user.role
  {
    var pattern := if patternName != "" then env.applyPattern(patternName, variables, user.content) else Ok("");
    var strategy := if strategyName != "" then Strategy.LoadStrategy(env.strategies, strategyName) else Ok(None);
    if pattern.Err? then Built(None, Some(PatternNotFound(patternName, pattern.error)), Some(user))
    else if strategy.Err? then Built(None, Some(StrategyFailed(strategyName, strategy.error)), Some(user))
    else
      var placed := Place(SystemText(context, pattern.value, strategy.value, language), user, raw);
      Built(Some(prior + placed), None, Some(placed[|placed| - 1]))
  }

  function CountRole(ms: seq<Message>, role: Role): nat {
    if ms == [] then 0 else CountRole(ms[..|ms| - 1], role) + (if ms[|ms| - 1].role == role then 1 else 0)
  }

  lemma {:induction false} CountRoleAppend(a: seq<Message>, b: seq<Message>, role: Role)
    ensures CountRole(a + b, role) == CountRole(a, role) + CountRole(b, role)
    decreases |b|
  {
    if b != [] {
      assert (a + b)[..|a + b| - 1] == a + b[..|b| - 1];
      assert (a + b)[|a + b| - 1] == b[|b| - 1];
      CountRoleAppend(a, b[..|b| - 1], role);
    } else {
      assert a + b == a;
    }
  }

  /** A built session always ends with the request's (final) message, so it
      is never empty and the "no session, pattern or user messages" error
      cannot be reached. The session's stored messages are kept in front,
      followed by the meta line when there is one. */
  lemma BuildEndsWithRequestMessage(env: Env, sessionName: string, meta: string, contextName: string, message: Option<Message>,
                                    inputHasVars: bool, variables: map<string, string>, patternName: string,
                                    strategyName: string, language: string, raw: bool)
    ensures var b := BuildSpec(env, sessionName, meta, contextName, message, inputHasVars, variables, patternName, strategyName, language, raw);
      b.err.None? ==>
        && b.session.Some?
        && (sessionName == "" || env.loadSession(sessionName).Ok?)
        && var stored := if sessionName != "" then env.loadSession(sessionName).value else [];
           var ms := b.session.value;
           && |ms| > |stored|
           && ms[..|stored|] == stored
           && (meta != "" ==> ms[|stored|] == Message(Meta, meta))
           && b.message == Some(ms[|ms| - 1])
  {
    var b := BuildSpec(env, sessionName, meta, contextName, message, inputHasVars, variables, patternName, strategyName, language, raw);
    if b.err.None? {
      var loaded := if sessionName != "" then env.loadSession(sessionName) else Ok([]);
      var context := if contextName != "" then env.loadContext(contextName) else Ok("");
      var prior := loaded.value + (if meta != "" then [Message(Meta, meta)] else []);
      ResolveKeepsPrior(env, prior, context.value, message, inputHasVars, variables, patternName, strategyName, language, raw);
      PrefixOfPrefix(b.session.value, loaded.value, if meta != "" then [Message(Meta, meta)] else []);
    }
  }

  lemma PrefixOfPrefix(ms: seq<Message>, stored: seq<Message>, extra: seq<Message>)
    requires |ms| > |stored + extra| && ms[..|stored + extra|] == stored + extra
    ensures |ms| > |stored| && ms[..|stored|] == stored
    ensures extra != [] ==> ms[|stored|] == extra[0]
  {
    assert ms[..|stored|] == (stored + extra)[..|stored|];
  }

  lemma ResolveKeepsPrior(env: Env, prior: seq<Message>, context: string, message: Option<Message>,
                          inputHasVars: bool, variables: map<string, string>, patternName: string,
                          strategyName: string, language: string, raw: bool)
    ensures var b := Resolve(env, prior, context, message, inputHasVars, variables, patternName, strategyName, language, raw);
      b.err.None? ==>
        && b.session.Some?
        && var ms := b.session.value;
        |ms| > |prior| && ms[..|prior|] == prior && b.message == Some(ms[|ms| - 1])
  {
  }

  /** Raw mode adds no system-role message: the system text, when there is
      any, replaces the user message's content. Normal mode adds exactly one
      system message when, and only when, there is system text, and leaves
      the user message as it is. */
  lemma SystemMessageIffNotRaw(system: string, user: Message, raw: bool)
    requires user.role != System
    ensures var p := Place(system, user, raw);
      && CountRole(p, System) == (if !raw && system != "" then 1 else 0)
      && p[|p| - 1] == (if raw && system != "" then user.(content := system) else user)
      && (!raw && system != "" ==> p == [Message(System, system), user])
  {
    var last := if raw && system != "" then user.(content := system) else user;
    assert CountRole([last], System) == 0 by { assert [last][..0] == []; }
    if !raw && system != "" {
      var p := [Message(System, system), user];
      assert p[..1] == [Message(System, system)];
      assert [Message(System, system)][..0] == [];
    }
  }

  /** With no message in the request, no template step and no system text
      to put in its place, the session ends with the " " user placeholder. */
  lemma PlaceholderReachesSession(env: Env, variables: map<string, string>, system: string, raw: bool)
    ensures var p := Place(system, UserMessage(env, None, false, variables), raw);
      (!raw || system == "") ==> p[|p| - 1] == Message(User, " ")
  {
  }

  // ---------------------------------------------------------------------------
  // The stream consumer

  /** What the loop over the channel ends with. */
  datatype Collected =
    | Reply(text: string)        // the channel was closed: everything received, in order
    | Blocked(received: string)  // nobody closes the channel: the loop waits forever
    | Panicked                   // the error is sent on a channel already closed

  /** Everything the consumer receives: the fragments, then the error text
      that the producing goroutine sends when the vendor failed without
      closing the channel. */
  function Received(run: StreamRun): seq<string> {
    run.fragments + (if run.err.Some? && !run.closed then [run.err.value] else [])
  }

  /** The loop `for response := range channel { message += response }`.
      The reply is the concatenation, in arrival order, of every fragment
      received before the channel was closed. */
  method Drain(run: StreamRun) returns (r: Collected)
    ensures run.closed && run.err.None? ==> r == Reply(Concat(run.fragments))
    ensures run.closed && run.err.Some? ==> r == Panicked
    ensures !run.closed ==> r == Blocked(Concat(Received(run)))
  {
    var pending := Received(run);
    var message := "";
    var i := 0;
    while i < |pending|
      invariant 0 <= i <= |pending|
      invariant message == Concat(pending[..i])
    {
      message := message + pending[i];
      assert pending[..i + 1][..i] == pending[..i];
      i := i + 1;
    }
    assert pending[..i] == pending;
    if !run.closed {
      r := Blocked(message);
    } else if run.err.Some? {
      r := Panicked;
    } else {
      assert pending == run.fragments;
      r := Reply(message);
    }
  }

  /** The function `Drain` computes, for the specification of `Send`. */
  function Collect(run: StreamRun): Collected {
    if !run.closed then Blocked(Concat(Received(run)))
    else if run.err.Some? then Panicked
    else Reply(Concat(run.fragments))
  }

  /** Concatenation distributes over appending fragments. */
  lemma {:induction false} ConcatAppend(a: seq<string>, b: seq<string>)
    ensures Concat(a + b) == Concat(a) + Concat(b)
    decreases |b|
  {
    if b != [] {
      assert (a + b)[..|a + b| - 1] == a + b[..|b| - 1];
      assert (a + b)[|a + b| - 1] == b[|b| - 1];
      ConcatAppend(a, b[..|b| - 1]);
    } else {
      assert a + b == a;
    }
  }

  /** A stream that stays open delivers the vendor's error text last. */
  lemma BlockedEndsWithError(run: StreamRun)
    requires !run.closed && run.err.Some?
    ensures Collect(run).Blocked? && EndsWith(Collect(run).received, run.err.value)
  {
    ConcatAppend(run.fragments, [run.err.value]);
    assert Concat([run.err.value]) == run.err.value by {
      assert [run.err.value][..0] == [];
    }
  }

  // ---------------------------------------------------------------------------
  // Send, as a specification

  /** The options after `Send` fills in the chatter's defaults. */
  function WithDefaults(opts: ChatOptions, model: string, modelContextLength: int): (r: ChatOptions)
    ensures r.(model := opts.model, modelContextLength := opts.modelContextLength) == opts
    ensures opts.model == "" ==> r.model == model
    ensures opts.modelContextLength == 0 ==> r.modelContextLength == modelContextLength
  {
    opts.(model := if opts.model == "" then model else opts.model,
          modelContextLength := if opts.modelContextLength == 0 then modelContextLength else opts.modelContextLength)
  }

  /** Filling in the defaults fills only unset fields: an explicit model
      and length are kept, and a second filling changes nothing. */
  lemma WithDefaultsKeepsExplicit(opts: ChatOptions, model: string, modelContextLength: int)
    ensures opts.model != "" ==> WithDefaults(opts, model, modelContextLength).model == opts.model
    ensures opts.modelContextLength != 0 ==> WithDefaults(opts, model, modelContextLength).modelContextLength == opts.modelContextLength
    ensures var once := WithDefaults(opts, model, modelContextLength);
      WithDefaults(once, model, modelContextLength) == once
  {
  }

  /** The vendor's answer to a session's messages. */
  datatype Answer = Got(text: string) | Failed(err: ChatError)

  /** The vendor's answer: the streamed text, or the synchronous call's. */
  function Ask(vendor: Vendor, stream: bool, messages: seq<Message>, opts: ChatOptions): Answer {
    if stream then
      match Collect(vendor.sendStream(messages, opts))
      case Reply(text) => Got(text)
      case Blocked(received) => Failed(Hangs(received))
      case Panicked => Failed(Panics)
    else
      match vendor.send(messages, opts)
      case Ok(text) => Got(text)
      case Err(e) => Failed(VendorFailed(e))
  }

  /** The assistant's text for a non-empty reply. */
  function AssistantText(env: Env, patternName: string, reply: string): string {
    if patternName == CodingFeaturePattern then env.summary(reply) else reply
  }

  /** A stream run yields a reply exactly when the vendor closed the channel
      without an error; it is then the concatenation of the fragments. */
  lemma StreamedReply(vendor: Vendor, messages: seq<Message>, opts: ChatOptions)
    ensures var run := vendor.sendStream(messages, opts);
      Ask(vendor, true, messages, opts).Got? <==> run.closed && run.err.None?
    ensures var run := vendor.sendStream(messages, opts);
      run.closed && run.err.None? ==> Ask(vendor, true, messages, opts) == Got(Concat(run.fragments))
  {
  }

  /** The system message as `BuildSession` builds it, one step after the other. */
  method ComposeSystemMessage(contextContent: string, patternContent: string, strategy: Option<Strategy.Strategy>, language: string)
    returns (systemMessage: string)
    ensures systemMessage == SystemText(contextContent, patternContent, strategy, language)
  {
    systemMessage := TrimSpace(contextContent) + TrimSpace(patternContent);
    if strategy.Some? && strategy.value.prompt != "" {
      systemMessage := strategy.value.prompt + "\n" + systemMessage;
    }
    if language != "" {
      systemMessage := systemMessage + LanguageInstruction(language);
    }
  }

  /** The chatter: its defaults, its vendor, and the sessions it has saved. */
  class Chatter {
    const stream: bool
    const model: string
    const modelContextLength: int
    const vendor: Vendor
    /** `db.Sessions` as written by `SaveSession`: name to messages. */
    var saved: map<string, seq<Message>>

    constructor (stream: bool, model: string, modelContextLength: int, vendor: Vendor, saved: map<string, seq<Message>>)
      ensures this.stream == stream && this.model == model && this.modelContextLength == modelContextLength
      ensures this.vendor == vendor && this.saved == saved
    {
      this.stream := stream;
      this.model := model;
      this.modelContextLength := modelContextLength;
      this.vendor := vendor;
      this.saved := saved;
    }

    /** `db.Sessions.SaveSession`. */
    method SaveSession(env: Env, session: Session) returns (err: Option<ChatError>)
      modifies this
      ensures env.saveError.None? ==> err.None? && saved == old(saved)[session.name := session.messages]
      ensures env.saveError.Some? ==> err == Some(SaveFailed(env.saveError.value)) && saved == old(saved)
    {
      if env.saveError.Some? {
        return Some(SaveFailed(env.saveError.value));
      }
      saved := saved[session.name := session.messages];
      err := None;
    }

    /** `BuildSession`: the session to send, or why there is none. The
        request's message ends up as the session's last message. */
    method BuildSession(env: Env, request: ChatRequest, raw: bool) returns (session: Session?, err: Option<ChatError>)
      modifies request
      ensures var b := BuildSpec(env, request.sessionName, request.meta, request.contextName, old(request.message),
                                 request.inputHasVars, request.patternVariables, request.patternName,
                                 request.strategyName, request.language, raw);
        && request.message == b.message
        && err == b.err
        && (session == null <==> b.session.None?)
        && (session != null ==> fresh(session) && session.name == request.sessionName && session.messages == b.session.value)
    {
      ghost var spec := BuildSpec(env, request.sessionName, request.meta, request.contextName, request.message,
                                  request.inputHasVars, request.patternVariables, request.patternName,
                                  request.strategyName, request.language, raw);
      if request.sessionName != "" {
        var loaded := env.loadSession(request.sessionName);
        if loaded.Err? {
          return null, Some(SessionNotFound(request.sessionName, loaded.error));
        }
        session := new Session(request.sessionName, loaded.value);
      } else {
        session := new Session("", []);
      }
      ghost var stored := session.messages;

      if request.meta != "" {
        session.Append(Message(Meta, request.meta));
      }
      assert session.messages == stored + (if request.meta != "" then [Message(Meta, request.meta)] else []);

      var contextContent := "";
      if request.contextName != "" {
        var context := env.loadContext(request.contextName);
        if context.Err? {
          return session, Some(ContextNotFound(request.contextName, context.error));
        }
        contextContent := context.value;
      }
      assert spec == Resolve(env, session.messages, contextContent, request.message,
                             request.inputHasVars, request.patternVariables, request.patternName,
                             request.strategyName, request.language, raw);

      err := ResolveRequest(env, request, raw, session, contextContent);
      if err.Some? {
        session := null;
      }
    }

    /** The part of `BuildSession` after the context is read: it fills in the
        request's message and appends the system and user messages. */
    method ResolveRequest(env: Env, request: ChatRequest, raw: bool, session: Session, contextContent: string)
      returns (err: Option<ChatError>)
      modifies request, session
      ensures var b := Resolve(env, old(session.messages), contextContent, old(request.message),
                               request.inputHasVars, request.patternVariables, request.patternName,
                               request.strategyName, request.language, raw);
        && request.message == b.message
        && err == b.err
        && (b.session.Some? ==> session.messages == b.session.value)
    {
      ghost var user := UserMessage(env, request.message, request.inputHasVars, request.patternVariables);
      ghost var spec := Resolve(env, session.messages, contextContent, request.message,
                                request.inputHasVars, request.patternVariables, request.patternName,
                                request.strategyName, request.language, raw);
      if request.message.None? {
        request.message := Some(Placeholder);
      }

      if request.inputHasVars {
        var (content, templateError) := env.applyTemplate(request.message.value.content, request.patternVariables);
        request.message := Some(request.message.value.(content := content));
        if templateError.Some? {
          assert spec == Built(None, Some(TemplateFailed(templateError.value)), Some(user));
          return Some(TemplateFailed(templateError.value));
        }
      }
      assert request.message == Some(user);
      err := FinishRequest(env, request, raw, session, contextContent);
    }

    /** The rest of `BuildSession` after the template step: the pattern and
        the strategy are loaded, the system text is composed, and the
        request message is placed after it. */
    method FinishRequest(env: Env, request: ChatRequest, raw: bool, session: Session, contextContent: string)
      returns (err: Option<ChatError>)
      requires request.message.Some?
      modifies request, session
      ensures var b := Finish(env, old(session.messages), contextContent, old(request.message.value),
                              request.patternVariables, request.patternName, request.strategyName,
                              request.language, raw);
        && request.message == b.message
        && err == b.err
        && (b.session.Some? ==> session.messages == b.session.value)
    {
      var patternContent := "";
      if request.patternName != "" {
        var pattern := env.applyPattern(request.patternName, request.patternVariables, request.message.value.content);
        if pattern.Err? {
          return Some(PatternNotFound(request.patternName, pattern.error));
        }
        patternContent := pattern.value;
      }

      var strategy: Option<Strategy.Strategy> := None;
      if request.strategyName != "" {
        var loaded := Strategy.LoadStrategy(env.strategies, request.strategyName);
        if loaded.Err? {
          return Some(StrategyFailed(request.strategyName, loaded.error));
        }
        strategy := loaded.value;
      }

      var systemMessage := ComposeSystemMessage(contextContent, patternContent, strategy, request.language);

      if raw {
        if systemMessage != "" {
          request.message := Some(request.message.value.(content := systemMessage));
        }
      } else {
        if systemMessage != "" {
          session.Append(Message(System, systemMessage));
        }
      }

      session.Append(request.message.value);
      err := None;
    }

    /** `Send`: build the session, ask the vendor, and append its answer.
        `filled` is the options as `Send` leaves them (Go updates the
        caller's options in place). */
    method Send(env: Env, request: ChatRequest, opts: ChatOptions)
      returns (session: Session?, filled: ChatOptions, err: Option<ChatError>)
      modifies this, request
      ensures var b := BuildSpec(env, request.sessionName, request.meta, request.contextName, old(request.message),
                                 request.inputHasVars, request.patternVariables, request.patternName,
                                 request.strategyName, request.language, opts.raw);
        && request.message == b.message
        && (b.err.Some? ==>
              && err == b.err && saved == old(saved) && filled == opts
              && (session == null <==> b.session.None?)
              && (session != null ==> session.messages == b.session.value))
        && (b.err.None? ==>
              var built := b.session.value;
              var messages := env.vendorMessages(built);
              var named := request.sessionName != "";
              if messages == [] then
                && session != null && session.messages == built && filled == opts
                && (named && env.saveError.Some? ==> err == Some(SaveFailed(env.saveError.value)) && saved == old(saved))
                && (named && env.saveError.None? ==> err == Some(NoMessages) && saved == old(saved)[request.sessionName := built])
                && (!named ==> err == Some(NoMessages) && saved == old(saved))
              else
                var answer := Ask(vendor, stream, messages, WithDefaults(opts, model, modelContextLength));
                && filled == WithDefaults(opts, model, modelContextLength)
                && (answer.Failed? ==> session != null && session.messages == built && err == Some(answer.err) && saved == old(saved))
                && (answer == Got("") ==> session == null && err == Some(EmptyResponse) && saved == old(saved))
                && (answer.Got? && answer.text != "" ==>
                      var final := built + [Message(Assistant, AssistantText(env, request.patternName, answer.text))];
                      && session != null && session.messages == final
                      && (named && env.saveError.None? ==> err.None? && saved == old(saved)[request.sessionName := final])
                      && (named && env.saveError.Some? ==> err == Some(SaveFailed(env.saveError.value)) && saved == old(saved))
                      && (!named ==> err.None? && saved == old(saved))))
    {
      filled := opts;
      session, err := BuildSession(env, request, opts.raw);
      if err.Some? {
        return;
      }

      var vendorMessages := env.vendorMessages(session.messages);
      if |vendorMessages| == 0 {
        if session.name != "" {
          err := SaveSession(env, session);
          if err.Some? {
            return;
          }
        }
        err := Some(NoMessages);
        return;
      }

      filled := WithDefaults(opts, model, modelContextLength);

      var message := "";
      if stream {
        var collected := Drain(vendor.sendStream(vendorMessages, filled));
        match collected
        case Reply(text) =>
          message := text;
        case Blocked(received) =>
          err := Some(Hangs(received));
          return;
        case Panicked =>
          err := Some(Panics);
          return;
      } else {
        var sent := vendor.send(vendorMessages, filled);
        if sent.Err? {
          err := Some(VendorFailed(sent.error));
          return;
        }
        message := sent.value;
      }

      if message == "" {
        session := null;
        err := Some(EmptyResponse);
        return;
      }

      if request.patternName == CodingFeaturePattern {
        message := env.summary(message);
      }

      session.Append(Message(Assistant, message));

      if session.name != "" {
        err := SaveSession(env, session);
      }
    }
  }

  /** Exactly one message, the assistant's, is added to a sent session,
      and for `create_coding_feature` it carries the summary of the reply. */
  lemma OneAssistantMessage(env: Env, built: seq<Message>, patternName: string, reply: string)
    requires reply != ""
    ensures var final := built + [Message(Assistant, AssistantText(env, patternName, reply))];
      && CountRole(final, Assistant) == CountRole(built, Assistant) + 1
      && (patternName == CodingFeaturePattern ==> final[|final| - 1].content == env.summary(reply))
      && (patternName != CodingFeaturePattern ==> final[|final| - 1].content == reply)
  {
    var final := built + [Message(Assistant, AssistantText(env, patternName, reply))];
    assert final[..|final| - 1] == built;
  }
}
