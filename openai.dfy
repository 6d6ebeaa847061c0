/** The OpenAI vendor: how a chat request is built from the messages and
    options, what `Send` returns, which fragments `SendStream` puts on the
    channel and when it closes it, and `ListModels`. The HTTP client is not
    part of this model: `Api` holds what its calls return. */
module OpenAI {
  import opened Common

  /** The fields of `openai.ChatCompletionRequest` the vendor sets. The
      sampling fields are 0 and `seed` is `None` (a nil pointer) when not set. */
  datatype Request = Request(
    model: string,
    messages: seq<Message>,
    temperature: real,
    topP: real,
    presencePenalty: real,
    frequencyPenalty: real,
    seed: Option<int>,
    stream: bool)

  /** One result of `stream.Recv()`: a response carrying the delta content of
      each of its choices, or an error (`io.EOF` apart). */
  datatype Recv = Chunk(deltas: seq<string>) | Eof | RecvError(reason: string)

  datatype Model = Model(id: string)

  /** What the client's calls return for a request. A stream reports `io.EOF`
      once its events are used up. */
  datatype Api = Api(
    create: Request -> Result<seq<string>, string>,       // the message content of each choice
    createStream: Request -> Result<seq<Recv>, string>,
    listModels: Result<seq<Model>, string>)

  /** `buildChatCompletionRequest`. */
  function BuildRequest(msgs: seq<Message>, opts: ChatOptions): (r: Request)
    ensures r.messages == msgs && r.model == opts.model && !r.stream
    ensures r.seed.Some? <==> !opts.raw && opts.seed != 0
    ensures r.seed.Some? ==> r.seed.value == opts.seed
    ensures !opts.raw ==> r.temperature == opts.temperature && r.topP == opts.topP
  {
    if opts.raw then Request(opts.model, msgs, 0.0, 0.0, 0.0, 0.0, None, false)
    else Request(opts.model, msgs, opts.temperature, opts.topP, opts.presencePenalty, opts.frequencyPenalty,
                 if opts.seed == 0 then None else Some(opts.seed), false)
  }

  /** The messages are sent one to one, in order and unchanged, with the
      model asked for; in raw mode nothing else is set. */
  lemma RawRequestIsModelAndMessages(msgs: seq<Message>, opts: ChatOptions)
    ensures BuildRequest(msgs, opts).messages == msgs && BuildRequest(msgs, opts).model == opts.model
    ensures opts.raw ==> BuildRequest(msgs, opts) == Request(opts.model, msgs, 0.0, 0.0, 0.0, 0.0, None, false)
  {
  }

  /** In raw mode the sampling options and the seed have no effect on the
      request at all. */
  lemma RawIgnoresSampling(msgs: seq<Message>, a: ChatOptions, b: ChatOptions)
    requires a.raw && b.raw && a.model == b.model
    ensures BuildRequest(msgs, a) == BuildRequest(msgs, b)
  {
  }

  /** Otherwise the four sampling fields are copied, and a seed is sent
      exactly when it is not 0 (0 counts as "no seed"). */
  lemma SeedOnlyWhenSet(msgs: seq<Message>, opts: ChatOptions)
    requires !opts.raw
    ensures var r := BuildRequest(msgs, opts);
      && r.temperature == opts.temperature && r.topP == opts.topP
      && r.presencePenalty == opts.presencePenalty && r.frequencyPenalty == opts.frequencyPenalty
      && (r.seed.Some? <==> opts.seed != 0)
      && (r.seed.Some? ==> r.seed.value == opts.seed)
  {
  }

  /** `Send`: the first choice's content, "" when there is no choice. */
  function Send(api: Api, msgs: seq<Message>, opts: ChatOptions): (r: Result<string, string>)
    ensures r.Err? <==> api.create(BuildRequest(msgs, opts)).Err?
    ensures r.Err? ==> r.error == api.create(BuildRequest(msgs, opts)).error
  {
    match api.create(BuildRequest(msgs, opts))
    case Err(e) => Err(e)
    case Ok(choices) => Ok(if |choices| > 0 then choices[0] else "")
  }

  /** The reply is the first choice's text whenever the call succeeds with
      a choice; no error and no choice is an empty reply. */
  lemma SendIsFirstChoice(api: Api, msgs: seq<Message>, opts: ChatOptions)
    ensures var created := api.create(BuildRequest(msgs, opts));
      && (Send(api, msgs, opts).Ok? <==> created.Ok?)
      && (created.Ok? && created.value != [] ==> Send(api, msgs, opts) == Ok(created.value[0]))
      && (created == Ok([]) ==> Send(api, msgs, opts) == Ok(""))
  {
  }

  /** What the receive loop does with the stream's events: the first
      choice's delta for every response with choices; a "\n" and a close at
      the end of the stream or at a response without choices; nothing more,
      and no close, at a receive error. */
  function Protocol(events: seq<Recv>): StreamRun
  {
    if events == [] then StreamRun(["\n"], true, None)
    else match events[0]
      case Chunk(deltas) =>
        if |deltas| > 0 then
          var rest := Protocol(events[1..]);
          rest.(fragments := [deltas[0]] + rest.fragments)
        else StreamRun(["\n"], true, None)
      case Eof => StreamRun(["\n"], true, None)
      case RecvError(e) => StreamRun([], false, Some(e))
  }

  /** The stream `SendStream` runs for these messages and options. */
  function StreamSpec(api: Api, msgs: seq<Message>, opts: ChatOptions): StreamRun {
    match api.createStream(BuildRequest(msgs, opts).(stream := true))
    case Err(e) => StreamRun([], false, Some(e))
    case Ok(events) => Protocol(events)
  }

  /** The first choice's delta of each response before the first one that
      ends the stream. */
  function Deltas(events: seq<Recv>): seq<string>
    requires forall j :: 0 <= j < |events| ==> events[j].Chunk? && |events[j].deltas| > 0
  {
    if events == [] then [] else Deltas(events[..|events| - 1]) + [events[|events| - 1].deltas[0]]
  }

  lemma {:induction false} ProtocolAfterDeltas(events: seq<Recv>, i: nat)
    requires i <= |events|
    requires forall j :: 0 <= j < i ==> events[j].Chunk? && |events[j].deltas| > 0
    ensures Protocol(events) == Protocol(events[i..]).(fragments := Deltas(events[..i]) + Protocol(events[i..]).fragments)
    decreases i
  {
    if i == 0 {
      assert events[..0] == [];
      assert events[0..] == events;
    } else {
      ProtocolAfterDeltas(events, i - 1);
      var e := events[i - 1];
      assert events[i - 1..] == [e] + events[i..];
      assert events[..i][..i - 1] == events[..i - 1];
      assert Protocol(events[i - 1..]) == Protocol(events[i..]).(fragments := [e.deltas[0]] + Protocol(events[i..]).fragments);
    }
  }

  /** `SendStream`: builds the request with streaming on, then forwards
      every delta to the channel until the stream ends. */
  method SendStream(api: Api, msgs: seq<Message>, opts: ChatOptions, channel: Channel) returns (err: Option<string>)
    requires !channel.closed
    modifies channel
    ensures var run := StreamSpec(api, msgs, opts);
      channel.sent == old(channel.sent) + run.fragments && channel.closed == run.closed && err == run.err
  {
    var req := BuildRequest(msgs, opts).(stream := true);
    var created := api.createStream(req);
    if created.Err? {
      return Some(created.error);
    }
    var events := created.value;
    ghost var run := Protocol(events);
    assert run == StreamSpec(api, msgs, opts);
    var i := 0;
    assert events[..0] == [];
    while true
      invariant 0 <= i <= |events|
      invariant forall j :: 0 <= j < i ==> events[j].Chunk? && |events[j].deltas| > 0
      invariant !channel.closed
      invariant channel.sent == old(channel.sent) + Deltas(events[..i])
      decreases |events| - i
    {
      ProtocolAfterDeltas(events, i);
      ghost var rest := Protocol(events[i..]);
      assert run == rest.(fragments := Deltas(events[..i]) + rest.fragments);
      // a stream whose events are used up reports io.EOF
      var response := if i < |events| then events[i] else Eof;
      match response
      case Chunk(deltas) =>
        if |deltas| > 0 {
          channel.Send(deltas[0]);
          assert events[..i + 1][..i] == events[..i];
          i := i + 1;
        } else {
          assert rest == StreamRun(["\n"], true, None);
          channel.Send("\n");
          channel.Close();
          return None;
        }
      case Eof =>
        assert rest == StreamRun(["\n"], true, None);
        channel.Send("\n");
        channel.Close();
        return None;
      case RecvError(e) =>
        assert rest == StreamRun([], false, Some(e));
        assert run.fragments == Deltas(events[..i]);
        return Some(e);
    }
  }

  /** The stream is closed exactly when `SendStream` returns no error: it
      never both closes and fails (the chatter would then send the error on
      a closed channel), and every failure, creating the stream or receiving
      from it, leaves the channel open. */
  lemma StreamClosedIffNoError(api: Api, msgs: seq<Message>, opts: ChatOptions)
    ensures StreamSpec(api, msgs, opts).closed <==> StreamSpec(api, msgs, opts).err.None?
  {
    var created := api.createStream(BuildRequest(msgs, opts).(stream := true));
    if created.Ok? {
      ProtocolClosedIffNoError(created.value);
    }
  }

  lemma {:induction false} ProtocolClosedIffNoError(events: seq<Recv>)
    ensures Protocol(events).closed <==> Protocol(events).err.None?
    decreases |events|
  {
    if events != [] && events[0].Chunk? && |events[0].deltas| > 0 {
      ProtocolClosedIffNoError(events[1..]);
    }
  }

  /** A stream that ends normally finishes with a "\n" fragment. */
  lemma {:induction false} ClosedEndsWithNewline(events: seq<Recv>)
    ensures Protocol(events).closed ==>
      |Protocol(events).fragments| > 0 && Protocol(events).fragments[|Protocol(events).fragments| - 1] == "\n"
    decreases |events|
  {
    if events != [] && events[0].Chunk? && |events[0].deltas| > 0 {
      ClosedEndsWithNewline(events[1..]);
    }
  }

  /** `ListModels`: the model IDs, in the order the API lists them. */
  method ListModels(api: Api) returns (ret: seq<string>, err: Option<string>)
    ensures api.listModels.Err? ==> err == Some(api.listModels.error) && ret == []
    ensures api.listModels.Ok? ==>
      && err.None?
      && |ret| == |api.listModels.value|
      && forall i :: 0 <= i < |ret| ==> ret[i] == api.listModels.value[i].id
  {
    ret := [];
    if api.listModels.Err? {
      return ret, Some(api.listModels.error);
    }
    var models := api.listModels.value;
    for k := 0 to |models|
      invariant |ret| == k
      invariant forall i :: 0 <= i < k ==> ret[i] == models[i].id
    {
      ret := ret + [models[k].id];
    }
    err := None;
  }
}
