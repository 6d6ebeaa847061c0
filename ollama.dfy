/** The Ollama vendor: the chat request built from the messages and
    options, `Send` (the last response handed to the callback wins),
    `SendStream` (every response's content goes to the channel, which is
    closed only when the chat succeeds) and `ListModels`. The Ollama client is
    not part of this model: `Api` holds what its calls do. */
module Ollama {
  import opened Common

  /** A value of the `options` map: the floating-point sampling values or
      the integer context length. */
  datatype OptionValue = Number(r: real) | Integer(n: int)

  /** The fields of `ollamaapi.ChatRequest` the vendor sets; `stream` is
      `None` (a nil pointer, the server's default) unless `Send` turns it off. */
  datatype ChatRequest = ChatRequest(
    model: string,
    messages: seq<Message>,
    options: map<string, OptionValue>,
    stream: Option<bool>)

  /** One call of `client.Chat`: the content of each response passed to the
      callback, in order, and the error the call returns. */
  datatype Chat = Chat(contents: seq<string>, err: Option<string>)

  /** One entry of the list of installed models. */
  datatype ListedModel = ListedModel(model: string)

  datatype Api = Api(
    chat: ChatRequest -> Chat,
    list: Result<seq<ListedModel>, string>)

  const NumCtx := "num_ctx"

  /** `createChatRequest`. */
  function CreateChatRequest(msgs: seq<Message>, opts: ChatOptions): (r: ChatRequest)
    ensures r.model == opts.model && r.messages == msgs && r.stream.None?
    ensures NumCtx in r.options <==> opts.modelContextLength != 0
  {
    var options := map[
      "temperature" := Number(opts.temperature),
      "presence_penalty" := Number(opts.presencePenalty),
      "frequency_penalty" := Number(opts.frequencyPenalty),
      "top_p" := Number(opts.topP)];
    ChatRequest(opts.model, msgs,
                if opts.modelContextLength != 0 then options[NumCtx := Integer(opts.modelContextLength)] else options,
                None)
  }

  /** The four sampling options are always sent; `num_ctx` exactly when the
      context length is not 0; no other option ever is. Messages keep their
      role, content and order. */
  lemma RequestOptions(msgs: seq<Message>, opts: ChatOptions)
    ensures var r := CreateChatRequest(msgs, opts);
      && r.messages == msgs && r.model == opts.model
      && r.options.Keys == {"temperature", "presence_penalty", "frequency_penalty", "top_p"}
                           + (if opts.modelContextLength != 0 then {NumCtx} else {})
      && r.options["temperature"] == Number(opts.temperature)
      && r.options["presence_penalty"] == Number(opts.presencePenalty)
      && r.options["frequency_penalty"] == Number(opts.frequencyPenalty)
      && r.options["top_p"] == Number(opts.topP)
      && (NumCtx in r.options ==> r.options[NumCtx] == Integer(opts.modelContextLength))
  {
  }

  /** The raw flag and the seed are never consulted. */
  lemma IgnoresRawAndSeed(msgs: seq<Message>, opts: ChatOptions, raw: bool, seed: int)
    ensures CreateChatRequest(msgs, opts.(raw := raw, seed := seed)) == CreateChatRequest(msgs, opts)
  {
  }

  /** The content of the last response, "" when there was none. */
  function Last(contents: seq<string>): (r: string)
    ensures contents == [] ==> r == ""
    ensures contents != [] ==> r in contents && r == contents[|contents| - 1]
  {
    if contents == [] then "" else contents[|contents| - 1]
  }

  /** `Send`: a non-streaming chat whose callback keeps overwriting the
      result, so the last response's content is returned, together with
      the error of the call, if any. */
  method Send(api: Api, msgs: seq<Message>, opts: ChatOptions) returns (ret: string, err: Option<string>)
    ensures var call := api.chat(CreateChatRequest(msgs, opts).(stream := Some(false)));
      ret == Last(call.contents) && err == call.err
  {
    var req := CreateChatRequest(msgs, opts).(stream := Some(false));
    var call := api.chat(req);
    ret := "";
    for k := 0 to |call.contents|
      invariant ret == Last(call.contents[..k])
    {
      ret := call.contents[k];
    }
    assert call.contents[..|call.contents|] == call.contents;
    err := call.err;
  }

  /** The request `Send` makes is the streaming one with streaming turned off. */
  lemma SendDisablesStreaming(msgs: seq<Message>, opts: ChatOptions)
    ensures var r := CreateChatRequest(msgs, opts).(stream := Some(false));
      r.stream == Some(false) && r.(stream := None) == CreateChatRequest(msgs, opts)
  {
  }

  /** What `SendStream` does to the channel for these messages and options. */
  function StreamSpec(api: Api, msgs: seq<Message>, opts: ChatOptions): StreamRun {
    var call := api.chat(CreateChatRequest(msgs, opts));
    StreamRun(call.contents, call.err.None?, call.err)
  }

  /** `SendStream`: every response's content goes to the channel in order;
      the channel is closed when the chat succeeds and left open when it fails. */
  method SendStream(api: Api, msgs: seq<Message>, opts: ChatOptions, channel: Channel) returns (err: Option<string>)
    requires !channel.closed
    modifies channel
    ensures var run := StreamSpec(api, msgs, opts);
      channel.sent == old(channel.sent) + run.fragments && channel.closed == run.closed && err == run.err
  {
    var req := CreateChatRequest(msgs, opts);
    var call := api.chat(req);
    for k := 0 to |call.contents|
      invariant !channel.closed
      invariant channel.sent == old(channel.sent) + call.contents[..k]
    {
      channel.Send(call.contents[k]);
      assert call.contents[..k + 1] == call.contents[..k] + [call.contents[k]];
    }
    assert call.contents[..|call.contents|] == call.contents;
    if call.err.Some? {
      return call.err;
    }
    channel.Close();
    err := None;
  }

  /** The channel is closed exactly when no error is returned: never both
      (no send on a closed channel), and a failed chat leaves it open. */
  lemma StreamClosedIffNoError(api: Api, msgs: seq<Message>, opts: ChatOptions)
    ensures StreamSpec(api, msgs, opts).closed <==> StreamSpec(api, msgs, opts).err.None?
    ensures StreamSpec(api, msgs, opts).fragments == api.chat(CreateChatRequest(msgs, opts)).contents
  {
  }

  /** `ListModels`: the listed models' names, in the order listed. */
  method ListModels(api: Api) returns (ret: seq<string>, err: Option<string>)
    ensures api.list.Err? ==> err == Some(api.list.error) && ret == []
    ensures api.list.Ok? ==>
      && err.None?
      && |ret| == |api.list.value|
      && forall i :: 0 <= i < |ret| ==> ret[i] == api.list.value[i].model
  {
    ret := [];
    if api.list.Err? {
      return ret, Some(api.list.error);
    }
    var models := api.list.value;
    for k := 0 to |models|
      invariant |ret| == k
      invariant forall i :: 0 <= i < k ==> ret[i] == models[i].model
    {
      ret := ret + [models[k].model];
    }
    err := None;
  }
}
