/** The streaming relay: the bootstrap handler that creates the event server
    once per process, and the "user-message" listener that forwards a
    conversation to the completion service and broadcasts one fragment per
    streamed chunk.

    The completion service is outside the model: its answer to one request
    is given as an `Upstream` value, the chunks it yields in order and
    whether it then throws instead of ending normally. */
module SocketRelay {
  import opened Chat

  // ---------------------------------------------------------------------
  // The completion service's side of the boundary
  // ---------------------------------------------------------------------

  /** `choices[i]` of a streamed chunk: `delta.content` (None when `delta`
      or `content` is missing or null) and `finish_reason` (None when null). */
  datatype Choice = Choice(content: Option<string>, finishReason: Option<string>)

  datatype Chunk = Chunk(choices: seq<Choice>)

  /** One streamed call: the chunks it yields, in order, and whether the
      call throws after them. A call that fails before streaming has no
      chunks and throws. */
  datatype Upstream = Upstream(chunks: seq<Chunk>, throws: bool)

  /** The body of `chat.completions.create`. The sampling parameters are
      integers here because every one of them is a whole number. */
  datatype CompletionRequest = CompletionRequest(
    model: string,
    messages: seq<Message>,
    temperature: int,
    maxTokens: int,
    topP: int,
    frequencyPenalty: int,
    presencePenalty: int,
    stream: bool)

  const MODEL: string := "gpt-3.5-turbo"
  const TEMPERATURE: int := 1
  const MAX_TOKENS: int := 256
  const TOP_P: int := 1
  const FREQUENCY_PENALTY: int := 0
  const PRESENCE_PENALTY: int := 0
  const STOP: string := "stop"
  const LENGTH: string := "length"

  /** The request sent for a received conversation: the messages as they
      came, every other parameter fixed. */
  function RequestFor(messages: seq<Message>): (r: CompletionRequest)
    ensures r.messages == messages
    ensures r.model == MODEL && r.temperature == TEMPERATURE && r.maxTokens == MAX_TOKENS
    ensures r.topP == TOP_P && r.frequencyPenalty == FREQUENCY_PENALTY
    ensures r.presencePenalty == PRESENCE_PENALTY && r.stream
  {
    CompletionRequest(MODEL, messages, TEMPERATURE, MAX_TOKENS, TOP_P,
                      FREQUENCY_PENALTY, PRESENCE_PENALTY, true)
  }

  // ---------------------------------------------------------------------
  // Chunk to fragment
  // ---------------------------------------------------------------------

  /** `chunk?.choices[0]?.delta?.content || ""`: a missing, null or empty
      content all give "". */
  function DeltaText(c: Choice): string {
    if c.content.Some? && c.content.value != "" then c.content.value else ""
  }

  /** The two arguments of `io.emit` for one chunk. A chunk without choices
      gets through the optional chaining of the delta, but reading
      `chunk.choices[0].finish_reason` then throws before anything is
      emitted: None. */
  function ToFragment(c: Chunk): (r: Option<Fragment>)
    ensures r.Some? <==> |c.choices| > 0
  {
    if |c.choices| == 0 then None
    else Some(Fragment(DeltaText(c.choices[0]), c.choices[0].finishReason == Some(STOP)))
  }

  /** Only a "stop" finish reason marks a fragment final; "length" (the
      256-token cap was reached), null and every other reason do not. */
  lemma OnlyStopIsFinal(c: Chunk)
    requires |c.choices| > 0
    ensures ToFragment(c).value.isLast <==> c.choices[0].finishReason == Some(STOP)
    ensures c.choices[0].finishReason == Some(LENGTH) ==> !ToFragment(c).value.isLast
    ensures c.choices[0].finishReason == None ==> !ToFragment(c).value.isLast
    ensures c.choices[0].content.Some? ==> ToFragment(c).value.delta == c.choices[0].content.value
    ensures c.choices[0].content.None? ==> ToFragment(c).value.delta == ""
  {
  }

  /** The fragments the loop broadcasts for a stream: one per chunk, in
      stream order, up to (not including) the first chunk that makes the
      loop throw. */
  function RelayFragments(chunks: seq<Chunk>): (r: seq<Fragment>)
    ensures |r| <= |chunks|
    ensures forall i :: 0 <= i < |r| ==> ToFragment(chunks[i]) == Some(r[i])
    ensures |r| < |chunks| ==> ToFragment(chunks[|r|]) == None
    decreases |chunks|
  {
    if chunks == [] then []
    else
      match ToFragment(chunks[0])
      case None => []
      case Some(f) => [f] + RelayFragments(chunks[1..])
  }

  /** Whether the listener ends in its `catch`: the call throws, or a chunk
      without choices stops the loop. */
  predicate RelayFails(u: Upstream) {
    u.throws || |RelayFragments(u.chunks)| < |u.chunks|
  }

  predicate AllHaveChoices(chunks: seq<Chunk>) {
    forall i :: 0 <= i < |chunks| ==> |chunks[i].choices| > 0
  }

  /** With well-formed chunks, the fragment count equals the chunk count and
      the i-th fragment is the i-th chunk's mapping. */
  lemma OneFragmentPerChunk(chunks: seq<Chunk>)
    requires AllHaveChoices(chunks)
    ensures |RelayFragments(chunks)| == |chunks|
    ensures forall i :: 0 <= i < |chunks| ==> RelayFragments(chunks)[i] == ToFragment(chunks[i]).value
  {
  }

  /** A stream none of whose chunks finishes with "stop" (for instance one
      cut off by the token cap) yields no final fragment at all. */
  lemma NoStopNoFinal(chunks: seq<Chunk>)
    requires forall i :: 0 <= i < |chunks| && |chunks[i].choices| > 0 ==>
      chunks[i].choices[0].finishReason != Some(STOP)
    ensures forall j :: 0 <= j < |RelayFragments(chunks)| ==> !RelayFragments(chunks)[j].isLast
  {
  }

  // ---------------------------------------------------------------------
  // The process-wide server slot and the listener
  // ---------------------------------------------------------------------

  /** The HTTP response of one bootstrap request. */
  class Response {
    var status: int
    var ended: bool

    constructor()
      ensures status == 200 && !ended
    {
      status := 200;
      ended := false;
    }
  }

  /** The event server. `res` is the response of the bootstrap request that
      created it: the listener's error path reports to that response. */
  class RelayServer {
    const res: Response
    /** Every request sent to the completion service, in order. */
    var requests: seq<CompletionRequest>
    /** Every "completion-chunk" broadcast to all clients, in order. */
    var broadcast: seq<Fragment>

    constructor(res: Response)
      ensures this.res == res && requests == [] && broadcast == []
    {
      this.res := res;
      requests := [];
      broadcast := [];
    }

    /** The "user-message" listener. A null or undefined payload is dropped
        without a request (an empty list is not). Otherwise one request
        carries the payload, every chunk up to the first failure is
        broadcast as one fragment, no final fragment is ever made up, and a
        failure sets status 500 on `res`. */
    method OnUserMessage(payload: Option<seq<Message>>, upstream: Upstream)
      modifies this, res
      ensures payload.None? ==>
        requests == old(requests) && broadcast == old(broadcast) && res.status == old(res.status)
      ensures payload.Some? ==>
        requests == old(requests) + [RequestFor(payload.value)] &&
        broadcast == old(broadcast) + RelayFragments(upstream.chunks) &&
        res.status == (if RelayFails(upstream) then 500 else old(res.status))
      ensures res.ended == old(res.ended)
    {
      if payload.None? {
        return;
      }
      requests := requests + [RequestFor(payload.value)];
      ghost var sent := broadcast;
      ghost var expected := RelayFragments(upstream.chunks);
      var chunks := upstream.chunks;
      var i := 0;
      var failed := false;
      while i < |chunks| && !failed
        invariant 0 <= i <= |chunks|
        invariant requests == old(requests) + [RequestFor(payload.value)]
        invariant !failed ==> i <= |expected| && broadcast == sent + expected[..i]
        invariant failed ==> i == |expected| < |chunks| && broadcast == sent + expected
        modifies this
        decreases |chunks| - i, !failed
      {
        var fragment := ToFragment(chunks[i]);
        match fragment
        case None =>
          failed := true;
        case Some(f) =>
          broadcast := broadcast + [f];
          i := i + 1;
      }
      if !failed {
        assert expected[..i] == expected;
      }
      if failed || upstream.throws {
        res.status := 500;
      }
    }
  }

  /** `res.socket.server`: the host's slot for the event server. */
  class HostServer {
    var io: RelayServer?
    /** How many event servers have been constructed. */
    ghost var created: nat

    constructor()
      ensures io == null && created == 0
    {
      io := null;
      created := 0;
    }

    /** The bootstrap handler: create and store the server only when the
        slot is empty; always end the response. */
    method Handler(res: Response)
      modifies this, res
      ensures old(io) == null ==>
        io != null && fresh(io) && io.res == res &&
        io.requests == [] && io.broadcast == [] && created == old(created) + 1
      ensures old(io) != null ==> io == old(io) && unchanged(io) && created == old(created)
      ensures res.ended && res.status == old(res.status)
    {
      if io == null {
        io := new RelayServer(res);
        created := created + 1;
      }
      res.ended := true;
    }
  }

  /** Init-once: N bootstrap requests against a fresh host construct exactly
      one server, created by the first request, and end every response. */
  method RepeatedBootstrap(n: nat) returns (host: HostServer, responses: seq<Response>)
    ensures |responses| == n
    ensures forall k :: 0 <= k < n ==> responses[k].ended
    ensures n == 0 ==> host.io == null && host.created == 0
    ensures n > 0 ==> host.io != null && host.created == 1 && host.io.res == responses[0]
  {
    host := new HostServer();
    responses := [];
    while |responses| < n
      invariant |responses| <= n
      invariant forall k :: 0 <= k < |responses| ==> responses[k].ended
      invariant |responses| == 0 ==> host.io == null && host.created == 0
      invariant |responses| > 0 ==> host.io != null && host.created == 1 && host.io.res == responses[0]
    {
      var res := new Response();
      host.Handler(res);
      responses := responses + [res];
    }
  }
}
