/** The relay and the client together: the fragments the relay broadcasts
    for a stream, delivered in order to the client's chunk handler. */
module EndToEnd {
  import opened Chat
  import opened SocketRelay
  import opened Conversation

  /** The text a stream carries: each chunk's first-choice content, in order
      (a chunk without choices carries none). */
  function StreamText(chunks: seq<Chunk>): string
    decreases |chunks|
  {
    if chunks == [] then ""
    else (if |chunks[0].choices| > 0 then DeltaText(chunks[0].choices[0]) else "")
         + StreamText(chunks[1..])
  }

  /** Every delta the relay broadcasts for a well-formed stream, concatenated,
      is the stream's text. */
  lemma {:induction false} DeltasOfRelay(chunks: seq<Chunk>)
    requires AllHaveChoices(chunks)
    ensures Deltas(RelayFragments(chunks)) == StreamText(chunks)
    decreases |chunks|
  {
    if chunks != [] {
      assert AllHaveChoices(chunks[1..]) by {
        forall i | 0 <= i < |chunks[1..]| ensures |chunks[1..][i].choices| > 0 {
          assert chunks[1..][i] == chunks[i + 1];
        }
      }
      DeltasOfRelay(chunks[1..]);
      assert |chunks[0].choices| > 0;
      var f := ToFragment(chunks[0]).value;
      assert RelayFragments(chunks) == [f] + RelayFragments(chunks[1..]);
      assert ([f] + RelayFragments(chunks[1..]))[1..] == RelayFragments(chunks[1..]);
    }
  }

  predicate StopsOnlyAtEnd(chunks: seq<Chunk>)
    requires AllHaveChoices(chunks)
  {
    |chunks| > 0 &&
    chunks[|chunks| - 1].choices[0].finishReason == Some(STOP) &&
    forall i :: 0 <= i < |chunks| - 1 ==> chunks[i].choices[0].finishReason != Some(STOP)
  }

  /** Composition: when only the last chunk finishes with "stop", the
      client commits the whole stream text (after whatever the buffer held)
      as one assistant message and goes idle. */
  lemma RelayedReplyCommitted(s: ChatState, chunks: seq<Chunk>)
    requires AllHaveChoices(chunks) && StopsOnlyAtEnd(chunks)
    ensures Feed(s, RelayFragments(chunks))
         == ChatState(s.messages + [Message(Assistant, s.currentResponse + StreamText(chunks))], "")
  {
    OneFragmentPerChunk(chunks);
    var f := RelayFragments(chunks);
    var n := |f|;
    assert f[n - 1].isLast;
    var pre := f[..n - 1];
    assert NoFinal(pre) by {
      forall i | 0 <= i < |pre| ensures !pre[i].isLast {
        assert pre[i] == f[i] == ToFragment(chunks[i]).value;
      }
    }
    AccumulationLaw(s, f);
    DeltasOfRelay(chunks);
  }

  /** A stream that never says "stop" (the token cap ends it with
      "length") leaves its text in the buffer: nothing is committed and the
      typing bubble stays. */
  lemma {:induction false} CutOffReplyStaysInBuffer(s: ChatState, chunks: seq<Chunk>)
    requires AllHaveChoices(chunks)
    requires forall i :: 0 <= i < |chunks| ==> chunks[i].choices[0].finishReason != Some(STOP)
    ensures Feed(s, RelayFragments(chunks))
         == ChatState(s.messages, s.currentResponse + StreamText(chunks))
  {
    NoStopNoFinal(chunks);
    StreamingAccumulates(s, RelayFragments(chunks));
    DeltasOfRelay(chunks);
  }

  /** The failure path, for every upstream answer that never says "stop"
      (a call that throws before or during streaming, or a stream cut off
      by the token cap): the relay makes up no final fragment, so the page
      commits nothing and its buffer holds exactly the deltas it received. */
  lemma FailedStreamLeavesBuffer(s: ChatState, u: Upstream)
    requires forall i :: 0 <= i < |u.chunks| && |u.chunks[i].choices| > 0 ==>
      u.chunks[i].choices[0].finishReason != Some(STOP)
    ensures Feed(s, RelayFragments(u.chunks)).messages == s.messages
    ensures Feed(s, RelayFragments(u.chunks)).currentResponse
         == s.currentResponse + Deltas(RelayFragments(u.chunks))
  {
    NoStopNoFinal(u.chunks);
    StreamingAccumulates(s, RelayFragments(u.chunks));
  }

  /** The ping-pong turn: from `[system]`, submitting "Ping?" sends the
      two-message history, and the chunks "Po" and "ng!"(stop) end in
      `[system, user "Ping?", assistant "Pong!"]` with an empty buffer. */
  lemma PingPongTurn()
    ensures var s0 := ChatState([Message(System, "You are a ping pong machine")], "");
      var s1 := Submitted(s0, "Ping?");
      var chunks := [Chunk([Choice(Some("Po"), None)]), Chunk([Choice(Some("ng!"), Some(STOP))])];
      ShouldEmit(true, s1.messages) &&
      RelayFragments(chunks) == [Fragment("Po", false), Fragment("ng!", true)] &&
      Feed(s1, RelayFragments(chunks))
        == ChatState([Message(System, "You are a ping pong machine"),
                      Message(User, "Ping?"), Message(Assistant, "Pong!")], "")
  {
    var s0 := ChatState([Message(System, "You are a ping pong machine")], "");
    var s1 := Submitted(s0, "Ping?");
    var chunks := [Chunk([Choice(Some("Po"), None)]), Chunk([Choice(Some("ng!"), Some(STOP))])];
    RelayedReplyCommitted(s1, chunks);
    assert chunks[1..][1..] == [];
    assert StreamText(chunks[1..]) == "ng!" + StreamText([]);
    assert StreamText(chunks) == "Po" + "ng!";
    assert "Po" + "ng!" == "Pong!";
    assert s1.currentResponse + StreamText(chunks) == "Pong!";
    assert RelayFragments(chunks[1..]) == [Fragment("ng!", true)] + RelayFragments([]);
    assert RelayFragments(chunks) == [Fragment("Po", false)] + RelayFragments(chunks[1..]);
  }

  /** Feeding one more fragment is one more step of the chunk handler. */
  lemma {:induction false} FeedOneMore(s: ChatState, fragments: seq<Fragment>, f: Fragment)
    ensures Feed(s, fragments + [f]) == Chunked(Feed(s, fragments), f.delta, f.isLast)
    decreases |fragments|
  {
    if fragments == [] {
      assert [f][1..] == [];
    } else {
      assert (fragments + [f])[1..] == fragments[1..] + [f];
      FeedOneMore(Chunked(s, fragments[0].delta, fragments[0].isLast), fragments[1..], f);
    }
  }

  /** The client's "completion-chunk" listener receiving a broadcast in
      order: the page ends in the state `Feed` describes, and never sends the
      history while doing so. */
  method Deliver(home: Home, fragments: seq<Fragment>)
    modifies home
    ensures home.State() == Feed(old(home.State()), fragments)
    ensures home.emitted == old(home.emitted) && home.hasSocket == old(home.hasSocket)
  {
    var i := 0;
    while i < |fragments|
      invariant 0 <= i <= |fragments|
      invariant home.State() == Feed(old(home.State()), fragments[..i])
      invariant home.emitted == old(home.emitted) && home.hasSocket == old(home.hasSocket)
    {
      FeedOneMore(old(home.State()), fragments[..i], fragments[i]);
      assert fragments[..i + 1] == fragments[..i] + [fragments[i]];
      home.OnChunk(fragments[i].delta, fragments[i].isLast);
      i := i + 1;
    }
    assert fragments[..i] == fragments;
  }

  /** One turn over the channel: the relay receives the history the page
      sent last, answers it from `upstream`, and the page receives exactly
      what was broadcast for it. */
  method RelayTurn(home: Home, server: RelayServer, upstream: Upstream)
    requires |home.emitted| > 0
    modifies home, server, server.res
    ensures server.requests == old(server.requests) + [RequestFor(old(home.emitted[|home.emitted| - 1]))]
    ensures server.broadcast == old(server.broadcast) + RelayFragments(upstream.chunks)
    ensures server.res.status == (if RelayFails(upstream) then 500 else old(server.res.status))
    ensures home.State() == Feed(old(home.State()), RelayFragments(upstream.chunks))
    ensures home.emitted == old(home.emitted)
    ensures home.hasSocket == old(home.hasSocket) && server.res.ended == old(server.res.ended)
  {
    var before := server.broadcast;
    server.OnUserMessage(Some(home.emitted[|home.emitted| - 1]), upstream);
    assert server.broadcast[|before|..] == RelayFragments(upstream.chunks);
    Deliver(home, server.broadcast[|before|..]);
  }

  /** A submission from an idle page whose completion call throws before
      streaming: the page keeps exactly the submitted history with an idle
      buffer and has sent it once, the relay broadcasts nothing and reports
      status 500, and the page can submit again. */
  method FailedTurn(home: Home, server: RelayServer, content: string)
    requires home.hasSocket && home.currentResponse == ""
    modifies home, server, server.res
    ensures home.State() == Submitted(old(home.State()), content)
    ensures home.currentResponse == ""
    ensures home.hasSocket && home.emitted == old(home.emitted) + [home.messages]
    ensures server.res.ended == old(server.res.ended)
    ensures server.requests == old(server.requests) + [RequestFor(home.messages)]
    ensures server.broadcast == old(server.broadcast)
    ensures server.res.status == 500
  {
    home.Submit(content);
    RelayTurn(home, server, Upstream([], true));
  }
}
