# Streaming chat relay and client controller, modelled in Dafny

The system is a small chat application. A browser page keeps a conversation
(a list of `{role, content}` messages) and a streaming buffer. After every
change of the conversation, it sends the whole conversation over a socket when
a socket exists and the last message is the user's. A server-side relay,
created once per process, forwards that conversation to a text-completion
service. For every streamed chunk it broadcasts one fragment
`(delta, isLast)`. The page appends each delta to its buffer, and on the final
fragment it commits the buffer as an assistant message.

The project models:

- `chat.dfy` (`Chat`): roles, messages, wire fragments and the seed
  conversation.
- `conversation.dfy` (`Conversation`): the page.
  - Its transitions are functions on a `ChatState` value: submit, delete by
    filter, chunk, and a fold over fragments.
  - It also has the emit rule, the rendered view and the lemmas relating
    them.
  - The class `Home` holds `messages`, `currentResponse`, whether the socket
    exists, and the log of histories sent upstream. Each of its methods is
    proved to perform the corresponding function and to send exactly what the
    emit effect sends.
- `message_view.dfy` (`MessageView`): the message bubble's delete control,
  its click argument and its caption.
- `user_message.dfy` (`UserInput`): the input box as a class. Its
  `currentInputMessage` is overwritten on change and cleared on submit. The
  send control's disabled rule is a predicate.
- `socket_relay.dfy` (`SocketRelay`): the relay.
  - The mapping from chunk to fragment, the fragments broadcast for a whole
    stream, and the fixed request parameters.
  - The classes `HostServer` (the process-wide `io` slot, with its init-once
    handler), `RelayServer` (the listener, with its logs of requests and
    broadcasts) and `Response`.
- `end_to_end.dfy` (`EndToEnd`): the relay's broadcast fed in order into the
  page's chunk handler. It includes the ping-pong turn.

Behaviours of the code that a reader might not expect, all modelled as
written:

- The relay ignores only a null or undefined payload. An empty list is sent
  upstream.
- Only `finish_reason == "stop"` ends a reply. A stream cut off with
  `"length"` leaves the page with a non-empty buffer: the typing bubble stays
  and the input stays disabled.
- A chunk with an empty `choices` list gets through the optional chaining of
  the delta. Reading `chunk.choices[0].finish_reason` then throws, so nothing
  is emitted for it, the loop stops, and status 500 is set.
- The 500 status is set on the response of the bootstrap request that created
  the server, because the listener's closure captured that response.
- The emit effect runs after every change of `messages`, and only then.
  Setting up the socket does not run it, so a message submitted before the
  socket exists is not sent when the socket comes up. It goes upstream only
  with the next change of `messages` that leaves a user message last, for
  instance the next submit.
- Deleting a trailing assistant reply makes a user message last again, so the
  history is sent again.
- A delete at an out-of-range index removes nothing. `filter` still builds a
  new array, so the emit effect runs again, and the unchanged history is sent
  again if the user's message is already last.
- A final chunk commits even an empty reply.

The seed (`src/contants.ts:14-27`) holds a system message and an example
exchange, and `Seed` follows it. `PingPongTurn` starts from the system message
alone.

## Model

| member | source | states |
|---|---|---|
| `Chat.RoleName` | src/components/Message.tsx:58 | each role's name as shown in captions; never empty |
| `MessageView.DeleteClick` | src/components/Message.tsx:37-44 | a delete control exists iff `onDelete` is given and the index is present and non-zero; clicking reports exactly the rendered index |
| `MessageView.Caption` | src/components/Message.tsx:58 | the caption is the label when it is present and non-empty, otherwise the role name; it is never empty |
| `MessageView.CaptionWithoutLabel` | src/components/Message.tsx:58 | a missing or empty label falls back to the role name |
| `MessageView.UnlabelledCaptionsTellRolesApart` | src/components/Message.tsx:58 | without labels, two bubbles have the same caption iff their messages have the same role |
| `UserInput.UserMessage.constructor` | src/components/User-Message.tsx:16 | the input starts as "" |
| `UserInput.UserMessage.WithDefaults` | src/components/User-Message.tsx:10 | without the prop, `isDisabled` defaults to false; the input starts as "" |
| `UserInput.UserMessage.Rerender` | src/components/User-Message.tsx:9-16 | a new `isDisabled` prop keeps the typed text |
| `UserInput.UserMessage.OnChange` | src/components/User-Message.tsx:36-38 | the field value replaces the input wholesale |
| `UserInput.UserMessage.HandleSubmit` | src/components/User-Message.tsx:19-22 | hands over the input verbatim, with no emptiness check, then resets it to "", which disables the send control |
| `Conversation.FilteredRemovesOnlyIndex` | src/app/page.tsx:114-116 | the position filter removes exactly element `index` and keeps the order of the rest; an out-of-range index removes nothing |
| `Conversation.DeletedLength` | src/app/page.tsx:115 | an in-range delete shortens the history by one; an out-of-range delete changes nothing |
| `Conversation.StreamingAccumulates` | src/app/page.tsx:66-84 | non-final fragments leave the history unchanged and grow the buffer by their deltas, in order |
| `Conversation.AccumulationLaw` | src/app/page.tsx:65-85 | fragments d1..dn with only dn final commit exactly one assistant message, buffer + d1+...+dn, and leave the buffer "" |
| `Conversation.AccumulationFromIdle` | src/app/page.tsx:65-85 | from an idle buffer, the committed reply is exactly d1+...+dn |
| `Conversation.EmitTriggers` | src/app/page.tsx:89-97 | after a submit the history is sent iff a socket exists; a committed reply, the seed and an empty history are never sent |
| `Conversation.DeletingTrailingReplyEmits` | src/app/page.tsx:89-97 | deleting a trailing assistant reply that followed a user message makes the history sendable again |
| `Conversation.DeletingSeedReplyEmits` | src/contants.ts:14-27 | deleting the seed's example reply (index 2) leaves `[system, "Ping?"]`, which is sent |
| `Conversation.SystemPromptKept` | src/app/page.tsx:109-116 | submits, chunks and every delete at an index other than 0 keep the leading system message |
| `Conversation.ViewRows` | src/app/page.tsx:102-128 | banner = first message; no bubbles unless there are more than one message; one deletable bubble per later message, each with its absolute index, drawn as an assistant bubble (`IsAssistant`, Message.tsx:20) iff its role is assistant; the typing bubble iff the buffer is non-empty, an assistant bubble, never deletable, captioned "assistant is typing..." |
| `Conversation.DeleteFromView` | src/app/page.tsx:109-116 | clicking the k-th bubble's delete control removes exactly the message it shows, never the system message, and leaves the buffer alone |
| `Conversation.SubmitEnabledWhenIdle` | src/app/page.tsx:137 | with `isDisabled = currentResponse != ""`, the send control is enabled iff the text is non-empty and no reply is in flight |
| `Conversation.Home.constructor` | src/app/page.tsx:30-39 | the page starts from the seed with an empty buffer, no socket and nothing sent |
| `Conversation.Home.ConnectSocket` | src/app/page.tsx:42-58 | the init effect (empty dependency list, so it runs once on mount) sets the socket, and setting it sends nothing |
| `Conversation.Home.EmitEffect` | src/app/page.tsx:89-97 | the history is sent iff a socket exists and the last message has role user |
| `Conversation.Home.Submit` | src/app/page.tsx:134-136 | appends exactly `{user, content}`, changes nothing else, and sends the new history once when a socket exists |
| `Conversation.Home.Delete` | src/app/page.tsx:114-116 | removes exactly the message at the index, or nothing when out of range; the emit effect then runs on the result |
| `Conversation.Home.OnChunk` | src/app/page.tsx:65-86 | non-final: buffer := buffer + delta, history unchanged; final: appends `{assistant, buffer + delta}` (even when empty) and resets the buffer to ""; never sends |
| `Conversation.EarlySubmissionNotSentOnConnect` | src/app/page.tsx:89-97 | a message submitted before the socket is set up is last, the socket then exists, and still nothing has been sent |
| `Conversation.EarlySubmissionSentWithNext` | src/app/page.tsx:89-97 | after an early submission and the connect, the next submit sends exactly once, a history holding both the early and the new message |
| `Conversation.Home.Send` | src/app/page.tsx:133-138 | pressing send submits iff the text is non-empty and the stream is idle, then clears the input; otherwise nothing changes |
| `SocketRelay.RequestFor` | src/pages/api/socket.ts:51-60 | the upstream request carries the received messages unchanged, with gpt-3.5-turbo, temperature 1, max_tokens 256, top_p 1, both penalties 0, stream true |
| `SocketRelay.ToFragment` | src/pages/api/socket.ts:64-70 | a chunk yields a fragment iff it has a first choice; otherwise the emit throws |
| `SocketRelay.OnlyStopIsFinal` | src/pages/api/socket.ts:67-69 | isLast iff finish_reason is "stop" ("length" and null are not); the delta is the content, or "" when it is missing |
| `SocketRelay.RelayFragments` | src/pages/api/socket.ts:63-71 | the broadcast is one fragment per chunk, in stream order, up to the first chunk without choices |
| `SocketRelay.OneFragmentPerChunk` | src/pages/api/socket.ts:63-71 | for well-formed chunks, the fragment count equals the chunk count and fragment i maps chunk i |
| `SocketRelay.NoStopNoFinal` | src/pages/api/socket.ts:55-69 | a stream with no "stop" (for instance cut off at max_tokens) yields no final fragment |
| `SocketRelay.RelayServer.constructor` | src/pages/api/socket.ts:31 | a new server has sent and broadcast nothing and keeps the creating response |
| `SocketRelay.RelayServer.OnUserMessage` | src/pages/api/socket.ts:43-76 | a null payload is dropped with no request; otherwise there is one request, the broadcast grows by exactly the stream's fragments and no made-up final marker, and a failure sets status 500 |
| `SocketRelay.HostServer.constructor` | src/pages/api/socket.ts:30 | the process starts with an empty `io` slot |
| `SocketRelay.HostServer.Handler` | src/pages/api/socket.ts:28-90 | an empty slot gets a new server bound to this response; a filled slot is left untouched; the response is always ended |
| `SocketRelay.RepeatedBootstrap` | src/pages/api/socket.ts:30-31 | N > 0 bootstrap calls construct exactly one server, owned by the first response, and every one of the N responses is ended |
| `EndToEnd.DeltasOfRelay` | src/pages/api/socket.ts:63-71 | for a stream whose every chunk has a choice, the broadcast deltas concatenate to the stream's text |
| `EndToEnd.RelayedReplyCommitted` | src/pages/api/socket.ts:63-71 | for a stream whose every chunk has a choice, if only the last chunk says "stop", the page commits buffer + the whole stream text as one assistant message and goes idle (a chunk without choices would end the relay before the stop) |
| `EndToEnd.CutOffReplyStaysInBuffer` | src/pages/api/socket.ts:55-69 | for a stream whose every chunk has a choice, a stream without "stop" commits nothing and leaves its text in the buffer |
| `EndToEnd.FailedStreamLeavesBuffer` | src/pages/api/socket.ts:63-75 | for every upstream answer without "stop" (a throw before or during streaming, or a cut-off), the page commits nothing and its buffer grows by exactly the broadcast deltas: the stuck "typing" state |
| `EndToEnd.PingPongTurn` | src/app/page.tsx:65-97 | from `[system]`, "Ping?" is sent, and chunks "Po", "ng!"(stop) end in `[system, user "Ping?", assistant "Pong!"]` with an empty buffer |
| `EndToEnd.FeedOneMore` | src/app/page.tsx:65-86 | handling one more fragment is one more chunk-handler step |
| `EndToEnd.Deliver` | src/app/page.tsx:65-86 | fragments delivered in order leave the page in the state their fold describes, and send nothing |
| `EndToEnd.FailedTurn` | src/pages/api/socket.ts:72-75 | a submission whose call throws before streaming from an idle page leaves it with exactly the submitted history and an idle buffer, sends that history exactly once and keeps the socket; the relay broadcasts nothing, sets status 500 and leaves the response's ended flag as it was |
| `EndToEnd.RelayTurn` | src/pages/api/socket.ts:43-76 | the relay answers the last sent history, and the page receives exactly the fragments broadcast for it; the page keeps its socket and sends nothing, and the response's ended flag is unchanged |

## Left out

- Transport: the socket.io server and client, `fetch(SOCKET_URI)`, the `io()` connection and disconnect cleanup. The socket is a flag on `Home`, and the broadcast is one ordered log.
- The completion service: the OpenAI client, the API key and the `for await` call. Its answer is an input (`Upstream`): the chunks it yields and whether it throws afterwards.
- Observability: `console.log`, `onAny` and the connect/disconnect logs.
- React scheduling. Each handler is atomic, and the emit effect runs after every change of `messages`. Development-mode double invocation of state updaters is not modelled.
- `Conversation.Home.ConnectSocket`: the init effect runs once because its dependency list is empty. Its `!socket` test reads the first render's socket, which is always null, so it would not stop a second run of the effect (development-mode double mounting) from opening a second connection. The model has one socket flag.
- Concurrency: interleaving of several clients or several streams on the shared broadcast.
- The 500 response's JSON body, and the fact that the response carrying it has already been ended.
- Presentation: the layout, System-Message's placeholder text, styling, alignment classes and React keys.
- `MessageView.DeleteClick`: the index is an integer, so `Number.isInteger` always holds. Non-integer and NaN indices are not modelled, and the page never produces them.
- Relay input shapes: a null chunk (`chunk?.`) and choices other than the first. Only the first choice is read.
- Number types: temperature and top_p are whole-number integers, not floating point.
