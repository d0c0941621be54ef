# chat-website-agent: a Dafny model of the chat handler

The repository is a Modus application. It exposes a `Chat(sessionID, userMessage)`
function that does four things each turn:

- It keeps a conversation's memory in Dgraph. Messages are `ChatMessage` nodes linked
  to a `ChatSession` node.
- It reloads that memory and puts the new user message last. An empty or unreadable
  history starts with a default system prompt instead.
- It projects the conversation onto the OpenAI request roles and calls the model.
- It returns the trimmed reply and saves the user message and the reply to the store.

There is also a `SayHello` greeting.

This project models that core in `main.go`:

- `wrappers.dfy`: the `Option` and `Result` types.
- `messages.dfy`: the stored message record (`DgraphChatMessage`), the role names, the
  default system prompt and the millisecond constant.
- `strings.dfy`: `strings.TrimSpace` with Go's white-space set, and the `%d` rendering
  used for blank-node names.
- `projection.dfy`: the role `switch` that maps stored messages to request messages
  (system, user or assistant). Messages with any other role are dropped.
- `history.dfy`: `loadHistoryFromDgraph`, given the store's answer. Its two error
  messages are modelled. The rows are copied into an array, which is then sorted in
  place by timestamp with a stable sort.
- `mutations.dfy`: `saveNewMessagesToDgraph`. It models the list of set objects (one
  session upsert, then a message node and a session link per new message) and the
  error it returns when the store rejects the write.
- `chat.dfy`: `Chat`, with the model client, the store and the clock as inputs:
  - each of the three model-client failures maps to its own error;
  - what the model is sent;
  - the trimmed reply;
  - the two messages persisted;
  - a store failure that changes nothing but the logged error.
- `greeting.dfy`: `SayHello`.

The model has three kinds of input:

- The store's query answer is a `QueryResponse`: the query failed, the JSON did not
  decode, or the decoded rows (nil or a list).
- The model client's behaviour is a `ModelCall`: which call failed, or the reply text.
- `time.Now` becomes a `Clock` holding the readings `Chat` takes.

Timestamps are integers counting nanoseconds.

`sort.SliceStable` is modelled as insertion sort. `History.StableSortUnique` justifies
this: it proves that only one sequence is both sorted by timestamp and keeps the
original order of every group of equal timestamps. Any stable sort therefore gives the
same result.

Two facts about the code are easy to overlook:

- `Chat` reads the clock separately for the system prompt, the user message and the
  reply (main.go:64, main.go:74, main.go:113). It stamps the reply one millisecond after
  its own reading, so the two messages of a turn do not share a timestamp.
  `ChatHandler.Chat` proves the reply is stamped strictly after the user message
  whenever the clock does not go backwards.
- `ClearChat` (main.go:257-282) sends an empty mutation and deletes nothing (see
  "## Left out").

## Model

| member | source | states |
|---|---|---|
| Strings.TrimSpace | main.go:108 | the trimmed reply is no longer than the reply, and neither starts nor ends with white space (Go's `unicode.IsSpace` set) |
| Strings.TrimSpaceInfix | main.go:108 | the trimmed reply is one contiguous piece of the reply, and everything dropped before and after it is white space |
| Strings.TrimSpaceKeepsTrimmed | main.go:108 | a reply that has no white space at either end is returned unchanged |
| Strings.TrimSpaceIdempotent | main.go:108 | trimming an already trimmed reply changes nothing |
| Strings.TrimSpaceEmpty | main.go:108 | the saved assistant content is empty exactly when the model's reply is all white space |
| Strings.NatToDecimal | main.go:215 | `%d` of an index is a non-empty string of decimal digits with no leading zero |
| Strings.DecimalRoundTrip | main.go:215 | reading back the digits `%d` wrote gives the index |
| Strings.NatToDecimalInjective | main.go:215 | distinct indices give distinct `%d` strings |
| Projection.ToRequestMessage | main.go:82-89 | a stored message becomes a request message exactly when its role is system, user or assistant; the role and content are kept |
| Projection.ToModelMessages | main.go:80-90 | the loop over the history produces the projection of the whole history |
| Projection.ProjectedLength | main.go:80-90 | the model receives one message per history entry whose role is known |
| Projection.KnownCountBound | main.go:80-90 | at most every entry has a known role, and all of them do exactly when every role is system, user or assistant |
| Projection.ProjectedLengthExact | main.go:80-90 | no message is added; none is dropped exactly when every role is known |
| Projection.ProjectedPrefix | main.go:80-90 | projecting a prefix of the history gives a prefix of the messages |
| Projection.ProjectedAt | main.go:80-90 | a history entry with a known role is sent at the position given by the number of known entries before it, with its role and content |
| Projection.KnownCountIncreases | main.go:80-90 | the projection keeps the history's order: a known entry comes before every later known entry |
| Projection.ProjectedOrigin | main.go:80-90 | every message sent comes from one history entry with a known role, and its role and content are that entry's |
| Projection.ProjectedAllKnown | main.go:80-90 | when every role is known, the messages correspond one to one, in order, with the history |
| Projection.ProjectedAppend | main.go:77-90 | appending an entry adds its request message at the end, or nothing when its role is unknown |
| History.FromRow | main.go:177-185 | a loaded message keeps the row's uid, role, content and timestamp, and has no type |
| History.FromRows | main.go:176-186 | one loaded message per row, in row order |
| History.WithTimestampConcat | main.go:197-199 | the messages with a given timestamp in a concatenation are those of the first part followed by those of the second |
| History.SwapKeepsOrderPerTimestamp | main.go:197-199 | swapping two neighbours with different timestamps keeps the order within every timestamp |
| History.StableSortUnique | main.go:197-199 | two sequences that are both sorted by timestamp and have the same order within every timestamp are equal: a stable sort's result is unique |
| History.InsertSorted | main.go:197-199 | inserting one message into a sorted sequence keeps it sorted |
| History.InsertPerTimestamp | main.go:197-199 | the inserted message goes after every message with its own timestamp |
| History.InsertPermutes | main.go:197-199 | insertion adds the one message and loses none |
| History.StableSortSorted | main.go:197-199 | the reference stable sort orders messages by non-decreasing timestamp |
| History.StableSortKeepsOrder | main.go:197-199 | the reference stable sort keeps the original order of messages with equal timestamps |
| History.StableSortPermutes | main.go:197-199 | the reference stable sort is a permutation |
| History.StableSortCharacterized | main.go:197-199 | any sorted sequence that keeps the order within every timestamp is the reference stable sort |
| History.StableSortOfSorted | main.go:194-199 | when the store already returned the rows in timestamp order, the re-sort leaves them as they are |
| History.SwapDown | main.go:197-199 | the array becomes the old one with a[j-1] and a[j] exchanged and nothing else changed; the sorted-but-for-one prefix keeps that shape one place lower, and the order within every timestamp is kept |
| History.InsertInPlace | main.go:197-199 | sinking element i makes the prefix up to i sorted, leaves every element after i in place, and keeps the order within every timestamp |
| History.SortStable | main.go:197-199 | the array ends up sorted by timestamp, in the same order within each timestamp, as a permutation of its old contents, and equal to the reference stable sort of them |
| History.LoadHistory | main.go:130-201 | a failed query and an undecodable answer give their exact error messages; decoded rows give the stable sort of the copied rows; the result is empty exactly when the rows were nil or empty |
| Mutations.MessageBlankNode | main.go:215 | the name of the i-th new message's node is `_:msg` followed by decimal digits only |
| Mutations.MessageObjectFor | main.go:216-225 | the node written for a message is a ChatMessage named by its blank node, with the message's role, content and timestamp, and pointing back at the session |
| Mutations.BuildSetPayload | main.go:204-235 | the payload is the session upsert followed, for each message i, by its node `_:msg<i>` and the session's link to it |
| Mutations.SaveNewMessages | main.go:204-254 | the payload sent is the set payload of the new messages, and an error is returned exactly when the store rejects the mutation, with its message |
| Mutations.BlankNodesDistinct | main.go:205-215 | message blank nodes never equal the session's, and distinct indices give distinct names |
| Mutations.PayloadLinksResolve | main.go:205-235 | in a payload every message node has its own name, and each link starts at the session and points to the message node written just before it |
| Mutations.PayloadRoundTrip | main.go:214-235 | the message nodes of a payload are exactly the new messages, in order, with their role, content and timestamp |
| ChatHandler.SystemPromptAt | main.go:61-65 | the default system prompt carries the clock reading taken for it, and reaches the model as a system message with the default prompt text |
| ChatHandler.UserMessageAt | main.go:71-76 | the user message carries its own clock reading and the ChatMessage type, and reaches the model as a user message with the same text |
| ChatHandler.AssistantMessageAt | main.go:110-115 | the reply is stamped exactly one millisecond after its clock reading, so strictly after it; it carries the ChatMessage type and reaches the model as an assistant message with the same text |
| ChatHandler.NoHistory | main.go:52-59 | a failed query, an undecodable answer or nil rows mean no history; decoded rows mean no history exactly when their sorted copy is empty |
| ChatHandler.HistoryForModel | main.go:51-77 | a failed or empty load gives the default system prompt then the user message; otherwise the loaded history then the user message |
| ChatHandler.PrepareModelMessages | main.go:50-90 | with no history the model is sent the default prompt and the user message; otherwise it is sent the projection of the stably sorted stored history, then the user message |
| ChatHandler.FreshConversationProjected | main.go:59-90 | a conversation with no history reaches the model as the default system prompt followed by the user message |
| ChatHandler.Chat | main.go:42-128 | each model-client failure returns its own wrapped error and persists nothing; a reply returns its trimmed text; the user message and the reply are persisted, in that order, through a set payload; a store failure leaves the reply unchanged; the reply is stamped after the user message when the clock does not go backwards |
| Greeting.SayHello | main.go:359-368 | the greeting starts with "Hello, " and ends with "!" |
| Greeting.GreetingNamesName | main.go:359-368 | the name can be read back from the greeting, and "World" when no name is given |
| Greeting.SayHelloDistinguishesNames | main.go:359-368 | two greetings are equal exactly when the names they greet are equal, with no name counting as "World" |

## Left out

- Dgraph I/O: the query text, the variables and the mutation call are left out. The store's answers and its mutation error are inputs.
- JSON encoding and decoding, and RFC3339 timestamp formatting, are left out. Timestamps are whole nanoseconds, and decoding failures are an input.
- `json.Marshal` failing on the set payload (main.go:237-240) is not modelled, because the payload holds only strings.
- Mutations.SaveNewMessages: the error message leaves out the `. Payload: <json>` suffix, because the JSON text of the payload is not modelled.
- ChatHandler.Chat: the reply is taken to be the first choice. The panic when the model returns no choices (main.go:108) is not modelled.
- The model client's internals (`GetModel`, `CreateInput`, `Invoke`) and the temperature setting are left out. Only the outcome of each call is an input.
- Debug and error logging (`fmt.Printf`) is left out. It has no effect on results.
- `ClearChat` is left out: it sends an empty mutation and deletes nothing.
- `TestDgraphInteraction` and `ApplyDgraphSchema` are left out: they are diagnostic and setup helpers outside the chat flow.
- Concurrency between turns of one session is left out. Each call is modelled on its own.
