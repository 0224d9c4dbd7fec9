# MLMcpToolsRemoveNodeRequest wire codec, in Dafny

This project models the node-level transport request `MLMcpToolsRemoveNodeRequest`
of OpenSearch ML Commons. A cluster node sends it to another node to ask it to
remove MCP tools. Its one field, `mcpTools`, is an optional, ordered list of tool
names. Null means no list accompanies the request. An empty list means a list of
zero tools. The model covers how the field is written to a transport stream
(`writeTo`), how it is read back (the `StreamInput` constructor), and the builder
constructor.

Layout:

- `wrappers.dfy`, module `Wrappers`: `Option`, standing for a Java reference that
  may be null.
- `streams.dfy`, module `Streams`: the stream primitives the request uses, modelled
  on cells. `writeBoolean` writes one `BoolCell`. `writeStringArray` writes one
  `CountCell` holding the length, then one `StringCell` per element. `StreamOutput`
  is an append-only buffer of cells. `StreamInput` is a cursor over a received
  buffer. Each read primitive is specified by a pure parser (`ReadBool`,
  `ReadStringList`, …). A parser returns the value and the cells left over, or an
  error. `EndOfStream` means the input ended too early. `Corrupt` means the next
  cell is of the wrong kind.
- `mcp_tools_remove_node_request.dfy`, module `McpToolsRemoveNodeRequest`: the pure
  wire format of the field (`EncodeTools`, `DecodeTools`), the lemmas about it, and
  the class `MLMcpToolsRemoveNodeRequest`. The class's methods work on the mutable
  streams and are proved against the pure functions.

The Java stream constructor cannot return a failure other than by throwing. It is
modelled as the static method `FromStream`, which returns either a fresh request
or the stream error. Because `FromStream` is tied to the function `DecodeTools`,
decoding two copies of the same cells gives equal requests.

## Model

| member | source | states |
|---|---|---|
| `McpToolsRemoveNodeRequest.EncodeTools` | common/src/main/java/org/opensearch/ml/common/transport/mcpserver/requests/remove/MLMcpToolsRemoveNodeRequest.java:37-42 | null is written as a single `false` flag and nothing else; a list is written as a `true` flag, its length, then each name at its own index, in list order |
| `McpToolsRemoveNodeRequest.DecodeTools` | common/src/main/java/org/opensearch/ml/common/transport/mcpserver/requests/remove/MLMcpToolsRemoveNodeRequest.java:24-26 | a `false` flag yields a null field and consumes only the flag; empty input fails with end of stream; a non-boolean first cell fails as corrupt; any success consumed exactly the encoding of the field it returns |
| `McpToolsRemoveNodeRequest.RoundTrip` | common/src/main/java/org/opensearch/ml/common/transport/mcpserver/requests/remove/MLMcpToolsRemoveNodeRequest.java:22-43 | decoding the encoding of any field, null, empty or not, followed by any cells `rest`, returns the same field and leaves exactly `rest` |
| `McpToolsRemoveNodeRequest.DecodeExactlyEncodings` | common/src/main/java/org/opensearch/ml/common/transport/mcpserver/requests/remove/MLMcpToolsRemoveNodeRequest.java:22-43 | decoding succeeds with a field and leftover `rest` if and only if the input is that field's encoding followed by `rest`; this holds of the cell model, where each primitive is exactly one cell |
| `McpToolsRemoveNodeRequest.EncodeInjective` | common/src/main/java/org/opensearch/ml/common/transport/mcpserver/requests/remove/MLMcpToolsRemoveNodeRequest.java:37-42 | two fields with the same encoding are equal, so null and an empty list, or two orderings of the same names, are never confused |
| `McpToolsRemoveNodeRequest.EmptyIsNotAbsent` | common/src/main/java/org/opensearch/ml/common/transport/mcpserver/requests/remove/MLMcpToolsRemoveNodeRequest.java:24-39 | an empty list is written as `true` and a zero length, differs from the encoding of null, and reads back as an empty list, not as null |
| `McpToolsRemoveNodeRequest.TruncatedFails` | common/src/main/java/org/opensearch/ml/common/transport/mcpserver/requests/remove/MLMcpToolsRemoveNodeRequest.java:24-25 | every strict prefix of an encoding, cut before or inside the name list, fails with end of stream instead of giving a partial list |
| `McpToolsRemoveNodeRequest.MLMcpToolsRemoveNodeRequest.constructor` | common/src/main/java/org/opensearch/ml/common/transport/mcpserver/requests/remove/MLMcpToolsRemoveNodeRequest.java:29-32 | the builder constructor stores the given list, or null, unchanged |
| `McpToolsRemoveNodeRequest.MLMcpToolsRemoveNodeRequest.FromStream` | common/src/main/java/org/opensearch/ml/common/transport/mcpserver/requests/remove/MLMcpToolsRemoveNodeRequest.java:22-27 | reading from the cursor gives a fresh request whose field is what `DecodeTools` decodes from the unread cells, and moves the cursor to just past the field; a failing read gives that read's error and no request |
| `McpToolsRemoveNodeRequest.MLMcpToolsRemoveNodeRequest.WriteTo` | common/src/main/java/org/opensearch/ml/common/transport/mcpserver/requests/remove/MLMcpToolsRemoveNodeRequest.java:34-43 | writing appends exactly `EncodeTools(mcpTools)` after whatever the stream already held |
| `McpToolsRemoveNodeRequest.Transmit` | common/src/main/java/org/opensearch/ml/common/transport/mcpserver/requests/remove/MLMcpToolsRemoveNodeRequest.java:22-43 | a request built from a list and written by one node is read by another with the same list, null, empty or not, in the same order, and no cell is left unread |
| `Streams.ReadBool` | common/src/main/java/org/opensearch/ml/common/transport/mcpserver/requests/remove/MLMcpToolsRemoveNodeRequest.java:24 | `readBoolean` succeeds exactly when the next cell is a boolean, consumes that one cell, and otherwise reports end of stream or corruption |
| `Streams.ReadStringList` | common/src/main/java/org/opensearch/ml/common/transport/mcpserver/requests/remove/MLMcpToolsRemoveNodeRequest.java:25 | a successful `readList(StreamInput::readString)` consumed exactly a length cell and the cells of the strings it returned |
| `Streams.StringListRoundTrip` | common/src/main/java/org/opensearch/ml/common/transport/mcpserver/requests/remove/MLMcpToolsRemoveNodeRequest.java:25-39 | `readList` of string cells gives back the array `writeStringArray` wrote, in order, and leaves what follows |
| `Streams.ReadStringsOfCells` | common/src/main/java/org/opensearch/ml/common/transport/mcpserver/requests/remove/MLMcpToolsRemoveNodeRequest.java:25 | reading as many strings as were written returns them in their written order and stops right after them |
| `Streams.ReadStringsConsumesCells` | common/src/main/java/org/opensearch/ml/common/transport/mcpserver/requests/remove/MLMcpToolsRemoveNodeRequest.java:25 | a successful read of `n` strings returns `n` strings and consumed exactly their cells |
| `Streams.ReadStringsTruncated` | common/src/main/java/org/opensearch/ml/common/transport/mcpserver/requests/remove/MLMcpToolsRemoveNodeRequest.java:25 | reading the strings from a strict prefix of their cells fails with end of stream |
| `Streams.StringCellsAt` | common/src/main/java/org/opensearch/ml/common/transport/mcpserver/requests/remove/MLMcpToolsRemoveNodeRequest.java:39 | the string cells of an array hold, index by index, the array's elements, so writing keeps every element at its position |
| `Streams.StreamOutput.WriteBoolean` | common/src/main/java/org/opensearch/ml/common/transport/mcpserver/requests/remove/MLMcpToolsRemoveNodeRequest.java:38-41 | `writeBoolean` appends one boolean cell and keeps everything written before |
| `Streams.StreamOutput.WriteStringArray` | common/src/main/java/org/opensearch/ml/common/transport/mcpserver/requests/remove/MLMcpToolsRemoveNodeRequest.java:39 | `writeStringArray` appends the length and then each element in order, keeping everything written before |
| `Streams.StreamInput.ReadBoolean` | common/src/main/java/org/opensearch/ml/common/transport/mcpserver/requests/remove/MLMcpToolsRemoveNodeRequest.java:24 | the cursor's `readBoolean` returns what `ReadBool` reads from the unread cells and advances past it; on an error the cursor stays put |
| `Streams.StreamInput.ReadList` | common/src/main/java/org/opensearch/ml/common/transport/mcpserver/requests/remove/MLMcpToolsRemoveNodeRequest.java:25 | the cursor's `readList` returns what `ReadStringList` reads from the unread cells and advances past it, or that read's error |

## Left out

- The transport envelope: `super(in)` and `super.writeTo(out)` (lines 23 and 36) belong to `TransportRequest`, whose layout is not part of this model. `WriteTo` keeps whatever precedes the field, and `FromStream` reads from wherever the cursor stands, so an envelope written first and read first fits in front.
- The byte layout of the stream primitives: the variable-length integer for the array length, the length prefix and UTF-8 bytes of each string. Each primitive is one cell here. So `Corrupt` (a cell of the wrong kind) has no exact byte-level counterpart, and the if-and-only-if of `DecodeExactlyEncodings` is a property of the cell model: a byte-level decoder need not reject every input that is not an encoding.
- `readList`'s checks on the array length (a negative size, a size over the stream's maximum array length, a size larger than the remaining bytes). A length cell here holds any natural number. An over-long length fails with end of stream if the input ends first, and as corrupt if a cell of another kind comes before the last string.
- A null element inside the list. `writeString(null)` would throw in Java; Dafny strings cannot be null.
- Write-side failures. `writeTo` may throw an IOException from the stream; here appending to the buffer never fails.
- `McpToolsRemoveNodeRequest.MLMcpToolsRemoveNodeRequest.FromStream`: says nothing about where the cursor stands after any failed read, of the flag or inside the list, because a Java stream that has thrown mid-read is not reused.
- The Lombok-generated members of `@Data` (line 18): getters, setters, `equals`, `hashCode`, `toString`. The builder plumbing beyond storing the field is left out too.
- The copy `mcpTools.toArray(new String[0])` (line 39). The model writes the sequence, a value, directly.
- Aliasing of the list: the builder constructor (line 31) stores the caller's `List` reference, so a caller that changes that list after construction changes what `writeTo` sends. The model stores the list as a value, so this aliasing is not captured.
- Cluster routing, transport dispatch and the actual removal of tools. None of this happens in the request class.
