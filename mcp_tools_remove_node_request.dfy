/**
  The node-level transport request that asks a cluster node to remove MCP
  tools. Its one field, `mcpTools`, is an optional ordered list of tool names:
  `None` (Java's null) means no list accompanies the request, `Some([])` a list
  of no tools. On the wire the field is a presence flag, followed, when the
  flag is true, by a string array (its length, then each name in order).

  `EncodeTools` and `DecodeTools` state the field's wire format as pure
  functions; the class `MLMcpToolsRemoveNodeRequest` follows the Java class,
  whose `writeTo` and stream constructor work on mutable streams, and is
  proved against them.
 */
module McpToolsRemoveNodeRequest {
  import opened Wrappers
  import opened Streams

  /** The cells `writeTo` appends for the `mcpTools` field. */
  function EncodeTools(tools: Option<seq<string>>): (cells: seq<Cell>)
    ensures tools.None? ==> cells == [BoolCell(false)]
    ensures tools.Some? ==>
      |cells| == 2 + |tools.value| &&
      cells[0] == BoolCell(true) && cells[1] == CountCell(|tools.value|) &&
      forall i :: 0 <= i < |tools.value| ==> cells[2 + i] == StringCell(tools.value[i])
  {
    match tools
    case None => [BoolCell(false)]
    case Some(names) =>
      StringCellsAt(names);
      [BoolCell(true)] + StringArrayCells(names)
  }

  /**
    What the stream constructor reads for the `mcpTools` field: the flag and,
    only when it is true, a list of strings. Returns the field and the cells
    after it, or the error of the first read that fails.
   */
  function DecodeTools(cells: seq<Cell>): (r: Result<(Option<seq<string>>, seq<Cell>)>)
    ensures cells == [] ==> r == Err(EndOfStream)
    ensures cells != [] && cells[0] == BoolCell(false) ==> r == Ok((None, cells[1..]))
    ensures cells != [] && !cells[0].BoolCell? ==> r == Err(Corrupt)
    ensures r.Ok? ==> cells == EncodeTools(r.value.0) + r.value.1
  {
    match ReadBool(cells)
    case Err(e) => Err(e)
    case Ok((present, rest)) =>
      if present then
        match ReadStringList(rest)
        case Err(e) => Err(e)
        case Ok((names, after)) => Ok((Some(names), after))
      else
        Ok((None, rest))
  }

  /**
    Round trip: decoding what encoding produced gives back the same field,
    absent, empty or not, with the same names in the same order, and stops
    exactly where the encoding ended.
   */
  lemma RoundTrip(tools: Option<seq<string>>, rest: seq<Cell>)
    ensures DecodeTools(EncodeTools(tools) + rest) == Ok((tools, rest))
  {
    match tools {
      case None =>
        assert EncodeTools(tools) + rest == [BoolCell(false)] + rest;
      case Some(names) =>
        assert EncodeTools(tools) + rest == [BoolCell(true)] + (StringArrayCells(names) + rest);
        StringListRoundTrip(names, rest);
    }
  }

  /**
    Decoding accepts exactly the encodings: it succeeds with `tools` and
    leftover `rest` if and only if the input is `tools`' encoding followed by
    `rest`.
   */
  lemma DecodeExactlyEncodings(cells: seq<Cell>, tools: Option<seq<string>>, rest: seq<Cell>)
    ensures DecodeTools(cells) == Ok((tools, rest)) <==> cells == EncodeTools(tools) + rest
  {
    if cells == EncodeTools(tools) + rest {
      RoundTrip(tools, rest);
    }
  }

  /** Encoding is injective: different fields, and in particular null and empty, never share an encoding. */
  lemma EncodeInjective(a: Option<seq<string>>, b: Option<seq<string>>)
    ensures EncodeTools(a) == EncodeTools(b) ==> a == b
  {
    RoundTrip(a, []);
    RoundTrip(b, []);
  }

  /**
    A present but empty list is written as the flag and a zero length, and
    reads back as an empty list rather than as null.
   */
  lemma EmptyIsNotAbsent(rest: seq<Cell>)
    ensures EncodeTools(Some([])) == [BoolCell(true), CountCell(0)]
    ensures DecodeTools([BoolCell(true), CountCell(0)] + rest) == Ok((Some([]), rest))
    ensures EncodeTools(Some([])) != EncodeTools(None)
  {
  }

  /** An encoding cut short anywhere, inside a name list or before it, fails with end of stream. */
  lemma TruncatedFails(tools: Option<seq<string>>, k: nat)
    requires k < |EncodeTools(tools)|
    ensures DecodeTools(EncodeTools(tools)[..k]) == Err(EndOfStream)
  {
    if tools.Some? && k >= 2 {
      var names := tools.value;
      var cut := EncodeTools(tools)[..k];
      assert cut == [BoolCell(true)] + ([CountCell(|names|)] + StringCells(names)[..k - 2]);
      assert ReadBool(cut) == Ok((true, [CountCell(|names|)] + StringCells(names)[..k - 2]));
      ReadStringsTruncated(names, k - 2);
      assert ReadStringList([CountCell(|names|)] + StringCells(names)[..k - 2]) == Err(EndOfStream);
    }
  }

  /** The request as the Java class holds it. */
  class MLMcpToolsRemoveNodeRequest {
    var mcpTools: Option<seq<string>>

    /** The builder constructor: keeps the given list, or null, as it is. */
    constructor (mcpTools: Option<seq<string>>)
      ensures this.mcpTools == mcpTools
    {
      this.mcpTools := mcpTools;
    }

    /**
      The stream constructor, for the `mcpTools` field: reads the flag and,
      only when it is true, the list; otherwise the field stays null. A read
      that fails is the constructor's IOException: no request is produced.
     */
    static method FromStream(input: StreamInput) returns (r: Result<MLMcpToolsRemoveNodeRequest>)
      requires input.Valid()
      modifies input
      ensures input.Valid()
      ensures match DecodeTools(old(input.Remaining()))
              case Ok((tools, rest)) =>
                r.Ok? && fresh(r.value) && r.value.mcpTools == tools && input.Remaining() == rest
              case Err(e) => r == Err(e)
    {
      var present := input.ReadBoolean();
      if present.Err? {
        return Err(present.error);
      }
      var tools: Option<seq<string>> := None;
      if present.value {
        var names := input.ReadList();
        if names.Err? {
          return Err(names.error);
        }
        tools := Some(names.value);
      }
      var request := new MLMcpToolsRemoveNodeRequest(tools);
      r := Ok(request);
    }

    /** `writeTo`, for the `mcpTools` field: appends its encoding after whatever `out` already holds. */
    method WriteTo(out: StreamOutput)
      modifies out
      ensures out.cells == old(out.cells) + EncodeTools(mcpTools)
    {
      if mcpTools.Some? {
        ghost var before := out.cells;
        out.WriteBoolean(true);
        out.WriteStringArray(mcpTools.value);
        assert out.cells == before + ([BoolCell(true)] + StringArrayCells(mcpTools.value));
      } else {
        out.WriteBoolean(false);
      }
    }
  }

  /**
    One node writes a request built from `tools`; another reads the cells it
    received. The receiver gets a request with the same list, null, empty or
    not, in the same order, and consumes every cell the sender wrote.
   */
  method Transmit(tools: Option<seq<string>>) returns (received: Option<seq<string>>, unread: nat)
    ensures received == tools && unread == 0
  {
    var request := new MLMcpToolsRemoveNodeRequest(tools);
    var out := new StreamOutput();
    request.WriteTo(out);
    var input := new StreamInput(out.cells);
    RoundTrip(tools, []);
    assert out.cells + [] == out.cells;
    var decoded := MLMcpToolsRemoveNodeRequest.FromStream(input);
    received := decoded.value.mcpTools;
    unread := |input.buf| - input.pos;
  }
}
