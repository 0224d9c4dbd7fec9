/**
  An abstract model of the OpenSearch transport stream primitives that the
  request codec uses. A stream is a sequence of cells: a boolean is one cell,
  an array length is one cell, a string is one cell. The byte layout of each
  cell (variable-length integers, length-prefixed UTF-8) is not modelled.

  The write side is `StreamOutput`, an append-only buffer; the read side is
  `StreamInput`, a cursor over a fixed buffer. Each read primitive is specified
  by a pure parser over the remaining cells (`ReadBool`, `ReadCount`,
  `ReadString`, `ReadStrings`, `ReadStringList`), which returns the value read
  and the cells left over, or the stream error the primitive raises.
 */
module Streams {

  /** One unit written by one stream primitive. */
  datatype Cell =
    | BoolCell(b: bool)       // writeBoolean / readBoolean
    | CountCell(n: nat)       // the array length written by writeVInt
    | StringCell(s: string)   // writeString / readString

  /**
    Why a read of the cell model fails. `EndOfStream` stands for the
    IOException of a stream that runs out; `Corrupt` is the cell model's own
    failure, with no exact byte-level counterpart.
   */
  datatype StreamError =
    | EndOfStream   // the input ends before the primitive has read its cell
    | Corrupt       // the next cell is not of the kind the primitive expects

  datatype Result<+T> = Ok(value: T) | Err(error: StreamError)

  /** The cells `writeString` leaves for each element of `a`, in order. */
  function StringCells(a: seq<string>): (cells: seq<Cell>)
    ensures |cells| == |a|
  {
    if a == [] then [] else [StringCell(a[0])] + StringCells(a[1..])
  }

  /** The cell at each index holds the string at that index. */
  lemma {:induction false} StringCellsAt(a: seq<string>)
    ensures forall i :: 0 <= i < |a| ==> StringCells(a)[i] == StringCell(a[i])
  {
    if a != [] {
      StringCellsAt(a[1..]);
      forall i | 0 <= i < |a|
        ensures StringCells(a)[i] == StringCell(a[i])
      {
        if i > 0 {
          assert StringCells(a)[i] == StringCells(a[1..])[i - 1];
        }
      }
    }
  }

  /** The cells `writeStringArray` leaves: the length, then each element. */
  function StringArrayCells(a: seq<string>): (cells: seq<Cell>)
    ensures |cells| == 1 + |a|
    ensures cells[0] == CountCell(|a|)
    ensures cells[1..] == StringCells(a)
  {
    [CountCell(|a|)] + StringCells(a)
  }

  /** `readBoolean` over the remaining cells. */
  function ReadBool(cells: seq<Cell>): (r: Result<(bool, seq<Cell>)>)
    ensures r.Ok? <==> |cells| > 0 && cells[0].BoolCell?
    ensures r.Ok? ==> cells == [BoolCell(r.value.0)] + r.value.1
    ensures r.Err? ==> r.error == (if cells == [] then EndOfStream else Corrupt)
  {
    if cells == [] then Err(EndOfStream)
    else if cells[0].BoolCell? then Ok((cells[0].b, cells[1..]))
    else Err(Corrupt)
  }

  /** The array length that `readList` reads first. */
  function ReadCount(cells: seq<Cell>): (r: Result<(nat, seq<Cell>)>)
    ensures r.Ok? <==> |cells| > 0 && cells[0].CountCell?
    ensures r.Ok? ==> cells == [CountCell(r.value.0)] + r.value.1
    ensures r.Err? ==> r.error == (if cells == [] then EndOfStream else Corrupt)
  {
    if cells == [] then Err(EndOfStream)
    else if cells[0].CountCell? then Ok((cells[0].n, cells[1..]))
    else Err(Corrupt)
  }

  /** `readString` over the remaining cells. */
  function ReadString(cells: seq<Cell>): (r: Result<(string, seq<Cell>)>)
    ensures r.Ok? <==> |cells| > 0 && cells[0].StringCell?
    ensures r.Ok? ==> cells == [StringCell(r.value.0)] + r.value.1
    ensures r.Err? ==> r.error == (if cells == [] then EndOfStream else Corrupt)
  {
    if cells == [] then Err(EndOfStream)
    else if cells[0].StringCell? then Ok((cells[0].s, cells[1..]))
    else Err(Corrupt)
  }

  /** `n` successive `readString` calls; the first one that fails decides the error. */
  function ReadStrings(cells: seq<Cell>, n: nat): (r: Result<(seq<string>, seq<Cell>)>)
    decreases n
  {
    if n == 0 then Ok(([], cells))
    else
      match ReadString(cells)
      case Err(e) => Err(e)
      case Ok((s, rest)) => Prepend([s], ReadStrings(rest, n - 1))
  }

  /** Puts `front` before the strings of a successful read; passes an error through. */
  function Prepend(front: seq<string>, r: Result<(seq<string>, seq<Cell>)>): Result<(seq<string>, seq<Cell>)>
  {
    match r
    case Err(e) => Err(e)
    case Ok((a, rest)) => Ok((front + a, rest))
  }

  /** Prepending nothing changes nothing; prepending twice prepends the concatenation. */
  lemma PrependAssociates(front: seq<string>, more: seq<string>, r: Result<(seq<string>, seq<Cell>)>)
    ensures Prepend([], r) == r
    ensures Prepend(front, Prepend(more, r)) == Prepend(front + more, r)
  {
    if r.Ok? {
      assert [] + r.value.0 == r.value.0;
      assert front + (more + r.value.0) == (front + more) + r.value.0;
    }
  }

  /** Appending one string appends its cell. */
  lemma {:induction false} StringCellsSnoc(a: seq<string>, s: string)
    ensures StringCells(a + [s]) == StringCells(a) + [StringCell(s)]
  {
    if a == [] {
      assert a + [s] == [s];
    } else {
      assert (a + [s])[1..] == a[1..] + [s];
      StringCellsSnoc(a[1..], s);
    }
  }

  /** `readList(StreamInput::readString)`: a length, then that many strings. */
  function ReadStringList(cells: seq<Cell>): (r: Result<(seq<string>, seq<Cell>)>)
    ensures r.Ok? ==> cells == StringArrayCells(r.value.0) + r.value.1
  {
    match ReadCount(cells)
    case Err(e) => Err(e)
    case Ok((n, rest)) =>
      var strings := ReadStrings(rest, n);
      if strings.Ok? then
        ReadStringsConsumesCells(rest, n, strings.value.0, strings.value.1);
        strings
      else
        strings
  }

  /** Reading back `|a|` strings from their own cells gives `a`, and leaves `rest`. */
  lemma {:induction false} ReadStringsOfCells(a: seq<string>, rest: seq<Cell>)
    ensures ReadStrings(StringCells(a) + rest, |a|) == Ok((a, rest))
  {
    if a != [] {
      var cells := StringCells(a) + rest;
      assert cells == [StringCell(a[0])] + (StringCells(a[1..]) + rest);
      assert ReadString(cells) == Ok((a[0], StringCells(a[1..]) + rest));
      ReadStringsOfCells(a[1..], rest);
      assert ReadStrings(cells, |a|) == Prepend([a[0]], ReadStrings(StringCells(a[1..]) + rest, |a[1..]|));
      assert [a[0]] + a[1..] == a;
    } else {
      assert StringCells(a) + rest == rest;
    }
  }

  /** A successful read of `n` strings consumed exactly the cells of the strings it returned. */
  lemma {:induction false} ReadStringsConsumesCells(cells: seq<Cell>, n: nat, a: seq<string>, rest: seq<Cell>)
    requires ReadStrings(cells, n) == Ok((a, rest))
    ensures |a| == n && cells == StringCells(a) + rest
    decreases n
  {
    if n > 0 {
      var r := ReadString(cells);
      assert r.Ok?;
      var s, tail := r.value.0, r.value.1;
      var q := ReadStrings(tail, n - 1);
      assert ReadStrings(cells, n) == Prepend([s], q);
      assert q.Ok?;
      var more := q.value.0;
      ReadStringsConsumesCells(tail, n - 1, more, rest);
      assert a == [s] + more;
      assert a[1..] == more;
      calc {
        cells;
        [StringCell(s)] + tail;
        [StringCell(s)] + (StringCells(more) + rest);
        ([StringCell(s)] + StringCells(more)) + rest;
        StringCells(a) + rest;
      }
    } else {
      assert a == [] && StringCells(a) + rest == rest;
    }
  }

  /** Reading `|a|` strings from a strict prefix of their cells runs off the end of the input. */
  lemma {:induction false} ReadStringsTruncated(a: seq<string>, k: nat)
    requires k < |a|
    ensures ReadStrings(StringCells(a)[..k], |a|) == Err(EndOfStream)
  {
    if k > 0 {
      assert StringCells(a)[..k] == [StringCell(a[0])] + StringCells(a[1..])[..k - 1];
      ReadStringsTruncated(a[1..], k - 1);
    }
  }

  /** Round trip of the array primitives: `readList` undoes `writeStringArray`. */
  lemma StringListRoundTrip(a: seq<string>, rest: seq<Cell>)
    ensures ReadStringList(StringArrayCells(a) + rest) == Ok((a, rest))
  {
    assert StringArrayCells(a) + rest == [CountCell(|a|)] + (StringCells(a) + rest);
    ReadStringsOfCells(a, rest);
  }

  /**
    The write side: an append-only buffer of cells. Each primitive appends its
    cells after everything written before it, which is how an enclosing
    envelope written first stays in front.
   */
  class StreamOutput {
    var cells: seq<Cell>

    constructor ()
      ensures cells == []
    {
      cells := [];
    }

    method WriteBoolean(b: bool)
      modifies this
      ensures cells == old(cells) + [BoolCell(b)]
    {
      cells := cells + [BoolCell(b)];
    }

    method WriteVInt(n: nat)
      modifies this
      ensures cells == old(cells) + [CountCell(n)]
    {
      cells := cells + [CountCell(n)];
    }

    method WriteString(s: string)
      modifies this
      ensures cells == old(cells) + [StringCell(s)]
    {
      cells := cells + [StringCell(s)];
    }

    /** The length, then each element in array order. */
    method WriteStringArray(a: seq<string>)
      modifies this
      ensures cells == old(cells) + StringArrayCells(a)
    {
      WriteVInt(|a|);
      ghost var front := cells;
      var i := 0;
      while i < |a|
        invariant 0 <= i <= |a|
        invariant cells == front + StringCells(a[..i])
      {
        ghost var done := a[..i];
        WriteString(a[i]);
        assert a[..i + 1] == done + [a[i]];
        StringCellsSnoc(done, a[i]);
        assert cells == front + (StringCells(done) + [StringCell(a[i])]);
        i := i + 1;
      }
      assert a[..i] == a;
    }
  }

  /** The read side: a cursor `pos` over the cells `buf` received from the sender. */
  class StreamInput {
    const buf: seq<Cell>
    var pos: nat

    predicate Valid()
      reads this
    {
      pos <= |buf|
    }

    /** The cells not read yet. */
    function Remaining(): (r: seq<Cell>)
      reads this
      requires Valid()
      ensures |r| == |buf| - pos
    {
      buf[pos..]
    }

    constructor (received: seq<Cell>)
      ensures Valid() && buf == received && Remaining() == received
    {
      buf := received;
      pos := 0;
    }

    method ReadBoolean() returns (r: Result<bool>)
      requires Valid()
      modifies this
      ensures Valid()
      ensures match ReadBool(old(Remaining()))
              case Ok((b, rest)) => r == Ok(b) && Remaining() == rest
              case Err(e) => r == Err(e) && pos == old(pos)
    {
      if pos == |buf| {
        r := Err(EndOfStream);
      } else if buf[pos].BoolCell? {
        r := Ok(buf[pos].b);
        pos := pos + 1;
      } else {
        r := Err(Corrupt);
      }
    }

    method ReadVInt() returns (r: Result<nat>)
      requires Valid()
      modifies this
      ensures Valid()
      ensures match ReadCount(old(Remaining()))
              case Ok((n, rest)) => r == Ok(n) && Remaining() == rest
              case Err(e) => r == Err(e) && pos == old(pos)
    {
      if pos == |buf| {
        r := Err(EndOfStream);
      } else if buf[pos].CountCell? {
        r := Ok(buf[pos].n);
        pos := pos + 1;
      } else {
        r := Err(Corrupt);
      }
    }

    method ReadStringCell() returns (r: Result<string>)
      requires Valid()
      modifies this
      ensures Valid()
      ensures match ReadString(old(Remaining()))
              case Ok((s, rest)) => r == Ok(s) && Remaining() == rest
              case Err(e) => r == Err(e) && pos == old(pos)
    {
      if pos == |buf| {
        r := Err(EndOfStream);
      } else if buf[pos].StringCell? {
        r := Ok(buf[pos].s);
        pos := pos + 1;
      } else {
        r := Err(Corrupt);
      }
    }

    /**
      `readList(StreamInput::readString)`: reads the length, then that many
      strings into a fresh list in the order they arrive. On an error the
      cursor stays wherever the failing primitive left it.
     */
    method ReadList() returns (r: Result<seq<string>>)
      requires Valid()
      modifies this
      ensures Valid()
      ensures match ReadStringList(old(Remaining()))
              case Ok((a, rest)) => r == Ok(a) && Remaining() == rest
              case Err(e) => r == Err(e)
    {
      var count := ReadVInt();
      if count.Err? {
        return Err(count.error);
      }
      var n := count.value;
      ghost var start := Remaining();
      assert ReadStringList(old(Remaining())) == ReadStrings(start, n);
      var acc: seq<string> := [];
      var i := 0;
      PrependAssociates([], [], ReadStrings(start, n));
      while i < n
        invariant Valid()
        invariant 0 <= i <= n && |acc| == i
        invariant ReadStrings(start, n) == Prepend(acc, ReadStrings(Remaining(), n - i))
      {
        ghost var here := Remaining();
        var s := ReadStringCell();
        if s.Err? {
          return Err(s.error);
        }
        PrependAssociates(acc, [s.value], ReadStrings(Remaining(), n - i - 1));
        acc := acc + [s.value];
        i := i + 1;
      }
      assert acc + [] == acc;
      r := Ok(acc);
    }
  }
}
