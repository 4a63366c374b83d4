/** Go's bytes.Buffer, reduced to what the packet builders use: an
    append-only byte sequence grown by WriteByte and Write. */
module Buffer {
  import opened Bytes

  class ByteBuffer {
    var data: seq<byte>

    /** &bytes.Buffer{}: an empty buffer. */
    constructor ()
      ensures data == []
    {
      data := [];
    }

    method WriteByte(c: byte)
      modifies this
      ensures data == old(data) + [c]
    {
      data := data + [c];
    }

    method Write(p: seq<byte>)
      modifies this
      ensures data == old(data) + p
    {
      data := data + p;
    }

    function Bytes(): seq<byte>
      reads this
    {
      data
    }
  }
}
