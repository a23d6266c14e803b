/** A network connection as the bytes still to be read and the bytes written. */
module ByteStream {
  type Byte = b: nat | b < 256

  /** A 16-bit number, high byte first. */
  function Word(hi: Byte, lo: Byte): nat { (hi as nat) * 256 + lo as nat }

  class Conn {
    var input: seq<Byte>
    var output: seq<Byte>

    constructor (input: seq<Byte>)
      ensures this.input == input && output == []
    {
      this.input, output := input, [];
    }

    method Write(bytes: seq<Byte>)
      modifies this`output
      ensures output == old(output) + bytes
    {
      output := output + bytes;
    }

    /** io.ReadFull: n bytes, or an error and nothing left to read. */
    method ReadFull(n: nat) returns (ok: bool, bytes: seq<Byte>)
      modifies this`input
      ensures ok == (n <= |old(input)|)
      ensures ok ==> bytes == old(input)[..n] && input == old(input)[n..]
      ensures !ok ==> bytes == old(input) && input == []
    {
      ok := n <= |input|;
      if ok { bytes, input := input[..n], input[n..]; } else { bytes, input := input, []; }
    }
  }
}
