// From a seed to the colour of a round. SHA-256 itself is a parameter of the game.
module Results {
  import opened Types

  type Byte = b: int | 0 <= b < 256

  // The first four bytes of a digest, and the other twenty-eight.
  datatype Digest = Digest(b0: Byte, b1: Byte, b2: Byte, b3: Byte, rest: seq<Byte>)

  const COLORS: seq<Color> := [Red, Green, Violet]

  function ReadUInt32BE(d: Digest): nat {
    ((d.b0 * 0x100 + d.b1) * 0x100 + d.b2) * 0x100 + d.b3
  }

  // generateResult of a seed with this digest. The index is always one of the three colours, so the
  // error for an invalid index cannot occur.
  function ResultOf(d: Digest): Color { COLORS[ReadUInt32BE(d) % |COLORS|] }

  // What a round is promised: its digest's first four bytes, read as one number with the first byte the most
  // significant, decide by their remainder modulo three.
  predicate Draws(d: Digest, color: Color) {
    var n := d.b0 * 0x1000000 + d.b1 * 0x10000 + d.b2 * 0x100 + d.b3;
    match color
    case Red => n % 3 == 0
    case Green => n % 3 == 1
    case Violet => n % 3 == 2
  }

  // Every digest draws exactly one colour, and that is the result.
  lemma ResultIsDrawn(d: Digest, color: Color)
    ensures Draws(d, color) <==> color == ResultOf(d)
  {
    assert ReadUInt32BE(d) == d.b0 * 0x1000000 + d.b1 * 0x10000 + d.b2 * 0x100 + d.b3;
  }
}
