/** 4x4 matrices in Filament's column-major form and the flat, column-major
    16-element layout the host uses for them. */
module Matrices {

  /** One column: four entries, indexed by row. */
  type Column = c: seq<real> | |c| == 4 witness ZeroColumn

  const ZeroColumn: seq<real> := [0.0, 0.0, 0.0, 0.0]

  /** A `mat4`: four columns, so entry `m[c][r]` is row `r` of column `c`. */
  type Mat4 = m: seq<Column> | |m| == 4
    witness [ZeroColumn, ZeroColumn, ZeroColumn, ZeroColumn]

  /** The matrix the wrapper constructs from 16 host numbers: four columns of
      four consecutive entries each. */
  function Pack(flat: seq<real>): (m: Mat4)
    requires |flat| == 16
    ensures forall c, r :: 0 <= c < 4 && 0 <= r < 4 ==> m[c][r] == flat[4 * c + r]
  {
    [ [flat[0], flat[1], flat[2], flat[3]],     // column 0
      [flat[4], flat[5], flat[6], flat[7]],     // column 1
      [flat[8], flat[9], flat[10], flat[11]],   // column 2
      [flat[12], flat[13], flat[14], flat[15]] ] // column 3
  }

  /** The 16 host numbers the wrapper fills from a matrix, column by column. */
  function Unpack(m: Mat4): (flat: seq<real>)
    ensures |flat| == 16
    ensures forall c, r :: 0 <= c < 4 && 0 <= r < 4 ==> flat[4 * c + r] == m[c][r]
  {
    [ m[0][0], m[0][1], m[0][2], m[0][3],
      m[1][0], m[1][1], m[1][2], m[1][3],
      m[2][0], m[2][1], m[2][2], m[2][3],
      m[3][0], m[3][1], m[3][2], m[3][3] ]
  }

  /** Unpacking a packed array gives the array back. */
  lemma UnpackPack(flat: seq<real>)
    requires |flat| == 16
    ensures Unpack(Pack(flat)) == flat
  {
  }

  /** Packing an unpacked matrix gives the matrix back. */
  lemma PackUnpack(m: Mat4)
    ensures Pack(Unpack(m)) == m
  {
    var back := Pack(Unpack(m));
    forall c | 0 <= c < 4 ensures back[c] == m[c] {
      forall r | 0 <= r < 4 ensures back[c][r] == m[c][r] {
        assert back[c][r] == Unpack(m)[4 * c + r];
      }
    }
  }

  /** Distinct 16-element arrays give distinct matrices. */
  lemma PackInjective(a: seq<real>, b: seq<real>)
    requires |a| == 16 && |b| == 16
    ensures Pack(a) == Pack(b) ==> a == b
  {
  }
}
