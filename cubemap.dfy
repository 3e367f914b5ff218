/** The compute dispatch of `HdrLoader::from_ecuirectangular_bytes`: one
    workgroup per 16 x 16 tile of a cube face, and one layer of workgroups
    per face (the compute shader's own workgroup size is not part of this
    model). */
module Cubemap {
  import opened Lang

  /** The side of a workgroup. */
  const TILE: nat := 16

  /** `(dst_size + 15) / 16` as written: the addition is on `u32` and wraps
      (the release-build behaviour). */
  function WorkgroupsAsWritten(dstSize: u32): (w: u32)
    ensures w as int <= dstSize as int / TILE + 1
  {
    (((dstSize as int + 15) % U32_MODULUS) / TILE) as u32
  }

  /** The addition wraps for the largest sizes, and then no tile is dispatched
      at all although the face is not empty. */
  lemma AsWrittenWrapsToZero()
    ensures WorkgroupsAsWritten(0xFFFF_FFF1) == 0
    ensures TILE * (WorkgroupsAsWritten(0xFFFF_FFF1) as int) < 0xFFFF_FFF1
  {}

  /** All sizes from 2^32 - 15 up dispatch no workgroup. */
  lemma AsWrittenUndercovers(dstSize: u32)
    requires dstSize as int > U32_MODULUS - TILE
    ensures WorkgroupsAsWritten(dstSize) == 0
    ensures TILE * (WorkgroupsAsWritten(dstSize) as int) < dstSize as int
  {}

  /** The number of tiles along one side: the ceiling of `dstSize / 16`,
      computed without leaving `u32`. */
  function Workgroups(dstSize: u32): (w: u32)
    ensures TILE * (w as int) >= dstSize as int
    ensures dstSize > 0 ==> TILE * (w as int - 1) < dstSize as int
    ensures w == 0 <==> dstSize == 0
  {
    (dstSize as int / TILE + (if dstSize as int % TILE == 0 then 0 else 1)) as u32
  }

  /** Below the wrap the written expression is the ceiling. */
  lemma AsWrittenIsCeiling(dstSize: u32)
    requires dstSize as int <= U32_MODULUS - TILE
    ensures WorkgroupsAsWritten(dstSize) == Workgroups(dstSize)
  {
    var d := dstSize as int;
    assert (d + 15) % U32_MODULUS == d + 15;
    assert d == TILE * (d / TILE) + d % TILE;
  }

  datatype Dispatch = Dispatch(x: u32, y: u32, z: u32)

  /** `dispatch_workgroups(workgroups, workgroups, 6)`. */
  function CubemapDispatch(dstSize: u32): (d: Dispatch)
    ensures d.x == d.y && d.z == 6
    ensures TILE * (d.x as int) >= dstSize as int
  {
    var w := Workgroups(dstSize);
    Dispatch(w, w, 6)
  }

  /** Every texel of every face falls in a dispatched workgroup. */
  lemma DispatchCoversFaces(dstSize: u32, i: nat, j: nat, face: nat)
    requires i < dstSize as int && j < dstSize as int && face < 6
    ensures var d := CubemapDispatch(dstSize);
            i / TILE < d.x as int && j / TILE < d.y as int && face < d.z as int
  {
    var w := Workgroups(dstSize) as int;
    assert i == TILE * (i / TILE) + i % TILE;
    assert j == TILE * (j / TILE) + j % TILE;
    assert TILE * w >= dstSize as int;
  }
}
