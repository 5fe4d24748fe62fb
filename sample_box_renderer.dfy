/**
 * The uniform ring buffer of the sample-box renderer.
 *
 * The renderer keeps one dynamic Metal buffer of maxSimultaneousRenders
 * slots, each alignedSize bytes long and holding one UniformsArray (the
 * projection and view matrices of up to two views). Every frame it advances
 * to the next slot, rebinds its uniforms pointer there and writes the
 * frame's cameras into that slot. The buffer is modelled as an array of
 * slots; byte offsets are kept as numbers.
 */
module SampleBox {
  import opened Geometry

  /** Constants.maxViewCount, kept in sync with the shaders. */
  const MaxViewCount := 2

  /** MemoryLayout<matrix_float4x4>.size. */
  const MatrixSize := 64
  /** MemoryLayout<UniformsArray>.size: two Uniforms of two matrices each. */
  const UniformsArraySize := 2 * (2 * MatrixSize)

  // ---------------------------------------------------------------- uniforms

  /** Uniforms: one view's projection and view matrix. */
  datatype Uniforms = Uniforms(projectionMatrix: Matrix4, viewMatrix: Matrix4)

  /** CameraMatrices, the (projection, view) pair a caller passes per viewport. */
  datatype CameraMatrices = CameraMatrices(projection: Matrix4, view: Matrix4)

  /** UniformsArray: one slot of the buffer, room for two views. */
  datatype UniformsArray = UniformsArray(uniforms0: Uniforms, uniforms1: Uniforms) {
    /** setUniforms: writes view 0 or view 1; any other index is ignored. */
    function SetUniforms(index: int, u: Uniforms): (r: UniformsArray)
      ensures index == 0 ==> r == this.(uniforms0 := u)
      ensures index == 1 ==> r == this.(uniforms1 := u)
      ensures index != 0 && index != 1 ==> r == this
    {
      match index
      case 0 => this.(uniforms0 := u)
      case 1 => this.(uniforms1 := u)
      case _ => this
    }
  }

  /**
   * alignedSize: `size` rounded up to the next multiple of 256, computed as
   * (size + 0xFF) & -0x100. For a non-negative sum, and-ing with -0x100
   * (all bits set but the low eight) clears the low eight bits, that is,
   * subtracts the remainder modulo 0x100.
   */
  function AlignedSize(size: nat): (r: nat)
    ensures r % 0x100 == 0
    ensures size <= r < size + 0x100
  {
    var sum := size + 0xFF;
    sum - sum % 0x100
  }

  /** UniformsArray.alignedSize. */
  const UniformsAlignedSize: nat := AlignedSize(UniformsArraySize)

  /** The uniform block already fills 256 bytes, so no padding is added. */
  lemma UniformsAlignedSizeIs256()
    ensures UniformsAlignedSize == UniformsArraySize == 256
  {
  }

  /** maxViewCount as init stores it: the requested count, but never more than MaxViewCount. */
  function ClampViewCount(requested: int): (r: int)
    ensures r <= requested && r <= MaxViewCount
    ensures r == requested || r == MaxViewCount
  {
    if requested < MaxViewCount then requested else MaxViewCount
  }

  // ---------------------------------------------------------------- slot rotation

  /** The slot updateDynamicBufferState moves to: the next one, wrapping after the last. */
  function NextSlot(index: nat, slots: nat): (r: nat)
    requires 0 < slots
    ensures r < slots
    ensures index < slots ==> r == if index == slots - 1 then 0 else index + 1
  {
    (index + 1) % slots
  }

  /** The slot reached after `frames` calls of updateDynamicBufferState. */
  function SlotAfter(index: nat, slots: nat, frames: nat): nat
    requires 0 < slots
    decreases frames
  {
    if frames == 0 then index else NextSlot(SlotAfter(index, slots, frames - 1), slots)
  }

  /**
   * Within one turn of the ring the slot is the start plus the number of
   * frames, wrapped once past the last slot.
   */
  lemma {:induction false} SlotAfterWrapsOnce(index: nat, slots: nat, frames: nat)
    requires 0 < slots && index < slots && frames <= slots
    ensures SlotAfter(index, slots, frames)
            == if index + frames < slots then index + frames else index + frames - slots
    decreases frames
  {
    if frames > 0 {
      SlotAfterWrapsOnce(index, slots, frames - 1);
    }
  }

  /** maxSimultaneousRenders frames bring the ring back to the slot it started from. */
  lemma SlotAfterFullCycle(index: nat, slots: nat)
    requires 0 < slots && index < slots
    ensures SlotAfter(index, slots, slots) == index
  {
    SlotAfterWrapsOnce(index, slots, slots);
  }

  /** Fewer frames than slots never return to the starting slot: the slots in flight are distinct. */
  lemma SlotAfterPartialCycle(index: nat, slots: nat, frames: nat)
    requires 0 < slots && index < slots && 0 < frames < slots
    ensures SlotAfter(index, slots, frames) != index
  {
    SlotAfterWrapsOnce(index, slots, frames);
  }

  /** The byte offset of a slot, and that the whole slot lies inside the buffer. */
  function SlotOffset(index: nat, slots: nat): (offset: nat)
    requires index < slots
    ensures offset % UniformsAlignedSize == 0
    ensures offset + UniformsAlignedSize <= UniformsAlignedSize * slots
  {
    UniformsAlignedSize * index
  }

  // ---------------------------------------------------------------- writing the cameras

  /**
   * The slot after updateUniforms's loop over `cameras`: camera i is written
   * to view i only when i <= limit (maxViewCount).
   */
  function ApplyCameras(u: UniformsArray, cameras: seq<CameraMatrices>, limit: int): UniformsArray
    decreases |cameras|
  {
    if cameras == [] then u
    else
      var i := |cameras| - 1;
      var before := ApplyCameras(u, cameras[..i], limit);
      if i <= limit then before.SetUniforms(i, Uniforms(cameras[i].projection, cameras[i].view))
      else before
  }

  /**
   * Only the first two cameras can land in the slot, each in its own view
   * and only when the limit lets it. The loop's `i <= maxViewCount` reaches one
   * past the last view: with maxViewCount 2 that index (2) is ignored by
   * setUniforms, but with maxViewCount 1 camera 1 is written into uniforms1.
   */
  lemma {:induction false} ApplyCamerasClosedForm(u: UniformsArray, cameras: seq<CameraMatrices>, limit: int)
    ensures ApplyCameras(u, cameras, limit).uniforms0
            == if 0 < |cameras| && 0 <= limit then Uniforms(cameras[0].projection, cameras[0].view) else u.uniforms0
    ensures ApplyCameras(u, cameras, limit).uniforms1
            == if 1 < |cameras| && 1 <= limit then Uniforms(cameras[1].projection, cameras[1].view) else u.uniforms1
    decreases |cameras|
  {
    if cameras != [] {
      var prefix := cameras[..|cameras| - 1];
      ApplyCamerasClosedForm(u, prefix, limit);
    }
  }

  /** Cameras after the second one have no effect. */
  lemma LaterCamerasIgnored(u: UniformsArray, cameras: seq<CameraMatrices>, extra: seq<CameraMatrices>, limit: int)
    requires 2 <= |cameras|
    ensures ApplyCameras(u, cameras + extra, limit) == ApplyCameras(u, cameras, limit)
  {
    ApplyCamerasClosedForm(u, cameras + extra, limit);
    ApplyCamerasClosedForm(u, cameras, limit);
  }

  // ---------------------------------------------------------------- the renderer

  class SampleBoxRenderer {
    const maxViewCount: int
    const maxSimultaneousRenders: nat
    /** The length in bytes the dynamic uniform buffer is created with. */
    const uniformBufferSize: nat
    /** dynamicUniformBuffer, as its maxSimultaneousRenders aligned slots. */
    const dynamicUniformBuffer: array<UniformsArray>
    var uniformBufferOffset: nat
    var uniformBufferIndex: nat
    /** The byte offset in dynamicUniformBuffer that the uniforms pointer is bound to. */
    var uniforms: nat

    ghost predicate Valid()
      reads this
    {
      && 0 < maxSimultaneousRenders
      && dynamicUniformBuffer.Length == maxSimultaneousRenders
      && uniformBufferSize == UniformsAlignedSize * maxSimultaneousRenders
      && uniformBufferIndex < maxSimultaneousRenders
      && uniformBufferOffset == SlotOffset(uniformBufferIndex, maxSimultaneousRenders)
      && uniforms == uniformBufferOffset
    }

    /** The slot the uniforms pointer designates. */
    function Slot(): (i: nat)
      requires Valid()
      reads this
      ensures i == uniformBufferIndex && i < dynamicUniformBuffer.Length
    {
      UniformsAlignedSizeIs256();
      uniforms / UniformsAlignedSize
    }

    /**
     * The ring-buffer part of init. The source traps (division by zero in
     * the slot rotation, a nil buffer) without at least one render slot.
     */
    constructor (maxViewCount: int, maxSimultaneousRenders: nat)
      requires 0 < maxSimultaneousRenders
      ensures Valid() && fresh(dynamicUniformBuffer)
      ensures this.maxViewCount == ClampViewCount(maxViewCount)
      ensures this.maxSimultaneousRenders == maxSimultaneousRenders
      ensures uniformBufferSize == UniformsAlignedSize * maxSimultaneousRenders
      ensures uniformBufferIndex == 0 && uniformBufferOffset == 0 && uniforms == 0
    {
      this.maxViewCount := if maxViewCount < MaxViewCount then maxViewCount else MaxViewCount;
      this.maxSimultaneousRenders := maxSimultaneousRenders;
      uniformBufferSize := UniformsAlignedSize * maxSimultaneousRenders;
      dynamicUniformBuffer := new UniformsArray[maxSimultaneousRenders];
      uniformBufferOffset, uniformBufferIndex := 0, 0;
      uniforms := 0;
    }

    /** updateDynamicBufferState: move to the next slot and rebind the uniforms pointer there. */
    method UpdateDynamicBufferState()
      requires Valid()
      modifies this`uniformBufferIndex, this`uniformBufferOffset, this`uniforms
      ensures Valid()
      ensures uniformBufferIndex == NextSlot(old(uniformBufferIndex), maxSimultaneousRenders)
      ensures uniformBufferOffset + UniformsAlignedSize <= uniformBufferSize
    {
      uniformBufferIndex := (uniformBufferIndex + 1) % maxSimultaneousRenders;
      uniformBufferOffset := UniformsAlignedSize * uniformBufferIndex;
      uniforms := uniformBufferOffset;
    }

    /** updateUniforms: write camera i into view i of the current slot, for i <= maxViewCount. */
    method UpdateUniforms(cameras: seq<CameraMatrices>)
      requires Valid()
      modifies dynamicUniformBuffer
      ensures dynamicUniformBuffer[..]
              == old(dynamicUniformBuffer[..])[Slot() := ApplyCameras(old(dynamicUniformBuffer[Slot()]), cameras, maxViewCount)]
    {
      var slot := uniforms / UniformsAlignedSize;
      assert slot == Slot();
      var i := 0;
      while i < |cameras|
        invariant 0 <= i <= |cameras|
        invariant dynamicUniformBuffer[..]
                  == old(dynamicUniformBuffer[..])[slot := ApplyCameras(old(dynamicUniformBuffer[slot]), cameras[..i], maxViewCount)]
      {
        if i <= maxViewCount {
          var camera := cameras[i];
          dynamicUniformBuffer[slot] := dynamicUniformBuffer[slot].SetUniforms(i, Uniforms(camera.projection, camera.view));
        }
        assert cameras[..i + 1][..i] == cameras[..i];
        i := i + 1;
      }
      assert cameras[..i] == cameras;
    }

    /** The ring-buffer part of render: advance the slot, then write the cameras into it. */
    method Render(cameras: seq<CameraMatrices>)
      requires Valid()
      modifies this`uniformBufferIndex, this`uniformBufferOffset, this`uniforms, dynamicUniformBuffer
      ensures Valid()
      ensures uniformBufferIndex == NextSlot(old(uniformBufferIndex), maxSimultaneousRenders)
      ensures dynamicUniformBuffer[..]
              == old(dynamicUniformBuffer[..])[Slot() := ApplyCameras(old(dynamicUniformBuffer[..])[Slot()], cameras, maxViewCount)]
    {
      UpdateDynamicBufferState();
      UpdateUniforms(cameras);
    }
  }
}
