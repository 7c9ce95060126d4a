/** Gsw/PerObjectTransforms.swift and Gsw/Transform.swift, which refer to one
    another: the store of per-object matrices with its first-fit slot
    allocator, and the transform that owns one slot. */
module Transforms {
  import opened Wrappers
  import opened Gpu
  import Renderers
  import BufferSets
  import GlobalMatrices

  /** PerObjectTransforms.STATIC_OBJECT_INDEX. */
  const StaticObjectIndex: nat := 0

  /** MemoryLayout<PerObjectMatrices>.stride: four 4x4 float matrices (64
      bytes each) and one 3x3 float matrix (three 16-byte columns). */
  const MatricesStride: nat := 304

  /** The record uploaded for one object (the two unused trailing matrices are not written). */
  datatype ObjectMatrices = ObjectMatrices(normalMatrix: Mat, viewModelMatrix: Mat, projectionViewModelMatrix: Mat)

  /** The matrices `_combineAndUpload` derives from a model matrix and the global transforms. */
  function Combine(model: Mat, view: Mat, projectionView: Mat): ObjectMatrices
  {
    ObjectMatrices(NormalMatrixOf(model), Product(view, model), Product(projectionView, model))
  }

  datatype AllocResult = Allocated(index: nat) | NoMoreIndices

  /** The lowest free slot, if any. */
  function FirstFree(flags: seq<bool>): (r: Option<nat>)
    ensures r.Some? ==> r.value < |flags| && !flags[r.value] && forall j :: 0 <= j < r.value ==> flags[j]
    ensures r.None? ==> forall j :: 0 <= j < |flags| ==> flags[j]
  {
    if flags == [] then None
    else if !flags[0] then Some(0)
    else match FirstFree(flags[1..])
         case None => None
         case Some(i) => Some(i + 1)
  }

  /** Number of slots in use. */
  function InUseCount(flags: seq<bool>): (n: nat)
    ensures n <= |flags|
  {
    if flags == [] then 0 else (if flags[0] then 1 else 0) + InUseCount(flags[1..])
  }

  /** Every slot is in use exactly when the count reaches the capacity. */
  lemma {:induction false} FullIffCountIsCapacity(flags: seq<bool>)
    ensures FirstFree(flags).None? <==> InUseCount(flags) == |flags|
  {
    if flags != [] {
      FullIffCountIsCapacity(flags[1..]);
    }
  }

  /** Marking a free slot in use raises the count by one, freeing a held slot lowers it by one. */
  lemma {:induction false} InUseCountUpdate(flags: seq<bool>, i: nat, b: bool)
    requires i < |flags| && flags[i] != b
    ensures InUseCount(flags[i := b]) == if b then InUseCount(flags) + 1 else InUseCount(flags) - 1
  {
    if i == 0 {
      assert flags[i := b][1..] == flags[1..];
    } else {
      assert flags[i := b][1..] == flags[1..][i - 1 := b];
      InUseCountUpdate(flags[1..], i - 1, b);
    }
  }

  /** After init exactly one slot is in use, and each successful allocation
      adds one, so at most `numTransformableObjects` allocations can succeed
      before the store is full. */
  lemma {:induction false} InitialCount(n: nat)
    ensures InUseCount([true] + seq(n, _ => false)) == 1
  {
    var s := [true] + seq(n, _ => false);
    assert s[1..] == seq(n, _ => false);
    AllFreeCount(n);
  }

  lemma {:induction false} AllFreeCount(n: nat)
    ensures InUseCount(seq(n, _ => false)) == 0
  {
    if n > 0 {
      assert seq(n, _ => false)[1..] == seq(n - 1, _ => false);
      AllFreeCount(n - 1);
    }
  }

  class PerObjectTransforms {
    const numObjects: nat
    const numTransforms: nat
    const bufferSet: BufferSets.BufferSet
    var inUseFlags: seq<bool>
    /** The records stored in each buffer of the set, by byte offset. */
    var contents: seq<map<int, ObjectMatrices>>

    ghost predicate Valid()
      reads this
    {
      numTransforms == numObjects + 1
      && |inUseFlags| == numTransforms
      && inUseFlags[StaticObjectIndex]
      && |contents| == |bufferSet.buffers| == Renderers.MaxInflightFrames
    }

    /** Reserves slot 0 for static objects; every other slot is free. */
    constructor (device: Device, numTransformableObjects: nat, resourceOptions: ResourceOptions)
      modifies device
      ensures numObjects == numTransformableObjects && numTransforms == numTransformableObjects + 1
      ensures inUseFlags == [true] + seq(numTransformableObjects, _ => false)
      ensures contents == seq(Renderers.MaxInflightFrames, _ => map[])
      ensures forall i :: 0 <= i < |bufferSet.buffers| ==>
        bufferSet.buffers[i].length == MatricesStride * numTransforms && bufferSet.buffers[i].options == resourceOptions
      ensures Valid()
    {
      numObjects := numTransformableObjects;
      numTransforms := numTransformableObjects + 1;
      bufferSet := new BufferSets.BufferSet(device, MatricesStride * (numTransformableObjects + 1), None, resourceOptions);
      inUseFlags := seq(numTransformableObjects + 1, _ => false);
      contents := seq(Renderers.MaxInflightFrames, _ => map[]);
      new;
      var r := AllocateIndex();
      assert inUseFlags == [true] + seq(numTransformableObjects, _ => false);
    }

    /** First-fit: the lowest free slot becomes in use; when none is free the
        store is left as it was and `NoMoreIndices` is thrown. */
    method AllocateIndex() returns (r: AllocResult)
      modifies this`inUseFlags
      ensures match FirstFree(old(inUseFlags))
              case Some(i) => r == Allocated(i) && inUseFlags == old(inUseFlags)[i := true]
              case None => r == NoMoreIndices && inUseFlags == old(inUseFlags)
    {
      var idx: nat := 0;
      while idx < |inUseFlags|
        invariant idx <= |inUseFlags| && inUseFlags == old(inUseFlags)
        invariant forall j :: 0 <= j < idx ==> inUseFlags[j]
      {
        if !inUseFlags[idx] {
          FirstFreeIsLowest(inUseFlags, idx);
          inUseFlags := inUseFlags[idx := true];
          return Allocated(idx);
        }
        idx := idx + 1;
      }
      FirstFreeNoneWhenFull(inUseFlags);
      r := NoMoreIndices;
    }

    /** Returns a slot. Slot 0 and a slot not in use are fatal; an index
        outside the flag array traps. */
    method DeallocateIndex(index: int) returns (status: Status)
      modifies this`inUseFlags
      ensures status.Stopped? <==> index == StaticObjectIndex || !(0 <= index < |old(inUseFlags)|) || !old(inUseFlags)[index]
      ensures status.Completed? ==> inUseFlags == old(inUseFlags)[index := false]
      ensures status.Stopped? ==> inUseFlags == old(inUseFlags)
    {
      if index == StaticObjectIndex {
        status := Stopped("Cannot deallocate the static object index");
      } else if !(0 <= index < |inUseFlags|) {
        status := Stopped("Index out of range");
      } else if !inUseFlags[index] {
        status := Stopped("Returning an index to transform store that wasn't allocated");
      } else {
        inUseFlags := inUseFlags[index := false];
        status := Completed;
      }
    }

    function GetBuffer(constantBufferIndex: int): (b: GpuBuffer)
      requires 0 <= constantBufferIndex < |bufferSet.buffers|
      ensures b == bufferSet.buffers[constantBufferIndex]
    {
      bufferSet.Get(constantBufferIndex)
    }

    /** `_combineAndUpload`: one record at byte offset `MatricesStride * objectIndex`
        of buffer `constantBufferIndex`; nothing else in any buffer changes. */
    method CombineAndUploadAt(model: Mat, objectIndex: nat, globals: GlobalMatrices.GlobalTransforms, constantBufferIndex: nat)
      requires constantBufferIndex < |contents|
      modifies this`contents
      ensures |contents| == |old(contents)|
      ensures contents[constantBufferIndex] ==
        old(contents)[constantBufferIndex][MatricesStride * objectIndex :=
          Combine(model, globals.viewMatrix, globals.projectionViewMatrix)]
      ensures forall b :: 0 <= b < |contents| && b != constantBufferIndex ==> contents[b] == old(contents)[b]
    {
      var matrices := Combine(model, globals.viewMatrix, globals.projectionViewMatrix);
      contents := contents[constantBufferIndex := contents[constantBufferIndex][MatricesStride * objectIndex := matrices]];
    }

    /** The static slot always holds the identity model combined with the globals. */
    method UpdateStaticTransform(globals: GlobalMatrices.GlobalTransforms, constantBufferIndex: nat)
      requires constantBufferIndex < |contents|
      modifies this`contents
      ensures contents == old(contents)[constantBufferIndex :=
        old(contents)[constantBufferIndex][0 := Combine(Identity, globals.viewMatrix, globals.projectionViewMatrix)]]
    {
      CombineAndUploadAt(Identity, StaticObjectIndex, globals, constantBufferIndex);
    }

    method CombineAndUpload(modelTransform: Transform, globals: GlobalMatrices.GlobalTransforms, constantBufferIndex: nat)
      requires constantBufferIndex < |contents|
      modifies this`contents
      ensures contents == old(contents)[constantBufferIndex :=
        old(contents)[constantBufferIndex][modelTransform.BufferOffset() :=
          Combine(modelTransform.modelMatrix, globals.viewMatrix, globals.projectionViewMatrix)]]
    {
      CombineAndUploadAt(modelTransform.modelMatrix, modelTransform.index, globals, constantBufferIndex);
    }
  }

  lemma {:induction false} FirstFreeIsLowest(flags: seq<bool>, i: nat)
    requires i < |flags| && !flags[i] && forall j :: 0 <= j < i ==> flags[j]
    ensures FirstFree(flags) == Some(i)
  {
    if i > 0 {
      FirstFreeIsLowest(flags[1..], i - 1);
    }
  }

  lemma {:induction false} FirstFreeNoneWhenFull(flags: seq<bool>)
    requires forall j :: 0 <= j < |flags| ==> flags[j]
    ensures FirstFree(flags) == None
  {
    if flags != [] {
      FirstFreeNoneWhenFull(flags[1..]);
    }
  }

  /** With slot 0 held, a successful allocation never yields the static slot
      nor a slot that is already held. */
  lemma AllocationAvoidsHeldSlots(flags: seq<bool>)
    requires |flags| > 0 && flags[StaticObjectIndex]
    ensures FirstFree(flags).Some? ==> FirstFree(flags).value != StaticObjectIndex && !flags[FirstFree(flags).value]
  {
  }

  /** `setVertexBufferOffset`: slot 0's offset for a static object, otherwise the transform's. */
  function VertexBufferOffsetCommand(transform: Transform?): (c: Command)
    reads transform
    ensures c.SetVertexBufferOffset? && c.index == PerObjectMatricesBufferBindIndex
    ensures transform == null ==> c.offset == 0
    ensures transform != null ==> c.offset == transform.index * MatricesStride
  {
    SetVertexBufferOffset(if transform == null then StaticObjectIndex * MatricesStride else transform.BufferOffset(),
                          PerObjectMatricesBufferBindIndex)
  }

  class Transform {
    var modelMatrix: Mat
    const index: nat
    const store: PerObjectTransforms
    /** Set once the transform has been destroyed. */
    ghost var released: bool

    /** The offset of this transform's record in every buffer of the store. */
    function BufferOffset(): (offset: nat)
      ensures offset == index * MatricesStride
      ensures offset % MatricesStride == 0 && offset / MatricesStride == index
    {
      index * MatricesStride
    }

    /** Holds the slot the store allocated for it. */
    constructor Attach(theMatrix: Mat, perObjectTransforms: PerObjectTransforms, slot: nat)
      ensures modelMatrix == theMatrix && store == perObjectTransforms && index == slot && !released
    {
      modelMatrix := theMatrix;
      store := perObjectTransforms;
      index := slot;
      released := false;
    }

    /** `init`: takes the lowest free slot of the store; a full store is fatal. */
    static method Create(theMatrix: Mat, perObjectTransforms: PerObjectTransforms) returns (r: Result<Transform>)
      modifies perObjectTransforms`inUseFlags
      ensures r.Fatal? <==> FirstFree(old(perObjectTransforms.inUseFlags)).None?
      ensures r.Fatal? ==> perObjectTransforms.inUseFlags == old(perObjectTransforms.inUseFlags)
      ensures r.Ok? ==>
        && fresh(r.value)
        && var i := FirstFree(old(perObjectTransforms.inUseFlags)).value;
        && r.value.index == i && r.value.modelMatrix == theMatrix && r.value.store == perObjectTransforms
        && !r.value.released
        && perObjectTransforms.inUseFlags == old(perObjectTransforms.inUseFlags)[i := true]
    {
      var a := perObjectTransforms.AllocateIndex();
      if a.NoMoreIndices? {
        return Fatal("No more space in transform store");
      }
      var t := new Transform.Attach(theMatrix, perObjectTransforms, a.index);
      r := Ok(t);
    }

    /** The convenience initialiser: an identity transform. */
    static method CreateIdentity(perObjectTransforms: PerObjectTransforms) returns (r: Result<Transform>)
      modifies perObjectTransforms`inUseFlags
      ensures r.Fatal? <==> FirstFree(old(perObjectTransforms.inUseFlags)).None?
      ensures r.Fatal? ==> perObjectTransforms.inUseFlags == old(perObjectTransforms.inUseFlags)
      ensures r.Ok? ==>
        && fresh(r.value) && r.value.modelMatrix == Identity && r.value.store == perObjectTransforms
        && var i := FirstFree(old(perObjectTransforms.inUseFlags)).value;
        && r.value.index == i && !r.value.released
        && perObjectTransforms.inUseFlags == old(perObjectTransforms.inUseFlags)[i := true]
    {
      r := Create(Identity, perObjectTransforms);
    }

    /** What the store must hold while this transform is alive. */
    ghost predicate Holds()
      reads this, store
    {
      !released && index != StaticObjectIndex && index < |store.inUseFlags| && store.inUseFlags[index]
    }

    /** `deinit`: returns exactly this transform's slot, once. */
    method Release() returns (status: Status)
      requires Holds()
      modifies store`inUseFlags, this`released
      ensures status == Completed && released
      ensures store.inUseFlags == old(store.inUseFlags)[index := false]
    {
      status := store.DeallocateIndex(index);
      released := true;
    }
  }
}
