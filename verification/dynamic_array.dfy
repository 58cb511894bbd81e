/**
  The `DynamicArray` struct of 1_dynamic_array/dynamic_array.c and its C API.

  The struct becomes a class whose fields the operations update in place: the
  block `data` (NULL until it is allocated), the live-element count `size`
  and the slot count `capacity`. Each C function becomes a method of this
  module that takes a possibly-NULL `DynamicArray?`, as the C functions take a
  pointer, and is proved against the matching function of DynamicArraySpec on
  the abstract value `Model()`. The allocator's answer (does `malloc` or
  `realloc` return a block?) is a boolean parameter of every operation that
  allocates. The ghost field `live` is the struct's lifetime: it ends at
  `dynamic_array_free`.
*/
module DynamicArrays {
  import S = DynamicArraySpec

  class DynamicArray {
    var data: array?<S.int32>
    var size: nat
    var capacity: nat
    ghost var live: bool

    /** The struct block alone, as `malloc(sizeof(DynamicArray))` hands it
        out: no element block yet. */
    constructor ()
      ensures data == null && size == 0 && capacity == 0 && live
      ensures forall a: DynamicArray | fresh(a) && a.live :: a == this
    {
      data := null;
      size := 0;
      capacity := 0;
      live := true;
    }

    /** The struct invariant of a live array: the block holds exactly
        `capacity` slots and the first `size` of them are live. */
    ghost predicate Valid()
      reads this, data
    {
      live && data != null && data.Length == capacity && size <= capacity
    }

    /** The abstract value: the live elements in order, and the capacity. */
    ghost function Model(): S.State
      reads this, data
      requires Valid()
    {
      S.State(data[..size], capacity)
    }
  }

  /** The element block of `arr`, if there is one. */
  ghost function Block(arr: DynamicArray?): set<object>
    reads arr
  {
    if arr == null || arr.data == null then {} else {arr.data}
  }

  /** The struct and its element block. */
  ghost function Footprint(arr: DynamicArray?): set<object>
    reads arr
  {
    (if arr == null then {} else {arr}) + Block(arr)
  }

  /** `realloc(block, n * sizeof(int))`: NULL when the allocator refuses,
      otherwise a new block of `n` slots that starts with the old block's
      values as far as both reach. */
  method Realloc(block: array<S.int32>, n: nat, allocOk: bool) returns (moved: array?<S.int32>)
    ensures moved != null <==> allocOk
    ensures moved != null ==> fresh(moved) && moved.Length == n
    ensures moved != null ==> forall i :: 0 <= i < n && i < block.Length ==> moved[i] == block[i]
  {
    if !allocOk {
      return null;
    }
    moved := new S.int32[n](i reads block => if 0 <= i < block.Length then block[i] else 0);
  }

  /** `dynamic_array_init`. On success, a fresh empty array with
      `INITIAL_CAPACITY` slots. When the element block cannot be allocated the
      struct is released before NULL is returned: no struct this call
      allocates stays alive unless it is the one returned. */
  method Init(structOk: bool, dataOk: bool) returns (arr: DynamicArray?)
    ensures arr != null <==> structOk && dataOk
    ensures arr != null ==> fresh(arr) && fresh(arr.data) && arr.Valid() && arr.Model() == S.Initial()
    ensures forall a: DynamicArray | fresh(a) && a.live :: a == arr
  {
    if !structOk {
      return null;
    }
    var a := new DynamicArray();
    if !dataOk {
      a.live := false;  // free(arr)
      return null;
    }
    a.data := new S.int32[S.INITIAL_CAPACITY];
    a.size := 0;
    a.capacity := S.INITIAL_CAPACITY;
    return a;
  }

  /** `dynamic_array_size`: the number of live elements, and 0 for NULL. */
  function Size(arr: DynamicArray?): (n: nat)
    requires arr != null ==> arr.Valid()
    reads arr, if arr == null then {} else {arr.data}
    ensures arr == null ==> n == 0
    ensures arr != null ==> n == |arr.Model().elems|
  {
    if arr == null then 0 else arr.size
  }

  /** `dynamic_array_capacity`: the number of allocated slots, never fewer
      than the live elements, and 0 for NULL. */
  function Capacity(arr: DynamicArray?): (n: nat)
    requires arr != null ==> arr.Valid()
    reads arr, if arr == null then {} else {arr.data}
    ensures arr == null ==> n == 0
    ensures arr != null ==> n == arr.Model().capacity && n >= Size(arr)
  {
    if arr == null then 0 else arr.capacity
  }

  /** `dynamic_array_resize`: fails on NULL, on a capacity below the size and
      when the allocator refuses, changing nothing; otherwise moves the live
      elements to a block of exactly `newCapacity` slots. */
  method Resize(arr: DynamicArray?, newCapacity: nat, allocOk: bool) returns (status: int)
    requires arr != null ==> arr.Valid()
    modifies arr
    ensures arr == null ==> status == S.FAILURE
    ensures arr != null ==> arr.Valid() && (arr.data == old(arr.data) || fresh(arr.data))
    ensures arr != null ==>
      var r := S.Resize(old(arr.Model()), newCapacity, allocOk);
      status == r.status && arr.Model() == r.after
    ensures arr != null && status == S.FAILURE ==> unchanged(arr)
  {
    if arr == null || newCapacity < arr.size {
      return S.FAILURE;
    }
    var moved := Realloc(arr.data, newCapacity, allocOk);
    if moved == null {
      return S.FAILURE;
    }
    assert moved[..arr.size] == arr.data[..arr.size];
    arr.data := moved;
    arr.capacity := newCapacity;
    return S.SUCCESS;
  }

  /** `dynamic_array_push`: fails on NULL; grows a full array first (and fails,
      changing nothing, when that growth fails); then stores `value` at index
      `size` and counts it. */
  method Push(arr: DynamicArray?, value: S.int32, allocOk: bool) returns (status: int)
    requires arr != null ==> arr.Valid()
    modifies Footprint(arr)
    ensures arr == null ==> status == S.FAILURE
    ensures arr != null ==> arr.Valid() && (arr.data == old(arr.data) || fresh(arr.data))
    ensures arr != null ==>
      var r := S.Push(old(arr.Model()), value, allocOk);
      status == r.status && arr.Model() == r.after
    ensures arr != null && status == S.FAILURE ==> unchanged(arr) && unchanged(arr.data)
  {
    if arr == null {
      return S.FAILURE;
    }
    if arr.size >= arr.capacity {
      var grown := Resize(arr, S.GrowTarget(arr.capacity), allocOk);
      if grown != S.SUCCESS {
        return S.FAILURE;
      }
    }
    ghost var before := arr.data[..arr.size];
    arr.data[arr.size] := value;
    arr.size := arr.size + 1;
    assert arr.data[..arr.size] == before + [value];
    return S.SUCCESS;
  }

  /** `dynamic_array_pop`: fails on NULL or an empty array, changing nothing;
      otherwise removes the last element, hands it out through the out-pointer
      when there is one (`outProvided`), and shrinks the block when fewer than
      a quarter of its slots stay in use, ignoring a failed shrink. */
  method Pop(arr: DynamicArray?, outProvided: bool, shrinkOk: bool) returns (status: int, value: S.Option<S.int32>)
    requires arr != null ==> arr.Valid()
    modifies arr
    ensures arr == null ==> status == S.FAILURE && value == S.None
    ensures arr != null ==> arr.Valid() && (arr.data == old(arr.data) || fresh(arr.data))
    ensures arr != null ==>
      var r := S.Pop(old(arr.Model()), shrinkOk);
      && status == r.status
      && arr.Model() == r.after
      && value == (if outProvided then r.value else S.None)
    ensures arr != null && status == S.FAILURE ==> unchanged(arr)
  {
    if arr == null || arr.size == 0 {
      return S.FAILURE, S.None;
    }
    value := S.None;
    if outProvided {
      value := S.Some(arr.data[arr.size - 1]);
    }
    arr.size := arr.size - 1;
    if arr.size > 0 && arr.size < arr.capacity / 4 {
      var newCapacity := arr.capacity / 2;
      if newCapacity < S.INITIAL_CAPACITY {
        newCapacity := S.INITIAL_CAPACITY;
      }
      var ignored := Resize(arr, newCapacity, shrinkOk);
    }
    status := S.SUCCESS;
  }

  /** `dynamic_array_get`: fails on NULL, on an index at or past the size and
      on a NULL out-pointer; otherwise reads the element. Changes nothing. */
  method Get(arr: DynamicArray?, index: nat, outProvided: bool) returns (status: int, value: S.Option<S.int32>)
    requires arr != null ==> arr.Valid()
    ensures arr == null ==> status == S.FAILURE && value == S.None
    ensures arr != null ==>
      var r := S.Get(arr.Model(), index, outProvided);
      status == r.status && value == r.value
  {
    if arr == null || index >= arr.size || !outProvided {
      return S.FAILURE, S.None;
    }
    return S.SUCCESS, S.Some(arr.data[index]);
  }

  /** `dynamic_array_set`: fails on NULL and on an index at or past the size,
      changing nothing; otherwise overwrites that one slot. Only the element
      block is written. */
  method Set(arr: DynamicArray?, index: nat, value: S.int32) returns (status: int)
    requires arr != null ==> arr.Valid()
    modifies Block(arr)
    ensures arr == null ==> status == S.FAILURE
    ensures arr != null ==>
      var r := S.Set(old(arr.Model()), index, value);
      arr.Valid() && status == r.status && arr.Model() == r.after
  {
    if arr == null || index >= arr.size {
      return S.FAILURE;
    }
    arr.data[index] := value;
    return S.SUCCESS;
  }

  /** `dynamic_array_free`: ends the array's lifetime (a no-op on NULL). A
      second free, or any use after it, is outside what the caller may do. */
  method Free(arr: DynamicArray?)
    requires arr != null ==> arr.live
    modifies arr
    ensures arr != null ==> !arr.live
  {
    if arr != null {
      arr.live := false;  // free(arr->data); free(arr)
    }
  }

  /** What one `dynamic_array_print` call shows. */
  datatype Snapshot = Snapshot(size: nat, capacity: nat, elems: seq<S.int32>)

  /** What `dynamic_array_print` shows, as a value: nothing for NULL, and
      otherwise the size, the capacity and the live elements in order. */
  method Show(arr: DynamicArray?) returns (shown: S.Option<Snapshot>)
    requires arr != null ==> arr.Valid()
    ensures shown == S.None <==> arr == null
    ensures arr != null ==> shown == S.Some(Snapshot(|arr.Model().elems|, arr.Model().capacity, arr.Model().elems))
  {
    if arr == null {
      return S.None;
    }
    shown := S.Some(Snapshot(Size(arr), Capacity(arr), arr.data[..arr.size]));
  }

  /** 10, 20, ..., 10 * n. */
  function Tens(n: nat): (s: seq<S.int32>)
    requires n <= 10
    ensures |s| == n
    ensures forall k :: 0 <= k < n ==> s[k] == ((k + 1) * 10) as S.int32
  {
    if n == 0 then [] else Tens(n - 1) + [(n * 10) as S.int32]
  }

  /** The push loop of the test driver: 10, 20, ..., 100 into a fresh array,
      which doubles its block at 4 and at 8 elements. */
  method PushTens(arr: DynamicArray)
    requires arr.Valid() && arr.Model() == S.Initial()
    modifies arr, arr.data
    ensures arr.Valid() && (arr.data == old(arr.data) || fresh(arr.data))
    ensures arr.Model() == S.State([10, 20, 30, 40, 50, 60, 70, 80, 90, 100], 16)
  {
    var i := 1;
    while i <= 10
      invariant 1 <= i <= 11
      invariant arr.Valid() && (arr.data == old(arr.data) || fresh(arr.data))
      invariant arr.Model() == S.State(Tens(i - 1), if i - 1 <= 4 then 4 else if i - 1 <= 8 then 8 else 16)
    {
      S.PushOutcome(arr.Model(), (i * 10) as S.int32, true);
      var pushed := Push(arr, (i * 10) as S.int32, true);
      assert arr.Model().elems == Tens(i);
      i := i + 1;
    }
    assert Tens(10) == [10, 20, 30, 40, 50, 60, 70, 80, 90, 100];
  }

  /** The pop loop of the test driver: three pops with an out-pointer, which
      yield the last three values and do not shrink (7 is not below 16 / 4). */
  method PopThree(arr: DynamicArray) returns (popped: seq<S.int32>)
    requires arr.Valid() && arr.Model() == S.State([10, 20, 30, 40, 50, 60, 70, 80, 90, 100], 16)
    modifies arr
    ensures arr.Valid() && (arr.data == old(arr.data) || fresh(arr.data))
    ensures arr.Model() == S.State([10, 20, 30, 40, 50, 60, 70], 16)
    ensures popped == [100, 90, 80]
  {
    assert Tens(10) == [10, 20, 30, 40, 50, 60, 70, 80, 90, 100];
    popped := [];
    var j := 0;
    while j < 3
      invariant 0 <= j <= 3
      invariant arr.Valid() && (arr.data == old(arr.data) || fresh(arr.data))
      invariant arr.Model() == S.State(Tens(10 - j), 16)
      invariant |popped| == j
      invariant forall k :: 0 <= k < j ==> popped[k] == ((10 - k) * 10) as S.int32
    {
      ghost var rest := Tens(10 - j - 1);
      assert arr.Model().elems == rest + [((10 - j) * 10) as S.int32];
      assert arr.Model().elems[..10 - j - 1] == rest;
      var status, value := Pop(arr, true, true);
      assert arr.Model() == S.State(rest, 16);
      assert value == S.Some(((10 - j) * 10) as S.int32);
      if status == S.SUCCESS {
        popped := popped + [value.value];
      }
      j := j + 1;
    }
    assert Tens(7) == [10, 20, 30, 40, 50, 60, 70];
  }

  /** The test driver `main`: init, push 10..100, read index 5, pop three
      times, set index 2 to 999, free. Every allocation after init succeeds;
      `structOk` and `dataOk` are init's two allocations. The outputs are what
      the driver prints: the exit code, the array at each print, the element
      at index 5 and the popped values. */
  method Demo(structOk: bool, dataOk: bool)
    returns (exitCode: int, initial: Snapshot, afterPushes: Snapshot, atFive: S.Option<S.int32>,
             popped: seq<S.int32>, afterPops: Snapshot, afterSet: Snapshot)
    ensures exitCode == 0 || exitCode == 1
    ensures exitCode == 0 <==> structOk && dataOk
    ensures exitCode == 0 ==>
      && initial == Snapshot(0, 4, [])
      && afterPushes == Snapshot(10, 16, [10, 20, 30, 40, 50, 60, 70, 80, 90, 100])
      && atFive == S.Some(60)
      && popped == [100, 90, 80]
      && afterPops == Snapshot(7, 16, [10, 20, 30, 40, 50, 60, 70])
      && afterSet == Snapshot(7, 16, [10, 20, 999, 40, 50, 60, 70])
  {
    initial, afterPushes, afterPops, afterSet := Snapshot(0, 0, []), Snapshot(0, 0, []), Snapshot(0, 0, []), Snapshot(0, 0, []);
    atFive, popped := S.None, [];
    var arr := Init(structOk, dataOk);
    if arr == null {
      exitCode := 1;
      return;
    }
    var initialShown := Show(arr);
    initial := initialShown.value;

    PushTens(arr);
    var afterPushesShown := Show(arr);
    afterPushes := afterPushesShown.value;

    var got;
    got, atFive := Get(arr, 5, true);

    popped := PopThree(arr);
    var afterPopsShown := Show(arr);
    afterPops := afterPopsShown.value;

    var setStatus := Set(arr, 2, 999);
    assert arr.Model() == S.State([10, 20, 999, 40, 50, 60, 70], 16);
    var afterSetShown := Show(arr);
    afterSet := afterSetShown.value;

    Free(arr);
    exitCode := 0;
  }
}
