# Growable integer array, modelled in Dafny

This project models the `DynamicArray` of `1_dynamic_array/dynamic_array.c`.
It is a heap struct with three fields:

- a block `data` of `int` slots;
- the count `size` of live elements;
- the count `capacity` of allocated slots.

The C API has these operations:

- `dynamic_array_init` allocates the struct and a block of `INITIAL_CAPACITY` (4) slots.
- `dynamic_array_size` and `dynamic_array_capacity` read the counters. Both return 0 for NULL.
- `dynamic_array_resize` reallocates the block. It refuses a capacity below `size`.
- `dynamic_array_push` appends a value. When the array is full it first doubles the capacity.
- `dynamic_array_pop` removes the last element. It then halves the capacity, with a floor of 4, when fewer than a quarter of the slots are in use. A failed shrink is ignored.
- `dynamic_array_get` and `dynamic_array_set` are bounds-checked against `size`.
- `dynamic_array_free` releases the array.

`resize`, `push`, `pop`, `get` and `set` return 0 on success and -1 on failure. `init` returns the new array or NULL, `size` and `capacity` return a count, and `free` and `print` return nothing.

The project has three files:

- `dynamic_array_spec.dfy` (module `DynamicArraySpec`) is the abstract model. A live array is a `State`: its live elements in order and its capacity. Each C operation is a function from a `State` to a `Reply`, which holds the return code, the value written through the out-pointer, and the new state. Lemmas state what each operation promises and what holds over runs of operations.
- `dynamic_array.dfy` (module `DynamicArrays`) is the imperative model. It has a class `DynamicArray` with fields `data: array?<int32>`, `size` and `capacity`, which the methods update in place. Each C function is a method that takes a possibly-NULL `DynamicArray?`, like the C pointer. Each method is proved to move `Model()` exactly as the matching function of `DynamicArraySpec` says. The test driver `main` is the method `Demo`.
- `dynamic_array_wip.dfy` (module `DynamicArrayWip`) covers `1_dynamic_array_WIP/dynamic_array.c`. Its lines 1-56 (struct, init, size, capacity) are the same text as in the complete file, so the module reuses `DynamicArrays`. It adds the copy's own test driver.

Allocation is not modelled as memory. Whether `malloc` or `realloc` returns a block is a boolean parameter of each operation that allocates (`structOk`, `dataOk`, `allocOk`, `shrinkOk`). The struct's lifetime is the ghost field `live`. `dynamic_array_free` ends it, and every data operation requires it.

The element type is `int32`, a 32-bit newtype. `size_t` counters are `nat`.

Two properties a reader might expect do not hold of the code:

- Capacity at least 4 is not an invariant of the code. An explicit resize is accepted down to the current size, so 0 is allowed on an empty array (`ResizeCanBreakFloor`). The floor does hold for runs of push, pop, get and set without explicit resizes (`CapacityFloorWithoutResize`).
- Failures are not told apart: resize, push, pop, get and set return the same -1 for every kind of failure.

## Model

| member | source | states |
|---|---|---|
| `DynamicArraySpec.ResizeOutcome` | 1_dynamic_array/dynamic_array.c:62-75 | Resize succeeds iff the new capacity is at least the size and the allocator agrees. The live elements never change. On success the capacity is the requested one; on failure nothing changes. |
| `DynamicArraySpec.GrowTarget` | 1_dynamic_array/dynamic_array.c:85-86 | The corrected growth target is always above the old capacity. It equals the source's `capacity * 2` whenever the capacity is positive. |
| `DynamicArraySpec.PushOutcome` | 1_dynamic_array/dynamic_array.c:81-94 | Push fails only when the array is full and the growth allocation fails; then nothing changes. On success the elements become `old + [value]`, the value sits at index `size_old`, and a full array with positive capacity doubles its capacity (a 0-slot array grows to 4, see ## Findings). A non-full push keeps the capacity. |
| `DynamicArraySpec.PopOutcome` | 1_dynamic_array/dynamic_array.c:99-107 | Pop fails iff the array is empty; then nothing changes and no value is written. Otherwise it yields the last element and removes exactly that one. |
| `DynamicArraySpec.PopShrink` | 1_dynamic_array/dynamic_array.c:109-116 | A non-empty pop always returns success. Afterwards the capacity is `max(capacity/2, 4)` iff the new size is in (0, capacity/4) and the allocator agrees, and is unchanged otherwise. In that case the target is at least the new size, so the resize guard never rejects it. Popping to empty never shrinks. |
| `DynamicArraySpec.SetGetRoundTrip` | 1_dynamic_array/dynamic_array.c:122-140 | Get never changes the array and fails without an out-pointer. Set at an index at or past the size fails and changes nothing. Set below the size keeps size and capacity, and a following get returns the stored value. Every other index reads as before. |
| `DynamicArraySpec.PopUndoesPush` | 1_dynamic_array/dynamic_array.c:81-107 | After a successful push, pop returns the pushed value and restores the previous elements. |
| `DynamicArraySpec.ApplyKeepsValid` | 1_dynamic_array/dynamic_array.c:62-140 | Every operation, explicit resize included, keeps `size <= capacity`. |
| `DynamicArraySpec.RunKeepsValid` | 1_dynamic_array/dynamic_array.c:62-140 | Every run of resize, push, pop, get and set from a state with `size <= capacity` keeps it. |
| `DynamicArraySpec.ApplyKeepsGrowthCapacity` | 1_dynamic_array/dynamic_array.c:81-140 | Each push, pop, get or set keeps `size <= capacity` and keeps the capacity of the form 4·2^k. |
| `DynamicArraySpec.NoResizeKeepsGrowthCapacity` | 1_dynamic_array/dynamic_array.c:81-140 | Any run of push, pop, get and set from such a state keeps both properties. The capacity is therefore never below 4. |
| `DynamicArraySpec.CapacityFloorWithoutResize` | 1_dynamic_array/dynamic_array.c:26-140 | Starting from a fresh array, every run without explicit resizes keeps `size <= capacity` and capacity at least 4. |
| `DynamicArraySpec.ResizeCanBreakFloor` | 1_dynamic_array/dynamic_array.c:62-75 | A fresh array resized to 0 is accepted and ends with capacity 0, so the floor of 4 is not an invariant once explicit resizes are allowed. |
| `DynamicArraySpec.PushAllGrows` | 1_dynamic_array/dynamic_array.c:81-94 | Pushing values into an array whose capacity is the doubled capacity for its size appends them in order. The capacity ends at the doubled capacity for the new size, and the number of reallocations equals the number of doublings in between. |
| `DynamicArraySpec.PushesFromEmpty` | 1_dynamic_array/dynamic_array.c:81-94 | Pushing n values into a fresh array stores them in order. Capacity ends at 4·2^k ≥ n after exactly k reallocations, with k = 0 for n ≤ 4 and 2^(k+1) < n otherwise, so there are O(log n) reallocations. |
| `DynamicArraySpec.EmptyResizeThenPushWritesOutOfBounds` | 1_dynamic_array/dynamic_array.c:62-92 | A fresh array resized to 0 is accepted. The next push as written "grows" to 0 slots and then writes slot 0 of a 0-slot block. |
| `DynamicArraySpec.PushAgreesWhereDefined` | 1_dynamic_array/dynamic_array.c:81-94 | The corrected push equals the source's push whenever the capacity is positive. With capacity 0 the source writes out of bounds. A successful corrected push always has room for the element it writes. |
| `DynamicArrays.DynamicArray.constructor` | 1_dynamic_array/dynamic_array.c:27-30 | The struct block as `malloc` returns it: no element block and zero counters. It is the only live struct the allocation creates. |
| `DynamicArrays.Realloc` | 1_dynamic_array/dynamic_array.c:67-70 | The `realloc` call: NULL iff the allocator refuses, otherwise a fresh block of exactly the requested slots that starts with the old block's values as far as both reach. |
| `DynamicArrays.Init` | 1_dynamic_array/dynamic_array.c:26-42 | Returns non-NULL iff both allocations succeed, with a fresh block, size 0 and capacity 4. When the data block fails, the struct is released first: no struct the call allocates stays alive unless it is returned. Lines 26-42 of the WIP copy are the same text. |
| `DynamicArrays.Size` | 1_dynamic_array/dynamic_array.c:47-49 | The number of live elements, and 0 for NULL. Lines 47-49 of the WIP copy are the same text. |
| `DynamicArrays.Capacity` | 1_dynamic_array/dynamic_array.c:54-56 | The number of allocated slots, never fewer than the size, and 0 for NULL. Lines 54-56 of the WIP copy are the same text. |
| `DynamicArrays.Resize` | 1_dynamic_array/dynamic_array.c:62-75 | NULL fails. Otherwise the new model is `DynamicArraySpec.Resize` of the old one. A failure leaves the struct untouched, and the struct invariant is kept. |
| `DynamicArrays.Push` | 1_dynamic_array/dynamic_array.c:81-94 | NULL fails. Otherwise the return code and new model are those of `DynamicArraySpec.Push`. A failure leaves the struct and its block untouched. Growth uses the corrected target, which equals the source's `capacity * 2` for every positive capacity; a 0-slot array grows to 4 (see ## Findings). |
| `DynamicArrays.Pop` | 1_dynamic_array/dynamic_array.c:99-117 | NULL fails with no value. Otherwise the code and new model are those of `DynamicArraySpec.Pop`. The popped value is delivered only when there is an out-pointer; the element is removed either way. |
| `DynamicArrays.Get` | 1_dynamic_array/dynamic_array.c:122-129 | NULL fails. Otherwise the code and value are those of `DynamicArraySpec.Get`. Nothing is modified. |
| `DynamicArrays.Set` | 1_dynamic_array/dynamic_array.c:134-140 | NULL fails. Otherwise the code and new model are those of `DynamicArraySpec.Set`. Only the element block is written. |
| `DynamicArrays.Free` | 1_dynamic_array/dynamic_array.c:157-164 | Ends the array's lifetime. It is a no-op on NULL. |
| `DynamicArrays.Show` | 1_dynamic_array/dynamic_array.c:143-152 | Nothing for NULL, and otherwise the size, capacity and live elements that the print function lists. |
| `DynamicArrays.PushTens` | 1_dynamic_array/dynamic_array.c:186-189 | Pushing 10, 20, …, 100 into a fresh array gives those elements with capacity 16. |
| `DynamicArrays.PopThree` | 1_dynamic_array/dynamic_array.c:199-204 | Three pops from that array yield 100, 90, 80. The array is left with 10…70 and capacity 16, because 7 is not below 16/4. |
| `DynamicArrays.Demo` | 1_dynamic_array/dynamic_array.c:171-217 | The driver exits with 0 iff init succeeds. Then the printed states are: (0, 4, []); (10, 16, [10..100]); element 5 is 60; popped 100, 90, 80; (7, 16, [10..70]); and after `set(2, 999)`, (7, 16, [10, 20, 999, 40, 50, 60, 70]). |
| `DynamicArrayWip.DayOneTest` | 1_dynamic_array_WIP/dynamic_array.c:26-94 | The day-one driver exits with 1 iff init returns NULL. Otherwise it reports size 0 and capacity 4. |

## Findings

| source | as written | input that shows it | evidently intended | confidence | as-written member | corrected member |
|---|---|---|---|---|---|---|
| 1_dynamic_array/dynamic_array.c:63,86,92 | Resize accepts capacity 0 on an empty array. Push then grows a full array to `capacity * 2`, which is 0 again, and writes `data[size]` into a 0-slot block. | `dynamic_array_resize(arr, 0)` on a fresh array, then `dynamic_array_push(arr, v)` (`EmptyResizeThenPushWritesOutOfBounds`) | Push on a full array always makes room for one element: the model grows a 0-slot array to `INITIAL_CAPACITY` and otherwise doubles as the source does | high (not executed) | `DynamicArraySpec.PushAsWritten` | `DynamicArraySpec.GrowTarget` |

## Left out

- Allocation is not modelled as memory. Each `malloc` or `realloc` outcome is a boolean parameter, and `Realloc` stands for the `realloc` call. A `realloc` to 0 slots, which C leaves to the implementation, is treated like any other size.
- Use after free and double free are not modelled as undefined behaviour. Every operation and `Free` require a live array instead.
- The WIP driver never frees its array. That leak is not modelled.
- `Init` sets the fresh struct's fields to NULL and 0. In C they are uninitialised until assigned.
- The values in block slots at or past `size` are not constrained. They are whatever `realloc` copied or left.
- `size_t` wrap-around is not modelled: `capacity * 2` on `nat` cannot overflow.
- `Show` returns what `dynamic_array_print` would list as a value. The formatting and the printing loop are not modelled.
- In `Demo`, every allocation after init succeeds. The driver ignores push results, so the case where a growth fails during its pushes is not modelled.
- `Demo`'s push and pop loops are the separate methods `PushTens` and `PopThree`.
- The SPI driver files (`2_spi_driver/`, `2_spi_driver_WIP/`) are not part of this model. They consist of memory-mapped register I/O and busy-wait polling.
