/**
  The work-in-progress copy 1_dynamic_array_WIP/dynamic_array.c. Its struct,
  `dynamic_array_init`, `dynamic_array_size` and `dynamic_array_capacity` are
  the same text as in the complete file (lines 1-56 of both), so this module
  reuses the class and methods of DynamicArrays; what the copy adds is its own
  day-one test driver.
*/
module DynamicArrayWip {
  import S = DynamicArraySpec
  import D = DynamicArrays

  /** The day-one `main`: init, then report size and capacity. `structOk` and
      `dataOk` are init's two allocations. The exit code is 1 exactly when
      init returns NULL; otherwise the reported size is 0 and the reported
      capacity is `INITIAL_CAPACITY`. The driver does not free the array. */
  method DayOneTest(structOk: bool, dataOk: bool) returns (exitCode: int, reportedSize: nat, reportedCapacity: nat)
    ensures exitCode == 0 || exitCode == 1
    ensures exitCode == 0 <==> structOk && dataOk
    ensures exitCode == 0 ==> reportedSize == 0 && reportedCapacity == S.INITIAL_CAPACITY
  {
    var arr := D.Init(structOk, dataOk);
    if arr == null {
      return 1, 0, 0;
    }
    reportedSize := D.Size(arr);
    reportedCapacity := D.Capacity(arr);
    exitCode := 0;
  }
}
