/** MapGenerator: joins each workflow entry with the first traced position of its address
    into a record of the 3D map, appending to a list that is never reset. */
module MapGeneration {
  import opened Workflows

  /** One entry of the tracer's `execution_map[address]` list. */
  datatype TraceEntry = TraceEntry(file: string, code: string, coords: seq<int>)

  /** One element of `map_data`. */
  datatype MapRecord = MapRecord(
    address: string, command: string, coords: seq<int>, subprocesses: seq<string>, direction: string)

  /** Where an address sits when it was never traced. */
  const Origin: seq<int> := [0, 0, 0]

  /** `details['subprocesses']` and `details['direction']` must exist. */
  predicate Complete(item: WorkflowItem) {
    item.details.subprocesses.Some? && item.details.direction.Some?
  }

  /** A traced address has at least one entry, which is how the tracer fills the map. */
  predicate NonEmptyTraces(executionMap: map<string, seq<TraceEntry>>) {
    forall a :: a in executionMap ==> executionMap[a] != []
  }

  /** `execution_map.get(address, [{'coords': [0, 0, 0]}])[0]['coords']` */
  function CoordsOf(executionMap: map<string, seq<TraceEntry>>, address: string): seq<int>
    requires NonEmptyTraces(executionMap)
  {
    if address in executionMap then executionMap[address][0].coords else Origin
  }

  /** The record `generate_map` builds for one workflow entry. */
  function RecordOf(item: WorkflowItem, executionMap: map<string, seq<TraceEntry>>): (r: MapRecord)
    requires Complete(item) && NonEmptyTraces(executionMap)
    ensures r.address == item.address && r.command == item.details.command
    ensures r.subprocesses == item.details.subprocesses.value && r.direction == item.details.direction.value
    ensures item.address in executionMap ==> r.coords == executionMap[item.address][0].coords
    ensures item.address !in executionMap ==> r.coords == [0, 0, 0]
  {
    MapRecord(item.address, item.details.command, CoordsOf(executionMap, item.address),
              item.details.subprocesses.value, item.details.direction.value)
  }

  /** The records of one `generate_map` call: one per workflow entry, in workflow order. */
  function Records(workflow: seq<WorkflowItem>, executionMap: map<string, seq<TraceEntry>>): (r: seq<MapRecord>)
    requires forall i :: 0 <= i < |workflow| ==> Complete(workflow[i])
    requires NonEmptyTraces(executionMap)
    ensures |r| == |workflow|
    ensures forall i :: 0 <= i < |workflow| ==> r[i] == RecordOf(workflow[i], executionMap)
  {
    if workflow == [] then []
    else Records(workflow[..|workflow| - 1], executionMap) + [RecordOf(workflow[|workflow| - 1], executionMap)]
  }

  /** `map_data` after k calls of `generate_map` on a new generator. */
  function AfterCalls(workflow: seq<WorkflowItem>, executionMap: map<string, seq<TraceEntry>>, k: nat): seq<MapRecord>
    requires forall i :: 0 <= i < |workflow| ==> Complete(workflow[i])
    requires NonEmptyTraces(executionMap)
  {
    if k == 0 then [] else AfterCalls(workflow, executionMap, k - 1) + Records(workflow, executionMap)
  }

  /** The k calls can also be read as the first call's records followed by the other
      calls' records. */
  lemma {:induction false} AfterCallsFront(workflow: seq<WorkflowItem>, executionMap: map<string, seq<TraceEntry>>, k: nat)
    requires forall i :: 0 <= i < |workflow| ==> Complete(workflow[i])
    requires NonEmptyTraces(executionMap)
    requires k > 0
    ensures AfterCalls(workflow, executionMap, k) == Records(workflow, executionMap) + AfterCalls(workflow, executionMap, k - 1)
  {
    if k > 1 {
      AfterCallsFront(workflow, executionMap, k - 1);
    }
  }

  /** Since `map_data` is never cleared, k calls leave k·|workflow| records: the first
      call's records, repeated with period |workflow|. */
  lemma {:induction false} AfterCallsContents(workflow: seq<WorkflowItem>, executionMap: map<string, seq<TraceEntry>>, k: nat)
    requires forall i :: 0 <= i < |workflow| ==> Complete(workflow[i])
    requires NonEmptyTraces(executionMap)
    ensures |AfterCalls(workflow, executionMap, k)| == k * |workflow|
    ensures k > 0 ==> AfterCalls(workflow, executionMap, k)[..|workflow|] == Records(workflow, executionMap)
    ensures forall j :: |workflow| <= j < |AfterCalls(workflow, executionMap, k)| ==>
      AfterCalls(workflow, executionMap, k)[j] == AfterCalls(workflow, executionMap, k)[j - |workflow|]
  {
    if k > 0 {
      AfterCallsContents(workflow, executionMap, k - 1);
      AfterCallsFront(workflow, executionMap, k);
      var n := |workflow|;
      var all := AfterCalls(workflow, executionMap, k);
      var rest := AfterCalls(workflow, executionMap, k - 1);
      assert |all| == k * n by {
        assert |all| == (k - 1) * n + n;
      }
      forall j | n <= j < |all|
        ensures all[j] == all[j - n]
      {
        assert all[j] == rest[j - n];
        assert all == rest + Records(workflow, executionMap);
      }
    }
  }

  class MapGenerator {
    const workflow: seq<WorkflowItem>
    const executionMap: map<string, seq<TraceEntry>>
    var mapData: seq<MapRecord>

    constructor(workflow: seq<WorkflowItem>, executionMap: map<string, seq<TraceEntry>>)
      ensures this.workflow == workflow && this.executionMap == executionMap && mapData == []
    {
      this.workflow := workflow;
      this.executionMap := executionMap;
      mapData := [];
    }

    /** `generate_map`: appends this call's records to what earlier calls left. */
    method GenerateMap() returns (r: seq<MapRecord>)
      requires forall i :: 0 <= i < |workflow| ==> Complete(workflow[i])
      requires NonEmptyTraces(executionMap)
      modifies this
      ensures mapData == old(mapData) + Records(workflow, executionMap)
      ensures r == mapData
    {
      var i := 0;
      while i < |workflow|
        invariant 0 <= i <= |workflow|
        invariant mapData == old(mapData) + Records(workflow[..i], executionMap)
      {
        mapData := mapData + [RecordOf(workflow[i], executionMap)];
        assert workflow[..i + 1][..i] == workflow[..i];
        i := i + 1;
      }
      assert workflow[..i] == workflow;
      r := mapData;
    }
  }
}
