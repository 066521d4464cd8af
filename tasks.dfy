/**
 * The in-memory task store of the analyzer: create_task adds a Pending record
 * under a fresh id, process_task writes the computed result or an error into
 * that record, the completion callback marks it Complete, and get_task_status
 * reads it back.
 *
 * The store is a `TaskStore` object whose `tasks` map the methods reassign.
 * `Processed` and `Completed` are the specifications of the two writes, as
 * functions of the store before the write.
 */
module Tasks {
  import opened Wrappers
  import opened BaseNews
  import opened Aggregation
  import opened AggregationProperties

  type TaskId = string

  datatype Status = Pending | Complete

  /** The task's input data; its 'pairs' entry may be absent. */
  datatype InputData = InputData(pairs: Option<seq<Pair>>)

  /** `task_data.get('pairs', [])` */
  function PairsOf(data: InputData): seq<Pair> {
    match data.pairs
    case None => []
    case Some(ps) => ps
  }

  /**
   * Input data without a 'pairs' entry is processed with no pairs: non-empty
   * news then produces a result whose every item has no classification and
   * whose summary is empty.
   */
  lemma MissingPairsEmptyResult(news: seq<string>, classify: Classifier)
    requires |news| > 0
    ensures PairsOf(InputData(None)) == []
    ensures
      var outcome := Process(Success(news), PairsOf(InputData(None)), classify);
      && outcome.Produced?
      && |outcome.result.newsResults| == |news|
      && (forall i :: 0 <= i < |news| ==>
            outcome.result.newsResults[i] == NewsResult(news[i], []))
      && outcome.result.summary == map[]
  {
    var pairs := PairsOf(InputData(None));
    AllPredictedProduces(news, pairs, classify);
    ProducedShape(Success(news), pairs, classify);
    ProducedSummary(Success(news), pairs, classify);
  }

  /** `{'status': ..., 'input_data': ..., 'result': ..., 'error': ...}` */
  datatype TaskRecord = TaskRecord(status: Status, inputData: InputData, result: Option<TaskResult>, error: Option<string>)

  type Store = map<TaskId, TaskRecord>

  /** The record create_task stores. */
  function NewRecord(data: InputData): (rec: TaskRecord)
    ensures rec.status == Pending && rec.inputData == data
    ensures rec.result.None? && rec.error.None?
  {
    TaskRecord(Pending, data, None, None)
  }

  /**
   * Storing process_task's outcome in a record: a result goes into 'result', an
   * error message into 'error', and nothing else in the record changes.
   */
  function WriteBack(rec: TaskRecord, outcome: Outcome): (after: TaskRecord)
    ensures after.status == rec.status && after.inputData == rec.inputData
    ensures outcome.Produced? ==> after.result == Some(outcome.result) && after.error == rec.error
    ensures outcome.Failed? ==> after.error == Some(outcome.error) && after.result == rec.result
  {
    match outcome
    case Produced(r) => rec.(result := Some(r))
    case Failed(e) => rec.(error := Some(e))
  }

  /**
   * The store after process_task(id, data) with the news fetch giving `fetched`.
   * Only the record under `id` changes, and never its status or input data; for
   * a missing id every write raises and the store is left as it was.
   */
  function Processed(store: Store, id: TaskId, data: InputData,
                     fetched: Result<seq<string>, string>, classify: Classifier): (after: Store)
    ensures after.Keys == store.Keys
    ensures forall k :: k in store ==> after[k].status == store[k].status && after[k].inputData == store[k].inputData
    ensures forall k :: k in store && k != id ==> after[k] == store[k]
    ensures id in store ==> after[id] == WriteBack(store[id], Process(fetched, PairsOf(data), classify))
  {
    if id in store then store[id := WriteBack(store[id], Process(fetched, PairsOf(data), classify))]
    else store
  }

  /**
   * The store after the completion callback: the record's status becomes
   * Complete whatever its error, and nothing else changes.
   */
  function Completed(store: Store, id: TaskId): (after: Store)
    ensures after.Keys == store.Keys
    ensures forall k :: k in store && k != id ==> after[k] == store[k]
    ensures id in store ==> after[id] == TaskRecord(Complete, store[id].inputData, store[id].result, store[id].error)
  {
    if id in store then store[id := store[id].(status := Complete)] else store
  }

  /** What get_task_status returns: the record's three fields, or the not-found answer. */
  datatype StatusReport = Found(status: Status, result: Option<TaskResult>, error: Option<string>) | NotFound

  /** The value of the report's 'status' key. */
  function StatusText(r: StatusReport): (text: string)
    ensures text == "Task not found" <==> r.NotFound?
    ensures r.Found? ==> (text == "Pending" <==> r.status == Pending)
  {
    match r
    case NotFound => "Task not found"
    case Found(Pending, _, _) => "Pending"
    case Found(Complete, _, _) => "Complete"
  }

  /** The module-level `tasks` dictionary and the functions that use it. */
  class TaskStore {
    var tasks: Store

    constructor ()
      ensures tasks == map[]
    {
      tasks := map[];
    }

    /**
     * create_task: store a Pending record for `data` under the id `drawn` (the
     * uuid4 the source draws) and return it. The source then schedules
     * process_task_async; here the caller runs that step when it chooses.
     */
    method CreateTask(data: InputData, drawn: TaskId) returns (id: TaskId)
      modifies this
      ensures id == drawn
      ensures tasks == old(tasks)[id := NewRecord(data)]
    {
      id := drawn;
      tasks := tasks[id := NewRecord(data)];
    }

    /** get_task_status: the record's status, result and error, or NotFound; the store is only read. */
    function GetTaskStatus(id: TaskId): (r: StatusReport)
      reads this
      ensures r.NotFound? <==> id !in tasks
      ensures r.Found? ==> r.status == tasks[id].status && r.result == tasks[id].result && r.error == tasks[id].error
    {
      if id in tasks then Found(tasks[id].status, tasks[id].result, tasks[id].error) else NotFound
    }

    /**
     * process_task(id, data): run the pipeline, then store its result or its
     * error message in the record under `id`.
     */
    method ProcessTask(id: TaskId, data: InputData, fetched: Result<seq<string>, string>, classify: Classifier)
      modifies this
      ensures tasks == Processed(old(tasks), id, data, fetched, classify)
    {
      var outcome := RunPipeline(fetched, PairsOf(data), classify);
      if id in tasks {
        tasks := tasks[id := WriteBack(tasks[id], outcome)];
      }
    }

    /** The completion callback: `tasks[task_id].update({'status': 'Complete'})`. */
    method MarkComplete(id: TaskId)
      modifies this
      ensures tasks == Completed(old(tasks), id)
    {
      if id in tasks {
        tasks := tasks[id := tasks[id].(status := Complete)];
      }
    }

    /**
     * process_task_async: process the task on its stored input data, then run
     * the completion callback. A missing id raises before anything is
     * submitted.
     */
    method ProcessTaskAsync(id: TaskId, fetched: Result<seq<string>, string>, classify: Classifier)
      modifies this
      ensures id in old(tasks) ==>
        tasks == Completed(Processed(old(tasks), id, old(tasks)[id].inputData, fetched, classify), id)
      ensures id !in old(tasks) ==> tasks == old(tasks)
    {
      if id !in tasks {
        return;
      }
      var data := tasks[id].inputData;
      ProcessTask(id, data, fetched, classify);
      MarkComplete(id);
    }
  }

  /** An empty store answers every id with "Task not found". */
  method UnknownTask(id: TaskId) returns (text: string)
    ensures text == "Task not found"
  {
    var store := new TaskStore();
    var report := store.GetTaskStatus(id);
    text := StatusText(report);
  }

  /**
   * A task whose news fetch returns nothing: Pending with neither result nor
   * error until it runs, then Complete with the error "Parsing error" and still
   * no result.
   */
  method EmptyNewsLifecycle(data: InputData, drawn: TaskId, classify: Classifier)
    returns (before: StatusReport, after: StatusReport)
    ensures before == Found(Pending, None, None)
    ensures after == Found(Complete, None, Some(PARSING_ERROR))
  {
    var store := new TaskStore();
    var id := store.CreateTask(data, drawn);
    before := store.GetTaskStatus(id);
    store.ProcessTaskAsync(id, Success([]), classify);
    after := store.GetTaskStatus(id);
  }

  /**
   * A classifier exception: the task completes with the exception's message as
   * its error and no result.
   */
  method FailingClassifierLifecycle(news: seq<string>, drawn: TaskId, message: string)
    returns (after: StatusReport)
    requires |news| > 0
    ensures after == Found(Complete, None, Some(message))
  {
    var data := InputData(Some([Pair("positive", "negative")]));
    var classify := (t: string, c1: string, c2: string) => Raised(message);
    var store := new TaskStore();
    var id := store.CreateTask(data, drawn);
    ProcessOutcome(Success(news), PairsOf(data), classify);
    assert FirstRaised(classify, news, PairsOf(data), 0, 0);
    store.ProcessTaskAsync(id, Success(news), classify);
    after := store.GetTaskStatus(id);
  }

  /**
   * The complete workflow of the test suite: one news item, the pair
   * positive/negative, a classifier returning [0.7, 0.3]. The task is Pending
   * before processing; after process_task, and before the completion callback,
   * it is still Pending but carries its result and no error.
   */
  method CompleteWorkflow(drawn: TaskId) returns (initial: StatusReport, processed: StatusReport)
    ensures initial == Found(Pending, None, None)
    ensures processed.Found? && processed.status == Pending && processed.error.None?
    ensures processed.Found? && processed.result.Some? &&
            processed.result.value.summary == map["positive / negative" := Stat(0.7, 0.3, 1)]
  {
    var pairs := [Pair("positive", "negative")];
    var data := InputData(Some(pairs));
    var news := ["Test news"];
    var classify := (t: string, c1: string, c2: string) => Probabilities(0.7, 0.3);
    var store := new TaskStore();
    var id := store.CreateTask(data, drawn);
    initial := store.GetTaskStatus(id);
    ConstantClassifier(news, pairs, 0.7, 0.3);
    var key := "positive / negative";
    assert Key(pairs[0]) == key;
    assert PairKeys(pairs) == {key};
    assert Occurrences(pairs, key) == 1 by {
      assert pairs[..0] == [];
    }
    store.ProcessTask(id, data, Success(news), classify);
    processed := store.GetTaskStatus(id);
  }
}
