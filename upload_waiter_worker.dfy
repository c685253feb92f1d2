/** The multi-slot upload aggregator `UploadWaiterWorker`
    (worker/upload_waiter.py). Each registered upload worker occupies a slot;
    the aggregator combines the slots' progress reports into one stream and
    emits one combined result once every registered slot has delivered.
    Qt signals are an append-only event log; handlers run one at a time, as
    Qt's queued delivery runs them. */
module WaiterWorker {

  import opened Common
  import opened PyDict
  import UploadBase

  /** A worker as `add_upload_worker` sees it: the `file_id` attribute it
      reads, and the worker itself. */
  datatype Leg = Leg(fileId: FileId, worker: UploadBase.UploadWorker)

  /** The signals the aggregator emits. */
  datatype Event =
    | Progress(fileId: FileId, percent: int, message: string)
    | Result(fileId: FileId, combined: Dict<Tuple>)
    | Error(fileId: FileId, errTuple: Tuple)
    | Finished

  /** The aggregator's state: its task metadata, the completion counter, the
      three dicts and everything emitted so far. */
  datatype Waiter = Waiter(
    fileId: FileId,
    name: string,
    categoryList: seq<string>,
    blenderVersion: string,
    renderEngine: string,
    count: int,
    workers: Dict<Leg>,
    progress: Dict<real>,
    results: Dict<Tuple>,
    events: seq<Event>)

  // ----- arithmetic of the combined progress -----

  function Sum(vs: seq<real>): real
  {
    if vs == [] then 0.0 else vs[0] + Sum(vs[1..])
  }

  /** `sum(vs) / len(vs)`. */
  function Mean(vs: seq<real>): real
    requires vs != []
  {
    Sum(vs) / (|vs| as real)
  }

  /** `math.ceil(x)`: the least integer not below `x`. */
  function Ceil(x: real): (n: int)
    ensures n as real - 1.0 < x <= n as real
  {
    if x.Floor as real == x then x.Floor else x.Floor + 1
  }

  function Min(vs: seq<real>): (m: real)
    requires vs != []
    ensures m in vs && forall v :: v in vs ==> m <= v
  {
    if |vs| == 1 then vs[0]
    else
      var m := Min(vs[1..]);
      assert forall v :: v in vs ==> v == vs[0] || v in vs[1..];
      if vs[0] <= m then vs[0] else m
  }

  function Max(vs: seq<real>): (m: real)
    requires vs != []
    ensures m in vs && forall v :: v in vs ==> v <= m
  {
    if |vs| == 1 then vs[0]
    else
      var m := Max(vs[1..]);
      assert forall v :: v in vs ==> v == vs[0] || v in vs[1..];
      if m <= vs[0] then vs[0] else m
  }

  /** The percentage emitted for a progress dict: the ceiling of the mean
      over the slots that have reported. */
  function CombinedPercent(progress: Dict<real>): (pct: int)
    requires progress != []
    ensures pct as real - 1.0 < Mean(Values(progress)) <= pct as real
    ensures Ceil(Min(Values(progress))) <= pct <= Ceil(Max(Values(progress)))
  {
    var vs := Values(progress);
    MeanWithin(vs, Min(vs), Max(vs));
    CeilMonotone(Min(vs), Mean(vs));
    CeilMonotone(Mean(vs), Max(vs));
    Ceil(Mean(vs))
  }

  // ----- the handlers, as transitions of the state -----

  /** `UploadWaiterWorker(...)`: counter 0, empty dicts, nothing emitted. */
  function Initial(fileId: FileId, name: string, categoryList: seq<string>,
                   blenderVersion: string, renderEngine: string): Waiter
  {
    Waiter(fileId, name, categoryList, blenderVersion, renderEngine, 0, [], [], [], [])
  }

  /** `add_upload_worker(slot_id, worker)`. A worker of another task raises
      before anything changes; otherwise the worker is stored under the slot
      (replacing one already there) and the counter goes up by one even when
      the slot was taken. */
  function Register(w: Waiter, slot: string, leg: Leg): (r: Outcome<Waiter>)
    ensures r.Raised? <==> leg.fileId != w.fileId
    ensures r.Raised? ==> r.error == ValueError("File ID mismatch")
    ensures r.Ok? ==> r.value.count == w.count + 1
    ensures r.Ok? ==> Contains(r.value.workers, slot) && Get(r.value.workers, slot) == leg
    ensures r.Ok? ==> forall s :: s != slot ==> Lookup(r.value.workers, s) == Lookup(w.workers, s)
    ensures r.Ok? ==> r.value == w.(workers := r.value.workers, count := r.value.count)
  {
    if leg.fileId != w.fileId then Raised(ValueError("File ID mismatch"))
    else Ok(w.(workers := Put(w.workers, slot, leg), count := w.count + 1))
  }

  /** `receive_result(slot_id, file_id, result)`: one fewer result awaited,
      the payload stored under the slot, and the combined result emitted
      (with the incoming file id) exactly when no result is awaited any more. */
  function OnResult(w: Waiter, slot: string, fileId: FileId, result: Tuple): (r: Waiter)
    ensures r.count == w.count - 1
    ensures Contains(r.results, slot) && Get(r.results, slot) == result
    ensures forall s :: s != slot ==> Lookup(r.results, s) == Lookup(w.results, s)
    ensures r.count <= 0 ==> r.events == w.events + [Result(fileId, r.results)]
    ensures 0 < r.count ==> r.events == w.events
    ensures r == w.(count := r.count, results := r.results, events := r.events)
  {
    var results := Put(w.results, slot, result);
    var count := w.count - 1;
    w.(count := count, results := results,
       events := if 0 < count then w.events else w.events + [Result(fileId, results)])
  }

  /** `receive_progress_message(slot_id, file_id, progress, message)`: the
      slot's entry is overwritten and the mean over the reported slots is
      emitted, rounded up, with the waiter's own file id and the incoming
      message. Counter, results and workers stay as they were. */
  function OnProgress(w: Waiter, slot: string, fileId: FileId, progress: real, message: string): (r: Waiter)
    ensures Contains(r.progress, slot) && Get(r.progress, slot) == progress
    ensures forall s :: s != slot ==> Lookup(r.progress, s) == Lookup(w.progress, s)
    ensures r.progress != []
    ensures r.events == w.events + [Progress(w.fileId, CombinedPercent(r.progress), message)]
    ensures r == w.(progress := r.progress, events := r.events)
  {
    var progressDict := Put(w.progress, slot, progress);
    w.(progress := progressDict,
       events := w.events + [Progress(w.fileId, CombinedPercent(progressDict), message)])
  }

  /** `receive_error(slot_id, file_id, err_tuple)`: the error and `finished`
      are emitted and nothing else changes. The handler first prints
      `err_tuple[0]`, so an empty tuple raises IndexError before either
      signal. */
  function OnError(w: Waiter, slot: string, fileId: FileId, errTuple: Tuple): (r: Outcome<Waiter>)
    ensures r.Raised? <==> errTuple == []
    ensures r.Raised? ==> r.error == IndexError
    ensures r.Ok? ==> r.value == w.(events := w.events + [Error(fileId, errTuple), Finished])
  {
    if errTuple == [] then Raised(IndexError)
    else Ok(w.(events := w.events + [Error(fileId, errTuple), Finished]))
  }

  // ----- properties of the combined progress -----

  /** A slot that has not reported does not count: the first report `p` is
      emitted as `ceil(p)`, however many slots are registered. */
  lemma FirstReportIsItsCeiling(w: Waiter, slot: string, fileId: FileId, p: real, message: string)
    requires w.progress == []
    ensures OnProgress(w, slot, fileId, p, message).events[|w.events|].percent == Ceil(p)
  {
    var r := OnProgress(w, slot, fileId, p, message);
    assert r.progress == [Item(slot, p)];
    assert Values(r.progress) == [p];
    assert Sum([p]) == p;
  }

  lemma {:induction false} SumWithin(vs: seq<real>, lo: real, hi: real)
    requires forall v :: v in vs ==> lo <= v <= hi
    ensures (|vs| as real) * lo <= Sum(vs) <= (|vs| as real) * hi
  {
    if vs != [] {
      assert vs[0] in vs && forall v :: v in vs[1..] ==> v in vs;
      SumWithin(vs[1..], lo, hi);
      assert (|vs| as real) * lo == (|vs[1..]| as real) * lo + lo;
      assert (|vs| as real) * hi == (|vs[1..]| as real) * hi + hi;
    }
  }

  /** The mean lies within any bounds that hold of every value. */
  lemma MeanWithin(vs: seq<real>, lo: real, hi: real)
    requires vs != []
    requires forall v :: v in vs ==> lo <= v <= hi
    ensures lo <= Mean(vs) <= hi
  {
    SumWithin(vs, lo, hi);
    var n := |vs| as real;
    assert Mean(vs) * n == Sum(vs);
  }

  lemma CeilMonotone(x: real, y: real)
    requires x <= y
    ensures Ceil(x) <= Ceil(y)
  {
  }

  /** For percentages: when every recorded value and the new report lie in
      [0, 100], so does the emitted value, and it lies between the ceilings
      of the smallest and the largest recorded value. */
  lemma CombinedPercentBounds(w: Waiter, slot: string, fileId: FileId, p: real, message: string)
    requires 0.0 <= p <= 100.0
    requires forall v :: v in Values(w.progress) ==> 0.0 <= v <= 100.0
    ensures var r := OnProgress(w, slot, fileId, p, message);
      var pct := r.events[|w.events|].percent;
      && 0 <= pct <= 100
      && Ceil(Min(Values(r.progress))) <= pct <= Ceil(Max(Values(r.progress)))
  {
    var r := OnProgress(w, slot, fileId, p, message);
    var vs := Values(r.progress);
    PutValues(w.progress, slot, p);
    MeanWithin(vs, 0.0, 100.0);
    MeanWithin(vs, Min(vs), Max(vs));
    CeilMonotone(Min(vs), Mean(vs));
    CeilMonotone(Mean(vs), Max(vs));
  }

  // ----- the join over several deliveries -----

  /** Registers the slots in order; the first mismatching worker raises and
      stops the sequence. */
  function RegisterAll(w: Waiter, regs: Dict<Leg>): Outcome<Waiter>
  {
    if regs == [] then Ok(w)
    else
      match RegisterAll(w, regs[..|regs| - 1])
      case Raised(e) => Raised(e)
      case Ok(v) => Register(v, regs[|regs| - 1].key, regs[|regs| - 1].value)
  }

  /** Registering workers of the waiter's own task always succeeds and raises
      the counter by the number of calls, repeated slots included; nothing
      but the workers and the counter changes. */
  lemma {:induction false} RegisterAllCounts(w: Waiter, regs: Dict<Leg>)
    requires forall i :: 0 <= i < |regs| ==> regs[i].value.fileId == w.fileId
    ensures RegisterAll(w, regs).Ok?
    ensures RegisterAll(w, regs).value.count == w.count + |regs|
    ensures RegisterAll(w, regs).value == w.(workers := RegisterAll(w, regs).value.workers,
                                               count := w.count + |regs|)
  {
    if regs != [] {
      RegisterAllCounts(w, regs[..|regs| - 1]);
    }
  }

  /** Delivers one result per entry, in order, each carrying the waiter's file id. */
  function DeliverResults(w: Waiter, ds: Dict<Tuple>): Waiter
  {
    if ds == [] then w
    else
      var v := DeliverResults(w, ds[..|ds| - 1]);
      OnResult(v, ds[|ds| - 1].key, v.fileId, ds[|ds| - 1].value)
  }

  /** A slot that delivers twice is counted twice. With two results awaited,
      a repeat before the other slot has delivered fires the join early,
      carrying only the repeated slot's latest payload; the other slot's
      later delivery drives the counter below zero and emits again. */
  lemma RepeatBeforeJoinFiresEarly(w: Waiter, slot: string, other: string, x: Tuple, y: Tuple, z: Tuple)
    requires w.count == 2 && w.results == [] && slot != other
    ensures var twice := OnResult(OnResult(w, slot, w.fileId, x), slot, w.fileId, y);
      && twice.count == 0
      && twice.events == w.events + [Result(w.fileId, [Item(slot, y)])]
      && !Contains(twice.results, other)
    ensures var late := OnResult(OnResult(OnResult(w, slot, w.fileId, x), slot, w.fileId, y), other, w.fileId, z);
      && late.count == -1
      && late.events == w.events + [Result(w.fileId, [Item(slot, y)]),
                                    Result(w.fileId, [Item(slot, y), Item(other, z)])]
  {
    var once := OnResult(w, slot, w.fileId, x);
    assert once.results == [Item(slot, x)];
    var twice := OnResult(once, slot, w.fileId, y);
    assert Keys(twice.results) == [slot];
    assert twice.results == [Item(slot, y)];
    assert !Contains(twice.results, other);
    var late := OnResult(twice, other, w.fileId, z);
    assert late.results == [Item(slot, y), Item(other, z)];
    assert late.events == twice.events + [Result(w.fileId, late.results)];
  }

  /** While results are still awaited nothing is emitted; the delivery that
      brings the counter to zero emits the one combined result, carrying
      every payload in delivery order. */
  lemma {:induction false} DeliverResultsJoin(w: Waiter, ds: Dict<Tuple>)
    requires w.results == [] && Distinct(ds) && |ds| <= w.count
    ensures var v := DeliverResults(w, ds);
      && v.count == w.count - |ds|
      && v.results == ds
      && v.fileId == w.fileId
      && v.events == w.events + (if |ds| == w.count && ds != [] then [Result(w.fileId, ds)] else [])
  {
    if ds != [] {
      var init, last := ds[..|ds| - 1], ds[|ds| - 1];
      assert Distinct(init) by {
        forall i, j | 0 <= i < j < |init| ensures init[i].key != init[j].key {
          assert init[i] == ds[i] && init[j] == ds[j];
        }
      }
      DeliverResultsJoin(w, init);
      var v := DeliverResults(w, init);
      assert !Contains(init, last.key);
      assert Put(v.results, last.key, last.value) == ds by {
        assert init + [last] == ds;
      }
      var r := DeliverResults(w, ds);
      assert r == OnResult(v, last.key, v.fileId, last.value);
      assert r.count == w.count - |ds|;
      assert r.results == ds;
      assert 0 < v.count;
      assert v.events == w.events;
    }
  }

  /** With N slots of the waiter's own task registered on a fresh waiter and
      each slot delivering exactly one result, in any order, exactly one
      event is emitted: the combined result on the N-th delivery, carrying
      all N payloads. */
  lemma JoinFiresOnce(fileId: FileId, name: string, categoryList: seq<string>,
                      blenderVersion: string, renderEngine: string,
                      regs: Dict<Leg>, ds: Dict<Tuple>)
    requires Distinct(regs) && Distinct(ds) && regs != []
    requires forall i :: 0 <= i < |regs| ==> regs[i].value.fileId == fileId
    requires multiset(Keys(ds)) == multiset(Keys(regs))
    ensures var w0 := Initial(fileId, name, categoryList, blenderVersion, renderEngine);
      && RegisterAll(w0, regs).Ok?
      && DeliverResults(RegisterAll(w0, regs).value, ds).events == [Result(fileId, ds)]
  {
    var w0 := Initial(fileId, name, categoryList, blenderVersion, renderEngine);
    RegisterAllCounts(w0, regs);
    assert |ds| == |Keys(ds)| == |multiset(Keys(ds))| == |regs|;
    DeliverResultsJoin(RegisterAll(w0, regs).value, ds);
  }

  /** The success path never emits `finished`: only an error does. */
  lemma SuccessPathNeverFinishes(w: Waiter, ds: Dict<Tuple>)
    requires Finished !in w.events
    ensures Finished !in DeliverResults(w, ds).events
  {
    if ds != [] {
      SuccessPathNeverFinishes(w, ds[..|ds| - 1]);
    }
  }

  /** An error short-circuits the join: whatever the counter and the
      results, it emits the error and `finished` and leaves the counter, the
      progress and the results alone. */
  lemma ErrorShortCircuits(w: Waiter, slot: string, fileId: FileId, errTuple: Tuple)
    requires errTuple != []
    ensures var r := OnError(w, slot, fileId, errTuple);
      && r.Ok?
      && r.value.events[|w.events|..] == [Error(fileId, errTuple), Finished]
      && r.value.count == w.count && r.value.progress == w.progress && r.value.results == w.results
  {
    var r := OnError(w, slot, fileId, errTuple).value;
    assert r.events[|w.events|..] == [Error(fileId, errTuple), Finished];
  }

  // ----- the object -----

  /** `UploadWaiterWorker`: the task metadata it was created with, the
      counter, the three dicts and the signals emitted so far. */
  class UploadWaiterWorker {
    const fileId: FileId
    const name: string
    const categoryList: seq<string>
    const blenderVersion: string
    const renderEngine: string
    var count: int
    var workerDict: Dict<Leg>
    var progressDict: Dict<real>
    var resultDict: Dict<Tuple>
    var events: seq<Event>

    function State(): Waiter
      reads this
    {
      Waiter(fileId, name, categoryList, blenderVersion, renderEngine,
             count, workerDict, progressDict, resultDict, events)
    }

    constructor (fileId: FileId, name: string, categoryList: seq<string>,
                 blenderVersion: string, renderEngine: string)
      ensures State() == Initial(fileId, name, categoryList, blenderVersion, renderEngine)
    {
      this.fileId := fileId;
      this.name := name;
      this.categoryList := categoryList;
      this.blenderVersion := blenderVersion;
      this.renderEngine := renderEngine;
      count := 0;
      workerDict := [];
      progressDict := [];
      resultDict := [];
      events := [];
    }

    /** `add_upload_worker`: `raised` is the ValueError of a mismatching
        worker, in which case nothing changed. */
    method AddUploadWorker(slotId: string, worker: Leg) returns (raised: Option<Exception>)
      modifies this
      ensures raised.Some? <==> Register(old(State()), slotId, worker).Raised?
      ensures raised.Some? ==> raised.value == Register(old(State()), slotId, worker).error
      ensures State() == match Register(old(State()), slotId, worker)
                         case Ok(v) => v
                         case Raised(_) => old(State())
    {
      if worker.fileId != fileId {
        return Some(ValueError("File ID mismatch"));
      }
      workerDict := Put(workerDict, slotId, worker);
      count := count + 1;
      raised := None;
    }

    method ReceiveResult(slotId: string, fileId: FileId, result: Tuple)
      modifies this
      ensures State() == OnResult(old(State()), slotId, fileId, result)
    {
      count := count - 1;
      resultDict := Put(resultDict, slotId, result);
      if count > 0 {
        return;
      }
      events := events + [Result(fileId, resultDict)];
    }

    method ReceiveProgressMessage(slotId: string, fileId: FileId, progress: real, message: string)
      modifies this
      ensures State() == OnProgress(old(State()), slotId, fileId, progress, message)
    {
      progressDict := Put(progressDict, slotId, progress);
      events := events + [Progress(this.fileId, Ceil(Sum(Values(progressDict)) / (|progressDict| as real)), message)];
    }

    /** `receive_error`: `raised` is the IndexError of an empty error tuple,
        in which case nothing changed. */
    method ReceiveError(slotId: string, fileId: FileId, errTuple: Tuple) returns (raised: Option<Exception>)
      modifies this
      ensures raised.Some? <==> OnError(old(State()), slotId, fileId, errTuple).Raised?
      ensures raised.Some? ==> raised.value == OnError(old(State()), slotId, fileId, errTuple).error
      ensures State() == match OnError(old(State()), slotId, fileId, errTuple)
                         case Ok(v) => v
                         case Raised(_) => old(State())
    {
      if errTuple == [] {
        return Some(IndexError);
      }
      events := events + [Error(fileId, errTuple), Finished];
      raised := None;
    }
  }
}
