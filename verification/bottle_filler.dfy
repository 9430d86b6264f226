/**
 * The fill-control engine. Stations are objects in a heap addressed by handle; the
 * registry maps each id to the handle of its object, and an auto-fill task holds the
 * handle of the object it was started for, as the firmware's task holds a pointer.
 * Every hardware write is "set the duty of channel c to d", kept as a channel -> duty
 * map. Concurrency is modelled as atomic steps of one state machine (see Scheduler):
 * each function here is one such step, or one operation performed within a step.
 */
module BottleFiller {
  import opened Wrappers
  import opened FixedWidth
  import opened Payload
  import opened Config
  import opened Input
  import opened Registry

  /** Full scale of the 13-bit pulse-width outputs. */
  const MaxDuty: uint16 := 8192
  /** The scheduler's tick rate: one tick is 10 ms. */
  const TickRateHz: nat := 100
  /** How long a bulk replace waits for running loops to notice the cleared flags. */
  const SettleMs: uint32 := 1000

  /** The duty a speed percentage asks for: `(maxDuty / 100) * speed`, in integer arithmetic. */
  function DutyFor(speed: uint8): (d: uint16)
    ensures d % 81 == 0 && d / 81 == speed
    ensures speed <= 100 ==> d <= 8100 < MaxDuty
  {
    (MaxDuty / 100) * speed
  }

  /** `pdMS_TO_TICKS`: milliseconds to ticks in 32-bit arithmetic (the product can wrap). */
  function MsToTicks(ms: uint32): (t: uint32)
    ensures ms * TickRateHz < 0x1_0000_0000 ==> t == ms / 10
  {
    ToUint32(ms * TickRateHz) / 1000
  }

  /** An auto-fill task: created but not yet run, or inside its loop with its deadline (in ticks). */
  datatype Phase = Created | Looping(stopAt: nat)
  datatype Task = Task(obj: nat, phase: Phase)

  /** What the command-handling task is blocked in, if anything. */
  datatype Pending =
    | Ready
    | ManualHold(obj: nat, until: nat)           // the timed manual fill's delay
    | Settling(items: seq<Json>, until: nat)     // the bulk replace's settle delay

  /** The persisted settings: the station list as submitted, and the output inversion flag. */
  datatype Store = Store(fillers: Option<seq<Json>>, invertOutputs: Option<bool>)

  datatype Engine = Engine(
    objects: seq<FillerConfig>,   // every station object ever allocated, by handle
    fillers: map<uint8, nat>,     // the registry: id -> handle
    inputs: seq<Input>,           // button bindings, in polling order
    run: bool,
    interruptRun: bool,
    polling: bool,                // the input polling loop is alive
    tasks: map<nat, Task>,        // live auto-fill tasks
    nextTask: nat,
    duty: map<uint8, uint16>,     // channel -> duty; an unwritten channel is off
    invertOutputs: bool,
    store: Store,
    pending: Pending,
    clock: nat)                   // the tick count

  // ---------------------------------------------------------------- invariants

  /** Every registry entry points at an allocated object whose id is its key. */
  predicate RegistryValid(e: Engine) {
    forall k | k in e.fillers :: e.fillers[k] < |e.objects| && e.objects[e.fillers[k]].id == k
  }

  /**
   * Every live task runs on an allocated object that is not Idle, and no two live tasks
   * run on the same object: at most one auto-fill is outstanding per station.
   */
  predicate TasksValid(e: Engine) {
    && (forall t | t in e.tasks :: t < e.nextTask && e.tasks[t].obj < |e.objects| && e.objects[e.tasks[t].obj].status != Idle)
    && (forall t1, t2 | t1 in e.tasks && t2 in e.tasks && t1 != t2 :: e.tasks[t1].obj != e.tasks[t2].obj)
  }

  predicate PendingValid(e: Engine) {
    e.pending.ManualHold? ==> e.pending.obj < |e.objects|
  }

  predicate Valid(e: Engine) {
    RegistryValid(e) && TasksValid(e) && PendingValid(e)
  }

  /**
   * The single-writer rule for status, as seen from one object: a caller other than the
   * object's own auto-fill task never moves it to Idle, and never moves it from Aborting
   * back to Filling.
   */
  predicate CallerTransition(s: FillerStatus, s': FillerStatus) {
    (s != Idle ==> s' != Idle) && (s' == Filling ==> s != Aborting)
  }

  predicate CallerOnly(e: Engine, e': Engine) {
    && |e.objects| <= |e'.objects|
    && forall h | 0 <= h < |e.objects| :: CallerTransition(e.objects[h].status, e'.objects[h].status)
  }

  lemma CallerOnlyTransitive(e1: Engine, e2: Engine, e3: Engine)
    requires CallerOnly(e1, e2) && CallerOnly(e2, e3)
    ensures CallerOnly(e1, e3)
  {
  }

  /** Validity depends only on the objects, the registry, the tasks and the blocked task's handle. */
  lemma ValidFrame(e: Engine, e': Engine)
    requires Valid(e)
    requires e'.objects == e.objects && e'.fillers == e.fillers && e'.tasks == e.tasks && e'.nextTask == e.nextTask
    requires e'.pending.ManualHold? ==> e'.pending.obj < |e.objects|
    ensures Valid(e')
  {
  }

  /** A status change keeps the engine valid, unless it makes Idle an object a task runs on. */
  lemma SetStatusValid(e: Engine, h: nat, s: FillerStatus)
    requires Valid(e) && h < |e.objects|
    requires s == Idle ==> forall t | t in e.tasks :: e.tasks[t].obj != h
    ensures Valid(e.(objects := e.objects[h := e.objects[h].(status := s)]))
  {
    var e' := e.(objects := e.objects[h := e.objects[h].(status := s)]);
    assert forall k | k in e'.fillers :: e'.objects[e'.fillers[k]].id == e.objects[e.fillers[k]].id;
    assert forall t | t in e'.tasks :: e'.objects[e'.tasks[t].obj].status != Idle by {
      forall t | t in e'.tasks ensures e'.objects[e'.tasks[t].obj].status != Idle {
        if e.tasks[t].obj != h {
          assert e'.objects[e.tasks[t].obj] == e.objects[e.tasks[t].obj];
        }
      }
    }
  }

  /** Creating a task for an Idle object, which becomes Filling, keeps the engine valid. */
  lemma AddTaskValid(e: Engine, h: nat)
    requires Valid(e) && h < |e.objects| && e.objects[h].status == Idle
    ensures
      var e' := e.(objects := e.objects[h := e.objects[h].(status := Filling)]);
      Valid(e'.(tasks := e.tasks[e.nextTask := Task(h, Created)], nextTask := e.nextTask + 1))
  {
    var e1 := e.(objects := e.objects[h := e.objects[h].(status := Filling)]);
    SetStatusValid(e, h, Filling);
    assert e.nextTask !in e.tasks;
    assert forall t | t in e.tasks :: e.tasks[t].obj != h;
  }

  /** Ending a task, and making its object Idle, keeps the engine valid. */
  lemma EndTaskValid(e: Engine, t: nat)
    requires Valid(e) && t in e.tasks
    ensures
      var h := e.tasks[t].obj;
      Valid(e.(objects := e.objects[h := e.objects[h].(status := Idle)], tasks := e.tasks - {t}))
  {
    var e1 := e.(tasks := e.tasks - {t});
    assert Valid(e1);
    SetStatusValid(e1, e.tasks[t].obj, Idle);
  }

  /** Ending a task without touching its object keeps the engine valid. */
  lemma DropTaskValid(e: Engine, t: nat)
    requires Valid(e)
    ensures Valid(e.(tasks := e.tasks - {t}))
  {
  }

  /** Moving a task to another phase keeps the engine valid. */
  lemma RephaseValid(e: Engine, t: nat, p: Phase)
    requires Valid(e) && t in e.tasks
    ensures Valid(e.(tasks := e.tasks[t := Task(e.tasks[t].obj, p)]))
  {
    var e' := e.(tasks := e.tasks[t := Task(e.tasks[t].obj, p)]);
    assert forall u | u in e'.tasks :: e'.tasks[u].obj == e.tasks[u].obj;
  }

  /** Rewriting an object without changing its id or status keeps the engine valid and satisfies the status rule. */
  lemma RewriteValid(e: Engine, h: nat, g: FillerConfig)
    requires Valid(e) && h < |e.objects|
    requires g.id == e.objects[h].id && g.status == e.objects[h].status
    ensures Valid(e.(objects := e.objects[h := g])) && CallerOnly(e, e.(objects := e.objects[h := g]))
  {
    var e' := e.(objects := e.objects[h := g]);
    assert forall i | 0 <= i < |e.objects| :: e'.objects[i].id == e.objects[i].id && e'.objects[i].status == e.objects[i].status;
  }

  /** Objects appended to the heap keep the engine valid and leave every status as it was. */
  lemma AppendValid(e: Engine, e': Engine, extra: seq<FillerConfig>)
    requires Valid(e)
    requires e'.objects == e.objects + extra && e'.fillers == e.fillers && e'.tasks == e.tasks && e'.nextTask == e.nextTask
    requires e'.pending.ManualHold? ==> e'.pending.obj < |e.objects|
    ensures Valid(e') && CallerOnly(e, e')
  {
    assert forall h | 0 <= h < |e.objects| :: e'.objects[h] == e.objects[h];
  }

  /** A single status move the rule allows, on an allocated object, satisfies the rule. */
  lemma SetStatusCallerOnly(e: Engine, h: nat, s: FillerStatus, e': Engine)
    requires h < |e.objects| && CallerTransition(e.objects[h].status, s)
    requires e'.objects == e.objects[h := e.objects[h].(status := s)]
    ensures CallerOnly(e, e')
  {
  }

  /** A step that leaves the objects alone satisfies the rule. */
  lemma SameObjectsCallerOnly(e: Engine, e': Engine)
    requires e'.objects == e.objects
    ensures CallerOnly(e, e')
  {
  }

  /** Changing nothing but channels keeps the engine valid and satisfies the status rule. */
  lemma ChannelsOnlyValid(e: Engine, e': Engine)
    requires Valid(e)
    requires e' == e.(objects := e'.objects) && |e'.objects| == |e.objects|
    requires forall i | 0 <= i < |e.objects| :: e'.objects[i] == e.objects[i].(channel := e'.objects[i].channel)
    ensures Valid(e') && CallerOnly(e, e')
  {
    assert forall i | 0 <= i < |e.objects| :: e'.objects[i].id == e.objects[i].id && e'.objects[i].status == e.objects[i].status;
  }

  /** No handle below `n` is registered when every registered handle is at least `n`. */
  lemma BelowHandles(fillers: map<uint8, nat>, n: nat)
    requires forall k | k in fillers :: fillers[k] >= n
    ensures forall h | 0 <= h < n :: h !in fillers.Values
  {
    forall h | 0 <= h < n ensures h !in fillers.Values {
    }
  }

  // ---------------------------------------------------------------- views

  /** The registry as a map from id to station record. */
  function View(e: Engine): (m: map<uint8, FillerConfig>)
    requires RegistryValid(e)
    ensures m.Keys == e.fillers.Keys
    ensures forall k | k in m :: m[k].id == k
  {
    map k | k in e.fillers :: e.objects[e.fillers[k]]
  }

  /** The registry view is a given map when the keys and the objects they lead to agree with it. */
  lemma ViewIs(e: Engine, m: map<uint8, FillerConfig>)
    requires RegistryValid(e)
    requires e.fillers.Keys == m.Keys
    requires forall k | k in e.fillers :: e.objects[e.fillers[k]] == m[k]
    ensures View(e) == m
  {
    assert View(e).Keys == m.Keys;
  }

  /** The stations in the registry's iteration order: ascending id. */
  function Stations(e: Engine): (r: seq<FillerConfig>)
    requires RegistryValid(e)
    ensures forall i | 0 <= i < |r| :: r[i].id in e.fillers && r[i] == e.objects[e.fillers[r[i].id]]
    ensures forall i, j | 0 <= i < j < |r| :: r[i].id < r[j].id
  {
    var ids := AscendingIds(e.fillers.Keys);
    forall i | 0 <= i < |ids| ensures ids[i] in e.fillers {
      assert ids[i] in ids;
    }
    var r := seq(|ids|, i requires 0 <= i < |ids| => e.objects[e.fillers[ids[i]]]);
    forall i | 0 <= i < |r| ensures r[i].id == ids[i] {
      assert r[i] == e.objects[e.fillers[ids[i]]];
    }
    r
  }

  /** The views depend only on the objects and the registry. */
  lemma ViewFrame(e: Engine, e': Engine)
    requires RegistryValid(e) && e'.objects == e.objects && e'.fillers == e.fillers
    ensures RegistryValid(e') && View(e') == View(e) && Stations(e') == Stations(e)
  {
  }

  /** Every registered station is listed. */
  lemma StationsCover(e: Engine, k: uint8)
    requires RegistryValid(e) && k in e.fillers
    ensures exists i | 0 <= i < |Stations(e)| :: Stations(e)[i].id == k
  {
    var ids := AscendingIds(e.fillers.Keys);
    assert k in ids;
    var i :| 0 <= i < |ids| && ids[i] == k;
    assert Stations(e)[i].id == k;
  }

  /** The duty last written to a channel; a channel never written is off. */
  function Duty(e: Engine, ch: uint8): uint16 {
    if ch in e.duty then e.duty[ch] else 0
  }

  /** The status of a station by id, as the registry sees it. */
  function StatusOf(e: Engine, id: uint8): FillerStatus
    requires RegistryValid(e) && id in e.fillers
  {
    e.objects[e.fillers[id]].status
  }

  // ---------------------------------------------------------------- auto fill

  /**
   * `start`: the toggle. An absent id is ignored. An Idle station becomes Filling and
   * exactly one auto-fill task is created for it; the duty is left to that task. A
   * Filling or Aborting station has its channel switched off at once and becomes
   * Aborting; no task is created.
   */
  function Start(e: Engine, id: uint8): (r: Engine)
    requires Valid(e)
    ensures Valid(r) && CallerOnly(e, r) && r.clock == e.clock
    ensures id !in e.fillers ==> r == e
    ensures id in e.fillers ==>
      var h := e.fillers[id];
      var f := e.objects[h];
      && r == e.(objects := e.objects[h := f.(status := r.objects[h].status)], tasks := r.tasks, nextTask := r.nextTask, duty := r.duty)
      && (f.status == Idle ==>
            && r.objects[h].status == Filling
            && e.nextTask !in e.tasks
            && r.tasks == e.tasks[e.nextTask := Task(h, Created)] && r.nextTask == e.nextTask + 1
            && r.duty == e.duty)
      && (f.status != Idle ==>
            r.objects[h].status == Aborting && r.tasks == e.tasks && r.nextTask == e.nextTask && r.duty == e.duty[f.channel := 0])
  {
    if id !in e.fillers then e
    else
      var h := e.fillers[id];
      var f := e.objects[h];
      if f.status == Idle then
        AddTaskValid(e, h);
        SetStatusCallerOnly(e, h, Filling, e.(objects := e.objects[h := f.(status := Filling)],
           tasks := e.tasks[e.nextTask := Task(h, Created)],
           nextTask := e.nextTask + 1));
        e.(objects := e.objects[h := f.(status := Filling)],
           tasks := e.tasks[e.nextTask := Task(h, Created)],
           nextTask := e.nextTask + 1)
      else
        SetStatusValid(e, h, Aborting);
        var e1 := e.(objects := e.objects[h := f.(status := Aborting)]);
        ValidFrame(e1, e1.(duty := e.duty[f.channel := 0]));
        SetStatusCallerOnly(e, h, Aborting, e1.(duty := e.duty[f.channel := 0]));
        e1.(duty := e.duty[f.channel := 0])
  }

  /**
   * The auto-fill task's first step (up to its first duty write): a station with id 0 is
   * refused and the task ends without touching the status; otherwise the deadline
   * `now + fillTime / 10` ticks is fixed and the channel is driven at the auto-fill duty.
   * The status is not consulted here.
   */
  function TaskSpawn(e: Engine, t: nat): (r: Engine)
    requires Valid(e)
    ensures Valid(r) && r.clock == e.clock
    ensures r.objects == e.objects
    ensures !(t in e.tasks && e.tasks[t].phase.Created?) ==> r == e
    ensures t in e.tasks && e.tasks[t].phase.Created? ==>
      var f := e.objects[e.tasks[t].obj];
      && (f.id == 0 ==> r == e.(tasks := e.tasks - {t}))
      && (f.id != 0 ==>
            r == e.(duty := e.duty[f.channel := DutyFor(f.autoFillSpeed)],
                    tasks := e.tasks[t := Task(e.tasks[t].obj, Looping(e.clock + f.fillTime / 10))]))
  {
    if t !in e.tasks || !e.tasks[t].phase.Created? then e
    else
      var h := e.tasks[t].obj;
      var f := e.objects[h];
      if f.id < 1 then
        DropTaskValid(e, t);
        e.(tasks := e.tasks - {t})
      else
        var stopAt := e.clock + f.fillTime / 10;
        RephaseValid(e, t, Looping(stopAt));
        var e1 := e.(tasks := e.tasks[t := Task(h, Looping(stopAt))]);
        ValidFrame(e1, e1.(duty := e.duty[f.channel := DutyFor(f.autoFillSpeed)]));
        e1.(duty := e.duty[f.channel := DutyFor(f.autoFillSpeed)])
  }

  /**
   * One pass of the auto-fill loop. While the object is Filling and the deadline has not
   * come, nothing happens (the task sleeps). At the deadline the channel is switched
   * off. Whenever the loop is left, by the deadline or because the status is no longer
   * Filling, the status is set to Idle and the task ends; on the abort path no duty is
   * written.
   */
  function TaskWake(e: Engine, t: nat): (r: Engine)
    requires Valid(e)
    ensures Valid(r) && r.clock == e.clock
    ensures !(t in e.tasks && e.tasks[t].phase.Looping?) ==> r == e
    ensures t in e.tasks && e.tasks[t].phase.Looping? ==>
      var h := e.tasks[t].obj;
      var f := e.objects[h];
      var due := e.clock >= e.tasks[t].phase.stopAt;
      && (f.status == Filling && !due ==> r == e)
      && (f.status != Filling || due ==>
            && r.objects == e.objects[h := f.(status := Idle)]
            && r.tasks == e.tasks - {t}
            && r.duty == (if f.status == Filling then e.duty[f.channel := 0] else e.duty)
            && r == e.(objects := r.objects, tasks := r.tasks, duty := r.duty))
  {
    if t !in e.tasks || !e.tasks[t].phase.Looping? then e
    else
      var h := e.tasks[t].obj;
      var f := e.objects[h];
      if f.status == Filling && e.clock < e.tasks[t].phase.stopAt then e
      else
        var e1 := if f.status == Filling then e.(duty := e.duty[f.channel := 0]) else e;
        ValidFrame(e, e1);
        EndTaskValid(e1, t);
        e1.(objects := e.objects[h := f.(status := Idle)], tasks := e.tasks - {t})
  }

  // ---------------------------------------------------------------- manual fill

  /**
   * `startManualFill` for a held button: an absent id, or a station that is not Idle, is
   * ignored; otherwise the channel is driven at the manual duty. The status is never
   * touched.
   */
  function ManualStart(e: Engine, id: uint8): (r: Engine)
    requires Valid(e)
    ensures Valid(r) && CallerOnly(e, r)
    ensures r == e.(duty := r.duty)
    ensures id !in e.fillers || StatusOf(e, id) != Idle ==> r == e
    ensures id in e.fillers && StatusOf(e, id) == Idle ==>
      var f := e.objects[e.fillers[id]];
      r.duty == e.duty[f.channel := DutyFor(f.manualFillSpeed)]
  {
    if id !in e.fillers then e
    else
      var f := e.objects[e.fillers[id]];
      if f.status != Idle then e
      else e.(duty := e.duty[f.channel := DutyFor(f.manualFillSpeed)])
  }

  /**
   * `startManualFill` with a duration, first half: the same guard as the button variant,
   * then the channel is driven at the manual duty and the calling task blocks until
   * `time` milliseconds have passed. The status is never touched.
   */
  function ManualTimedStart(e: Engine, id: uint8, time: uint32): (r: Engine)
    requires Valid(e)
    ensures Valid(r) && CallerOnly(e, r) && r.clock == e.clock
    ensures r == e.(duty := r.duty, pending := r.pending)
    ensures id !in e.fillers || StatusOf(e, id) != Idle ==> r == e
    ensures id in e.fillers && StatusOf(e, id) == Idle ==>
      var h := e.fillers[id];
      && r.duty == e.duty[e.objects[h].channel := DutyFor(e.objects[h].manualFillSpeed)]
      && r.pending == ManualHold(h, e.clock + MsToTicks(time))
  {
    if id !in e.fillers then e
    else
      var h := e.fillers[id];
      var f := e.objects[h];
      if f.status != Idle then e
      else e.(duty := e.duty[f.channel := DutyFor(f.manualFillSpeed)], pending := ManualHold(h, e.clock + MsToTicks(time)))
  }

  /**
   * `stopManualFill`: an absent id is ignored; otherwise the channel is switched off,
   * whatever the station is doing. The status is never touched.
   */
  function ManualStop(e: Engine, id: uint8): (r: Engine)
    requires Valid(e)
    ensures Valid(r) && CallerOnly(e, r)
    ensures r == e.(duty := r.duty)
    ensures id !in e.fillers ==> r == e
    ensures id in e.fillers ==> r.duty == e.duty[e.objects[e.fillers[id]].channel := 0]
  {
    if id !in e.fillers then e
    else e.(duty := e.duty[e.objects[e.fillers[id]].channel := 0])
  }

  /** Stopping a manual fill twice is the same as stopping it once. */
  lemma ManualStopIdempotent(e: Engine, id: uint8)
    requires Valid(e)
    ensures ManualStop(ManualStop(e, id), id) == ManualStop(e, id)
  {
  }

  // ---------------------------------------------------------------- registry operations

  /** The handles a list of entries gets when appended after `base` objects and inserted in order. */
  function InstallKeys(base: nat, es: seq<FillerConfig>): (m: map<uint8, nat>)
    ensures m.Keys == KeyById(es).Keys
    decreases |es|
  {
    if |es| == 0 then map[]
    else InstallKeys(base, es[..|es| - 1])[es[|es| - 1].id := base + |es| - 1]
  }

  /** Each handle points, within the appended block, at the entry the registry keeps for its id. */
  lemma {:induction false} InstallKeysAt(base: nat, es: seq<FillerConfig>, k: uint8)
    requires k in InstallKeys(base, es)
    ensures base <= InstallKeys(base, es)[k] < base + |es|
    ensures es[InstallKeys(base, es)[k] - base] == KeyById(es)[k]
    decreases |es|
  {
    var prefix, last := es[..|es| - 1], es[|es| - 1];
    if k != last.id {
      InstallKeysAt(base, prefix, k);
      assert es[InstallKeys(base, prefix)[k] - base] == prefix[InstallKeys(base, prefix)[k] - base];
    }
  }

  /** Replaces the registry by `es` inserted in order, appending fresh objects for them. */
  function Install(e: Engine, es: seq<FillerConfig>): (r: Engine)
    requires Valid(e)
    ensures Valid(r) && CallerOnly(e, r)
    ensures r == e.(objects := e.objects + es, fillers := r.fillers)
    ensures forall k | k in r.fillers :: r.fillers[k] >= |e.objects|
    ensures View(r) == KeyById(es)
  {
    var m := InstallKeys(|e.objects|, es);
    var objects := e.objects + es;
    forall k | k in m
      ensures |e.objects| <= m[k] < |objects| && objects[m[k]] == KeyById(es)[k]
    {
      InstallKeysAt(|e.objects|, es, k);
      assert objects[m[k]] == es[m[k] - |e.objects|];
    }
    var e1 := e.(objects := objects);
    AppendValid(e, e1, es);
    var r := e1.(fillers := m);
    assert RegistryValid(r);
    ViewIs(r, KeyById(es));
    r
  }

  /** The objects with the channels of registered stations derived from their ids. */
  function Rechannel(objects: seq<FillerConfig>, live: set<nat>): (r: seq<FillerConfig>)
    ensures |r| == |objects|
    ensures forall i | 0 <= i < |r| :: r[i] == objects[i].(channel := r[i].channel)
    ensures forall i | 0 <= i < |r| :: r[i].channel == (if i in live then ChannelFor(objects[i].id) else objects[i].channel)
  {
    seq(|objects|, i requires 0 <= i < |objects| =>
      if i in live then objects[i].(channel := ChannelFor(objects[i].id)) else objects[i])
  }

  /** The channels of the given station ids. */
  function ChannelsOf(ids: set<uint8>): set<uint8> {
    set k | k in ids :: ChannelFor(k)
  }

  /** Each registered station's channel derived from its id; nothing else changes. */
  function AssignChannels(e: Engine): (r: Engine)
    requires Valid(e)
    ensures Valid(r) && CallerOnly(e, r)
    ensures r == e.(objects := r.objects) && |r.objects| == |e.objects|
    ensures forall i | 0 <= i < |r.objects| :: r.objects[i] == e.objects[i].(channel := r.objects[i].channel)
    ensures forall i | 0 <= i < |r.objects| && i !in e.fillers.Values :: r.objects[i] == e.objects[i]
    ensures View(r) == map k | k in View(e) :: View(e)[k].(channel := ChannelFor(k))
  {
    var r := e.(objects := Rechannel(e.objects, e.fillers.Values));
    ChannelsOnlyValid(e, r);
    forall k | k in e.fillers
      ensures r.objects[r.fillers[k]] == View(e)[k].(channel := ChannelFor(k))
    {
      assert e.fillers[k] in e.fillers.Values;
    }
    ViewIs(r, map k | k in View(e) :: View(e)[k].(channel := ChannelFor(k)));
    r
  }

  /** The given channels configured with duty 0; every other channel keeps its duty. */
  function ZeroChannels(duty: map<uint8, uint16>, chans: set<uint8>): (d: map<uint8, uint16>)
    ensures forall c | c in chans :: c in d && d[c] == 0
    ensures forall c | c !in chans :: (c in d <==> c in duty) && (c in duty ==> d[c] == duty[c])
  {
    duty + map c | c in chans :: 0 as uint16
  }

  /** The bindings of the registered stations appended, in ascending id order; nothing else changes. */
  function AppendBindings(e: Engine): (r: Engine)
    requires Valid(e)
    ensures Valid(r) && CallerOnly(e, r)
    ensures r == e.(inputs := r.inputs) && r.objects == e.objects && r.fillers == e.fillers
  {
    var r := e.(inputs := e.inputs + Bindings(Stations(e), 0));
    ValidFrame(e, r);
    ViewFrame(e, r);
    SameObjectsCallerOnly(e, r);
    r
  }

  /**
   * `initFillers`: each registered station gets channel `id - 1` and its channel is
   * configured with duty 0; then, walking the stations in ascending id order, a binding
   * is appended for each button pin above 0, numbered from 1.
   */
  function InitFillers(e: Engine): (r: Engine)
    requires Valid(e)
    ensures Valid(r) && CallerOnly(e, r)
    ensures r == e.(objects := r.objects, inputs := r.inputs, duty := r.duty)
    ensures |r.objects| == |e.objects|
    ensures forall i | 0 <= i < |r.objects| :: r.objects[i] == e.objects[i].(channel := r.objects[i].channel)
    ensures forall i | 0 <= i < |r.objects| && i !in e.fillers.Values :: r.objects[i] == e.objects[i]
  {
    var e1 := AssignChannels(e);
    var e2 := e1.(duty := ZeroChannels(e.duty, ChannelsOf(e.fillers.Keys)));
    ValidFrame(e1, e2);
    ViewFrame(e1, e2);
    SameObjectsCallerOnly(e1, e2);
    CallerOnlyTransitive(e, e1, e2);
    var r := AppendBindings(e2);
    CallerOnlyTransitive(e, e2, r);
    r
  }

  /**
   * After `initFillers`, the registry holds the same stations, each on channel `id - 1`,
   * and the bindings appended are those of the stations as they now are.
   */
  lemma InitFillersRegistry(e: Engine)
    requires Valid(e)
    ensures View(InitFillers(e)) == map k | k in View(e) :: View(e)[k].(channel := ChannelFor(k))
    ensures InitFillers(e).inputs == e.inputs + Bindings(Stations(InitFillers(e)), 0)
  {
    var e1 := AssignChannels(e);
    var e2 := e1.(duty := ZeroChannels(e.duty, ChannelsOf(e.fillers.Keys)));
    ValidFrame(e1, e2);
    ViewFrame(e1, e2);
    var r := AppendBindings(e2);
    assert InitFillers(e) == r;
    ViewFrame(e2, r);
    assert r.inputs == e.inputs + Bindings(Stations(e2), 0);
  }

  /** `initFillers` switches off the channel of every registered station and touches no other channel. */
  lemma InitFillersDuty(e: Engine)
    requires Valid(e)
    ensures forall k | k in e.fillers :: Duty(InitFillers(e), ChannelFor(k)) == 0
    ensures forall c | c !in ChannelsOf(e.fillers.Keys) :: Duty(InitFillers(e), c) == Duty(e, c)
  {
    var d := ZeroChannels(e.duty, ChannelsOf(e.fillers.Keys));
    assert InitFillers(e).duty == d;
    assert forall k | k in e.fillers :: ChannelFor(k) in ChannelsOf(e.fillers.Keys);
  }

  /** Every station an operation leaves in the registry was built from the given records. */
  predicate RegistryIs(e: Engine, m: map<uint8, FillerConfig>)
    requires RegistryValid(e)
  {
    View(e) == map k | k in m :: m[k].(channel := ChannelFor(k))
  }

  /**
   * `saveFillerSettings`, first half: a non-array payload changes nothing; otherwise the
   * engine is put on hold (`run` and `interruptRun` cleared) and the calling task waits
   * for the settle interval.
   */
  function SaveStart(e: Engine, data: Json): (r: Engine)
    requires Valid(e)
    ensures Valid(r) && CallerOnly(e, r) && r.clock == e.clock
    ensures !data.JArr? ==> r == e
    ensures data.JArr? ==>
      r == e.(run := false, interruptRun := false, pending := Settling(data.items, e.clock + MsToTicks(SettleMs)))
  {
    if !data.JArr? then e
    else e.(run := false, interruptRun := false, pending := Settling(data.items, e.clock + MsToTicks(SettleMs)))
  }

  /**
   * `saveFillerSettings`, second half, after the settle interval: the registry and the
   * bindings are cleared, the submitted elements are installed with fresh ids, the
   * submitted list is persisted as given, the stations are re-initialised, `run` is set
   * and `interruptRun` (with a new polling loop) only when there is a binding. `None`
   * stands for an element that throws while being decoded. The old objects stay where
   * they were, and so do the tasks running on them.
   */
  function SaveFinish(e: Engine, items: seq<Json>): (r: Option<Engine>)
    requires Valid(e)
    ensures r.Some? <==> SaveEntries(items).Some?
    ensures r.Some? ==>
      && Valid(r.value) && CallerOnly(e, r.value)
      && r.value.store == e.store.(fillers := Some(items))
      && r.value.run && r.value.interruptRun == (|r.value.inputs| > 0) && r.value.polling == r.value.interruptRun
      && r.value.pending == Ready && r.value.clock == e.clock
      && r.value.tasks == e.tasks && |r.value.objects| >= |e.objects|
      && forall h | 0 <= h < |e.objects| :: r.value.objects[h] == e.objects[h]
  {
    var es :- SaveEntries(items);
    var e1 := Reload(e.(store := e.store.(fillers := Some(items))), es);
    var r := e1.(run := true, interruptRun := |e1.inputs| > 0, polling := |e1.inputs| > 0, pending := Ready);
    ValidFrame(e1, r);
    SameObjectsCallerOnly(e1, r);
    CallerOnlyTransitive(e, e1, r);
    Some(r)
  }

  /**
   * The registry and the bindings replaced by those of `es`, on fresh objects; the old
   * objects, and the tasks running on them, are left as they were.
   */
  function Reload(e: Engine, es: seq<FillerConfig>): (r: Engine)
    requires Valid(e)
    ensures Valid(r) && CallerOnly(e, r)
    ensures r.tasks == e.tasks && |r.objects| >= |e.objects| && forall h | 0 <= h < |e.objects| :: r.objects[h] == e.objects[h]
    ensures r.store == e.store && r.clock == e.clock
  {
    var e0 := e.(inputs := []);
    ValidFrame(e, e0);
    SameObjectsCallerOnly(e, e0);
    var e1 := Install(e0, es);
    assert e1.tasks == e.tasks && e1.store == e.store && e1.clock == e.clock;
    var r := InitFillers(e1);
    assert r.tasks == e1.tasks && r.store == e1.store && r.clock == e1.clock;
    CallerOnlyTransitive(e, e0, e1);
    CallerOnlyTransitive(e, e1, r);
    BelowHandles(e1.fillers, |e.objects|);
    forall h | 0 <= h < |e.objects| ensures r.objects[h] == e.objects[h] {
      assert h !in e1.fillers.Values;
    }
    r
  }

  /** The registry facts of a reload survive a change of the run flags and the hold. */
  lemma RegistryCarries(e: Engine, r: Engine, m: map<uint8, FillerConfig>, lowest: nat)
    requires RegistryValid(e) && RegistryIs(e, m) && e.inputs == Bindings(Stations(e), 0)
    requires forall k | k in e.fillers :: e.fillers[k] >= lowest && Duty(e, ChannelFor(k)) == 0
    requires r.objects == e.objects && r.fillers == e.fillers && r.duty == e.duty && r.inputs == e.inputs
    ensures RegistryValid(r) && RegistryIs(r, m) && r.inputs == Bindings(Stations(r), 0)
    ensures forall k | k in r.fillers :: r.fillers[k] >= lowest && Duty(r, ChannelFor(k)) == 0
  {
    ViewFrame(e, r);
  }

  /**
   * After a reload the registry holds exactly the given records, keyed by id (later
   * duplicates overwriting earlier ones), on channel `id - 1` with that channel switched
   * off; every station is a fresh object; the bindings are those of the new stations alone.
   */
  lemma ReloadRegistry(e: Engine, es: seq<FillerConfig>)
    requires Valid(e)
    ensures var r := Reload(e, es);
      && RegistryIs(r, KeyById(es))
      && r.inputs == Bindings(Stations(r), 0)
      && forall k | k in r.fillers :: r.fillers[k] >= |e.objects| && Duty(r, ChannelFor(k)) == 0
  {
    var e0 := e.(inputs := []);
    ValidFrame(e, e0);
    var e1 := Install(e0, es);
    InitFillersRegistry(e1);
    InitFillersDuty(e1);
  }

  /**
   * After a bulk replace the registry holds exactly the submitted elements that were
   * kept, keyed by their new ids, on channel `id - 1` with that channel switched off;
   * every station is a fresh object; the bindings are those of the new stations alone.
   */
  lemma SaveFinishRegistry(e: Engine, items: seq<Json>, es: seq<FillerConfig>)
    requires Valid(e) && SaveEntries(items) == Some(es)
    ensures SaveFinish(e, items).Some?
    ensures var r := SaveFinish(e, items).value;
      && RegistryIs(r, KeyById(es))
      && r.inputs == Bindings(Stations(r), 0)
      && forall k | k in r.fillers :: r.fillers[k] >= |e.objects| && Duty(r, ChannelFor(k)) == 0
  {
    var e0 := e.(store := e.store.(fillers := Some(items)));
    ValidFrame(e, e0);
    var e1 := Reload(e0, es);
    ReloadRegistry(e0, es);
    var r := e1.(run := true, interruptRun := |e1.inputs| > 0, polling := |e1.inputs| > 0, pending := Ready);
    assert SaveFinish(e, items) == Some(r);
    RegistryCarries(e1, r, KeyById(es), |e.objects|);
  }

  /**
   * Once the settle interval of a bulk replace has passed, the handler's return installs
   * exactly the ids 1 to min(n, 6).
   */
  lemma SettleRegisters(e: Engine, items: seq<Json>)
    requires Valid(e) && e.pending.Settling? && e.pending.items == items
    requires |items| <= 0xFF && SaveEntries(items).Some?
    ensures var settled := e.(clock := e.pending.until);
      && Resume(settled).Some?
      && forall x: uint8 :: x in Resume(settled).value.fillers <==> 1 <= x <= Min(|items|, MaxFillers)
  {
    var settled := e.(clock := e.pending.until);
    ValidFrame(e, settled);
    SaveFinishIds(settled, items);
    assert Resume(settled) == SaveFinish(settled, items);
  }

  /**
   * For a list of at most 255 elements, a bulk replace registers exactly the ids 1 to
   * min(n, 6).
   */
  lemma SaveFinishIds(e: Engine, items: seq<Json>)
    requires Valid(e) && |items| <= 0xFF && SaveEntries(items).Some?
    ensures SaveFinish(e, items).Some?
    ensures forall x: uint8 :: x in SaveFinish(e, items).value.fillers <==> 1 <= x <= Min(|items|, MaxFillers)
  {
    var es := SaveEntries(items).value;
    SaveFinishRegistry(e, items, es);
    var r := SaveFinish(e, items).value;
    assert r.fillers.Keys == KeyById(es).Keys by {
      assert View(r).Keys == KeyById(es).Keys;
    }
    SaveEntriesIds(items);
  }

  /**
   * `setFillerSettings`: a non-object payload or an absent id changes nothing; otherwise
   * the station's auto-fill speed, manual-fill speed and fill time are each replaced
   * when the payload holds a number for them, narrowed to the field's width. Nothing
   * else changes: not the id, name or pins, not the channel or the bindings, and nothing
   * is persisted. `None` stands for the exception an `id` that is not a number raises.
   */
  function SetFillerSettings(e: Engine, data: Json): (r: Option<Engine>)
    requires Valid(e)
    ensures !data.JObj? ==> r == Some(e)
    ensures r.Some? <==> !data.JObj? || Number(Field(data.fields, "id")).Some?
    ensures r.Some? ==> Valid(r.value) && CallerOnly(e, r.value) && r.value.clock == e.clock && r.value == e.(objects := r.value.objects)
    ensures r.Some? ==> r.value.pending == e.pending
    ensures r.Some? && data.JObj? ==>
      var id := ToUint8(Number(Field(data.fields, "id")).value);
      && (id !in e.fillers ==> r.value == e)
      && (id in e.fillers ==>
            var h := e.fillers[id];
            var f := e.objects[h];
            var g := r.value.objects[h];
            && r.value.objects == e.objects[h := g]
            && g == f.(autoFillSpeed := g.autoFillSpeed, manualFillSpeed := g.manualFillSpeed, fillTime := g.fillTime)
            && g.autoFillSpeed == (if Field(data.fields, "autoFillSpeed").JNum? then ToUint8(Field(data.fields, "autoFillSpeed").n) else f.autoFillSpeed)
            && g.manualFillSpeed == (if Field(data.fields, "manualFillSpeed").JNum? then ToUint8(Field(data.fields, "manualFillSpeed").n) else f.manualFillSpeed)
            && g.fillTime == (if Field(data.fields, "fillTime").JNum? then ToUint32(Field(data.fields, "fillTime").n) else f.fillTime))
  {
    if !data.JObj? then Some(e)
    else
      var m := data.fields;
      var n :- Number(Field(m, "id"));
      var id := ToUint8(n);
      if id !in e.fillers then Some(e)
      else
        var h := e.fillers[id];
        var f := e.objects[h];
        var auto := Field(m, "autoFillSpeed");
        var manual := Field(m, "manualFillSpeed");
        var time := Field(m, "fillTime");
        // get<int>() reads the number as a 32-bit int; the assignment narrows it again.
        var f1 := if auto.JNum? then f.(autoFillSpeed := ToUint8(ToInt32(ToUint32(auto.n)))) else f;
        var f2 := if manual.JNum? then f1.(manualFillSpeed := ToUint8(ToInt32(ToUint32(manual.n)))) else f1;
        var f3 := if time.JNum? then f2.(fillTime := ToUint32(ToInt32(ToUint32(time.n)))) else f2;
        NarrowNumber(auto);
        NarrowNumber(manual);
        NarrowNumber(time);
        RewriteValid(e, h, f3);
        Some(e.(objects := e.objects[h := f3]))
  }

  /** Reading a number as a 32-bit int and narrowing it again loses nothing more than narrowing once. */
  lemma NarrowNumber(j: Json)
    ensures j.JNum? ==> ToUint8(ToInt32(ToUint32(j.n))) == ToUint8(j.n)
    ensures j.JNum? ==> ToUint32(ToInt32(ToUint32(j.n))) == ToUint32(j.n)
  {
    if j.JNum? {
      NarrowTwice(j.n);
    }
  }

  /** Applying the same partial update twice is the same as applying it once. */
  lemma SetFillerSettingsIdempotent(e: Engine, data: Json)
    requires Valid(e)
    requires SetFillerSettings(e, data).Some?
    ensures SetFillerSettings(SetFillerSettings(e, data).value, data) == SetFillerSettings(e, data)
  {
    var r1 := SetFillerSettings(e, data).value;
    var r2 := SetFillerSettings(r1, data).value;
    if data.JObj? {
      var id := ToUint8(Number(Field(data.fields, "id")).value);
      assert r1.fillers == e.fillers;
      if id in e.fillers {
        var h := e.fillers[id];
        var g1 := r1.objects[h];
        var g2 := r2.objects[h];
        assert g2 == g1.(autoFillSpeed := g2.autoFillSpeed, manualFillSpeed := g2.manualFillSpeed, fillTime := g2.fillTime);
        assert g2.autoFillSpeed == g1.autoFillSpeed && g2.manualFillSpeed == g1.manualFillSpeed && g2.fillTime == g1.fillTime;
        assert r2.objects == r1.objects;
      }
    }
  }

  /**
   * `saveSystemSettingsJson`: `invertOutputs` is replaced, and persisted, only when the
   * payload holds a boolean for it; a payload that is neither an object nor null throws.
   */
  function SaveSystemSettings(e: Engine, data: Json): (r: Option<Engine>)
    requires Valid(e)
    ensures r.Some? <==> data.JObj? || data.JNull?
    ensures r.Some? ==> Valid(r.value) && r.value.clock == e.clock && r.value.pending == e.pending
    ensures r.Some? && !(data.JObj? && Field(data.fields, "invertOutputs").JBool?) ==> r.value == e
    ensures data.JObj? && Field(data.fields, "invertOutputs").JBool? ==>
      var b := Field(data.fields, "invertOutputs").b;
      r == Some(e.(invertOutputs := b, store := e.store.(invertOutputs := Some(b))))
  {
    var v :- Member(data, "invertOutputs");
    if !v.JNull? && v.JBool? then
      Some(e.(invertOutputs := v.b, store := e.store.(invertOutputs := Some(v.b))))
    else Some(e)
  }

  // ---------------------------------------------------------------- boot

  /** A fresh engine before anything is loaded: every flag false, nothing allocated. */
  function Empty(store: Store, invertOutputs: bool): Engine {
    Engine([], map[], [], false, false, false, map[], 0, map[], invertOutputs, store, Ready, 0)
  }

  /**
   * The station records `readFillerSettings` builds: two default stations when the
   * stored list is missing or empty, otherwise each stored element decoded as it is,
   * keeping the id it carries. `None` stands for an element that throws while decoded.
   */
  function BootEntries(store: Store, pump1: int32, pump2: int32): (r: Option<seq<FillerConfig>>)
    ensures store.fillers.GetOr([]) == [] ==> r == Some(DefaultFillers(pump1, pump2))
    ensures store.fillers.GetOr([]) != [] ==> r == LoadEntries(store.fillers.value)
  {
    var items := store.fillers.GetOr([]);
    if |items| == 0 then Some(DefaultFillers(pump1, pump2)) else LoadEntries(items)
  }

  /**
   * `Init`: the inversion flag is read (the build-time default when nothing is stored),
   * the stored station list is loaded, the stations are initialised, `run` is set, and the
   * polling loop is started when there is a binding. No fill is in progress.
   */
  function Boot(store: Store, configInvert: bool, pump1: int32, pump2: int32): (r: Option<Engine>)
    ensures r.Some? <==> BootEntries(store, pump1, pump2).Some?
    ensures r.Some? ==> Valid(r.value) && r.value.run && r.value.interruptRun == (|r.value.inputs| > 0)
    ensures r.Some? ==> r.value.polling == r.value.interruptRun
    ensures r.Some? ==> r.value.invertOutputs == store.invertOutputs.GetOr(configInvert) && r.value.store == store
    ensures r.Some? ==> r.value.tasks == map[] && r.value.pending == Ready
  {
    var es :- BootEntries(store, pump1, pump2);
    var e1 := Reload(Empty(store, store.invertOutputs.GetOr(configInvert)), es);
    var r := e1.(run := true, interruptRun := |e1.inputs| > 0, polling := |e1.inputs| > 0);
    ValidFrame(e1, r);
    Some(r)
  }

  /**
   * After boot the registry holds the loaded records keyed by id (later duplicates
   * overwriting earlier ones), on channel `id - 1` with that channel switched off, and
   * the bindings are those of the stations in ascending id order.
   */
  lemma BootRegistry(store: Store, configInvert: bool, pump1: int32, pump2: int32, es: seq<FillerConfig>)
    requires BootEntries(store, pump1, pump2) == Some(es)
    ensures Boot(store, configInvert, pump1, pump2).Some?
    ensures var r := Boot(store, configInvert, pump1, pump2).value;
      && RegistryIs(r, KeyById(es))
      && r.inputs == Bindings(Stations(r), 0)
      && forall k | k in r.fillers :: Duty(r, ChannelFor(k)) == 0
  {
    var e0 := Empty(store, store.invertOutputs.GetOr(configInvert));
    var e1 := Reload(e0, es);
    ReloadRegistry(e0, es);
    var r := e1.(run := true, interruptRun := |e1.inputs| > 0, polling := |e1.inputs| > 0);
    assert Boot(store, configInvert, pump1, pump2) == Some(r);
    RegistryCarries(e1, r, KeyById(es), 0);
  }

  // ---------------------------------------------------------------- input polling

  /** The sampled level of a line; a line not driven low reads high, the pull-up being on. */
  function LevelOf(levels: map<int32, uint8>, pin: int32): uint8 {
    if pin in levels then levels[pin] else 1
  }

  /** The engine operation an edge asks for, performed at once. */
  function Perform(e: Engine, a: Action): (r: Engine)
    requires Valid(e)
    ensures Valid(r) && CallerOnly(e, r)
    ensures r.inputs == e.inputs && r.fillers == e.fillers && r.run == e.run && r.interruptRun == e.interruptRun
    ensures r.clock == e.clock && r.pending == e.pending && r.polling == e.polling
    ensures a.NoAction? ==> r == e
    ensures a.Toggle? ==> r == Start(e, a.fillerId)
    ensures a.ManualStart? ==> r == ManualStart(e, a.fillerId)
    ensures a.ManualStop? ==> r == ManualStop(e, a.fillerId)
  {
    match a
    case NoAction => e
    case Toggle(id) => Start(e, id)
    case ManualStart(id) => ManualStart(e, id)
    case ManualStop(id) => ManualStop(e, id)
  }

  /**
   * An operation an edge asks for neither reads nor writes the bindings: performing it
   * with other bindings in place gives the same engine with those bindings.
   */
  lemma PerformIgnoresBindings(e: Engine, xs: seq<Input>, a: Action)
    requires Valid(e)
    ensures Valid(e.(inputs := xs))
    ensures Perform(e.(inputs := xs), a) == Perform(e, a).(inputs := xs)
  {
    ValidFrame(e, e.(inputs := xs));
    match a
    case NoAction =>
    case Toggle(id) => StartIgnoresBindings(e, xs, id);
    case ManualStart(id) =>
    case ManualStop(id) =>
  }

  lemma StartIgnoresBindings(e: Engine, xs: seq<Input>, id: uint8)
    requires Valid(e)
    ensures Valid(e.(inputs := xs))
    ensures Start(e.(inputs := xs), id) == Start(e, id).(inputs := xs)
  {
    ValidFrame(e, e.(inputs := xs));
    var e' := e.(inputs := xs);
    if id in e.fillers {
      var h := e.fillers[id];
      var f := e.objects[h];
      if f.status == Idle {
        var objects := e.objects[h := f.(status := Filling)];
        var tasks := e.tasks[e.nextTask := Task(h, Created)];
        assert Start(e, id) == e.(objects := objects, tasks := tasks, nextTask := e.nextTask + 1);
        assert Start(e', id) == e'.(objects := objects, tasks := tasks, nextTask := e.nextTask + 1);
      } else {
        var objects := e.objects[h := f.(status := Aborting)];
        var duty := e.duty[f.channel := 0];
        assert Start(e, id) == e.(objects := objects, duty := duty);
        assert Start(e', id) == e'.(objects := objects, duty := duty);
      }
    }
  }

  /** The actions, in order, performed one after another. */
  function PerformAll(e: Engine, actions: seq<Action>): (r: Engine)
    requires Valid(e)
    ensures Valid(r) && CallerOnly(e, r)
    ensures r.inputs == e.inputs && r.fillers == e.fillers && r.run == e.run && r.interruptRun == e.interruptRun
    ensures r.clock == e.clock && r.pending == e.pending && r.polling == e.polling
    decreases |actions|
  {
    if |actions| == 0 then e
    else
      var e1 := Perform(e, actions[0]);
      var r := PerformAll(e1, actions[1..]);
      CallerOnlyTransitive(e, e1, r);
      r
  }

  /** Actions that ask for nothing perform nothing. */
  lemma {:induction false} PerformAllQuiet(e: Engine, actions: seq<Action>)
    requires Valid(e) && forall j | 0 <= j < |actions| :: actions[j].NoAction?
    ensures PerformAll(e, actions) == e
    decreases |actions|
  {
    if |actions| > 0 {
      assert forall j | 0 <= j < |actions[1..]| :: actions[1..][j] == actions[j + 1];
      PerformAllQuiet(e, actions[1..]);
    }
  }

  /** When only the action at `i` asks for something, performing all of them is performing that one. */
  lemma {:induction false} PerformAllSingle(e: Engine, actions: seq<Action>, i: nat)
    requires Valid(e) && i < |actions|
    requires forall j | 0 <= j < |actions| && j != i :: actions[j].NoAction?
    ensures PerformAll(e, actions) == Perform(e, actions[i])
    decreases |actions|
  {
    assert forall j | 0 <= j < |actions[1..]| :: actions[1..][j] == actions[j + 1];
    if i == 0 {
      PerformAllQuiet(Perform(e, actions[0]), actions[1..]);
    } else {
      PerformAllSingle(e, actions[1..], i - 1);
    }
  }

  /** Binding `j`'s share of a wake: its edge against the level read from its pin, stamped in seconds. */
  function Sample(e: Engine, levels: map<int32, uint8>, j: nat): (r: Edge)
    requires j < |e.inputs|
    ensures r.binding == e.inputs[j].(currentLevel := LevelOf(levels, e.inputs[j].gpio), lastChange := r.binding.lastChange)
    ensures r.action == Reaction(e.inputs[j].role, e.inputs[j].fillerId, e.inputs[j].currentLevel, LevelOf(levels, e.inputs[j].gpio))
  {
    EdgeStep(e.inputs[j], LevelOf(levels, e.inputs[j].gpio), e.clock / 100)
  }

  /** The bindings with those from position `i` on replaced by their sampled form. */
  function Resampled(e: Engine, levels: map<int32, uint8>, i: nat): (r: seq<Input>)
    ensures |r| == |e.inputs|
    ensures forall j | 0 <= j < |r| :: r[j] == if j < i then e.inputs[j] else Sample(e, levels, j).binding
  {
    seq(|e.inputs|, j requires 0 <= j < |e.inputs| => if j < i then e.inputs[j] else Sample(e, levels, j).binding)
  }

  /** The actions the bindings from position `i` on ask for, in binding order. */
  function ActionsFrom(e: Engine, levels: map<int32, uint8>, i: nat): (r: seq<Action>)
    requires i <= |e.inputs|
    ensures |r| == |e.inputs| - i
    ensures forall k | 0 <= k < |r| :: r[k] == Sample(e, levels, i + k).action
  {
    seq(|e.inputs| - i, k requires 0 <= k < |e.inputs| - i => Sample(e, levels, i + k).action)
  }

  /** Binding `i` sampled, its edge recorded and its action performed. */
  function PollOne(e: Engine, levels: map<int32, uint8>, i: nat): (r: Engine)
    requires Valid(e) && i < |e.inputs|
    ensures Valid(r) && CallerOnly(e, r)
    ensures |r.inputs| == |e.inputs| && r.fillers == e.fillers && r.run == e.run && r.interruptRun == e.interruptRun
    ensures r.clock == e.clock && r.pending == e.pending && r.polling == e.polling
    ensures forall j | 0 <= j < |e.inputs| && j != i :: r.inputs[j] == e.inputs[j]
    ensures r.inputs[i] == EdgeStep(e.inputs[i], LevelOf(levels, e.inputs[i].gpio), e.clock / 100).binding
    ensures r == Perform(e.(inputs := e.inputs[i := Sample(e, levels, i).binding]), Sample(e, levels, i).action)
  {
    var edge := Sample(e, levels, i);
    var e1 := e.(inputs := e.inputs[i := edge.binding]);
    ValidFrame(e, e1);
    SameObjectsCallerOnly(e, e1);
    var r := Perform(e1, edge.action);
    CallerOnlyTransitive(e, e1, r);
    r
  }

  /**
   * The bindings from position `i` on, each sampled and acted on in turn. As no action
   * touches the bindings and every edge is read against the same clock, this is the
   * same as sampling them all first and then performing their actions in binding order.
   */
  function PollFrom(e: Engine, levels: map<int32, uint8>, i: nat): (r: Engine)
    requires Valid(e) && i <= |e.inputs|
    ensures Valid(r) && CallerOnly(e, r)
    ensures r == PerformAll(e.(inputs := Resampled(e, levels, i)), ActionsFrom(e, levels, i))
    decreases |e.inputs| - i
  {
    var xs := Resampled(e, levels, i);
    ValidFrame(e, e.(inputs := xs));
    if i == |e.inputs| then
      assert xs == e.inputs;
      e
    else
      var e1 := PollOne(e, levels, i);
      var r := PollFrom(e1, levels, i + 1);
      CallerOnlyTransitive(e, e1, r);
      PollFromStep(e, levels, i);
      r
  }

  /**
   * One step of the walk: sampling binding `i` and performing its action, then walking
   * on, is performing that action first on the fully sampled bindings.
   */
  lemma PollFromStep(e: Engine, levels: map<int32, uint8>, i: nat)
    requires Valid(e) && i < |e.inputs|
    ensures var e1 := PollOne(e, levels, i);
      var xs := Resampled(e, levels, i);
      && Valid(e.(inputs := xs))
      && Resampled(e1, levels, i + 1) == xs
      && ActionsFrom(e, levels, i) == [Sample(e, levels, i).action] + ActionsFrom(e1, levels, i + 1)
      && e1.(inputs := xs) == Perform(e.(inputs := xs), Sample(e, levels, i).action)
  {
    var e1 := PollOne(e, levels, i);
    SamplesAhead(e, levels, i);
    var xs := Resampled(e, levels, i);
    var edge := Sample(e, levels, i);
    var e0 := e.(inputs := e.inputs[i := edge.binding]);
    ValidFrame(e, e0);
    PerformIgnoresBindings(e0, xs, edge.action);
    assert e0.(inputs := xs) == e.(inputs := xs);
  }

  /** Sampling binding `i` leaves the samples of the later bindings as they were. */
  lemma SamplesAhead(e: Engine, levels: map<int32, uint8>, i: nat)
    requires Valid(e) && i < |e.inputs|
    ensures var e1 := PollOne(e, levels, i);
      && Resampled(e1, levels, i + 1) == Resampled(e, levels, i)
      && ActionsFrom(e, levels, i) == [Sample(e, levels, i).action] + ActionsFrom(e1, levels, i + 1)
  {
    var e1 := PollOne(e, levels, i);
    SameSamples(e, e1, levels, i);
    ResampledAhead(e, e1, levels, i);
    ActionsAhead(e, e1, levels, i);
  }

  lemma ResampledAhead(e: Engine, e1: Engine, levels: map<int32, uint8>, i: nat)
    requires i < |e.inputs| == |e1.inputs|
    requires forall j | i < j < |e.inputs| :: Sample(e1, levels, j) == Sample(e, levels, j)
    requires forall j | 0 <= j < i :: e1.inputs[j] == e.inputs[j]
    requires e1.inputs[i] == Sample(e, levels, i).binding
    ensures Resampled(e1, levels, i + 1) == Resampled(e, levels, i)
  {
    var xs, ys := Resampled(e1, levels, i + 1), Resampled(e, levels, i);
    forall j | 0 <= j < |xs| ensures xs[j] == ys[j] {
      if j > i {
        assert Sample(e1, levels, j) == Sample(e, levels, j);
      }
    }
  }

  lemma ActionsAhead(e: Engine, e1: Engine, levels: map<int32, uint8>, i: nat)
    requires i < |e.inputs| == |e1.inputs|
    requires forall j | i < j < |e.inputs| :: Sample(e1, levels, j) == Sample(e, levels, j)
    ensures ActionsFrom(e, levels, i) == [Sample(e, levels, i).action] + ActionsFrom(e1, levels, i + 1)
  {
    var actions := ActionsFrom(e, levels, i);
    var rest := ActionsFrom(e1, levels, i + 1);
    forall k | 0 <= k < |rest| ensures rest[k] == actions[k + 1] {
      assert Sample(e1, levels, i + 1 + k) == Sample(e, levels, i + 1 + k);
    }
  }

  /** Two engines with the same clock and the same bindings from `i` on sample those bindings alike. */
  lemma SameSamples(e: Engine, e1: Engine, levels: map<int32, uint8>, i: nat)
    requires Valid(e) && i < |e.inputs| && e1 == PollOne(e, levels, i)
    ensures |e1.inputs| == |e.inputs|
    ensures forall j | i < j < |e.inputs| :: Sample(e1, levels, j) == Sample(e, levels, j)
    ensures forall j | 0 <= j < i :: e1.inputs[j] == e.inputs[j]
    ensures e1.inputs[i] == Sample(e, levels, i).binding
  {
    forall j | i < j < |e.inputs| ensures Sample(e1, levels, j) == Sample(e, levels, j) {
      assert e1.inputs[j] == e.inputs[j] && e1.clock == e.clock;
    }
  }

  /**
   * One wake of the polling loop: every binding, in order, is sampled and acted on, and
   * then the loop ends unless both `run` and `interruptRun` are still set. A loop that has
   * ended does nothing.
   */
  function Poll(e: Engine, levels: map<int32, uint8>): (r: Engine)
    requires Valid(e)
    ensures Valid(r) && CallerOnly(e, r) && r.clock == e.clock
    ensures !e.polling ==> r == e
    ensures e.polling ==> r.polling == (e.run && e.interruptRun)
    ensures r.fillers == e.fillers && |r.inputs| == |e.inputs|
    ensures e.polling ==> forall j | 0 <= j < |e.inputs| ::
      r.inputs[j] == EdgeStep(e.inputs[j], LevelOf(levels, e.inputs[j].gpio), e.clock / 100).binding
    ensures e.polling ==>
      r == PerformAll(e.(inputs := Resampled(e, levels, 0)), ActionsFrom(e, levels, 0)).(polling := e.run && e.interruptRun)
  {
    if !e.polling then e
    else
      var xs := Resampled(e, levels, 0);
      var r := PollFrom(e, levels, 0);
      assert r.inputs == xs && r.run == e.run && r.interruptRun == e.interruptRun;
      assert r.fillers == e.fillers && r.clock == e.clock;
      SameObjectsCallerOnly(r, r.(polling := e.run && e.interruptRun));
      CallerOnlyTransitive(e, r, r.(polling := e.run && e.interruptRun));
      r.(polling := e.run && e.interruptRun)
  }

  /**
   * A wake that sees an edge on binding `i` alone performs that binding's action and
   * nothing else.
   */
  lemma PollSingleEdge(e: Engine, levels: map<int32, uint8>, i: nat)
    requires Valid(e) && e.polling && i < |e.inputs|
    requires forall j | 0 <= j < |e.inputs| && j != i :: LevelOf(levels, e.inputs[j].gpio) == e.inputs[j].currentLevel
    ensures Valid(e.(inputs := Resampled(e, levels, 0)))
    ensures Poll(e, levels) ==
      Perform(e.(inputs := Resampled(e, levels, 0)), Sample(e, levels, i).action).(polling := e.run && e.interruptRun)
  {
    var e0 := e.(inputs := Resampled(e, levels, 0));
    ValidFrame(e, e0);
    var actions := ActionsFrom(e, levels, 0);
    forall j | 0 <= j < |actions| && j != i ensures actions[j].NoAction? {
      assert actions[j] == Sample(e, levels, j).action;
    }
    assert actions[i] == Sample(e, levels, i).action;
    PerformAllSingle(e0, actions, i);
  }

  /**
   * A wake of the polling loop records every line's level: afterwards each binding holds
   * the level its pin was read at, so a second wake reading the same levels sees no edge
   * and performs nothing.
   */
  lemma PollRecordsLevels(e: Engine, levels: map<int32, uint8>)
    requires Valid(e) && e.polling
    ensures var r := Poll(e, levels);
      forall j | 0 <= j < |r.inputs| ::
        && r.inputs[j].gpio == e.inputs[j].gpio
        && r.inputs[j].currentLevel == LevelOf(levels, e.inputs[j].gpio)
        && EdgeStep(r.inputs[j], LevelOf(levels, r.inputs[j].gpio), r.clock / 100).action == NoAction
  {
    var r := Poll(e, levels);
    forall j | 0 <= j < |r.inputs|
      ensures r.inputs[j].gpio == e.inputs[j].gpio
      ensures r.inputs[j].currentLevel == LevelOf(levels, e.inputs[j].gpio)
      ensures EdgeStep(r.inputs[j], LevelOf(levels, r.inputs[j].gpio), r.clock / 100).action == NoAction
    {
      EdgeSettles(e.inputs[j], LevelOf(levels, e.inputs[j].gpio), e.clock / 100, r.clock / 100);
    }
  }

  // ---------------------------------------------------------------- the blocked command task

  /**
   * The end of whatever the command-handling task is blocked in, once its time has come:
   * the timed manual fill switches its channel off; the bulk replace finishes. Before
   * that time, nothing happens.
   */
  function Resume(e: Engine): (r: Option<Engine>)
    requires Valid(e)
    ensures r.Some? ==> Valid(r.value) && CallerOnly(e, r.value) && r.value.clock == e.clock
    ensures r.None? ==> e.pending.Settling?
    ensures e.pending.ManualHold? && e.clock >= e.pending.until ==>
      r == Some(e.(duty := e.duty[e.objects[e.pending.obj].channel := 0], pending := Ready))
    ensures !e.pending.Settling? && !(e.pending.ManualHold? && e.clock >= e.pending.until) ==> r == Some(e)
    ensures e.pending.Settling? && e.clock < e.pending.until ==> r == Some(e)
    ensures e.pending.Settling? && e.clock >= e.pending.until ==> r == SaveFinish(e, e.pending.items)
  {
    match e.pending
    case Ready => Some(e)
    case ManualHold(h, until) =>
      if e.clock < until then Some(e)
      else Some(e.(duty := e.duty[e.objects[h].channel := 0], pending := Ready))
    case Settling(items, until) =>
      if e.clock < until then Some(e)
      else SaveFinish(e, items)
  }
}
