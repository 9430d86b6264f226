/**
 * The controller's tasks interleaved: the command handler, the input polling loop and
 * the auto-fill tasks each advance by atomic steps, and the clock advances between them.
 * A step the scheduler may take at any moment is one the model allows at any moment, so
 * the properties here hold for every interleaving of these steps and every wake-up time.
 */
module Scheduler {
  import opened Wrappers
  import opened FixedWidth
  import opened Payload
  import opened Config
  import opened Input
  import opened Registry
  import opened BottleFiller
  import Dispatch

  datatype Step =
    | Request(request: Json, platform: Dispatch.Platform)   // one POST to the command endpoint
    | Spawn(task: nat)                                       // an auto-fill task's first run
    | Wake(task: nat)                                        // an auto-fill task's loop check
    | PollTick(levels: map<int32, uint8>)                    // one wake of the polling loop
    | Continue                                               // the command handler's delay ends
    | Advance(ticks: nat)                                    // time passes

  /**
   * One step. A request arriving while the command handler is blocked waits (the step
   * changes nothing); `None` stands for an exception escaping a handler.
   */
  function Next(e: Engine, s: Step): (r: Option<Engine>)
    requires Valid(e)
    ensures r.Some? ==> Valid(r.value) && r.value.clock >= e.clock
    ensures r.Some? && !s.Wake? ==> CallerOnly(e, r.value)
    ensures r.None? ==> s.Request? || (s.Continue? && e.pending.Settling?)
    ensures s.Request? && !e.pending.Ready? ==> r == Some(e)
    ensures s.Request? && e.pending.Ready? ==>
      var o := Dispatch.ProcessCommand(e, s.request, s.platform);
      r == if o.Threw? then None else Some(o.engine)
    ensures s.Spawn? ==> r == Some(TaskSpawn(e, s.task))
    ensures s.Wake? ==> r == Some(TaskWake(e, s.task))
    ensures s.PollTick? ==> r == Some(Poll(e, s.levels))
    ensures s.Continue? ==> r == Resume(e)
    ensures s.Advance? ==> r == Some(e.(clock := e.clock + s.ticks))
  {
    match s
    case Request(request, p) =>
      if !e.pending.Ready? then Some(e)
      else
        var o := Dispatch.ProcessCommand(e, request, p);
        if o.Threw? then None else Some(o.engine)
    case Spawn(t) =>
      SameObjectsCallerOnly(e, TaskSpawn(e, t));
      Some(TaskSpawn(e, t))
    case Wake(t) => Some(TaskWake(e, t))
    case PollTick(levels) => Some(Poll(e, levels))
    case Continue => Resume(e)
    case Advance(n) =>
      ValidFrame(e, e.(clock := e.clock + n));
      SameObjectsCallerOnly(e, e.(clock := e.clock + n));
      Some(e.(clock := e.clock + n))
  }

  /** A run of steps, stopping at the first exception. */
  function Execute(e: Engine, steps: seq<Step>): (r: Option<Engine>)
    requires Valid(e)
    ensures r.Some? ==> Valid(r.value)
    decreases |steps|
  {
    if |steps| == 0 then Some(e)
    else
      match Next(e, steps[0])
      case None => None
      case Some(e') => Execute(e', steps[1..])
  }

  /**
   * The status rule over a whole run: when no task wakes, no station goes to Idle, and
   * none goes from Aborting back to Filling.
   */
  lemma {:induction false} ExecuteKeepsStatusRule(e: Engine, steps: seq<Step>)
    requires Valid(e)
    requires forall i | 0 <= i < |steps| :: !steps[i].Wake?
    requires Execute(e, steps).Some?
    ensures CallerOnly(e, Execute(e, steps).value)
    decreases |steps|
  {
    if |steps| > 0 {
      var e' := Next(e, steps[0]).value;
      assert forall i | 0 <= i < |steps[1..]| :: !steps[1..][i].Wake? by {
        forall i | 0 <= i < |steps[1..]| ensures !steps[1..][i].Wake? {
          assert steps[1..][i] == steps[i + 1];
        }
      }
      ExecuteKeepsStatusRule(e', steps[1..]);
      CallerOnlyTransitive(e, e', Execute(e, steps).value);
    }
  }

  /** A clock moved forward to `c`. */
  function At(e: Engine, c: nat): (r: Engine)
    requires Valid(e)
    ensures Valid(r) && r == e.(clock := c)
  {
    ValidFrame(e, e.(clock := c));
    e.(clock := c)
  }

  /**
   * An auto fill's start: the toggle makes the station Filling and creates one task; the
   * task's first run drives the pump at the auto-fill duty and fixes the deadline
   * `fillTime / 10` ticks ahead.
   */
  lemma AutoFillStarts(e: Engine, id: uint8)
    requires Valid(e) && id in e.fillers && StatusOf(e, id) == Idle && id != 0
    ensures
      var h := e.fillers[id];
      var f := e.objects[h];
      var t := e.nextTask;
      var e1 := Start(e, id);
      var e2 := TaskSpawn(e1, t);
      && StatusOf(e1, id) == Filling && t in e1.tasks && e1.tasks[t] == Task(h, Created)
      && Duty(e2, f.channel) == DutyFor(f.autoFillSpeed)
      && StatusOf(e2, id) == Filling && t in e2.tasks && e2.tasks[t] == Task(h, Looping(e.clock + f.fillTime / 10))
  {
  }

  /** Before its deadline, a wake of a filling station's task changes nothing. */
  lemma AutoFillWaits(e: Engine, t: nat, c: nat)
    requires Valid(e) && t in e.tasks && e.tasks[t].phase.Looping?
    requires e.objects[e.tasks[t].obj].status == Filling && c < e.tasks[t].phase.stopAt
    ensures TaskWake(At(e, c), t) == At(e, c)
  {
  }

  /**
   * At or after its deadline, a wake of a filling station's task switches the pump off,
   * makes the station Idle and ends the task.
   */
  lemma AutoFillEnds(e: Engine, t: nat, c: nat)
    requires Valid(e) && t in e.tasks && e.tasks[t].phase.Looping?
    requires e.objects[e.tasks[t].obj].status == Filling && e.tasks[t].phase.stopAt <= c
    ensures
      var h := e.tasks[t].obj;
      var r := TaskWake(At(e, c), t);
      && r.objects[h].status == Idle && Duty(r, e.objects[h].channel) == 0 && t !in r.tasks
  {
  }

  /**
   * An abort during a fill: the second toggle switches the pump off at once and marks the
   * station Aborting; the task's next wake, whenever it comes, makes the station Idle and
   * ends the task without writing the duty again.
   */
  lemma AbortSettles(e: Engine, id: uint8, t: nat, c: nat)
    requires Valid(e) && id in e.fillers && t in e.tasks
    requires e.tasks[t].obj == e.fillers[id] && e.tasks[t].phase.Looping? && StatusOf(e, id) == Filling
    ensures
      var ch := e.objects[e.fillers[id]].channel;
      var e1 := Start(e, id);
      var e2 := TaskWake(At(e1, c), t);
      && StatusOf(e1, id) == Aborting && Duty(e1, ch) == 0 && e1.tasks == e.tasks
      && StatusOf(e2, id) == Idle && Duty(e2, ch) == 0 && t !in e2.tasks
  {
  }

  /**
   * The toggle pressed twice before the task's first run: the abort finds no pump to stop,
   * the first run then drives the pump, and its first wake sees the station is not Filling
   * and ends the task without switching the pump off. The station is Idle, no task is left
   * on it, and the pump runs.
   */
  lemma AbortBeforeFirstRun(e: Engine, id: uint8)
    requires Valid(e) && id in e.fillers && StatusOf(e, id) == Idle && id != 0
    ensures
      var h := e.fillers[id];
      var f := e.objects[h];
      var t := e.nextTask;
      var e4 := TaskWake(TaskSpawn(Start(Start(e, id), id), t), t);
      && StatusOf(e4, id) == Idle
      && (forall u | u in e4.tasks :: e4.tasks[u].obj != h)
      && Duty(e4, f.channel) == DutyFor(f.autoFillSpeed)
  {
    var h := e.fillers[id];
    var t := e.nextTask;
    var e1 := Start(e, id);
    var e2 := Start(e1, id);
    var e3 := TaskSpawn(e2, t);
    var e4 := TaskWake(e3, t);
    var f := e.objects[h];
    assert e1.tasks[t] == Task(h, Created) && e1.fillers == e.fillers;
    assert e2.objects[h].status == Aborting && e2.tasks == e1.tasks && e2.fillers == e.fillers;
    assert e3.objects == e2.objects && e3.duty[f.channel] == DutyFor(f.autoFillSpeed);
    assert e3.tasks[t] == Task(h, Looping(e.clock + f.fillTime / 10));
    assert e4.duty == e3.duty && e4.tasks == e3.tasks - {t};
    forall u | u in e4.tasks ensures e4.tasks[u].obj != h {
      assert u != t && u in e.tasks;
    }
  }

  /**
   * A station registered under id 0 (a stored element can carry it): its task refuses to
   * run, so the station is left Filling with no task that will ever make it Idle.
   */
  lemma IdZeroStaysFilling(e: Engine)
    requires Valid(e) && 0 in e.fillers && StatusOf(e, 0) == Idle
    ensures
      var e2 := TaskSpawn(Start(e, 0), e.nextTask);
      && StatusOf(e2, 0) == Filling
      && (forall u | u in e2.tasks :: e2.tasks[u].obj != e.fillers[0])
      && e2.duty == e.duty
  {
    var e1 := Start(e, 0);
    var e2 := TaskSpawn(e1, e.nextTask);
    forall u | u in e2.tasks ensures e2.tasks[u].obj != e.fillers[0] {
      assert u != e.nextTask && u in e.tasks;
    }
  }

  /**
   * A timed manual fill: the pump runs at the manual duty while the command handler is
   * blocked, and is switched off when the delay ends; the station's status is untouched.
   */
  lemma TimedManualFill(e: Engine, id: uint8, time: uint32, c: nat)
    requires Valid(e) && e.pending.Ready? && id in e.fillers && StatusOf(e, id) == Idle
    ensures
      var f := e.objects[e.fillers[id]];
      var until := e.clock + MsToTicks(time);
      var e1 := ManualTimedStart(e, id, time);
      && Duty(e1, f.channel) == DutyFor(f.manualFillSpeed) && e1.objects == e.objects
      && (c < until ==> Resume(At(e1, c)) == Some(At(e1, c)))
      && (until <= c ==>
            var e2 := Resume(At(e1, c)).value;
            Duty(e2, f.channel) == 0 && e2.pending.Ready? && e2.objects == e.objects)
  {
  }

  /**
   * A bulk replace while an auto fill runs: the task keeps running on the old station
   * object, which is no longer registered; the registry's objects are all new.
   */
  lemma OrphanSurvivesSave(e: Engine, items: seq<Json>, t: nat)
    requires Valid(e) && t in e.tasks && SaveEntries(items).Some?
    ensures SaveFinish(e, items).Some?
    ensures
      var r := SaveFinish(e, items).value;
      && t in r.tasks && r.tasks[t] == e.tasks[t]
      && r.objects[e.tasks[t].obj] == e.objects[e.tasks[t].obj]
      && forall k | k in r.fillers :: r.fillers[k] != e.tasks[t].obj
  {
    SaveFinishRegistry(e, items, SaveEntries(items).value);
  }

  /**
   * The orphaned task at its deadline switches off the channel its old station had,
   * whichever new station is now on that channel, and changes nothing in the registry.
   */
  lemma OrphanSwitchesOffChannel(e: Engine, t: nat)
    requires Valid(e) && t in e.tasks && e.tasks[t].phase.Looping?
    requires e.objects[e.tasks[t].obj].status == Filling && e.clock >= e.tasks[t].phase.stopAt
    ensures
      var r := TaskWake(e, t);
      && Duty(r, e.objects[e.tasks[t].obj].channel) == 0
      && r.fillers == e.fillers
      && (e.tasks[t].obj !in e.fillers.Values ==> View(r) == View(e))
  {
    var r := TaskWake(e, t);
    if e.tasks[t].obj !in e.fillers.Values {
      assert forall k | k in e.fillers :: e.fillers[k] in e.fillers.Values;
      ViewIs(r, View(e));
    }
  }

  /** A command request as a client posts it. */
  function Post(command: string, data: Json): (j: Json)
    ensures j.JObj? && Field(j.fields, "command") == JStr(command) && Field(j.fields, "data") == data
  {
    JObj(map["command" := JStr(command), "data" := data])
  }

  /** A "Start" request for station `k`, handled while the command handler is free, toggles that station. */
  lemma StartRequestToggles(e: Engine, k: uint8, p: Dispatch.Platform)
    requires Valid(e) && e.pending.Ready?
    ensures Next(e, Request(Post("Start", JObj(map["id" := JNum(k)])), p)) == Some(Start(e, k))
  {
    var data := JObj(map["id" := JNum(k)]);
    Dispatch.CommandNamesRoundTrip(Dispatch.Start);
    assert Dispatch.ReadNumber(data, "id") == Some(k as int);
    assert ToUint8(ToUint32(k)) == k;
  }

  /**
   * A wake of the polling loop that sees the auto button of an Idle station released,
   * and no edge on any other line, leaves that station Filling with one new auto-fill
   * task on it and nothing else started.
   */
  lemma ButtonReleaseStartsFill(e: Engine, levels: map<int32, uint8>, i: nat)
    requires Valid(e) && e.polling && i < |e.inputs|
    requires e.inputs[i].role == AutoFill && e.inputs[i].currentLevel == 0 && LevelOf(levels, e.inputs[i].gpio) == 1
    requires e.inputs[i].fillerId in e.fillers && StatusOf(e, e.inputs[i].fillerId) == Idle
    requires forall j | 0 <= j < |e.inputs| && j != i :: LevelOf(levels, e.inputs[j].gpio) == e.inputs[j].currentLevel
    ensures var k := e.inputs[i].fillerId;
      var r := Next(e, PollTick(levels));
      && r.Some? && StatusOf(r.value, k) == Filling
      && r.value.tasks == e.tasks[e.nextTask := Task(e.fillers[k], Created)]
      && r.value.duty == e.duty
  {
    var k := e.inputs[i].fillerId;
    var e0 := e.(inputs := Resampled(e, levels, 0));
    PollSingleEdge(e, levels, i);
    assert Sample(e, levels, i).action == Toggle(k);
    var r := Start(e0, k).(polling := e.run && e.interruptRun);
    assert Next(e, PollTick(levels)) == Some(r);
    assert e0.fillers == e.fillers && e0.objects == e.objects && e0.tasks == e.tasks && e0.nextTask == e.nextTask;
    assert StatusOf(e0, k) == Idle && e0.duty == e.duty;
    assert StatusOf(Start(e0, k), k) == Filling;
  }

  /**
   * A bulk replace as the handler sees it: the "SaveFillerSettings" request blocks the
   * handler with the submitted list and sends nothing yet; once the one-second settle has
   * passed, the handler returns, replies with success, and leaves exactly the ids 1 to
   * min(n, 6) registered, for a list of at most 255 elements whose kept elements decode.
   */
  lemma BulkReplaceRegisters(e: Engine, items: seq<Json>, p: Dispatch.Platform)
    requires Valid(e) && e.pending.Ready? && |items| <= 0xFF && SaveEntries(items).Some?
    ensures var o := Dispatch.ProcessCommand(e, Post("SaveFillerSettings", JArr(items)), p);
      && o.Held? && o.engine.pending == Settling(items, e.clock + MsToTicks(SettleMs))
      && var settled := o.engine.(clock := o.engine.pending.until);
      && var back := Dispatch.Return(settled);
      && back.Replied? && back.reply == Dispatch.Reply(JNull, true, "") && back.effects == []
      && forall x: uint8 :: x in back.engine.fillers <==> 1 <= x <= Min(|items|, MaxFillers)
  {
    SaveRequestHolds(e, items, p);
    var e1 := SaveStart(e, JArr(items));
    assert e1.pending == Settling(items, e.clock + MsToTicks(SettleMs));
    SettleRegisters(e1, items);
  }

  /**
   * A bulk replace whose list has a kept element that does not decode: the request blocks
   * the handler like any other list, and when the settle is over the handler throws, so
   * the request is never answered.
   */
  lemma BulkReplaceThrows(e: Engine, items: seq<Json>, p: Dispatch.Platform)
    requires Valid(e) && e.pending.Ready? && SaveEntries(items).None?
    ensures var o := Dispatch.ProcessCommand(e, Post("SaveFillerSettings", JArr(items)), p);
      && o.Held? && o.engine == SaveStart(e, JArr(items))
      && Dispatch.Return(o.engine.(clock := o.engine.pending.until)).Threw?
  {
    SaveRequestHolds(e, items, p);
    var e1 := SaveStart(e, JArr(items));
    var settled := e1.(clock := e1.pending.until);
    ValidFrame(e1, settled);
    assert Resume(settled) == SaveFinish(settled, items);
  }

  /** The list `[5]` is such a list: its one element is not an object, so the save throws. */
  lemma NumberListThrows(e: Engine, p: Dispatch.Platform)
    requires Valid(e) && e.pending.Ready?
    ensures var o := Dispatch.ProcessCommand(e, Post("SaveFillerSettings", JArr([JNum(5)])), p);
      && o.Held?
      && Dispatch.Return(o.engine.(clock := o.engine.pending.until)).Threw?
  {
    assert Decodes([JNum(5)])[0] == None;
    BulkReplaceThrows(e, [JNum(5)], p);
  }

  /**
   * A "SaveFillerSettings" request with a list, handled while the handler is free, starts
   * the settle and blocks the handler without replying.
   */
  lemma SaveRequestHolds(e: Engine, items: seq<Json>, p: Dispatch.Platform)
    requires Valid(e) && e.pending.Ready?
    ensures var o := Dispatch.ProcessCommand(e, Post("SaveFillerSettings", JArr(items)), p);
      o.Held? && o.engine == SaveStart(e, JArr(items))
  {
    Dispatch.CommandNamesRoundTrip(Dispatch.SaveFillerSettings);
  }

  /**
   * A timed manual fill of an Idle station: the "StartManual" request drives the channel
   * and blocks the handler without replying; when the time is up the handler switches the
   * channel off and only then replies with success.
   */
  lemma ManualRequestHolds(e: Engine, k: uint8, t: uint32, p: Dispatch.Platform)
    requires Valid(e) && e.pending.Ready? && k in e.fillers && StatusOf(e, k) == Idle
    ensures var o := Dispatch.ProcessCommand(e, Post("StartManual", JObj(map["id" := JNum(k), "time" := JNum(t)])), p);
      var h := e.fillers[k];
      && o.Held? && o.engine.pending == ManualHold(h, e.clock + MsToTicks(t))
      && o.engine.duty[e.objects[h].channel] == DutyFor(e.objects[h].manualFillSpeed)
      && var back := Dispatch.Return(o.engine.(clock := o.engine.pending.until));
      && back.Replied? && back.reply == Dispatch.Reply(JNull, true, "")
      && back.engine.duty[e.objects[h].channel] == 0 && back.engine.pending.Ready?
  {
    var data := JObj(map["id" := JNum(k), "time" := JNum(t)]);
    Dispatch.CommandNamesRoundTrip(Dispatch.StartManual);
    assert Dispatch.ReadNumber(data, "id") == Some(k as int);
    assert Dispatch.ReadNumber(data, "time") == Some(t as int);
    assert ToUint8(ToUint32(k)) == k && ToUint32(t) == t;
    var e1 := ManualTimedStart(e, k, t);
    ValidFrame(e1, e1.(clock := e1.pending.until));
  }

  /** The output inversion saved by "SaveSystemSettings" is what "GetSystemSettings" then reports. */
  lemma SystemSettingsReadBack(e: Engine, b: bool, p: Dispatch.Platform)
    requires Valid(e) && e.pending.Ready?
    ensures var o1 := Dispatch.ProcessCommand(e, Post("SaveSystemSettings", JObj(map["invertOutputs" := JBool(b)])), p);
      && o1.Replied? && o1.engine.pending.Ready? && o1.engine.store.invertOutputs == Some(b)
      && var o2 := Dispatch.ProcessCommand(o1.engine, Post("GetSystemSettings", JNull), p);
      && o2.Replied? && o2.reply.data == JObj(map["invertOutputs" := JBool(b)])
  {
    SaveSystemRequest(e, b, p);
    var e1 := e.(invertOutputs := b, store := e.store.(invertOutputs := Some(b)));
    ValidFrame(e, e1);
    GetSystemRequest(e1, p);
  }

  /** A "SaveSystemSettings" request with a boolean applies and persists it. */
  lemma SaveSystemRequest(e: Engine, b: bool, p: Dispatch.Platform)
    requires Valid(e) && e.pending.Ready?
    ensures var o := Dispatch.ProcessCommand(e, Post("SaveSystemSettings", JObj(map["invertOutputs" := JBool(b)])), p);
      o.Replied? && o.engine == e.(invertOutputs := b, store := e.store.(invertOutputs := Some(b)))
  {
    Dispatch.CommandNamesRoundTrip(Dispatch.SaveSystemSettings);
    var data := JObj(map["invertOutputs" := JBool(b)]);
    assert Field(data.fields, "invertOutputs") == JBool(b);
  }

  /** A "GetSystemSettings" request reports the output inversion in force. */
  lemma GetSystemRequest(e: Engine, p: Dispatch.Platform)
    requires Valid(e) && e.pending.Ready?
    ensures var o := Dispatch.ProcessCommand(e, Post("GetSystemSettings", JNull), p);
      o.Replied? && o.reply.data == JObj(map["invertOutputs" := JBool(e.invertOutputs)])
  {
    Dispatch.CommandNamesRoundTrip(Dispatch.GetSystemSettings);
  }
}
