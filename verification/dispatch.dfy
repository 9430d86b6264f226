/**
 * The command interface: one POST body in, one reply out. Calls into code outside the
 * fill controller (the network component's callbacks, the boot-partition switch) are
 * given as a `Platform` value; deferred actions are returned as effects.
 */
module Dispatch {
  import opened Wrappers
  import opened FixedWidth
  import opened Payload
  import opened Config
  import opened Registry
  import BottleFiller

  type Engine = BottleFiller.Engine

  const RestartNotice: string := "Please restart device for changes to have effect!"
  const FactoryNotice: string := "Device will restart shortly, reconnect to factory wifi settings to continue!"

  /** The commands the dispatcher recognises, and any other name. */
  datatype Command =
    | Start | StartManual
    | GetWifiSettings | SaveWifiSettings | ScanWifi
    | GetSystemSettings | SaveSystemSettings
    | GetFillerSettings | SaveFillerSettings | SetFillerSettings
    | Reboot | FactoryReset | BootIntoRecovery
    | Unknown(name: string)

  /** The name a client sends for a recognised command. */
  function NameOf(c: Command): string
    requires !c.Unknown?
  {
    match c
    case Start => "Start"
    case StartManual => "StartManual"
    case GetWifiSettings => "GetWifiSettings"
    case SaveWifiSettings => "SaveWifiSettings"
    case ScanWifi => "ScanWifi"
    case GetSystemSettings => "GetSystemSettings"
    case SaveSystemSettings => "SaveSystemSettings"
    case GetFillerSettings => "GetFillerSettings"
    case SaveFillerSettings => "SaveFillerSettings"
    case SetFillerSettings => "SetFillerSettings"
    case Reboot => "Reboot"
    case FactoryReset => "FactoryReset"
    case BootIntoRecovery => "BootIntoRecovery"
  }

  /** The dispatcher's chain of name comparisons: the first name that matches wins. */
  function CommandOf(name: string): (c: Command)
    ensures c.Unknown? ==> c.name == name
    ensures !c.Unknown? ==> NameOf(c) == name
  {
    if name == "Start" then Start
    else if name == "StartManual" then StartManual
    else if name == "GetWifiSettings" then GetWifiSettings
    else if name == "SaveWifiSettings" then SaveWifiSettings
    else if name == "ScanWifi" then ScanWifi
    else if name == "GetSystemSettings" then GetSystemSettings
    else if name == "SaveSystemSettings" then SaveSystemSettings
    else if name == "GetFillerSettings" then GetFillerSettings
    else if name == "SaveFillerSettings" then SaveFillerSettings
    else if name == "SetFillerSettings" then SetFillerSettings
    else if name == "Reboot" then Reboot
    else if name == "FactoryReset" then FactoryReset
    else if name == "BootIntoRecovery" then BootIntoRecovery
    else Unknown(name)
  }

  /** Every recognised command is recognised by its own name, and by no other. */
  lemma CommandNamesRoundTrip(c: Command)
    requires !c.Unknown?
    ensures CommandOf(NameOf(c)) == c
  {
  }

  /**
   * What the network component and the partition table answer: the stored network
   * settings and the scan result (absent when no callback is registered), whether a save
   * callback is registered, and the message switching to the recovery partition yields.
   */
  datatype Platform = Platform(
    wifiSettings: Option<Json>,
    wifiSaver: bool,
    wifiScan: Option<Json>,
    recoveryMessage: string)

  /** Actions deferred to code outside the controller: handing network settings over, restarting. */
  datatype Effect = HandOverWifi(settings: Json) | Restart

  datatype Reply = Reply(data: Json, success: bool, message: string)

  /**
   * A handled command: an exception escaping the handler (which ends the firmware), a
   * handler blocked inside the command (its reply is built only once it returns), or the
   * reply with the deferred actions.
   */
  datatype Outcome =
    | Threw
    | Held(engine: Engine)
    | Replied(engine: Engine, reply: Reply, effects: seq<Effect>)

  /** `s.find(sub) != npos`. */
  predicate Contains(s: string, sub: string)
    decreases |s|
  {
    |sub| <= |s| && (s[..|sub|] == sub || Contains(s[1..], sub))
  }

  /** The reply object: `data` and `success` always, `message` only when it is not empty. */
  function ReplyJson(r: Reply): (m: map<string, Json>)
    ensures "data" in m && m["data"] == r.data
    ensures "success" in m && m["success"] == JBool(r.success)
    ensures "message" in m <==> r.message != ""
    ensures m.Keys <= {"data", "success", "message"}
  {
    var m := map["data" := r.data, "success" := JBool(r.success)];
    if r.message != "" then m["message" := JStr(r.message)] else m
  }

  /** How a client reads a reply object back; an absent `message` is the empty message. */
  function ReplyOf(j: Json): (r: Option<Reply>)
    ensures r.Some? ==> j.JObj? && "data" in j.fields && "success" in j.fields
  {
    if !j.JObj? || "data" !in j.fields || "success" !in j.fields || !j.fields["success"].JBool? then None
    else
      var message := if "message" in j.fields && j.fields["message"].JStr? then j.fields["message"].s else "";
      Some(Reply(j.fields["data"], j.fields["success"].b, message))
  }

  /** Every reply reads back as itself. */
  lemma ReplyRoundTrip(r: Reply)
    ensures ReplyOf(JObj(ReplyJson(r))) == Some(r)
  {
  }

  /** `data[key].get<unsigned>()`: a member of an object (or of null) read as a number; anything else throws. */
  function ReadNumber(data: Json, key: string): (r: Option<int>)
    ensures r.Some? <==> (data.JObj? || data.JNull?) && Number(Field(if data.JObj? then data.fields else map[], key)).Some?
  {
    var j :- Member(data, key);
    Number(j)
  }

  /** The registry as `GetFillerSettings` returns it: each station serialised, in ascending id order. */
  function Listing(e: Engine): (items: seq<Json>)
    requires BottleFiller.RegistryValid(e)
    ensures |items| == |BottleFiller.Stations(e)|
    ensures forall i | 0 <= i < |items| :: items[i] == JObj(ToJson(BottleFiller.Stations(e)[i]))
  {
    var st := BottleFiller.Stations(e);
    seq(|st|, i requires 0 <= i < |st| => JObj(ToJson(st[i])))
  }

  /**
   * The listing reads back: each item decodes to its station as registered (the channel
   * and status are not serialised, so they come back as a fresh record's). The stations
   * are listed in ascending id order, so the decoded ids ascend too.
   */
  lemma ListingReadsBack(e: Engine, i: nat)
    requires BottleFiller.RegistryValid(e) && i < |BottleFiller.Stations(e)|
    ensures FromJson(Blank, Listing(e)[i]) == Some(BottleFiller.Stations(e)[i].(channel := Blank.channel, status := Idle))
  {
    RoundTrip(BottleFiller.Stations(e)[i], Blank);
  }

  /**
   * The commands whose payload is read in a way that can throw before the handler could
   * block. A bulk replace can throw too, but only once its settle is over (see `Return`).
   */
  predicate Throwing(c: Command) {
    c.Start? || c.StartManual? || c.SaveSystemSettings? || c.SetFillerSettings?
  }

  /** The commands that never change the engine. */
  predicate ReadOnly(c: Command) {
    c.GetWifiSettings? || c.SaveWifiSettings? || c.ScanWifi? || c.GetSystemSettings? ||
    c.GetFillerSettings? || c.Reboot? || c.BootIntoRecovery? || c.Unknown?
  }

  /** The commands whose handler blocks: a timed manual fill and a bulk replace. */
  predicate Blocking(c: Command) {
    c.StartManual? || c.SaveFillerSettings?
  }

  /** The commands whose reply carries data. */
  predicate Reads(c: Command) {
    c.GetWifiSettings? || c.ScanWifi? || c.GetSystemSettings? || c.GetFillerSettings?
  }

  /** Whether a command schedules a restart: the two that always do, and a recovery switch that did not fail. */
  predicate Restarts(c: Command, p: Platform) {
    c.Reboot? || c.FactoryReset? || (c.BootIntoRecovery? && !Contains(p.recoveryMessage, "Error"))
  }

  /** `start`: the payload's `id`, read as an unsigned number and narrowed to a station id. */
  function StartCommand(e: Engine, data: Json): (r: Option<Engine>)
    requires BottleFiller.Valid(e)
    ensures r.Some? <==> ReadNumber(data, "id").Some?
    ensures r.Some? ==> r.value == BottleFiller.Start(e, ToUint8(ToUint32(ReadNumber(data, "id").value)))
    ensures r.Some? ==> r.value.pending == e.pending
  {
    var id :- ReadNumber(data, "id");
    Some(BottleFiller.Start(e, ToUint8(ToUint32(id))))
  }

  /**
   * `startManual`: the payload's `id` and `time`, both read as unsigned numbers; the id
   * narrowed to a station id and the time taken as milliseconds.
   */
  function StartManualCommand(e: Engine, data: Json): (r: Option<Engine>)
    requires BottleFiller.Valid(e)
    ensures r.Some? <==> ReadNumber(data, "id").Some? && ReadNumber(data, "time").Some?
    ensures r.Some? ==>
      r.value == BottleFiller.ManualTimedStart(e, ToUint8(ToUint32(ReadNumber(data, "id").value)), ToUint32(ReadNumber(data, "time").value))
  {
    var id :- ReadNumber(data, "id");
    var time :- ReadNumber(data, "time");
    Some(BottleFiller.ManualTimedStart(e, ToUint8(ToUint32(id)), ToUint32(time)))
  }

  /**
   * The engine operation a command performs. `None` stands for a payload the command
   * reads and cannot convert; a command that performs no operation leaves the engine as
   * it was.
   */
  function Apply(e: Engine, c: Command, data: Json): (r: Option<Engine>)
    requires BottleFiller.Valid(e) && e.pending.Ready?
    ensures r.Some? ==> BottleFiller.Valid(r.value) && BottleFiller.CallerOnly(e, r.value) && r.value.clock == e.clock
    ensures r.None? ==> Throwing(c)
    ensures ReadOnly(c) ==> r.Some? && r.value == e
    ensures r.Some? && !Blocking(c) ==> r.value.pending.Ready?
    ensures c.Start? ==> r == StartCommand(e, data)
    ensures c.StartManual? ==> r == StartManualCommand(e, data)
    ensures c.SaveSystemSettings? ==> r == BottleFiller.SaveSystemSettings(e, data)
    ensures c.SaveFillerSettings? ==> r == Some(BottleFiller.SaveStart(e, data))
    ensures c.SetFillerSettings? ==> r == BottleFiller.SetFillerSettings(e, data)
    ensures c.FactoryReset? ==> r == Some(e.(store := BottleFiller.Store(None, None)))
  {
    if ReadOnly(c) then Some(e)
    else match c
    case Start => StartCommand(e, data)
    case StartManual => StartManualCommand(e, data)
    case SaveSystemSettings => BottleFiller.SaveSystemSettings(e, data)
    case SaveFillerSettings => Some(BottleFiller.SaveStart(e, data))
    case SetFillerSettings => BottleFiller.SetFillerSettings(e, data)
    case FactoryReset =>
      var r := e.(store := BottleFiller.Store(None, None));
      BottleFiller.ValidFrame(e, r);
      BottleFiller.SameObjectsCallerOnly(e, r);
      Some(r)
    case _ => Some(e)
  }

  /** The reply to a command that did not throw, and the actions it defers. */
  function Answer(e: Engine, c: Command, data: Json, p: Platform): (r: (Reply, seq<Effect>))
    requires BottleFiller.RegistryValid(e)
    ensures r.0.success <==> !(c.BootIntoRecovery? && Contains(p.recoveryMessage, "Error"))
    ensures Restart in r.1 <==> Restarts(c, p)
    ensures !Reads(c) ==> r.0.data == JNull
    ensures c.SaveWifiSettings? || c.SaveSystemSettings? ==> r.0.message == RestartNotice
    ensures !(c.SaveWifiSettings? || c.SaveSystemSettings? || c.FactoryReset? || c.BootIntoRecovery?) ==> r.0.message == ""
    ensures c.FactoryReset? ==> r.0.message == FactoryNotice
    ensures c.BootIntoRecovery? ==> r.0.message == p.recoveryMessage
    ensures c.GetFillerSettings? ==> r.0.data == JArr(Listing(e))
    ensures c.GetSystemSettings? ==> r.0.data == JObj(map["invertOutputs" := JBool(e.invertOutputs)])
    ensures c.GetWifiSettings? ==> r.0.data == p.wifiSettings.GetOr(JNull)
    ensures c.ScanWifi? ==> r.0.data == p.wifiScan.GetOr(JNull)
    ensures HandOverWifi(data) in r.1 <==> c.SaveWifiSettings? && p.wifiSaver
    ensures Blocking(c) ==> r == (Reply(JNull, true, ""), [])
  {
    match c
    case GetWifiSettings => (Reply(p.wifiSettings.GetOr(JNull), true, ""), [])
    case SaveWifiSettings => (Reply(JNull, true, RestartNotice), if p.wifiSaver then [HandOverWifi(data)] else [])
    case ScanWifi => (Reply(p.wifiScan.GetOr(JNull), true, ""), [])
    case GetSystemSettings => (Reply(JObj(map["invertOutputs" := JBool(e.invertOutputs)]), true, ""), [])
    case SaveSystemSettings => (Reply(JNull, true, RestartNotice), [])
    case GetFillerSettings => (Reply(JArr(Listing(e)), true, ""), [])
    case Reboot => (Reply(JNull, true, ""), [Restart])
    case FactoryReset => (Reply(JNull, true, FactoryNotice), [Restart])
    case BootIntoRecovery =>
      if Contains(p.recoveryMessage, "Error") then (Reply(JNull, false, p.recoveryMessage), [])
      else (Reply(JNull, true, p.recoveryMessage), [Restart])
    case _ => (Reply(JNull, true, ""), [])
  }

  /**
   * One command: its engine operation, then its reply. The four commands that read their
   * payload throw when it is not shaped as expected. A command whose handler blocks
   * replies only when it returns; every other outcome is a reply. The reply to a
   * read-back command reflects the engine before the command.
   */
  function Run(e: Engine, c: Command, data: Json, p: Platform): (o: Outcome)
    requires BottleFiller.Valid(e) && e.pending.Ready?
    ensures !o.Threw? ==> BottleFiller.Valid(o.engine) && BottleFiller.CallerOnly(e, o.engine) && o.engine.clock == e.clock
    ensures o.Threw? <==> Apply(e, c, data).None?
    ensures !o.Threw? ==> o.engine == Apply(e, c, data).value
    ensures o.Threw? ==> Throwing(c)
    ensures o.Held? <==> Apply(e, c, data).Some? && !Apply(e, c, data).value.pending.Ready?
    ensures o.Held? ==> Blocking(c)
    ensures o.Replied? ==> o.engine.pending.Ready? && (o.reply, o.effects) == Answer(e, c, data, p)
    ensures o.Replied? ==> (o.reply.success <==> !(c.BootIntoRecovery? && Contains(p.recoveryMessage, "Error")))
    ensures o.Replied? ==> (Restart in o.effects <==> Restarts(c, p))
    ensures o.Replied? && ReadOnly(c) ==> o.engine == e
    ensures o.Replied? && !Reads(c) ==> o.reply.data == JNull
    ensures c.Unknown? ==> o == Replied(e, Reply(JNull, true, ""), [])
  {
    match Apply(e, c, data)
    case None => Threw
    case Some(e') =>
      if !e'.pending.Ready? then Held(e')
      else
        var (reply, effects) := Answer(e, c, data, p);
        Replied(e', reply, effects)
  }

  /**
   * The blocked handler's return, once the scheduler resumes it: before the deadline it
   * stays blocked; at the end of a timed manual fill it replies; at the end of a bulk
   * replace's settle it throws exactly when a kept element fails to decode, and
   * otherwise replies. The reply is the one `Answer` gives for either command.
   */
  function Return(e: Engine): (o: Outcome)
    requires BottleFiller.Valid(e) && !e.pending.Ready?
    ensures o.Threw? <==> BottleFiller.Resume(e).None?
    ensures o.Threw? ==> e.pending.Settling? && e.clock >= e.pending.until
    ensures !o.Threw? ==> o.engine == BottleFiller.Resume(e).value
    ensures o.Held? <==> e.clock < e.pending.until
    ensures o.Held? ==> o.engine == e
    ensures o.Replied? ==> o.engine.pending.Ready? && o.reply == Reply(JNull, true, "") && o.effects == []
  {
    match BottleFiller.Resume(e)
    case None => Threw
    case Some(e') =>
      if e.clock < e.pending.until then Held(e')
      else Replied(e', Reply(JNull, true, ""), [])
  }

  /**
   * `processCommand`: the request must be an object whose `command` member is a string
   * (anything else throws); its `data` member (null when absent) goes to the command.
   */
  function ProcessCommand(e: Engine, request: Json, p: Platform): (o: Outcome)
    requires BottleFiller.Valid(e) && e.pending.Ready?
    ensures !(request.JObj? && Field(request.fields, "command").JStr?) ==> o.Threw?
    ensures request.JObj? && Field(request.fields, "command").JStr? ==>
      o == Run(e, CommandOf(Field(request.fields, "command").s), Field(request.fields, "data"), p)
    ensures !o.Threw? ==> BottleFiller.Valid(o.engine) && BottleFiller.CallerOnly(e, o.engine) && o.engine.clock == e.clock
  {
    if !request.JObj? then Threw
    else
      var command := Field(request.fields, "command");
      if !command.JStr? then Threw
      else Run(e, CommandOf(command.s), Field(request.fields, "data"), p)
  }
}
