/**
 * One filling station's record (`FillerConfig`) and its status enumeration, with the
 * conversions to and from the eight-key JSON object used by the command channel and
 * by the persisted station list.
 */
module Config {
  import opened Wrappers
  import opened FixedWidth
  import opened Payload

  /** The run-time status of a station; the enumerators carry the codes 0, 1 and 2. */
  datatype FillerStatus = Idle | Filling | Aborting

  function StatusCode(s: FillerStatus): (c: uint8)
    ensures c <= 2
  {
    match s
    case Idle => 0
    case Filling => 1
    case Aborting => 2
  }

  /** The enumerator with code `c`; the enumeration is closed, so only 0, 1 and 2 name one. */
  function StatusOfCode(c: int): (r: Option<FillerStatus>)
    ensures r.Some? <==> 0 <= c <= 2
    ensures r.Some? ==> StatusCode(r.value) == c
  {
    if c == 0 then Some(Idle)
    else if c == 1 then Some(Filling)
    else if c == 2 then Some(Aborting)
    else None
  }

  /**
   * A station. `id` is the registry key, `channel` the pulse-width output channel that
   * drives the pump, the speeds are duty percentages (documented as 0..100, never
   * checked) and `fillTime` is the auto-fill duration in milliseconds.
   */
  datatype FillerConfig = FillerConfig(
    id: uint8,
    name: string,
    pumpPin: int32,
    autoPin: int32,
    manualPin: int32,
    channel: uint8,
    autoFillSpeed: uint8,
    manualFillSpeed: uint8,
    fillTime: uint32,
    status: FillerStatus)

  /** A freshly value-initialised record: every number zero, the name empty, the status Idle. */
  const Blank: FillerConfig := FillerConfig(0, "", 0, 0, 0, 0, 0, 0, 0, Idle)

  /** The keys of the serialised form; `channel` and `status` are not among them. */
  const SerializedKeys: set<string> :=
    {"id", "name", "pumpPin", "autoPin", "manualPin", "autoFillSpeed", "manualFillSpeed", "fillTime"}

  function ToJson(c: FillerConfig): (r: map<string, Json>)
    ensures r.Keys == SerializedKeys
    ensures "channel" !in r && "status" !in r
    ensures Decodable(JObj(r))
  {
    map[
      "id" := JNum(c.id),
      "name" := JStr(c.name),
      "pumpPin" := JNum(c.pumpPin),
      "autoPin" := JNum(c.autoPin),
      "manualPin" := JNum(c.manualPin),
      "autoFillSpeed" := JNum(c.autoFillSpeed),
      "manualFillSpeed" := JNum(c.manualFillSpeed),
      "fillTime" := JNum(c.fillTime)]
  }

  predicate NumberAt(fields: map<string, Json>, key: string) {
    Number(Field(fields, key)).Some?
  }

  /** The JSON values `FromJson` accepts without throwing. */
  predicate Decodable(j: Json) {
    && j.JObj?
    && NumberAt(j.fields, "id")
    && Field(j.fields, "name").JStr?
    && NumberAt(j.fields, "pumpPin")
    && NumberAt(j.fields, "autoPin")
    && NumberAt(j.fields, "manualPin")
    && NumberAt(j.fields, "autoFillSpeed")
    && NumberAt(j.fields, "manualFillSpeed")
    && NumberAt(j.fields, "fillTime")
  }

  /**
   * Assigns the eight serialised fields of `into` from `j`, narrowing each number to the
   * field's width, and resets the status to Idle. `channel` is not assigned: it keeps the
   * value `into` had. `None` stands for the exception a missing or ill-typed member raises.
   */
  function FromJson(into: FillerConfig, j: Json): (r: Option<FillerConfig>)
    ensures r.Some? <==> Decodable(j)
    ensures r.Some? ==> r.value.status == Idle && r.value.channel == into.channel
    ensures r.Some? ==> r.value.name == j.fields["name"].s
    ensures r.Some? ==> r.value.autoFillSpeed == ToUint8(Number(j.fields["autoFillSpeed"]).value)
    ensures r.Some? ==> r.value.manualFillSpeed == ToUint8(Number(j.fields["manualFillSpeed"]).value)
    ensures r.Some? ==> r.value.id == ToUint8(Number(j.fields["id"]).value)
    ensures r.Some? ==> r.value.fillTime == ToUint32(Number(j.fields["fillTime"]).value)
    ensures r.Some? ==> ToUint32(r.value.pumpPin) == ToUint32(Number(j.fields["pumpPin"]).value)
    ensures r.Some? ==> ToUint32(r.value.autoPin) == ToUint32(Number(j.fields["autoPin"]).value)
    ensures r.Some? ==> ToUint32(r.value.manualPin) == ToUint32(Number(j.fields["manualPin"]).value)
  {
    if !j.JObj? then None
    else
      var m := j.fields;
      var id :- Number(Field(m, "id"));
      var name :- Text(Field(m, "name"));
      var pumpPin :- Number(Field(m, "pumpPin"));
      var autoPin :- Number(Field(m, "autoPin"));
      var manualPin :- Number(Field(m, "manualPin"));
      var autoFillSpeed :- Number(Field(m, "autoFillSpeed"));
      var manualFillSpeed :- Number(Field(m, "manualFillSpeed"));
      var fillTime :- Number(Field(m, "fillTime"));
      NarrowTwice(autoFillSpeed);
      NarrowTwice(manualFillSpeed);
      Some(into.(
        id := ToUint8(id),
        name := name,
        pumpPin := ToInt32(ToUint32(pumpPin)),
        autoPin := ToInt32(ToUint32(autoPin)),
        manualPin := ToInt32(ToUint32(manualPin)),
        autoFillSpeed := ToUint8(ToUint32(autoFillSpeed)),
        manualFillSpeed := ToUint8(ToUint32(manualFillSpeed)),
        fillTime := ToUint32(fillTime),
        status := Idle))
  }

  /** Decoding the serialised form of `c` restores all eight serialised fields of `c`. */
  lemma RoundTrip(c: FillerConfig, into: FillerConfig)
    ensures FromJson(into, JObj(ToJson(c))) == Some(c.(channel := into.channel, status := Idle))
  {
    Int32RoundTrip(c.pumpPin);
    Int32RoundTrip(c.autoPin);
    Int32RoundTrip(c.manualPin);
  }

  /**
   * No range check exists: any number is accepted as a speed and kept modulo 256, so a
   * speed of 300 becomes 44 and one of -1 becomes 255.
   */
  lemma SpeedIsNotRangeChecked(j: Json, auto: int, manual: int)
    requires Decodable(j)
    requires j.fields["autoFillSpeed"] == JNum(auto) && j.fields["manualFillSpeed"] == JNum(manual)
    ensures FromJson(Blank, j).Some?
    ensures FromJson(Blank, j).value.autoFillSpeed as int == auto % 0x100
    ensures FromJson(Blank, j).value.manualFillSpeed as int == manual % 0x100
  {
  }
}
