/**
 * The station registry as plain values: the ordered walk over station ids, the channel
 * each station drives, the button bindings derived from the stations, the two built-in
 * default stations, and the decoding of a submitted or a stored station list into the
 * entries that are installed, in order.
 */
module Registry {
  import opened Wrappers
  import opened FixedWidth
  import opened Payload
  import opened Config
  import opened Input

  /** The most stations a bulk replace installs. */
  const MaxFillers: nat := 6

  /** The output channel of the station with id `id`: `id - 1`, computed in 8 bits. */
  function ChannelFor(id: uint8): (c: uint8)
    ensures ToUint8(c + 1) == id
    ensures 1 <= id ==> c == id - 1
  {
    ToUint8(id - 1)
  }

  /** Distinct ids drive distinct channels; ids 1..6 drive channels 0..5. */
  lemma ChannelsDistinct(a: uint8, b: uint8)
    ensures a != b ==> ChannelFor(a) != ChannelFor(b)
    ensures 1 <= a <= MaxFillers ==> ChannelFor(a) < MaxFillers
  {
  }

  /** The ids of `s` that are at least `k`, in ascending order. */
  function IdsFrom(s: set<uint8>, k: nat): (r: seq<uint8>)
    requires k <= 0x100
    ensures forall i | 0 <= i < |r| :: k <= r[i] && r[i] in s
    ensures forall x | x in s && k <= x :: x in r
    ensures forall i, j | 0 <= i < j < |r| :: r[i] < r[j]
    decreases 0x100 - k
  {
    if k == 0x100 then []
    else if k as uint8 in s then [k as uint8] + IdsFrom(s, k + 1)
    else IdsFrom(s, k + 1)
  }

  /** The keys of an ordered map in iteration order: every key once, ascending. */
  function AscendingIds(s: set<uint8>): (r: seq<uint8>)
    ensures forall x :: x in r <==> x in s
    ensures forall i, j | 0 <= i < j < |r| :: r[i] < r[j]
  {
    IdsFrom(s, 0)
  }

  /** How many bindings a station yields: one per button pin above 0. */
  function PinsOf(f: FillerConfig): nat {
    (if f.autoPin > 0 then 1 else 0) + (if f.manualPin > 0 then 1 else 0)
  }

  function PinCount(stations: seq<FillerConfig>): nat
    decreases |stations|
  {
    if |stations| == 0 then 0 else PinsOf(stations[0]) + PinCount(stations[1..])
  }

  /** A binding as built for a station: level 1 (released), owned by the station. */
  function NewBinding(id: nat, pin: int32, f: FillerConfig, role: InputFunction): Input {
    Input(ToUint8(id), pin, 1, 0, f.id, role)
  }

  /** The bindings of one station, the auto binding first, numbered after `lastId`. */
  function BindingsFor(f: FillerConfig, lastId: nat): (r: seq<Input>)
    ensures |r| == PinsOf(f)
  {
    var auto := if f.autoPin > 0 then [NewBinding(lastId + 1, f.autoPin, f, AutoFill)] else [];
    var manual := if f.manualPin > 0 then [NewBinding(lastId + |auto| + 1, f.manualPin, f, ManualFill)] else [];
    auto + manual
  }

  /** Where the bindings of `stations[s]` begin. */
  function Offset(stations: seq<FillerConfig>, s: nat): nat
    requires s <= |stations|
  {
    PinCount(stations[..s])
  }

  /** `r` holds the bindings of `f` from position `o` on: auto binding (if any) first, then the manual one. */
  predicate BindingsAt(f: FillerConfig, r: seq<Input>, o: nat) {
    && (f.autoPin > 0 ==> o < |r| && r[o].gpio == f.autoPin && r[o].fillerId == f.id && r[o].role == AutoFill)
    && (f.manualPin > 0 ==>
          var m := o + (if f.autoPin > 0 then 1 else 0);
          m < |r| && r[m].gpio == f.manualPin && r[m].fillerId == f.id && r[m].role == ManualFill)
  }

  lemma {:induction false} OffsetStep(stations: seq<FillerConfig>, s: nat)
    requires 0 < |stations| && s < |stations|
    ensures Offset(stations, s + 1) == PinsOf(stations[0]) + Offset(stations[1..], s)
  {
    assert stations[..s + 1][1..] == stations[1..][..s];
  }

  /** The bindings built for the stations in walk order, numbered consecutively after `lastId`. */
  function Bindings(stations: seq<FillerConfig>, lastId: nat): (r: seq<Input>)
    ensures |r| == PinCount(stations)
    decreases |stations|
  {
    if |stations| == 0 then []
    else BindingsFor(stations[0], lastId) + Bindings(stations[1..], lastId + PinsOf(stations[0]))
  }

  /** Bindings are numbered consecutively after `lastId` (in 8 bits), start released and use a pin above 0. */
  lemma {:induction false} BindingsNumbered(stations: seq<FillerConfig>, lastId: nat)
    ensures var r := Bindings(stations, lastId);
      forall i | 0 <= i < |r| :: r[i].id == ToUint8(lastId + i + 1) && r[i].currentLevel == 1 && r[i].gpio > 0
    decreases |stations|
  {
    if |stations| > 0 {
      var head := BindingsFor(stations[0], lastId);
      BindingsNumbered(stations[1..], lastId + |head|);
      var r := Bindings(stations, lastId);
      assert r == head + Bindings(stations[1..], lastId + |head|);
    }
  }

  /**
   * Exactly one binding per pin above 0, in walk order: the bindings of `stations[s]`
   * start at `Offset(stations, s)`, the auto binding before the manual one.
   */
  lemma {:induction false} BindingsPlaced(stations: seq<FillerConfig>, lastId: nat)
    ensures forall s | 0 <= s < |stations| :: BindingsAt(stations[s], Bindings(stations, lastId), Offset(stations, s))
    decreases |stations|
  {
    if |stations| > 0 {
      var head := BindingsFor(stations[0], lastId);
      var tail := Bindings(stations[1..], lastId + |head|);
      var r := Bindings(stations, lastId);
      assert r == head + tail;
      BindingsPlaced(stations[1..], lastId + |head|);
      assert Offset(stations, 0) == 0;
      PlacedInHead(stations[0], lastId, tail);
      forall s | 0 < s < |stations|
        ensures BindingsAt(stations[s], r, Offset(stations, s))
      {
        OffsetStep(stations, s - 1);
        assert stations[1..][s - 1] == stations[s];
        PlacedInTail(stations[s], head, tail, Offset(stations[1..], s - 1));
      }
    }
  }

  /** A station's own bindings are placed at the front. */
  lemma PlacedInHead(f: FillerConfig, lastId: nat, tail: seq<Input>)
    ensures BindingsAt(f, BindingsFor(f, lastId) + tail, 0)
  {
  }

  /** Bindings placed in `tail` stay placed, shifted, after a prefix. */
  lemma PlacedInTail(f: FillerConfig, head: seq<Input>, tail: seq<Input>, o: nat)
    requires BindingsAt(f, tail, o)
    ensures BindingsAt(f, head + tail, |head| + o)
  {
  }

  /** The ids of a list of stations. */
  function FillerIds(stations: seq<FillerConfig>): set<uint8>
    decreases |stations|
  {
    if |stations| == 0 then {} else {stations[0].id} + FillerIds(stations[1..])
  }

  /** Every binding belongs to one of the stations it was built from. */
  lemma {:induction false} BindingsOwned(stations: seq<FillerConfig>, lastId: nat)
    ensures forall b | b in Bindings(stations, lastId) :: b.fillerId in FillerIds(stations)
    decreases |stations|
  {
    if |stations| > 0 {
      BindingsOwned(stations[1..], lastId + PinsOf(stations[0]));
    }
  }

  /** A station as seeded on first boot: pump on the configured pin, no buttons. */
  function DefaultFiller(id: uint8, name: string, pumpPin: int32): FillerConfig {
    Blank.(id := id, name := name, pumpPin := pumpPin, autoFillSpeed := 100, manualFillSpeed := 50, fillTime := 20000)
  }

  /** The two stations seeded when nothing is stored. */
  function DefaultFillers(pump1: int32, pump2: int32): (r: seq<FillerConfig>)
    ensures |r| == 2 && r[0].id == 1 && r[1].id == 2 && r[0].pumpPin == pump1 && r[1].pumpPin == pump2
    ensures forall i | 0 <= i < 2 ::
      && r[i].autoFillSpeed == 100 && r[i].manualFillSpeed == 50 && r[i].fillTime == 20000
      && r[i].status == Idle && PinsOf(r[i]) == 0
  {
    [DefaultFiller(1, "Filler 1", pump1), DefaultFiller(2, "Filler 2", pump2)]
  }

  /** The registry an insertion sequence yields: each entry stored under its own id, in order. */
  function KeyById(es: seq<FillerConfig>): (m: map<uint8, FillerConfig>)
    ensures forall k | k in m :: m[k].id == k
    decreases |es|
  {
    if |es| == 0 then map[]
    else KeyById(es[..|es| - 1])[es[|es| - 1].id := es[|es| - 1]]
  }

  /** Every entry's id is a key, and nothing else is. */
  lemma {:induction false} KeyByIdKeys(es: seq<FillerConfig>)
    ensures forall x :: x in KeyById(es) <==> exists i | 0 <= i < |es| :: es[i].id == x
    decreases |es|
  {
    if |es| > 0 {
      var prefix := es[..|es| - 1];
      KeyByIdKeys(prefix);
      assert forall i | 0 <= i < |prefix| :: prefix[i] == es[i];
      forall x | x in KeyById(es)
        ensures exists i | 0 <= i < |es| :: es[i].id == x
      {
        if x != es[|es| - 1].id {
          assert x in KeyById(prefix);
          var i :| 0 <= i < |prefix| && prefix[i].id == x;
          assert es[i].id == x;
        }
      }
    }
  }

  /** An entry that no later entry shares its id with is the one stored: later duplicates overwrite earlier ones. */
  lemma {:induction false} KeyByIdLastWins(es: seq<FillerConfig>, i: nat)
    requires i < |es|
    requires forall j | i < j < |es| :: es[j].id != es[i].id
    ensures es[i].id in KeyById(es) && KeyById(es)[es[i].id] == es[i]
    decreases |es|
  {
    if i < |es| - 1 {
      var prefix := es[..|es| - 1];
      assert prefix[i] == es[i];
      KeyByIdLastWins(prefix, i);
    }
  }

  /**
   * One element of a submitted list, as the bulk replace reads it: the element's `id`
   * member is overwritten with the new id before decoding, and the decoded record's id
   * is set again. A non-object element throws (writing a member of it), and so does a
   * null one (it decodes to an object without `name`).
   */
  function DecodeWithId(j: Json, id: uint8): (r: Option<FillerConfig>)
    ensures r.Some? ==> r.value.id == id && r.value.status == Idle && r.value.channel == 0
    ensures r.Some? <==> j.JObj? && Decodable(JObj(j.fields["id" := JNum(id)]))
  {
    match j
    case JObj(m) =>
      var f :- FromJson(Blank, JObj(m["id" := JNum(id)]));
      Some(f.(id := id))
    case _ => None
  }

  /**
   * Every element of a submitted list decoded with the id the bulk replace gives it. The
   * running id is an 8-bit counter, so element `j` gets id `(j + 1) mod 256`. Decoding
   * is pure, so decoding every element up front and then walking the results (below)
   * gives what the element-by-element walk gives.
   */
  function Decodes(items: seq<Json>): (ds: seq<Option<FillerConfig>>)
    ensures |ds| == |items|
    // Exposes the elements to callers; it adds nothing beyond the body.
    ensures forall j | 0 <= j < |items| :: ds[j] == DecodeWithId(items[j], ToUint8(j + 1))
  {
    seq(|items|, j requires 0 <= j < |items| => DecodeWithId(items[j], ToUint8(j + 1)))
  }

  /**
   * The walk over the decoded elements from position `i` on: an element whose id exceeds
   * 6 is skipped unread, and the first other element that did not decode makes the whole
   * replace fail.
   */
  function KeepFrom<T>(ds: seq<Option<T>>, i: nat): Option<seq<T>>
    decreases |ds| - i
  {
    if i >= |ds| then Some([])
    else if ToUint8(i + 1) > MaxFillers as int then KeepFrom(ds, i + 1)
    else
      var f :- ds[i];
      var rest :- KeepFrom(ds, i + 1);
      Some([f] + rest)
  }

  /** The entries a bulk replace installs, or `None` when an element it reads throws. */
  function SaveEntries(items: seq<Json>): Option<seq<FillerConfig>> {
    KeepFrom(Decodes(items), 0)
  }

  function Min(a: nat, b: nat): nat {
    if a <= b then a else b
  }

  /** Element `k` of a list of at most 255 is kept (with id k + 1) exactly when k < 6. */
  predicate Kept(k: nat) {
    k < MaxFillers
  }

  /** On lists of at most 255, the walk succeeds exactly when every kept element decoded. */
  lemma {:induction false} KeepSucceeds<T>(ds: seq<Option<T>>, i: nat)
    requires |ds| <= 0xFF && i <= |ds|
    ensures KeepFrom(ds, i).Some? <==> forall k | i <= k < |ds| && Kept(k) :: ds[k].Some?
    decreases |ds| - i
  {
    if i < |ds| {
      assert ToUint8(i + 1) == i + 1;
      KeepSucceeds(ds, i + 1);
    }
  }

  /** Past the sixth element of a list of at most 255, nothing more is kept. */
  lemma {:induction false} KeepPastCap<T>(ds: seq<Option<T>>, i: nat)
    requires |ds| <= 0xFF && MaxFillers <= i <= |ds|
    ensures KeepFrom(ds, i) == Some([])
    decreases |ds| - i
  {
    if i < |ds| {
      assert ToUint8(i + 1) == i + 1;
      KeepPastCap(ds, i + 1);
    }
  }

  /** On lists of at most 255, the walk keeps the first min(n, 6) values, in order. */
  lemma {:induction false} KeepPrefix<T>(ds: seq<Option<T>>, i: nat)
    requires |ds| <= 0xFF && i <= |ds| && i <= MaxFillers
    requires KeepFrom(ds, i).Some?
    ensures var es := KeepFrom(ds, i).value;
      && |es| == Min(|ds|, MaxFillers) - i
      && forall j | i <= j < Min(|ds|, MaxFillers) :: ds[j].Some? && es[j - i] == ds[j].value
    decreases |ds| - i
  {
    if i == |ds| {
    } else if i == MaxFillers {
      KeepPastCap(ds, i);
    } else {
      assert ToUint8(i + 1) == i + 1;
      var es := KeepFrom(ds, i).value;
      var rest := KeepFrom(ds, i + 1).value;
      assert es == [ds[i].value] + rest;
      KeepPrefix(ds, i + 1);
      forall j | i < j < Min(|ds|, MaxFillers)
        ensures es[j - i] == ds[j].value
      {
        assert es[j - i] == rest[j - (i + 1)];
      }
    }
  }

  /**
   * For lists of at most 255 elements the bulk replace succeeds exactly when each of the
   * first min(n, 6) elements decodes; the later ones are never looked at.
   */
  lemma SaveEntriesSucceed(items: seq<Json>)
    requires |items| <= 0xFF
    ensures SaveEntries(items).Some? <==>
      forall k | 0 <= k < Min(|items|, MaxFillers) :: DecodeWithId(items[k], ToUint8(k + 1)).Some?
  {
    var ds := Decodes(items);
    KeepSucceeds(ds, 0);
    assert (forall k | 0 <= k < |ds| && Kept(k) :: ds[k].Some?) <==>
      (forall k | 0 <= k < Min(|items|, MaxFillers) :: ds[k].Some?);
  }

  /**
   * A successful bulk replace of a list of at most 255 elements installs its first
   * min(n, 6) elements, in submission order, with ids 1, 2, ...
   */
  lemma SaveEntriesKeepPrefix(items: seq<Json>)
    requires |items| <= 0xFF && SaveEntries(items).Some?
    ensures var es := SaveEntries(items).value;
      && |es| == Min(|items|, MaxFillers)
      && forall k | 0 <= k < |es| :: DecodeWithId(items[k], ToUint8(k + 1)) == Some(es[k]) && es[k].id == k + 1
  {
    var ds := Decodes(items);
    var es := SaveEntries(items).value;
    KeepPrefix(ds, 0);
    forall k | 0 <= k < |es|
      ensures DecodeWithId(items[k], ToUint8(k + 1)) == Some(es[k]) && es[k].id == k + 1
    {
      assert ds[k].Some? && es[k - 0] == ds[k].value;
      assert ToUint8(k + 1) == k + 1;
    }
  }

  /** Position `k` of the walk carries an 8-bit id above 6. */
  predicate Skipped(k: nat) {
    ToUint8(k + 1) > MaxFillers as int
  }

  /** Positions whose 8-bit id exceeds 6 are skipped without being read. */
  lemma {:induction false} KeepSkips<T>(ds: seq<Option<T>>, i: nat, j: nat)
    requires i <= j <= |ds|
    requires forall k | i <= k < j :: Skipped(k)
    ensures KeepFrom(ds, i) == KeepFrom(ds, j)
    decreases j - i
  {
    if i < j {
      assert Skipped(i);
      KeepSkips(ds, i + 1, j);
    }
  }

  /**
   * On a list of 256 or more, the first six values are kept, then positions 6 to 254
   * (ids 7 to 255) are skipped, and position 255, whose id wraps to 0, is kept next.
   */
  lemma {:induction false} KeepWraps<T>(ds: seq<Option<T>>, i: nat)
    requires 0x100 <= |ds| && i <= MaxFillers
    requires KeepFrom(ds, i).Some?
    ensures var es := KeepFrom(ds, i).value;
      && |es| > MaxFillers - i
      && (forall k | i <= k < MaxFillers :: ds[k] == Some(es[k - i]))
      && ds[0xFF] == Some(es[MaxFillers - i])
    decreases MaxFillers - i
  {
    var es := KeepFrom(ds, i).value;
    if i == MaxFillers {
      forall k | MaxFillers <= k < 0xFF ensures Skipped(k) {
        assert ToUint8(k + 1) == k + 1;
      }
      KeepSkips(ds, MaxFillers, 0xFF);
      assert ToUint8(0x100) == 0;
      assert es == [ds[0xFF].value] + KeepFrom(ds, 0x100).value;
    } else {
      assert ToUint8(i + 1) == i + 1;
      var rest := KeepFrom(ds, i + 1).value;
      assert es == [ds[i].value] + rest;
      KeepWraps(ds, i + 1);
      forall k | i < k < MaxFillers ensures ds[k] == Some(es[k - i]) {
        assert es[k - i] == rest[k - (i + 1)];
      }
    }
  }

  /**
   * A successful bulk replace of a list of 256 or more elements installs, after the
   * first six, element 255 as a seventh station: its 8-bit id has wrapped to 0.
   */
  lemma SaveEntriesWrap(items: seq<Json>)
    requires 0x100 <= |items| && SaveEntries(items).Some?
    ensures var es := SaveEntries(items).value;
      |es| > MaxFillers && DecodeWithId(items[0xFF], 0) == Some(es[MaxFillers]) && es[MaxFillers].id == 0
  {
    var ds := Decodes(items);
    assert ToUint8(0xFF + 1) == 0;
    var d := DecodeWithId(items[0xFF], 0);
    assert ds[0xFF] == d;
    KeepWraps(ds, 0);
  }

  /** Every value the walk keeps is one it read at a position whose id is at most 6. */
  lemma {:induction false} KeepDrawn<T>(ds: seq<Option<T>>, i: nat, p: T -> bool)
    requires forall k | i <= k < |ds| && ToUint8(k + 1) <= MaxFillers as int && ds[k].Some? :: p(ds[k].value)
    requires KeepFrom(ds, i).Some?
    ensures forall x | x in KeepFrom(ds, i).value :: p(x)
    decreases |ds| - i
  {
    if i < |ds| {
      KeepDrawn(ds, i + 1, p);
    }
  }

  /**
   * Whatever the length of the submitted list, every station a bulk replace installs has
   * an id of at most 6 (0 included, for the element the 8-bit counter wraps on) and is Idle.
   */
  lemma SaveEntriesIdsCapped(items: seq<Json>)
    requires SaveEntries(items).Some?
    ensures forall f | f in SaveEntries(items).value :: f.id <= MaxFillers && f.status == Idle
  {
    var ds := Decodes(items);
    KeepDrawn(ds, 0, (f: FillerConfig) => f.id <= MaxFillers && f.status == Idle);
  }

  /** A successful bulk replace of a list of at most 255 elements keys its entries by exactly the ids 1 to min(n, 6). */
  lemma SaveEntriesIds(items: seq<Json>)
    requires |items| <= 0xFF && SaveEntries(items).Some?
    ensures forall x: uint8 :: x in KeyById(SaveEntries(items).value) <==> 1 <= x <= Min(|items|, MaxFillers)
  {
    var es := SaveEntries(items).value;
    SaveEntriesKeepPrefix(items);
    KeyByIdKeys(es);
    forall x: uint8 ensures x in KeyById(es) <==> 1 <= x <= Min(|items|, MaxFillers) {
      if 1 <= x <= Min(|items|, MaxFillers) {
        assert es[x - 1].id == x;
      }
    }
  }

  /** The stored list as the boot sequence reads it: each element decoded as it is, its own id kept. */
  function LoadEntries(items: seq<Json>): (r: Option<seq<FillerConfig>>)
    ensures r.Some? <==> forall i | 0 <= i < |items| :: Decodable(items[i])
    ensures r.Some? ==> |r.value| == |items|
    ensures r.Some? ==> forall i | 0 <= i < |items| :: r.value[i] == FromJson(Blank, items[i]).value
    decreases |items|
  {
    if |items| == 0 then Some([])
    else
      var f :- FromJson(Blank, items[0]);
      var rest :- LoadEntries(items[1..]);
      assert forall i | 1 <= i < |items| :: items[1..][i - 1] == items[i];
      Some([f] + rest)
  }
}
