/**
 * Button bindings and the edge-detection step of the input polling loop. A binding ties
 * one input line to one station and one function; the polling loop compares each
 * binding's last seen level with a fresh sample and reacts to the difference.
 */
module Input {
  import opened Wrappers
  import opened FixedWidth

  /** What a button does; the enumerators carry the codes 0 and 1. */
  datatype InputFunction = AutoFill | ManualFill

  function FunctionCode(f: InputFunction): (c: uint8)
    ensures c <= 1
  {
    match f
    case AutoFill => 0
    case ManualFill => 1
  }

  /** The enumerator with code `c`; the enumeration is closed, so only 0 and 1 name one. */
  function FunctionOfCode(c: int): (r: Option<InputFunction>)
    ensures r.Some? <==> 0 <= c <= 1
    ensures r.Some? ==> FunctionCode(r.value) == c
  {
    if c == 0 then Some(AutoFill)
    else if c == 1 then Some(ManualFill)
    else None
  }

  /**
   * A binding. `currentLevel` is the level the polling loop saw last (1 = released, the
   * line is pulled up), `lastChange` the coarse time stamp of the last press.
   */
  datatype Input = Input(
    id: uint8,
    gpio: int32,
    currentLevel: uint8,
    lastChange: nat,
    fillerId: uint8,
    role: InputFunction)

  /** The engine operation a sampled edge asks for. */
  datatype Action =
    | NoAction
    | Toggle(fillerId: uint8)        // start(): toggles the timed auto-fill
    | ManualStart(fillerId: uint8)   // startManualFill() for a held button
    | ManualStop(fillerId: uint8)    // stopManualFill()

  datatype Edge = Edge(binding: Input, action: Action)

  /**
   * What a level change on a line of the given function asks for, knowing only the
   * previous and the current level: a release (to a level above 0) toggles the auto-fill
   * or stops the manual fill, a press starts the manual fill and does nothing for AutoFill.
   */
  function Reaction(role: InputFunction, fillerId: uint8, previous: uint8, level: uint8): (r: Action)
    ensures r.Toggle? <==> previous != level && level > 0 && role.AutoFill?
    ensures r.ManualStop? <==> previous != level && level > 0 && role.ManualFill?
    ensures r.ManualStart? <==> previous != level && level == 0 && role.ManualFill?
    ensures r.NoAction? <==> previous == level || (level == 0 && role.AutoFill?)
    ensures !r.NoAction? ==> r.fillerId == fillerId
  {
    if previous == level then NoAction
    else if level > 0 then (if role.AutoFill? then Toggle(fillerId) else ManualStop(fillerId))
    else if role.ManualFill? then ManualStart(fillerId)
    else NoAction
  }

  /** One binding's share of one polling tick. */
  function EdgeStep(b: Input, level: uint8, timestamp: nat): (r: Edge)
    ensures level == b.currentLevel <==> r == Edge(b, NoAction)
    ensures r.binding == b.(currentLevel := level, lastChange := r.binding.lastChange)
    ensures r.binding.lastChange != b.lastChange ==> level == 0 && r.binding.lastChange == timestamp
    ensures b.currentLevel != level && level == 0 ==> r.binding.lastChange == timestamp
    ensures r.action == Reaction(b.role, b.fillerId, b.currentLevel, level)
  {
    if b.currentLevel != level then
      if level > 0 then
        Edge(b.(currentLevel := level), if b.role == AutoFill then Toggle(b.fillerId) else ManualStop(b.fillerId))
      else
        Edge(b.(currentLevel := level, lastChange := timestamp), if b.role == ManualFill then ManualStart(b.fillerId) else NoAction)
    else
      Edge(b, NoAction)
  }

  /** Once a level has been seen, seeing it again changes nothing and asks for nothing. */
  lemma EdgeSettles(b: Input, level: uint8, t1: nat, t2: nat)
    ensures var b' := EdgeStep(b, level, t1).binding; EdgeStep(b', level, t2) == Edge(b', NoAction)
  {
  }

  /** The actions one binding emits for a sequence of samples, one per sample. */
  function EdgeTrace(b: Input, samples: seq<uint8>, timestamp: nat): (r: seq<Action>)
    ensures |r| == |samples|
    decreases |samples|
  {
    if |samples| == 0 then []
    else
      var e := EdgeStep(b, samples[0], timestamp);
      [e.action] + EdgeTrace(e.binding, samples[1..], timestamp)
  }

  /** The sample before position `i`, the binding's stored level standing in for the first. */
  function Previous(initial: uint8, samples: seq<uint8>, i: nat): uint8
    requires i < |samples|
  {
    if i == 0 then initial else samples[i - 1]
  }

  /**
   * Edge detection is bare sampling: the stored level always equals the previous sample,
   * so every emitted action is determined by two consecutive samples alone, and a change
   * is acted on at the first sample that differs.
   */
  lemma {:induction false} EdgeTraceIsPairwise(b: Input, samples: seq<uint8>, timestamp: nat)
    ensures forall i | 0 <= i < |samples| ::
      EdgeTrace(b, samples, timestamp)[i] == Reaction(b.role, b.fillerId, Previous(b.currentLevel, samples, i), samples[i])
    decreases |samples|
  {
    if |samples| > 0 {
      var e := EdgeStep(b, samples[0], timestamp);
      EdgeTraceIsPairwise(e.binding, samples[1..], timestamp);
      forall i | 0 <= i < |samples|
        ensures EdgeTrace(b, samples, timestamp)[i] == Reaction(b.role, b.fillerId, Previous(b.currentLevel, samples, i), samples[i])
      {
        if i > 0 {
          assert samples[1..][i - 1] == samples[i];
          assert Previous(e.binding.currentLevel, samples[1..], i - 1) == Previous(b.currentLevel, samples, i);
        }
      }
    }
  }

  /** A full press-and-release of a manual button, from rest, starts and then stops the manual fill. */
  lemma ManualPressRelease(b: Input, t: nat)
    requires b.role == ManualFill && b.currentLevel == 1
    ensures EdgeTrace(b, [0, 1], t) == [ManualStart(b.fillerId), ManualStop(b.fillerId)]
  {
    assert [0, 1][1..] == [1 as uint8];
  }

  /** A full press-and-release of an auto button, from rest, toggles the auto-fill once, on release. */
  lemma AutoPressRelease(b: Input, t: nat)
    requires b.role == AutoFill && b.currentLevel == 1
    ensures EdgeTrace(b, [0, 1], t) == [NoAction, Toggle(b.fillerId)]
  {
    assert [0, 1][1..] == [1 as uint8];
  }
}
