/**
 * The polygon playground: a twelve-entry catalogue, an ordered list of two or
 * five slot keys, and a regular polygon surface on which the pointer sets the
 * parameters of two ADJACENT slots, chosen by the pointer's angle.
 */
module Playground {
  import opened Parameters
  import opened Mapping
  import Grid

  /** The catalogue's keys in declaration order. */
  const PlaygroundKeys: seq<string> := [
    "temperature", "top_p", "top_k", "frequency_penalty", "presence_penalty", "repetition_penalty",
    "mirostat", "mirostat_eta", "mirostat_tau", "repeat_last_n", "tfs_z", "typical_p"]

  /** The playground's parameter catalogue. */
  function AllParameters(): map<string, Parameter>
  {
    map[
      "temperature" := Parameter(TemperatureName, 0.0, 2.0, 0.01, 0.7, TemperatureHelp),
      "top_p" := Parameter(TopPName, 0.0, 1.0, 0.01, 0.9, TopPHelp),
      "top_k" := Parameter(TopKName, 1.0, 100.0, 1.0, 50.0, TopKHelp),
      "frequency_penalty" := Parameter(FrequencyPenaltyName, -2.0, 2.0, 0.1, 0.0, FrequencyPenaltyHelp),
      "presence_penalty" := Parameter(PresencePenaltyName, -2.0, 2.0, 0.1, 0.0, PresencePenaltyHelp),
      "repetition_penalty" := Parameter(RepetitionPenaltyName, 1.0, 2.0, 0.01, 1.0, RepetitionPenaltyHelp),
      "mirostat" := Parameter(MirostatName, 0.0, 2.0, 1.0, 0.0, MirostatHelp),
      "mirostat_eta" := Parameter(MirostatEtaName, 0.0, 1.0, 0.01, 0.1, MirostatEtaHelp),
      "mirostat_tau" := Parameter(MirostatTauName, 0.0, 10.0, 0.1, 5.0, MirostatTauHelp),
      "repeat_last_n" := Parameter(RepeatLastNName, -1.0, 64.0, 1.0, 64.0, RepeatLastNHelp),
      "tfs_z" := Parameter(TfsZName, 1.0, 2.0, 0.1, 1.0, TfsZHelp),
      "typical_p" := Parameter(TypicalPName, 0.0, 1.0, 0.01, 1.0, TypicalPHelp)
    ]
  }

  // Display names and help texts of the catalogue entries.
  const TemperatureName: string := "Temperature"
  const TemperatureHelp: string :=
    "Controls randomness: Lower values make the output more focused and deterministic, higher values make it more random and creative."
  const TopPName: string := "Top P"
  const TopPHelp: string :=
    "Nucleus sampling: Only consider the top P probability mass of tokens when generating."
  const TopKName: string := "Top K"
  const TopKHelp: string :=
    "Limits the number of token choices considered at each step to the top K options."
  const FrequencyPenaltyName: string := "Frequency Penalty"
  const FrequencyPenaltyHelp: string :=
    "Reduces repetition by lowering the probability of tokens that have already appeared in the text."
  const PresencePenaltyName: string := "Presence Penalty"
  const PresencePenaltyHelp: string :=
    "Encourages the model to talk about new topics by increasing the probability of tokens that haven't appeared yet."
  const RepetitionPenaltyName: string := "Repetition Penalty"
  const RepetitionPenaltyHelp: string :=
    "Penalises repetitions: Values above 1 decrease the likelihood of repeated tokens."
  const MirostatName: string := "Mirostat"
  const MirostatHelp: string :=
    "Enable Mirostat sampling for controlling perplexity, 0 = disabled, 1 = Mirostat, 2 = Mirostat 2.0."
  const MirostatEtaName: string := "Mirostat Eta"
  const MirostatEtaHelp: string :=
    "Influences how quickly the algorithm responds to feedback from the generated text."
  const MirostatTauName: string := "Mirostat Tau"
  const MirostatTauHelp: string :=
    "Controls the balance between coherence and diversity of the output."
  const RepeatLastNName: string := "Repeat Last N"
  const RepeatLastNHelp: string :=
    "Sets how far back for the model to look back to prevent repetition."
  const TfsZName: string := "Tail Free Sampling Z"
  const TfsZHelp: string :=
    "Tail free sampling is used to reduce the impact of less probable tokens from the output."
  const TypicalPName: string := "Typical P"
  const TypicalPHelp: string :=
    "Local typicality measures how similar the conditional probability of predicting a target token next is to the expected conditional probability of predicting a random token next, given the partial text already generated."

  function PlaygroundCatalogue(): Catalogue
  {
    Catalogue(PlaygroundKeys, AllParameters())
  }

  /** Every entry has `min <= default <= max` and a positive step. */
  lemma PlaygroundCatalogueValid()
    ensures ValidCatalogue(PlaygroundCatalogue())
    ensures AllParameters().Keys == set k | k in PlaygroundKeys
  {
  }

  /** `repeat_last_n` starts at the top of its range. */
  lemma RepeatLastNDefaultIsMax()
    ensures AllParameters()["repeat_last_n"].default == AllParameters()["repeat_last_n"].max == 64.0
  {
  }

  /**
   * Every range bound, and every range midpoint, is a whole number of
   * hundredths (all bounds are integers).
   */
  lemma PlaygroundBoundsAreCents(key: string)
    requires key in AllParameters()
    ensures IsCents(AllParameters()[key].min) && IsCents(AllParameters()[key].max)
    ensures IsCents((AllParameters()[key].min + AllParameters()[key].max) / 2.0)
  {
  }

  /** How many slots the polygon has in each mode. */
  function SlotCount(fiveParameterMode: bool): nat
  {
    if fiveParameterMode then 5 else 2
  }

  /** The slot list a mode starts with. */
  function DefaultSlots(fiveParameterMode: bool): seq<string>
  {
    if fiveParameterMode
    then ["temperature", "top_p", "top_k", "frequency_penalty", "presence_penalty"]
    else ["temperature", "top_p"]
  }

  /** Every slot holds a catalogue key. */
  predicate SlotsInCatalogue(slots: seq<string>)
  {
    forall i :: 0 <= i < |slots| ==> slots[i] in AllParameters()
  }

  /** The mode effect: a list of the wrong length is replaced by the mode's default list. */
  function ModeSlots(slots: seq<string>, fiveParameterMode: bool): seq<string>
  {
    if fiveParameterMode && |slots| != 5 then DefaultSlots(true)
    else if !fiveParameterMode && |slots| != 2 then DefaultSlots(false)
    else slots
  }

  /**
   * After the mode effect the list has the mode's length; a list that already
   * had it is kept, any other is replaced by the default list; the effect is
   * idempotent and keeps every slot a catalogue key.
   */
  lemma ModeSlotsSpec(slots: seq<string>, fiveParameterMode: bool)
    ensures |ModeSlots(slots, fiveParameterMode)| == SlotCount(fiveParameterMode)
    ensures |slots| == SlotCount(fiveParameterMode) ==> ModeSlots(slots, fiveParameterMode) == slots
    ensures |slots| != SlotCount(fiveParameterMode) ==> ModeSlots(slots, fiveParameterMode) == DefaultSlots(fiveParameterMode)
    ensures ModeSlots(ModeSlots(slots, fiveParameterMode), fiveParameterMode) == ModeSlots(slots, fiveParameterMode)
    ensures SlotsInCatalogue(slots) ==> SlotsInCatalogue(ModeSlots(slots, fiveParameterMode))
  {
  }

  /**
   * The slot under the pointer: the sector fraction `angle / 2π`, a number in
   * [0, 1), scaled by the slot count and rounded down.
   */
  function SectorIndex(fraction: real, count: nat): (i: int)
    requires 0.0 <= fraction < 1.0 && 1 <= count
    ensures 0 <= i < count
  {
    SectorBelowCount(fraction, count);
    (fraction * count as real).Floor
  }

  /** Scaling a fraction below one keeps it below the count. */
  lemma SectorBelowCount(fraction: real, count: nat)
    requires 0.0 <= fraction < 1.0 && 1 <= count
    ensures 0.0 <= fraction * count as real < count as real
  {
    assert count as real - fraction * count as real == (1.0 - fraction) * count as real;
  }

  /** The adjacent slot, wrapping from the last to the first. */
  function NextIndex(i: int, count: nat): (j: int)
    requires 0 <= i < count
    ensures 0 <= j < count
    ensures 2 <= count ==> j != i
    ensures j == if i == count - 1 then 0 else i + 1
  {
    (i + 1) % count
  }

  /**
   * The pointer's projections on the two polygon axes, `cos(angle) * distance`
   * and `sin(angle) * distance`, in surface radii. With `angle` the direction of
   * the offset from the centre and `distance` its length over half the width,
   * these are exactly the offset's components over half the width (y pointing
   * up), so no trigonometry is needed for them.
   */
  function Projection(clientX: real, clientY: real, rect: Grid.Rect): (real, real)
    requires 0.0 < rect.width
  {
    var x := clientX - rect.left - rect.width / 2.0;
    var y := rect.height / 2.0 - (clientY - rect.top);
    (x / (rect.width / 2.0), y / (rect.width / 2.0))
  }

  /** The centre of the surface projects to (0, 0). */
  lemma ProjectionAtCentre(rect: Grid.Rect)
    requires 0.0 < rect.width
    ensures Projection(rect.left + rect.width / 2.0, rect.top + rect.height / 2.0, rect) == (0.0, 0.0)
  {
  }

  /**
   * On a square surface (the polygon is drawn in a square box) every pointer
   * position inside the box projects into [-1, 1] on both axes, even in the
   * corners where `distance` exceeds 1.
   */
  lemma ProjectionInsideSquare(clientX: real, clientY: real, rect: Grid.Rect)
    requires 0.0 < rect.width && rect.width == rect.height
    requires Grid.Inside(clientX, clientY, rect)
    ensures -1.0 <= Projection(clientX, clientY, rect).0 <= 1.0
    ensures -1.0 <= Projection(clientX, clientY, rect).1 <= 1.0
  {
    var h := rect.width / 2.0;
    var x := clientX - rect.left - h;
    var y := h - (clientY - rect.top);
    SymmetricFraction(x, h);
    SymmetricFraction(y, h);
  }

  /** An offset of at most `h` either way, divided by `h`, lies in [-1, 1]. */
  lemma SymmetricFraction(x: real, h: real)
    requires 0.0 < h && -h <= x <= h
    ensures -1.0 <= x / h <= 1.0
  {
    FractionOfRange(x + h, 2.0 * h);
    var q := (x + h) / (2.0 * h);
    assert q * (2.0 * h) == x + h;
    var r := 2.0 * q - 1.0;
    assert r * h == x;
    assert x / h == (r * h) / h == r;
  }

  /** The value a projection gives a slot's parameter: mapped from [-1, 1] and rounded. */
  function SlotValue(key: string, projection: real): real
    requires key in AllParameters()
  {
    Round2(MapValue(projection, -1.0, 1.0, AllParameters()[key].min, AllParameters()[key].max))
  }

  /** A projection of 0 (pointer at the centre) gives the midpoint of the range. */
  lemma SlotValueAtCentre(key: string)
    requires key in AllParameters()
    ensures SlotValue(key, 0.0) == (AllParameters()[key].min + AllParameters()[key].max) / 2.0
  {
    var p := AllParameters()[key];
    MapValueMidpoint(-1.0, 1.0, p.min, p.max);
    assert (-1.0 + 1.0) / 2.0 == 0.0;
    PlaygroundBoundsAreCents(key);
    Round2Fixed((p.min + p.max) / 2.0);
  }

  /** A projection in [-1, 1] gives a value within the parameter's range. */
  lemma SlotValueInRange(key: string, projection: real)
    requires key in AllParameters()
    requires -1.0 <= projection <= 1.0
    ensures Admissible(AllParameters(), key, SlotValue(key, projection))
  {
    var p := AllParameters()[key];
    MapValueInRange(projection, -1.0, 1.0, p.min, p.max);
    PlaygroundBoundsAreCents(key);
    Round2Between(p.min, MapValue(projection, -1.0, 1.0, p.min, p.max), p.max);
  }

  /**
   * The new vector after a polygon sample: the sector's slot gets the cosine
   * projection's value, then the next slot gets the sine projection's value.
   */
  function PolygonUpdate(v: ParameterVector, slots: seq<string>, fraction: real, c: real, s: real): ParameterVector
    requires 1 <= |slots| && SlotsInCatalogue(slots)
    requires 0.0 <= fraction < 1.0
  {
    var i := SectorIndex(fraction, |slots|);
    var j := NextIndex(i, |slots|);
    SetTwo(v, slots[i], SlotValue(slots[i], c), slots[j], SlotValue(slots[j], s))
  }

  /**
   * A polygon sample changes only the keys of the sector's slot and the next
   * slot; the second of these gets its value also when both hold the same key.
   */
  lemma PolygonUpdateFrame(v: ParameterVector, slots: seq<string>, fraction: real, c: real, s: real)
    requires 1 <= |slots| && SlotsInCatalogue(slots)
    requires 0.0 <= fraction < 1.0
    ensures var p1 := slots[SectorIndex(fraction, |slots|)];
            var p2 := slots[NextIndex(SectorIndex(fraction, |slots|), |slots|)];
            var r := PolygonUpdate(v, slots, fraction, c, s);
            r.Keys == v.Keys + {p1, p2} &&
            (forall k :: k in v && k != p1 && k != p2 ==> r[k] == v[k]) &&
            r[p2] == SlotValue(p2, s) &&
            (p1 != p2 ==> r[p1] == SlotValue(p1, c))
  {
  }

  /** Projections in [-1, 1] keep every value within its range. */
  lemma PolygonUpdateInRange(v: ParameterVector, slots: seq<string>, fraction: real, c: real, s: real)
    requires 1 <= |slots| && SlotsInCatalogue(slots)
    requires 0.0 <= fraction < 1.0
    requires -1.0 <= c <= 1.0 && -1.0 <= s <= 1.0
    requires InRange(v, AllParameters())
    ensures InRange(PolygonUpdate(v, slots, fraction, c, s), AllParameters())
  {
    var i := SectorIndex(fraction, |slots|);
    var j := NextIndex(i, |slots|);
    SlotValueInRange(slots[i], c);
    SlotValueInRange(slots[j], s);
    SetTwoInRange(AllParameters(), v, slots[i], SlotValue(slots[i], c), slots[j], SlotValue(slots[j], s));
  }

  /** Two slots temperature and top_p, pointer at the centre: 1.00 and 0.50, whatever the sector. */
  lemma PolygonCentreExample(v: ParameterVector, fraction: real)
    requires 0.0 <= fraction < 1.0
    ensures PolygonUpdate(v, DefaultSlots(false), fraction, 0.0, 0.0)["temperature"] == 1.0
    ensures PolygonUpdate(v, DefaultSlots(false), fraction, 0.0, 0.0)["top_p"] == 0.5
  {
    SlotValueAtCentre("temperature");
    SlotValueAtCentre("top_p");
  }

  /** `[...slots]` with element `index` replaced: same length, only `index` differs. */
  function ReplaceSlot(slots: seq<string>, index: nat, key: string): (r: seq<string>)
    requires index < |slots|
    ensures |r| == |slots| && r[index] == key
    ensures forall j :: 0 <= j < |slots| && j != index ==> r[j] == slots[j]
  {
    slots[index := key]
  }

  /** The component's state: slot list, parameter vector, mode and pin. */
  class AdvancedParameterPlayground {
    var sliderValues: ParameterVector
    var selectedParams: seq<string>
    var isFiveParameterMode: bool
    var pinX: real
    var pinY: real

    /** The slot list matches the mode and holds catalogue keys only. */
    ghost predicate Valid()
      reads this
    {
      |selectedParams| == SlotCount(isFiveParameterMode) && SlotsInCatalogue(selectedParams)
    }

    /** The first render: the mode's default slots, empty vector, pin at (300, 300). */
    constructor (fiveParameterMode: bool)
      ensures Valid()
      ensures isFiveParameterMode == fiveParameterMode
      ensures selectedParams == DefaultSlots(fiveParameterMode)
      ensures sliderValues == map[]
      ensures pinX == 300.0 && pinY == 300.0
    {
      isFiveParameterMode := fiveParameterMode;
      selectedParams := DefaultSlots(fiveParameterMode);
      sliderValues := map[];
      pinX, pinY := 300.0, 300.0;
    }

    /** The mount effect: every catalogue key set to its default, so every value is in range. */
    method Mount()
      modifies this`sliderValues
      ensures sliderValues == Defaults(AllParameters())
      ensures sliderValues.Keys == AllParameters().Keys
      ensures InRange(sliderValues, AllParameters())
    {
      PlaygroundCatalogueValid();
      sliderValues := InitialValues(PlaygroundCatalogue());
      DefaultsInRange(PlaygroundCatalogue());
    }

    /** A new mode arrives and the mode effect adjusts the slot list. */
    method ModeChanged(fiveParameterMode: bool)
      requires SlotsInCatalogue(selectedParams)
      modifies this`isFiveParameterMode, this`selectedParams
      ensures Valid()
      ensures isFiveParameterMode == fiveParameterMode
      ensures selectedParams == ModeSlots(old(selectedParams), fiveParameterMode)
    {
      isFiveParameterMode := fiveParameterMode;
      if isFiveParameterMode && |selectedParams| != 5 {
        selectedParams := DefaultSlots(true);
      } else if !isFiveParameterMode && |selectedParams| != 2 {
        selectedParams := DefaultSlots(false);
      }
    }

    /**
     * A pointer sample on the polygon, `fraction` being `angle / 2π` of the
     * pointer's direction: write the two adjacent slots' keys, move the pin to
     * the pointer, and report the new vector.
     */
    method HandleDecagonChange(clientX: real, clientY: real, rect: Grid.Rect, fraction: real)
      returns (emitted: ParameterVector)
      requires Valid()
      requires 0.0 < rect.width
      requires 0.0 <= fraction < 1.0
      modifies this`sliderValues, this`pinX, this`pinY
      ensures Valid()
      ensures var (c, s) := Projection(clientX, clientY, rect);
              sliderValues == PolygonUpdate(old(sliderValues), selectedParams, fraction, c, s)
      ensures pinX == clientX - rect.left && pinY == clientY - rect.top
      ensures emitted == sliderValues
    {
      var centerX, centerY := rect.width / 2.0, rect.height / 2.0;
      var x := clientX - rect.left - centerX;
      var y := centerY - (clientY - rect.top);
      var (c, s) := Projection(clientX, clientY, rect);
      var paramCount := if isFiveParameterMode then 5 else 2;
      var paramIndex := SectorIndex(fraction, paramCount);
      var nextParamIndex := NextIndex(paramIndex, paramCount);
      var param1, param2 := selectedParams[paramIndex], selectedParams[nextParamIndex];
      sliderValues := SetTwo(sliderValues, param1, SlotValue(param1, c), param2, SlotValue(param2, s));
      emitted := sliderValues;
      pinX, pinY := x + centerX, centerY - y;
    }

    /** A slider edit: only `param` changes, to exactly `value`. */
    method HandleSliderChange(param: string, value: real) returns (emitted: ParameterVector)
      modifies this`sliderValues
      ensures sliderValues == SetOne(old(sliderValues), param, value)
      ensures emitted == sliderValues
    {
      sliderValues := sliderValues[param := value];
      emitted := sliderValues;
    }

    /** Choosing the key of slot `index`: copy the list and overwrite that element. */
    method HandleParamSelect(index: nat, key: string)
      requires Valid()
      requires index < |selectedParams| && key in AllParameters()
      modifies this`selectedParams
      ensures Valid()
      ensures selectedParams == ReplaceSlot(old(selectedParams), index, key)
    {
      var copy := new string[|selectedParams|];
      forall j | 0 <= j < copy.Length {
        copy[j] := selectedParams[j];
      }
      copy[index] := key;
      selectedParams := copy[..];
    }
  }
}
