/**
 * The rectangular parameter grid: an eight-entry catalogue, an X and a Y axis
 * each assigned one catalogue key, and a square surface on which the pointer
 * position sets the two assigned parameters at once. Sliders set one
 * parameter each.
 */
module Grid {
  import opened Parameters
  import opened Mapping

  /** The catalogue's keys in declaration order. */
  const GridKeys: seq<string> := [
    "temperature", "top_p", "top_k", "frequency_penalty", "presence_penalty",
    "repetition_penalty", "length_penalty", "diversity_penalty"]

  /** The grid's parameter catalogue. */
  function GridParameters(): map<string, Parameter>
  {
    map[
      "temperature" := Parameter(TemperatureName, 0.0, 2.0, 0.01, 0.7, TemperatureHelp),
      "top_p" := Parameter(TopPName, 0.0, 1.0, 0.01, 0.9, TopPHelp),
      "top_k" := Parameter(TopKName, 1.0, 100.0, 1.0, 50.0, TopKHelp),
      "frequency_penalty" := Parameter(FrequencyPenaltyName, -2.0, 2.0, 0.1, 0.0, FrequencyPenaltyHelp),
      "presence_penalty" := Parameter(PresencePenaltyName, -2.0, 2.0, 0.1, 0.0, PresencePenaltyHelp),
      "repetition_penalty" := Parameter(RepetitionPenaltyName, 1.0, 2.0, 0.01, 1.0, RepetitionPenaltyHelp),
      "length_penalty" := Parameter(LengthPenaltyName, -2.0, 2.0, 0.1, 0.0, LengthPenaltyHelp),
      "diversity_penalty" := Parameter(DiversityPenaltyName, 0.0, 2.0, 0.1, 0.0, DiversityPenaltyHelp)
    ]
  }

  // Display names and help texts of the catalogue entries.
  const TemperatureName: string := "Temperature"
  const TemperatureHelp: string :=
    "Controls randomness: Lower values make the output more focused and deterministic, higher values make it more random and creative."
  const TopPName: string := "Top P"
  const TopPHelp: string :=
    "Nucleus sampling: Only consider the top P probability mass of tokens when generating."
  const TopKName: string := "Top K"
  const TopKHelp: string :=
    "Limits the number of token choices considered at each step to the top K options."
  const FrequencyPenaltyName: string := "Frequency Penalty"
  const FrequencyPenaltyHelp: string :=
    "Reduces repetition by lowering the probability of tokens that have already appeared in the text."
  const PresencePenaltyName: string := "Presence Penalty"
  const PresencePenaltyHelp: string :=
    "Encourages the model to talk about new topics by increasing the probability of tokens that haven't appeared yet."
  const RepetitionPenaltyName: string := "Repetition Penalty"
  const RepetitionPenaltyHelp: string :=
    "Penalizes repetitions: Values above 1 decrease the likelihood of repeated tokens."
  const LengthPenaltyName: string := "Length Penalty"
  const LengthPenaltyHelp: string :=
    "Encourages shorter (negative values) or longer (positive values) outputs."
  const DiversityPenaltyName: string := "Diversity Penalty"
  const DiversityPenaltyHelp: string :=
    "Encourages the model to generate more diverse outputs."

  function GridCatalogue(): Catalogue
  {
    Catalogue(GridKeys, GridParameters())
  }

  /** Every entry has `min <= default <= max` and a positive step. */
  lemma GridCatalogueValid()
    ensures ValidCatalogue(GridCatalogue())
    ensures GridParameters().Keys == set k | k in GridKeys
  {
  }

  /** Every range bound of the catalogue is a whole number of hundredths. */
  lemma GridBoundsAreCents(key: string)
    requires key in GridParameters()
    ensures IsCents(GridParameters()[key].min) && IsCents(GridParameters()[key].max)
  {
  }

  /** The bounding box of the surface, in client coordinates. */
  datatype Rect = Rect(left: real, top: real, width: real, height: real)

  /** The pointer lies on or inside the box. */
  predicate Inside(clientX: real, clientY: real, rect: Rect)
  {
    rect.left <= clientX <= rect.left + rect.width &&
    rect.top <= clientY <= rect.top + rect.height
  }

  /**
   * The pointer as fractions of the box: x measured from the left edge, y
   * measured from the BOTTOM edge (screen y grows downward, so it is inverted).
   */
  function Normalise(clientX: real, clientY: real, rect: Rect): (real, real)
    requires 0.0 < rect.width && 0.0 < rect.height
  {
    ((clientX - rect.left) / rect.width, 1.0 - (clientY - rect.top) / rect.height)
  }

  /** A pointer inside the box normalises into the unit square. */
  lemma NormaliseInsideUnitSquare(clientX: real, clientY: real, rect: Rect)
    requires 0.0 < rect.width && 0.0 < rect.height
    requires Inside(clientX, clientY, rect)
    ensures 0.0 <= Normalise(clientX, clientY, rect).0 <= 1.0
    ensures 0.0 <= Normalise(clientX, clientY, rect).1 <= 1.0
  {
    FractionOfRange(clientX - rect.left, rect.width);
    FractionOfRange(clientY - rect.top, rect.height);
  }

  /**
   * The edges of the box: left edge to x = 0, right edge to x = 1, bottom edge
   * to y = 0 and top edge to y = 1.
   */
  lemma NormaliseEdges(rect: Rect)
    requires 0.0 < rect.width && 0.0 < rect.height
    ensures Normalise(rect.left, rect.top + rect.height, rect) == (0.0, 0.0)
    ensures Normalise(rect.left + rect.width, rect.top, rect) == (1.0, 1.0)
  {
    assert rect.height / rect.height == 1.0;
    assert rect.width / rect.width == 1.0;
  }

  /** The value an axis fraction gives the parameter on that axis: mapped from [0, 1] and rounded. */
  function AxisValue(key: string, fraction: real): real
    requires key in GridParameters()
  {
    Round2(MapValue(fraction, 0.0, 1.0, GridParameters()[key].min, GridParameters()[key].max))
  }

  /** A fraction in [0, 1] gives a value within the parameter's range. */
  lemma AxisValueInRange(key: string, fraction: real)
    requires key in GridParameters()
    requires 0.0 <= fraction <= 1.0
    ensures Admissible(GridParameters(), key, AxisValue(key, fraction))
  {
    var p := GridParameters()[key];
    MapValueInRange(fraction, 0.0, 1.0, p.min, p.max);
    GridBoundsAreCents(key);
    Round2Between(p.min, MapValue(fraction, 0.0, 1.0, p.min, p.max), p.max);
  }

  /** Left/bottom edge gives the minimum, right/top edge the maximum. */
  lemma AxisValueEdges(key: string)
    requires key in GridParameters()
    ensures AxisValue(key, 0.0) == GridParameters()[key].min
    ensures AxisValue(key, 1.0) == GridParameters()[key].max
  {
    var p := GridParameters()[key];
    MapValueEndpoints(0.0, 1.0, p.min, p.max);
    GridBoundsAreCents(key);
    Round2Fixed(p.min);
    Round2Fixed(p.max);
  }

  /** The new vector after a grid sample at normalised `(x, y)`: X key then Y key written. */
  function GridUpdate(v: ParameterVector, xKey: string, yKey: string, x: real, y: real): ParameterVector
    requires xKey in GridParameters() && yKey in GridParameters()
  {
    SetTwo(v, xKey, AxisValue(xKey, x), yKey, AxisValue(yKey, y))
  }

  /**
   * A grid sample changes only the two axis keys: the Y key gets the Y value
   * (also when both axes share a key), the X key the X value otherwise.
   */
  lemma GridUpdateFrame(v: ParameterVector, xKey: string, yKey: string, x: real, y: real)
    requires xKey in GridParameters() && yKey in GridParameters()
    ensures GridUpdate(v, xKey, yKey, x, y).Keys == v.Keys + {xKey, yKey}
    ensures forall k :: k in v && k != xKey && k != yKey ==> GridUpdate(v, xKey, yKey, x, y)[k] == v[k]
    ensures GridUpdate(v, xKey, yKey, x, y)[yKey] == AxisValue(yKey, y)
    ensures xKey != yKey ==> GridUpdate(v, xKey, yKey, x, y)[xKey] == AxisValue(xKey, x)
  {
  }

  /** A sample inside the surface keeps every value within its range. */
  lemma GridUpdateInRange(v: ParameterVector, xKey: string, yKey: string, x: real, y: real)
    requires xKey in GridParameters() && yKey in GridParameters()
    requires 0.0 <= x <= 1.0 && 0.0 <= y <= 1.0
    requires InRange(v, GridParameters())
    ensures InRange(GridUpdate(v, xKey, yKey, x, y), GridParameters())
  {
    AxisValueInRange(xKey, x);
    AxisValueInRange(yKey, y);
    SetTwoInRange(GridParameters(), v, xKey, AxisValue(xKey, x), yKey, AxisValue(yKey, y));
  }

  /** The centre of the default axes gives temperature 1.00 and top_p 0.50. */
  lemma GridCentreExample(v: ParameterVector)
    ensures GridUpdate(v, "temperature", "top_p", 0.5, 0.5)["temperature"] == 1.0
    ensures GridUpdate(v, "temperature", "top_p", 0.5, 0.5)["top_p"] == 0.5
  {
    assert AxisValue("temperature", 0.5) == Round2(1.0);
    assert AxisValue("top_p", 0.5) == Round2(0.5);
    Round2Fixed(1.0);
    Round2Fixed(0.5);
  }

  /** The bottom-left corner of the default axes gives both minima, 0.00 and 0.00. */
  lemma GridCornerExample(v: ParameterVector, rect: Rect)
    requires 0.0 < rect.width && 0.0 < rect.height
    ensures var (x, y) := Normalise(rect.left, rect.top + rect.height, rect);
            GridUpdate(v, "temperature", "top_p", x, y)["temperature"] == 0.0 &&
            GridUpdate(v, "temperature", "top_p", x, y)["top_p"] == 0.0
  {
    NormaliseEdges(rect);
    AxisValueEdges("temperature");
    AxisValueEdges("top_p");
  }

  /** The pin: normalised coordinates back in percent of the box, y measured from the top again. */
  function PinPosition(x: real, y: real): (real, real)
  {
    (x * 100.0, (1.0 - y) * 100.0)
  }

  /** The pin lands where the pointer is, in percent of the box's width and height from its top-left corner. */
  lemma PinAtPointer(clientX: real, clientY: real, rect: Rect)
    requires 0.0 < rect.width && 0.0 < rect.height
    ensures var (x, y) := Normalise(clientX, clientY, rect);
            PinPosition(x, y) == ((clientX - rect.left) / rect.width * 100.0,
                                  (clientY - rect.top) / rect.height * 100.0)
  {
  }

  /**
   * Where a parameter's slider thumb sits, as written: `sliderValues[key] ||
   * param.default`. Zero is falsy, so a stored 0 shows the default instead.
   */
  function SliderPositionAsWritten(v: ParameterVector, key: string): real
    requires key in GridParameters()
  {
    if key in v && v[key] != 0.0 then v[key] else GridParameters()[key].default
  }

  /** Temperature stored as 0 (pointer on the left edge) puts its thumb at 0.7. */
  lemma SliderPositionAsWrittenLosesZero()
    ensures var v := map["temperature" := 0.0];
            v["temperature"] == 0.0 && SliderPositionAsWritten(v, "temperature") == 0.7
  {
  }

  /** Where the thumb is evidently meant to sit: the stored value, or the default when none is stored. */
  function SliderPosition(v: ParameterVector, key: string): real
    requires key in GridParameters()
  {
    if key in v then v[key] else GridParameters()[key].default
  }

  /** The thumb shows every stored value, zero included, and agrees with the written form off zero. */
  lemma SliderPositionShowsStored(v: ParameterVector, key: string)
    requires key in GridParameters()
    ensures key in v ==> SliderPosition(v, key) == v[key]
    ensures key !in v ==> SliderPosition(v, key) == GridParameters()[key].default
    ensures key in v && v[key] != 0.0 ==> SliderPosition(v, key) == SliderPositionAsWritten(v, key)
  {
  }

  /** The component's state: axis assignment, parameter vector and pin. */
  class ToneChangerGrid {
    var selectedX: string
    var selectedY: string
    var sliderValues: ParameterVector
    var pinX: real
    var pinY: real

    /** Both axes are assigned catalogue keys (the selectors offer nothing else). */
    ghost predicate Valid()
      reads this
    {
      selectedX in GridParameters() && selectedY in GridParameters()
    }

    /** The first render: temperature on X, top_p on Y, empty vector, pin in the middle. */
    constructor ()
      ensures Valid()
      ensures selectedX == "temperature" && selectedY == "top_p"
      ensures sliderValues == map[]
      ensures pinX == 50.0 && pinY == 50.0
    {
      selectedX, selectedY := "temperature", "top_p";
      sliderValues := map[];
      pinX, pinY := 50.0, 50.0;
    }

    /** The mount effect: every catalogue key set to its default, so every value is in range. */
    method Mount()
      modifies this`sliderValues
      ensures sliderValues == Defaults(GridParameters())
      ensures sliderValues.Keys == GridParameters().Keys
      ensures InRange(sliderValues, GridParameters())
    {
      GridCatalogueValid();
      sliderValues := InitialValues(GridCatalogue());
      DefaultsInRange(GridCatalogue());
    }

    /**
     * A pointer sample on the surface: write the two axis keys, move the pin,
     * and report the new vector to the parent.
     */
    method HandleGridChange(clientX: real, clientY: real, rect: Rect) returns (emitted: ParameterVector)
      requires Valid()
      requires 0.0 < rect.width && 0.0 < rect.height
      modifies this`sliderValues, this`pinX, this`pinY
      ensures Valid()
      ensures var (x, y) := Normalise(clientX, clientY, rect);
              sliderValues == GridUpdate(old(sliderValues), selectedX, selectedY, x, y) &&
              (pinX, pinY) == PinPosition(x, y)
      ensures emitted == sliderValues
    {
      var (x, y) := Normalise(clientX, clientY, rect);
      var xValue := AxisValue(selectedX, x);
      var yValue := AxisValue(selectedY, y);
      sliderValues := SetTwo(sliderValues, selectedX, xValue, selectedY, yValue);
      emitted := sliderValues;
      pinX, pinY := x * 100.0, (1.0 - y) * 100.0;
    }

    /** A slider edit: only `param` changes, to exactly `value` (no rounding, no clamping). */
    method HandleSliderChange(param: string, value: real) returns (emitted: ParameterVector)
      modifies this`sliderValues
      ensures sliderValues == SetOne(old(sliderValues), param, value)
      ensures emitted == sliderValues
    {
      sliderValues := sliderValues[param := value];
      emitted := sliderValues;
    }

    /** Choosing the X-axis parameter: only the selection changes, no stored value does. */
    method SelectX(key: string)
      requires Valid() && key in GridParameters()
      modifies this`selectedX
      ensures Valid() && selectedX == key
    {
      selectedX := key;
    }

    /** Choosing the Y-axis parameter: only the selection changes, no stored value does. */
    method SelectY(key: string)
      requires Valid() && key in GridParameters()
      modifies this`selectedY
      ensures Valid() && selectedY == key
    {
      selectedY := key;
    }
  }

  /** After mounting, a drag inside the surface leaves every value in range. */
  method DragStaysInRange(g: ToneChangerGrid, clientX: real, clientY: real, rect: Rect)
    requires g.Valid() && InRange(g.sliderValues, GridParameters())
    requires 0.0 < rect.width && 0.0 < rect.height && Inside(clientX, clientY, rect)
    modifies g
    ensures g.Valid() && InRange(g.sliderValues, GridParameters())
    ensures g.selectedX == old(g.selectedX) && g.selectedY == old(g.selectedY)
  {
    NormaliseInsideUnitSquare(clientX, clientY, rect);
    var (x, y) := Normalise(clientX, clientY, rect);
    GridUpdateInRange(g.sliderValues, g.selectedX, g.selectedY, x, y);
    var _ := g.HandleGridChange(clientX, clientY, rect);
  }
}
