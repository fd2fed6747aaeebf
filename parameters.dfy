/**
 * What the two parameter components share: the catalogue entry, the parameter
 * vector (a record from parameter key to number), the loop that fills a vector
 * with the catalogue defaults, and the "spread and overwrite" merges that every
 * handler uses to produce a new vector.
 */
module Parameters {

  /** One catalogue entry: display name, range, slider step, default and help text. */
  datatype Parameter = Parameter(
    name: string,
    min: real,
    max: real,
    step: real,
    default: real,
    description: string)

  /** The invariant every catalogue entry is meant to satisfy. */
  predicate WellFormed(p: Parameter)
  {
    p.min <= p.default <= p.max && 0.0 < p.step
  }

  /**
   * A catalogue is a record keyed by parameter key; `keys` is its key order
   * (the order `Object.keys` enumerates, i.e. declaration order).
   */
  datatype Catalogue = Catalogue(keys: seq<string>, entries: map<string, Parameter>)

  /** The key order lists exactly the entries, and every entry is well formed. */
  predicate ValidCatalogue(c: Catalogue)
  {
    (forall k :: k in c.keys ==> k in c.entries) &&
    (forall k :: k in c.entries ==> k in c.keys) &&
    (forall k :: k in c.entries ==> WellFormed(c.entries[k]))
  }

  /** The live mapping from parameter key to value. */
  type ParameterVector = map<string, real>

  /** The vector holding every catalogue default (the reference for `InitialValues`). */
  ghost function Defaults(entries: map<string, Parameter>): ParameterVector
  {
    map k | k in entries :: entries[k].default
  }

  /** Every value whose key is in the catalogue lies within that entry's range. */
  predicate InRange(v: ParameterVector, entries: map<string, Parameter>)
  {
    forall k :: k in v && k in entries ==> entries[k].min <= v[k] <= entries[k].max
  }

  /** `x` lies within the range of the catalogue entry `key`. */
  predicate Admissible(entries: map<string, Parameter>, key: string, x: real)
    requires key in entries
  {
    entries[key].min <= x <= entries[key].max
  }

  /**
   * The mount effect of both parameter components: walk the catalogue keys and
   * record each default. The result is exactly the defaults vector.
   */
  method InitialValues(c: Catalogue) returns (values: ParameterVector)
    requires forall k :: k in c.keys ==> k in c.entries
    requires forall k :: k in c.entries ==> k in c.keys
    ensures values.Keys == c.entries.Keys
    ensures forall k :: k in values ==> values[k] == c.entries[k].default
    ensures values == Defaults(c.entries)
  {
    values := map[];
    var i := 0;
    while i < |c.keys|
      invariant 0 <= i <= |c.keys|
      invariant values.Keys == set j | 0 <= j < i :: c.keys[j]
      invariant forall k :: k in values ==> k in c.entries && values[k] == c.entries[k].default
    {
      var key := c.keys[i];
      values := values[key := c.entries[key].default];
      i := i + 1;
    }
    assert forall k :: k in c.entries ==> k in values by {
      forall k | k in c.entries ensures k in values {
        var j :| 0 <= j < |c.keys| && c.keys[j] == k;
      }
    }
  }

  /** Starting from the defaults of a valid catalogue, every value is in range. */
  lemma DefaultsInRange(c: Catalogue)
    requires ValidCatalogue(c)
    ensures InRange(Defaults(c.entries), c.entries)
    ensures Defaults(c.entries).Keys == c.entries.Keys
  {
    forall k | k in Defaults(c.entries) && k in c.entries
      ensures c.entries[k].min <= Defaults(c.entries)[k] <= c.entries[k].max
    {
      assert WellFormed(c.entries[k]);
    }
  }

  /** `{ ...v, [key]: x }`: only `key` changes, and it becomes `x`. */
  function SetOne(v: ParameterVector, key: string, x: real): (r: ParameterVector)
    ensures r.Keys == v.Keys + {key}
    ensures r[key] == x
    ensures forall k :: k in v && k != key ==> r[k] == v[k]
  {
    v[key := x]
  }

  /**
   * `{ ...v, [k1]: x1, [k2]: x2 }`: only `k1` and `k2` change; when the two keys
   * coincide the later write, `x2`, is the one kept.
   */
  function SetTwo(v: ParameterVector, k1: string, x1: real, k2: string, x2: real): (r: ParameterVector)
    ensures r.Keys == v.Keys + {k1, k2}
    ensures r[k2] == x2
    ensures k1 != k2 ==> r[k1] == x1
    ensures forall k :: k in v && k != k1 && k != k2 ==> r[k] == v[k]
  {
    v[k1 := x1][k2 := x2]
  }

  /** A two-key merge of admissible values keeps a vector in range. */
  lemma SetTwoInRange(entries: map<string, Parameter>, v: ParameterVector,
                      k1: string, x1: real, k2: string, x2: real)
    requires InRange(v, entries)
    requires k1 in entries && Admissible(entries, k1, x1)
    requires k2 in entries && Admissible(entries, k2, x2)
    ensures InRange(SetTwo(v, k1, x1, k2, x2), entries)
  {
  }
}
