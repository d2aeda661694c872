/**
 * The settings page's threshold list: an immutable update that replaces one field in every
 * entry with a given id.
 */
module Settings {

  datatype Operator = Lt | Lte | Gt | Gte | Eq
  datatype Severity = Info | Warning | Critical

  datatype ThresholdConfig = ThresholdConfig(
    id: string, name: string, operator: Operator, value: real, severity: Severity, enabled: bool)

  /** A field name together with the new value for it. */
  datatype FieldUpdate =
    | SetId(newId: string)
    | SetName(newName: string)
    | SetOperator(newOperator: Operator)
    | SetValue(newValue: real)
    | SetSeverity(newSeverity: Severity)
    | SetEnabled(newEnabled: bool)

  /** The two thresholds the page starts with. */
  const INITIAL_THRESHOLDS: seq<ThresholdConfig> := [
    ThresholdConfig("1", "High Latency", Gt, 100.0, Warning, true),
    ThresholdConfig("2", "Low Signal Strength", Lt, -90.0, Critical, true)
  ]

  /** `{ ...threshold, [field]: value }`: the named field takes the new value, the others keep theirs. */
  function WithField(t: ThresholdConfig, update: FieldUpdate): (r: ThresholdConfig)
    ensures r.id == (if update.SetId? then update.newId else t.id)
    ensures r.name == (if update.SetName? then update.newName else t.name)
    ensures r.operator == (if update.SetOperator? then update.newOperator else t.operator)
    ensures r.value == (if update.SetValue? then update.newValue else t.value)
    ensures r.severity == (if update.SetSeverity? then update.newSeverity else t.severity)
    ensures r.enabled == (if update.SetEnabled? then update.newEnabled else t.enabled)
  {
    match update
    case SetId(v) => t.(id := v)
    case SetName(v) => t.(name := v)
    case SetOperator(v) => t.(operator := v)
    case SetValue(v) => t.(value := v)
    case SetSeverity(v) => t.(severity := v)
    case SetEnabled(v) => t.(enabled := v)
  }

  /** `handleThresholdChange`: `prev.map(t => t.id === id ? {...t, [field]: value} : t)`. */
  function HandleThresholdChange(thresholds: seq<ThresholdConfig>, id: string, update: FieldUpdate): (r: seq<ThresholdConfig>)
    ensures |r| == |thresholds|
    ensures forall i :: 0 <= i < |r| ==>
      r[i] == if thresholds[i].id == id then WithField(thresholds[i], update) else thresholds[i]
  {
    if thresholds == [] then []
    else
      var head := if thresholds[0].id == id then WithField(thresholds[0], update) else thresholds[0];
      [head] + HandleThresholdChange(thresholds[1..], id, update)
  }

  /** With no entry carrying the id, the list comes back unchanged. */
  lemma {:induction false} NoMatchUnchanged(thresholds: seq<ThresholdConfig>, id: string, update: FieldUpdate)
    requires forall i :: 0 <= i < |thresholds| ==> thresholds[i].id != id
    ensures HandleThresholdChange(thresholds, id, update) == thresholds
  {
    if thresholds != [] {
      NoMatchUnchanged(thresholds[1..], id, update);
    }
  }

  /** Applying the same update twice is the same as applying it once. */
  lemma {:induction false} ChangeIdempotent(thresholds: seq<ThresholdConfig>, id: string, update: FieldUpdate)
    ensures HandleThresholdChange(HandleThresholdChange(thresholds, id, update), id, update)
         == HandleThresholdChange(thresholds, id, update)
  {
    if thresholds != [] {
      ChangeIdempotent(thresholds[1..], id, update);
      var once := HandleThresholdChange(thresholds, id, update);
      assert once[1..] == HandleThresholdChange(thresholds[1..], id, update);
    }
  }

  lemma InitialThresholdIds()
    ensures |INITIAL_THRESHOLDS| == 2
    ensures INITIAL_THRESHOLDS[0].id == "1" && INITIAL_THRESHOLDS[1].id == "2"
    ensures INITIAL_THRESHOLDS[0].id != INITIAL_THRESHOLDS[1].id
  {
  }
}
