/** The generation options and the dialog that edits them
    (components/options-dialog.tsx): a record with seven settings, a
    one-setting update that is also reported to the page, and the two time
    hints shown next to the controls. */
module OptionsDialog {

  /** The settings record of lines 17-25. */
  datatype Options = Options(
    conditionMode: string,
    quality: string,
    geometryFileFormat: string,
    useHyper: bool,
    tier: string,
    taPose: bool,
    material: string)

  datatype OptionKey = ConditionMode | Quality | GeometryFileFormat | UseHyper | Tier | TAPose | Material

  datatype OptionValue = Word(s: string) | Flag(b: bool)

  /** `options[key]` */
  function Lookup(o: Options, k: OptionKey): (v: OptionValue)
    ensures v.Flag? <==> k == UseHyper || k == TAPose
  {
    match k
    case ConditionMode => Word(o.conditionMode)
    case Quality => Word(o.quality)
    case GeometryFileFormat => Word(o.geometryFileFormat)
    case UseHyper => Flag(o.useHyper)
    case Tier => Word(o.tier)
    case TAPose => Flag(o.taPose)
    case Material => Word(o.material)
  }

  /** Two settings records that agree on every key are the same record. */
  lemma LookupExtensional(a: Options, b: Options)
    requires forall k :: Lookup(a, k) == Lookup(b, k)
    ensures a == b
  {
    assert Lookup(a, ConditionMode) == Lookup(b, ConditionMode);
    assert Lookup(a, Quality) == Lookup(b, Quality);
    assert Lookup(a, GeometryFileFormat) == Lookup(b, GeometryFileFormat);
    assert Lookup(a, UseHyper) == Lookup(b, UseHyper);
    assert Lookup(a, Tier) == Lookup(b, Tier);
    assert Lookup(a, TAPose) == Lookup(b, TAPose);
    assert Lookup(a, Material) == Lookup(b, Material);
  }

  /** One `handleChange(key, value)` call as the dialog's controls make it
      (lines 77-212): the key with a value of that key's kind. */
  datatype Change =
    | SetConditionMode(conditionMode: string)
    | SetQuality(quality: string)
    | SetGeometryFileFormat(geometryFileFormat: string)
    | SetUseHyper(useHyper: bool)
    | SetTier(tier: string)
    | SetTAPose(taPose: bool)
    | SetMaterial(material: string)
  {
    function Key(): OptionKey {
      match this
      case SetConditionMode(_) => ConditionMode
      case SetQuality(_) => Quality
      case SetGeometryFileFormat(_) => GeometryFileFormat
      case SetUseHyper(_) => UseHyper
      case SetTier(_) => Tier
      case SetTAPose(_) => TAPose
      case SetMaterial(_) => Material
    }

    function Value(): OptionValue {
      match this
      case SetConditionMode(v) => Word(v)
      case SetQuality(v) => Word(v)
      case SetGeometryFileFormat(v) => Word(v)
      case SetUseHyper(v) => Flag(v)
      case SetTier(v) => Word(v)
      case SetTAPose(v) => Flag(v)
      case SetMaterial(v) => Word(v)
    }
  }

  /** `{ ...prev, [key]: value }`: the changed key takes the new value and
      every other key keeps its old one. */
  function Apply(prev: Options, c: Change): (r: Options)
    ensures Lookup(r, c.Key()) == c.Value()
    ensures forall k :: k != c.Key() ==> Lookup(r, k) == Lookup(prev, k)
  {
    match c
    case SetConditionMode(v) => prev.(conditionMode := v)
    case SetQuality(v) => prev.(quality := v)
    case SetGeometryFileFormat(v) => prev.(geometryFileFormat := v)
    case SetUseHyper(v) => prev.(useHyper := v)
    case SetTier(v) => prev.(tier := v)
    case SetTAPose(v) => prev.(taPose := v)
    case SetMaterial(v) => prev.(material := v)
  }

  /** Making the same change twice is the same as making it once. */
  lemma ApplyIdempotent(o: Options, c: Change)
    ensures Apply(Apply(o, c), c) == Apply(o, c)
  {
    var once := Apply(o, c);
    var twice := Apply(once, c);
    forall k ensures Lookup(twice, k) == Lookup(once, k) {
    }
    LookupExtensional(twice, once);
  }

  /** The dialog's own copy of the options, and the copy the page holds
      (the page stores whatever `onOptionsChange` reports). */
  datatype Dialog = Dialog(local: Options, page: Options)

  /** `handleChange` (lines 38-44): the updated record becomes the local
      state and is reported to the page. */
  function HandleChange(d: Dialog, c: Change): (r: Dialog)
    ensures r.local == r.page
    ensures Lookup(r.local, c.Key()) == c.Value()
    ensures forall k :: k != c.Key() ==> Lookup(r.local, k) == Lookup(d.local, k)
  {
    var updated := Apply(d.local, c);
    Dialog(updated, updated)
  }

  /** The effect of lines 34-36: new options from the page replace the
      local copy. */
  function PropsChanged(d: Dialog): (r: Dialog)
    ensures r.local == d.page && r.page == d.page
  {
    Dialog(d.page, d.page)
  }

  /** After any sequence of changes the dialog and the page agree, so the
      page's update flowing back as props changes nothing. */
  lemma {:induction false} ChangesKeepInSync(d: Dialog, changes: seq<Change>)
    ensures var r := HandleChanges(d, changes); changes != [] ==> r.local == r.page && PropsChanged(r) == r
    decreases |changes|
  {
    if |changes| > 1 {
      ChangesKeepInSync(HandleChange(d, changes[0]), changes[1..]);
    }
  }

  function HandleChanges(d: Dialog, changes: seq<Change>): Dialog
    decreases |changes|
  {
    if changes == [] then d else HandleChanges(HandleChange(d, changes[0]), changes[1..])
  }

  /** `getQualityTimeEstimate` (lines 47-55): the table's range, and
      "60-90s" for a quality the table does not list. */
  function QualityTimeEstimate(quality: string): (r: string)
    ensures quality == "extra-low" ==> r == "30-45s"
    ensures quality == "low" ==> r == "45-60s"
    ensures quality == "high" ==> r == "90-120s"
    ensures quality != "extra-low" && quality != "low" && quality != "high" ==> r == "60-90s"
  {
    var estimates := map["extra-low" := "30-45s", "low" := "45-60s", "medium" := "60-90s", "high" := "90-120s"];
    if quality in estimates then estimates[quality] else "60-90s"
  }

  /** `getTierTimeEstimate` (lines 57-59). */
  function TierTimeEstimate(tier: string): (r: string)
    ensures r == "+20% time" <==> tier == "Regular"
    ensures r == "Faster" <==> tier != "Regular"
  {
    if tier == "Regular" then "+20% time" else "Faster"
  }
}
