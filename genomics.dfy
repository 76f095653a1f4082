/**
 * The pure helpers of the medical dashboard page: the cancer-risk form validator, the
 * BioSync history and intervention merges, the manual biomarker submission, and the risk
 * colour banding. `parseFloat` is a parameter `parse`, whose `None` stands for NaN.
 */
module Genomics {
  import opened Wrappers
  import opened KeyedMerge

  // ---------------------------------------------------------------------------------------
  // The cancer-risk form and its validator
  // ---------------------------------------------------------------------------------------

  datatype Field =
    | TP53 | BRCA1 | EGFR | MYC | Age | Bmi
    | SmokingHistory | FamilyHistory | PreviousCancerHistory | InflammatoryMarkers

  /** The form's fields in declaration order, which is the order `Object.keys` lists them in. */
  const FormFields: seq<Field> := [
    TP53, BRCA1, EGFR, MYC, Age, Bmi,
    SmokingHistory, FamilyHistory, PreviousCancerHistory, InflammatoryMarkers]

  /** A field's place in `FormFields`. */
  function Ordinal(f: Field): nat {
    match f
    case TP53 => 0 case BRCA1 => 1 case EGFR => 2 case MYC => 3 case Age => 4 case Bmi => 5
    case SmokingHistory => 6 case FamilyHistory => 7 case PreviousCancerHistory => 8
    case InflammatoryMarkers => 9
  }

  /** The text typed into each field. */
  datatype CancerForm = CancerForm(
    tp53: string, brca1: string, egfr: string, myc: string, age: string, bmi: string,
    smokingHistory: string, familyHistory: string, previousCancerHistory: string,
    inflammatoryMarkers: string)
  {
    function Get(f: Field): string {
      match f
      case TP53 => tp53 case BRCA1 => brca1 case EGFR => egfr case MYC => myc
      case Age => age case Bmi => bmi case SmokingHistory => smokingHistory
      case FamilyHistory => familyHistory case PreviousCancerHistory => previousCancerHistory
      case InflammatoryMarkers => inflammatoryMarkers
    }
  }

  /** An inclusive range. */
  datatype Range = Range(min: int, max: int)

  /** The range table, in the order the validator walks it. */
  const Validations: seq<(Field, Range)> := [
    (TP53, Range(0, 15)), (BRCA1, Range(0, 15)), (EGFR, Range(0, 15)), (MYC, Range(0, 15)),
    (Age, Range(18, 120)), (Bmi, Range(12, 50)),
    (SmokingHistory, Range(0, 1)), (FamilyHistory, Range(0, 1)),
    (PreviousCancerHistory, Range(0, 1)), (InflammatoryMarkers, Range(0, 20))]

  /** What the validator reports: the form passes, some fields are empty, or one value is out of range. */
  datatype FormCheck = FormValid | MissingFields(fields: seq<Field>) | OutOfRange(field: Field, range: Range)

  /** `!(isNaN(v) || v < min || v > max)`. */
  predicate InRange(value: Option<real>, range: Range) {
    value.Some? && range.min as real <= value.value <= range.max as real
  }

  /** The k-th row of the range table holds for the form. */
  predicate RowPasses(form: CancerForm, parse: string -> Option<real>, k: nat)
    requires k < |Validations|
  {
    InRange(parse(form.Get(Validations[k].0)), Validations[k].1)
  }

  predicate InFormOrder(fields: seq<Field>) {
    forall i, j :: 0 <= i < j < |fields| ==> Ordinal(fields[i]) < Ordinal(fields[j])
  }

  /** The fields among `fields` whose text is empty, in the order given. */
  function EmptyAmong(form: CancerForm, fields: seq<Field>): (r: seq<Field>)
    requires InFormOrder(fields)
    ensures forall f :: f in r <==> f in fields && form.Get(f) == []
    ensures InFormOrder(r)
  {
    if fields == [] then []
    else
      var rest := EmptyAmong(form, fields[1..]);
      assert forall f :: f in rest ==> Ordinal(fields[0]) < Ordinal(f);
      if form.Get(fields[0]) == [] then [fields[0]] + rest else rest
  }

  /** `Object.keys(form).filter(field => !form[field])`: every empty field, in form order. */
  function EmptyFields(form: CancerForm): (r: seq<Field>)
    ensures forall f :: f in r <==> form.Get(f) == []
    ensures InFormOrder(r)
  {
    EmptyAmong(form, FormFields)
  }

  /**
   * `validateCancerForm`: empty fields are reported all together before any range is looked
   * at; otherwise the range table is walked in order and the first row that fails is reported.
   */
  method ValidateCancerForm(form: CancerForm, parse: string -> Option<real>) returns (r: FormCheck)
    ensures EmptyFields(form) != [] ==> r == MissingFields(EmptyFields(form))
    ensures EmptyFields(form) == [] ==> !r.MissingFields?
    ensures r == FormValid <==>
      EmptyFields(form) == [] && forall k :: 0 <= k < |Validations| ==> RowPasses(form, parse, k)
    ensures r.OutOfRange? ==>
      exists k :: 0 <= k < |Validations| && Validations[k] == (r.field, r.range) && !RowPasses(form, parse, k)
        && forall j :: 0 <= j < k ==> RowPasses(form, parse, j)
  {
    var emptyFields := EmptyFields(form);
    if |emptyFields| > 0 {
      return MissingFields(emptyFields);
    }
    for k := 0 to |Validations|
      invariant forall j :: 0 <= j < k ==> RowPasses(form, parse, j)
    {
      var (field, range) := Validations[k];
      var value := parse(form.Get(field));
      if value.None? || value.value < range.min as real || value.value > range.max as real {
        assert !RowPasses(form, parse, k);
        return OutOfRange(field, range);
      }
    }
    return FormValid;
  }

  /** The range table covers every form field once, in form order. */
  lemma RangeTableFollowsForm()
    ensures |Validations| == |FormFields|
    ensures forall k :: 0 <= k < |Validations| ==> Validations[k].0 == FormFields[k] && Ordinal(FormFields[k]) == k
  {
  }

  // ---------------------------------------------------------------------------------------
  // BioSync: biomarker history and interventions
  // ---------------------------------------------------------------------------------------

  datatype BiomarkerEntry = BiomarkerEntry(
    userId: string, timestamp: string,
    glucose: real, hrv: real, cortisol: real, sleepQuality: real, neuroFatigue: real)

  /** The fields of an intervention the page reads: its key, and the priority, text and value it shows. */
  datatype Intervention = Intervention(
    timestamp: string, biomarker: string, priority: string, intervention: string, value: string)

  /** A history entry is identified by its timestamp and user. */
  function HistoryKey(e: BiomarkerEntry): (string, string) {
    (e.timestamp, e.userId)
  }

  /** An intervention is identified by its timestamp and biomarker. */
  function InterventionKey(i: Intervention): (string, string) {
    (i.timestamp, i.biomarker)
  }

  const HistoryWindow: nat := 10
  const InterventionLimit: nat := 20
  const SubmittedWindow: nat := 5

  /** The history updater of `fetchBioSyncData`: append the unseen entries, keep the last 10. */
  method MergeBiomarkerHistory(prev: seq<BiomarkerEntry>, batch: seq<BiomarkerEntry>) returns (r: seq<BiomarkerEntry>)
    ensures r == LastN(prev + Unseen(HistoryKey, prev, batch), HistoryWindow)
  {
    var combined := AppendUnseen(HistoryKey, prev, batch);
    r := LastN(combined, HistoryWindow);
  }

  /** The intervention updater of `fetchBioSyncData`: prepend the unseen ones, keep the first 20. */
  method MergeInterventions(prev: seq<Intervention>, batch: seq<Intervention>) returns (r: seq<Intervention>)
    ensures r == FirstN(Reverse(Unseen(InterventionKey, prev, batch)) + prev, InterventionLimit)
  {
    var combined := PrependUnseen(InterventionKey, prev, batch);
    r := FirstN(combined, InterventionLimit);
  }

  /**
   * The merged history: at most 10 entries, the newest last; before the cut the old entries
   * stand first and unchanged, every batch entry's key is present, and the added entries are
   * batch entries, in batch order.
   */
  lemma HistoryMergeMeaning(prev: seq<BiomarkerEntry>, batch: seq<BiomarkerEntry>)
    ensures var added := Unseen(HistoryKey, prev, batch);
      var combined := prev + added;
      var r := LastN(combined, HistoryWindow);
      && |r| <= HistoryWindow && r == combined[|combined| - |r|..]
      && (forall i :: 0 <= i < |batch| ==> HasKey(HistoryKey, combined, HistoryKey(batch[i])))
      && SubsequenceOf(added, batch)
  {
    UnseenCoversBatch(HistoryKey, prev, batch);
    UnseenIsSubsequence(HistoryKey, prev, batch);
  }

  /** The added entries have fresh, distinct keys, and distinct keys stay distinct after the cut. */
  lemma HistoryMergeKeys(prev: seq<BiomarkerEntry>, batch: seq<BiomarkerEntry>)
    ensures var added := Unseen(HistoryKey, prev, batch);
      && (forall i :: 0 <= i < |added| ==> !HasKey(HistoryKey, prev, HistoryKey(added[i])))
      && DistinctKeys(HistoryKey, added)
      && (DistinctKeys(HistoryKey, prev) ==> DistinctKeys(HistoryKey, LastN(prev + added, HistoryWindow)))
  {
    UnseenKeysAreFresh(HistoryKey, prev, batch);
    if DistinctKeys(HistoryKey, prev) {
      MergeKeepsKeysDistinct(HistoryKey, prev, batch);
      WindowKeepsKeysDistinct(HistoryKey, prev + Unseen(HistoryKey, prev, batch), HistoryWindow);
    }
  }

  /**
   * The merged interventions: at most 20; the new ones come first, in reverse batch order,
   * then the old list unchanged, and the cut keeps the front. Every batch key is present.
   */
  lemma InterventionMergeMeaning(prev: seq<Intervention>, batch: seq<Intervention>)
    ensures var added := Unseen(InterventionKey, prev, batch);
      var combined := Reverse(added) + prev;
      var r := FirstN(combined, InterventionLimit);
      && |r| <= InterventionLimit && r == combined[..|r|]
      && (forall i :: 0 <= i < |added| ==> combined[i] == added[|added| - 1 - i])
      && combined[|added|..] == prev
      && (forall i :: 0 <= i < |batch| ==> HasKey(InterventionKey, combined, InterventionKey(batch[i])))
      && SubsequenceOf(added, batch)
  {
    var added := Unseen(InterventionKey, prev, batch);
    var combined := Reverse(added) + prev;
    assert forall i :: 0 <= i < |batch| ==> HasKey(InterventionKey, combined, InterventionKey(batch[i])) by {
      UnseenCoversBatch(InterventionKey, prev, batch);
      forall i | 0 <= i < |batch| ensures HasKey(InterventionKey, combined, InterventionKey(batch[i])) {
        HasKeyReordered(InterventionKey, added, prev, InterventionKey(batch[i]));
      }
    }
    UnseenIsSubsequence(InterventionKey, prev, batch);
  }

  /** The added interventions have keys the old list lacks, and distinct keys stay distinct after the cut. */
  lemma InterventionMergeKeys(prev: seq<Intervention>, batch: seq<Intervention>)
    ensures var added := Unseen(InterventionKey, prev, batch);
      && (forall i :: 0 <= i < |added| ==> !HasKey(InterventionKey, prev, InterventionKey(added[i])))
      && (DistinctKeys(InterventionKey, prev) ==>
            DistinctKeys(InterventionKey, FirstN(Reverse(added) + prev, InterventionLimit)))
  {
    UnseenKeysAreFresh(InterventionKey, prev, batch);
    if DistinctKeys(InterventionKey, prev) {
      MergeKeepsKeysDistinct(InterventionKey, prev, batch);
      WindowKeepsKeysDistinct(InterventionKey, Reverse(Unseen(InterventionKey, prev, batch)) + prev, InterventionLimit);
    }
  }

  /** What `/dashboard/data` returned: each list may be absent. */
  datatype DashboardData = DashboardData(
    biomarkerHistory: Option<seq<BiomarkerEntry>>,
    activeInterventions: Option<seq<Intervention>>)

  /** `fetchBioSyncData` after a successful fetch: each list is merged only when the reply carries it. */
  method ApplyDashboardData(history: seq<BiomarkerEntry>, interventions: seq<Intervention>, data: DashboardData)
    returns (history': seq<BiomarkerEntry>, interventions': seq<Intervention>)
    ensures history' == match data.biomarkerHistory
      case None => history
      case Some(batch) => LastN(history + Unseen(HistoryKey, history, batch), HistoryWindow)
    ensures interventions' == match data.activeInterventions
      case None => interventions
      case Some(batch) => FirstN(Reverse(Unseen(InterventionKey, interventions, batch)) + interventions, InterventionLimit)
  {
    history', interventions' := history, interventions;
    if data.biomarkerHistory.Some? {
      history' := MergeBiomarkerHistory(history, data.biomarkerHistory.value);
    }
    if data.activeInterventions.Some? {
      interventions' := MergeInterventions(interventions, data.activeInterventions.value);
    }
  }

  // ---------------------------------------------------------------------------------------
  // Manual biomarker submission
  // ---------------------------------------------------------------------------------------

  /** The text typed into the biomarker form. */
  datatype BiomarkerForm = BiomarkerForm(
    userId: string, glucose: string, hrv: string, cortisol: string, sleepQuality: string, neuroFatigue: string)

  /** `parseFloat(text) || 0`: NaN (and zero) become zero. */
  function ReadingOrZero(parsed: Option<real>): (r: real)
    ensures parsed.None? ==> r == 0.0
    ensures parsed.Some? ==> r == parsed.value
  {
    parsed.GetOr(0.0)
  }

  /** The entry a submission records, stamped with the time `now`. */
  function SubmittedEntry(form: BiomarkerForm, parse: string -> Option<real>, now: string): (e: BiomarkerEntry)
    ensures e.userId == form.userId && e.timestamp == now
    ensures parse(form.glucose).None? ==> e.glucose == 0.0
    ensures parse(form.hrv).None? ==> e.hrv == 0.0
    ensures parse(form.cortisol).None? ==> e.cortisol == 0.0
    ensures parse(form.sleepQuality).None? ==> e.sleepQuality == 0.0
    ensures parse(form.neuroFatigue).None? ==> e.neuroFatigue == 0.0
    ensures parse(form.glucose).Some? ==> e.glucose == parse(form.glucose).value
    ensures parse(form.hrv).Some? ==> e.hrv == parse(form.hrv).value
    ensures parse(form.cortisol).Some? ==> e.cortisol == parse(form.cortisol).value
    ensures parse(form.sleepQuality).Some? ==> e.sleepQuality == parse(form.sleepQuality).value
    ensures parse(form.neuroFatigue).Some? ==> e.neuroFatigue == parse(form.neuroFatigue).value
  {
    BiomarkerEntry(form.userId, now,
      ReadingOrZero(parse(form.glucose)), ReadingOrZero(parse(form.hrv)),
      ReadingOrZero(parse(form.cortisol)), ReadingOrZero(parse(form.sleepQuality)),
      ReadingOrZero(parse(form.neuroFatigue)))
  }

  /** `[...prev, entry].slice(-5)`: at most five entries, the new one last, the oldest dropped first. */
  function SubmittedHistory(prev: seq<BiomarkerEntry>, entry: BiomarkerEntry): (r: seq<BiomarkerEntry>)
    ensures |r| == if |prev| < SubmittedWindow then |prev| + 1 else SubmittedWindow
    ensures r[|r| - 1] == entry
    ensures r[..|r| - 1] == prev[|prev| - (|r| - 1)..]
  {
    var r := LastN(prev + [entry], SubmittedWindow);
    assert r[..|r| - 1] == (prev + [entry])[|prev| + 1 - |r|..|prev|];
    r
  }

  /** `intervention.timestamp || now` for each intervention the submission returned. */
  function Stamped(items: seq<Intervention>, now: string): (r: seq<Intervention>)
    ensures |r| == |items|
    ensures forall i :: 0 <= i < |items| ==>
      && r[i].biomarker == items[i].biomarker && r[i].priority == items[i].priority
      && r[i].intervention == items[i].intervention && r[i].value == items[i].value
      && r[i].timestamp == (if items[i].timestamp == [] then now else items[i].timestamp)
    ensures now != [] ==> forall i :: 0 <= i < |r| ==> r[i].timestamp != []
  {
    seq(|items|, i requires 0 <= i < |items| =>
      var it := items[i];
      if it.timestamp == [] then it.(timestamp := now) else it)
  }

  /** `[...timestamped, ...prev]`: the returned interventions, in order, ahead of the old list, with no cap. */
  function InterventionsAfterSubmit(prev: seq<Intervention>, returned: seq<Intervention>, now: string): (r: seq<Intervention>)
    ensures |r| == |returned| + |prev|
    ensures r[..|returned|] == Stamped(returned, now)
    ensures r[|returned|..] == prev
    ensures forall i :: 0 <= i < |returned| ==> r[i].biomarker == returned[i].biomarker
  {
    Stamped(returned, now) + prev
  }

  // ---------------------------------------------------------------------------------------
  // Risk colour
  // ---------------------------------------------------------------------------------------

  datatype RiskBand = Green | Yellow | Orange | Red

  /** `getRiskColor`; a NaN or missing percentage fails every comparison and lands in red. */
  function RiskColor(percentage: Option<real>): (band: RiskBand)
    ensures percentage.None? ==> band == Red
    ensures band == Green <==> percentage.Some? && percentage.value < 25.0
  {
    match percentage
    case None => Red
    case Some(p) =>
      if p < 25.0 then Green
      else if p < 50.0 then Yellow
      else if p < 75.0 then Orange
      else Red
  }

  function Severity(band: RiskBand): nat {
    match band
    case Green => 0 case Yellow => 1 case Orange => 2 case Red => 3
  }

  /** The four bands: below 25, from 25 below 50, from 50 below 75, and 75 up. */
  lemma RiskBands(p: real)
    ensures RiskColor(Some(p)) == Green <==> p < 25.0
    ensures RiskColor(Some(p)) == Yellow <==> 25.0 <= p < 50.0
    ensures RiskColor(Some(p)) == Orange <==> 50.0 <= p < 75.0
    ensures RiskColor(Some(p)) == Red <==> 75.0 <= p
    ensures RiskColor(None) == Red
  {
  }

  /** A higher percentage never gets a milder band. */
  lemma RiskColorMonotone(p: real, q: real)
    requires p <= q
    ensures Severity(RiskColor(Some(p))) <= Severity(RiskColor(Some(q)))
  {
  }
}
