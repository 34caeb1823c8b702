/** Configuration of a form wizard (`FormWizard.__init__`) and the
    adjacency queries on its ordered list of step keys. */
module Steps {
  import opened Common
  import Decimal

  /** The form class of a step. A model-backed form (a `ModelForm`) is
      handed the step's instance object when it is built. */
  datatype FormSpec = Plain(schema: nat) | ModelBacked(schema: nat)

  /** An externally owned domain object edited by a model-backed step. */
  datatype Instance = Instance(id: nat)

  /** One entry of the configured form list: a bare form class, or a
      `(step_name, form_class)` pair. */
  datatype FormEntry = Bare(spec: FormSpec) | Named(name: string, spec: FormSpec)

  datatype ConfigError = NoForms

  /** A configured wizard: step keys in order with their form classes (the
      source's insertion-ordered dictionary, kept as two parallel
      sequences), the initial data and instance tables, and whether a
      completion handler (`done`) is available. */
  datatype Wizard = Wizard(
    steps: seq<Key>,
    specs: seq<FormSpec>,
    initial: map<Key, Data>,
    instances: map<Key, Instance>,
    hasDone: bool)
  {
    predicate Valid() {
      && |steps| > 0
      && |specs| == |steps|
      && Distinct(steps)
    }
  }

  /** The key an entry at `position` receives. */
  function EntryKey(e: FormEntry, position: nat): Key {
    match e
    case Bare(_) => Decimal.NatToString(position)
    case Named(name, _) => name
  }

  /** Keys of `entries`, the first of which sits at list position `start`. */
  function KeysFrom(entries: seq<FormEntry>, start: nat): (keys: seq<Key>)
    ensures |keys| == |entries|
    ensures forall i :: 0 <= i < |entries| ==> keys[i] == EntryKey(entries[i], start + i)
    decreases |entries|
  {
    if |entries| == 0 then []
    else [EntryKey(entries[0], start)] + KeysFrom(entries[1..], start + 1)
  }

  /** The step keys a form list produces, in list order. */
  function StepKeys(entries: seq<FormEntry>): (keys: seq<Key>)
    ensures |keys| == |entries|
  {
    KeysFrom(entries, 0)
  }

  /** Builds a wizard from its form list. The only configuration check is
      that the list is not empty; duplicate names are not detected by the
      constructor and are excluded by the precondition. */
  function Construct(entries: seq<FormEntry>, initial: map<Key, Data>,
                     instances: map<Key, Instance>, hasDone: bool): (r: Result<Wizard, ConfigError>)
    requires Distinct(StepKeys(entries))
    ensures r.Failure? <==> |entries| == 0
    ensures r.Success? ==>
      && r.value.Valid()
      && |r.value.steps| == |entries|
      && (forall i :: 0 <= i < |entries| ==>
            && r.value.specs[i] == entries[i].spec
            && (entries[i].Named? ==> r.value.steps[i] == entries[i].name)
            && (entries[i].Bare? ==> r.value.steps[i] == Decimal.NatToString(i)))
      && r.value.initial == initial && r.value.instances == instances
      && r.value.hasDone == hasDone
  {
    if |entries| == 0 then Failure(NoForms)
    else
      Success(Wizard(StepKeys(entries),
                     seq(|entries|, i requires 0 <= i < |entries| => entries[i].spec),
                     initial, instances, hasDone))
  }

  /** A form list made of bare forms only never produces a duplicate key. */
  lemma BareKeysDistinct(entries: seq<FormEntry>)
    requires forall i :: 0 <= i < |entries| ==> entries[i].Bare?
    ensures Distinct(StepKeys(entries))
  {
    var keys := StepKeys(entries);
    forall i, j | 0 <= i < j < |keys|
      ensures keys[i] != keys[j]
    {
      Decimal.NatToStringInjective(i, j);
    }
  }

  /** `[S1, S2, ('finish', S3)]` is keyed `'0', '1', 'finish'`. */
  lemma MixedEntriesExample(s1: FormSpec, s2: FormSpec, s3: FormSpec)
    ensures StepKeys([Bare(s1), Bare(s2), Named("finish", s3)]) == ["0", "1", "finish"]
  {
  }

  /** Zero-based position of the first occurrence of `k`, `list.index(k)`. */
  function IndexOf(s: seq<Key>, k: Key): (i: nat)
    requires k in s
    ensures i < |s| && s[i] == k
    ensures forall j :: 0 <= j < i ==> s[j] != k
  {
    if s[0] == k then 0 else 1 + IndexOf(s[1..], k)
  }

  lemma IndexOfDistinct(s: seq<Key>, i: nat)
    requires Distinct(s) && i < |s|
    ensures IndexOf(s, s[i]) == i
  {
  }

  /** The form class configured for step `k`. */
  function SpecOf(w: Wizard, k: Key): FormSpec
    requires w.Valid() && k in w.steps
  {
    w.specs[IndexOf(w.steps, k)]
  }

  function StepIndex(w: Wizard, k: Key): (i: nat)
    requires w.Valid() && k in w.steps
    ensures i < NumSteps(w) && w.steps[i] == k
  {
    IndexOf(w.steps, k)
  }

  function NumSteps(w: Wizard): (n: nat)
    requires w.Valid()
    ensures n == |w.steps| && n >= 1
  {
    |w.steps|
  }

  function FirstStep(w: Wizard): (k: Key)
    requires w.Valid()
    ensures k in w.steps && StepIndex(w, k) == 0
  {
    w.steps[0]
  }

  function LastStep(w: Wizard): (k: Key)
    requires w.Valid()
    ensures k in w.steps && StepIndex(w, k) == NumSteps(w) - 1
  {
    IndexOfDistinct(w.steps, |w.steps| - 1);
    w.steps[|w.steps| - 1]
  }

  /** The step after `k`, or `None` when `k` is the last step. */
  function NextStep(w: Wizard, k: Key): (r: Option<Key>)
    requires w.Valid() && k in w.steps
    ensures r.None? <==> k == LastStep(w)
    ensures r.Some? ==> r.value in w.steps && StepIndex(w, r.value) == StepIndex(w, k) + 1
  {
    var i := IndexOf(w.steps, k) + 1;
    if i < |w.steps| then
      IndexOfDistinct(w.steps, i);
      Some(w.steps[i])
    else
      None
  }

  /** The step before `k`, or `None` when `k` is the first step. */
  function PrevStep(w: Wizard, k: Key): (r: Option<Key>)
    requires w.Valid() && k in w.steps
    ensures r.None? <==> k == FirstStep(w)
    ensures r.Some? ==> r.value in w.steps && StepIndex(w, r.value) + 1 == StepIndex(w, k)
  {
    var i := IndexOf(w.steps, k) - 1;
    if i < 0 then
      None
    else
      IndexOfDistinct(w.steps, i);
      Some(w.steps[i])
  }

  /** Moving forward then back returns to the same step, and conversely. */
  lemma NextPrevInverse(w: Wizard, k: Key, n: Key)
    requires w.Valid() && k in w.steps && n in w.steps
    ensures NextStep(w, k) == Some(n) <==> PrevStep(w, n) == Some(k)
  {
  }

  /** The step order is walked end to end by `NextStep`: the step at
      position `i + 1` follows the step at position `i`. */
  lemma NextStepAt(w: Wizard, i: nat)
    requires w.Valid() && i + 1 < |w.steps|
    ensures NextStep(w, w.steps[i]) == Some(w.steps[i + 1])
  {
  }
}
