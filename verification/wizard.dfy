/** The wizard controller of `formwizard/forms.py`: building a step's form,
    resolving the current step, the forward, backward and final transitions,
    and cleaned-data aggregation. Form validation is an abstract oracle. */
module FormWizard {
  import opened Common
  import opened Steps
  import opened Storage

  /** A form object built for one step. */
  datatype Form = Form(
    spec: FormSpec,
    prefix: string,
    data: Option<Data>,
    initial: Data,
    instance: Option<Instance>)

  /** What a valid form's `cleaned_data` is: one record, or the list of
      records of a form set. */
  datatype Cleaned = Fields(values: map<string, string>) | FormSet(rows: seq<map<string, string>>)

  /** A value of the aggregated cleaned-data dictionary. */
  datatype Entry = Scalar(value: string) | Rows(rows: seq<map<string, string>>)

  /** Django's form validation and cleaning, left uninterpreted. */
  datatype Oracle = Oracle(accepts: Form -> bool, clean: Form -> Cleaned)

  /** `is_valid()`: a form without data (unbound) is never valid. */
  predicate IsValid(o: Oracle, f: Form) {
    f.data.Some? && o.accepts(f)
  }

  /** The template context of a rendered step. */
  datatype Page = Page(
    extra: Data,
    step: Key,
    first: Key,
    last: Key,
    prev: Option<Key>,
    next: Option<Key>,
    step0: nat,
    step1: nat,
    count: nat,
    form: Form)

  datatype WizardError = UnknownStep(step: Key) | NotImplemented

  /** What handling a request produces: a rendered step, the hand-off of
      every validated form to `done`, or an error. */
  datatype Response = Rendered(page: Page) | Completed(forms: seq<Form>) | Failed(error: WizardError)

  datatype Outcome = Outcome(response: Response, state: RunState)

  /** The stored current step, when present, names a configured step. */
  predicate Consistent(w: Wizard, st: RunState) {
    st.current.None? || st.current.value in w.steps
  }

  /** `determine_step`: the stored current step, else the first step. The
      fallback is Python's `or`, so an empty step name counts as unset. */
  function DetermineStep(w: Wizard, st: RunState): (k: Key)
    requires w.Valid()
    ensures Consistent(w, st) ==> k in w.steps
    ensures st.current.Some? && st.current.value != "" ==> k == st.current.value
    ensures st.current.None? || st.current.value == "" ==> k == FirstStep(w)
  {
    if st.current.Some? && st.current.value != "" then st.current.value else FirstStep(w)
  }

  /** After a reset the wizard starts over at its first step with no stored
      data. */
  lemma ResetRestarts(w: Wizard, st: RunState)
    requires w.Valid()
    ensures Consistent(w, Reset(st))
    ensures DetermineStep(w, Reset(st)) == FirstStep(w)
    ensures forall k :: GetStepData(Reset(st), k) == None
  {
  }

  function GetFormPrefix(k: Key): string {
    k
  }

  function GetFormInitial(w: Wizard, k: Key): Data {
    GetOr(w.initial, k, map[])
  }

  function GetFormInstance(w: Wizard, k: Key): Option<Instance> {
    if k in w.instances then Some(w.instances[k]) else None
  }

  /** `get_form`: the form of step `k` bound to `data`, prefixed with the
      step name, pre-filled from the initial table, and given the step's
      instance when the form class is model-backed. */
  function GetForm(w: Wizard, k: Key, data: Option<Data>): (f: Form)
    requires w.Valid() && k in w.steps
    ensures f.spec == SpecOf(w, k) && f.data == data && f.prefix == k
    ensures k in w.initial ==> f.initial == w.initial[k]
    ensures k !in w.initial ==> f.initial == map[]
    ensures f.instance.Some? <==> f.spec.ModelBacked? && k in w.instances
    ensures f.instance.Some? ==> f.instance.value == w.instances[k]
  {
    var spec := SpecOf(w, k);
    Form(spec, GetFormPrefix(k), data, GetFormInitial(w, k),
         if spec.ModelBacked? then GetFormInstance(w, k) else None)
  }

  /** Forms of different steps never share a field prefix. */
  lemma PrefixesIsolateSteps(w: Wizard, j: Key, k: Key, d: Option<Data>, e: Option<Data>)
    requires w.Valid() && j in w.steps && k in w.steps && j != k
    ensures GetForm(w, j, d).prefix != GetForm(w, k, e).prefix
  {
  }

  /** `process_step`: the data to store for a validated step, by default
      the form's raw data. */
  function ProcessStep(f: Form): Option<Data> {
    f.data
  }

  /** The data `process_step` stores rebuilds the very form it came from,
      so revalidating it later judges the same form. */
  lemma ProcessStepRebuildsForm(w: Wizard, k: Key, d: Option<Data>)
    requires w.Valid() && k in w.steps
    ensures GetForm(w, k, ProcessStep(GetForm(w, k, d))) == GetForm(w, k, d)
  {
  }

  /** The form of step `k` rebuilt from its stored data. */
  function StoredForm(w: Wizard, st: RunState, k: Key): Form
    requires w.Valid() && k in w.steps
  {
    GetForm(w, k, GetStepData(st, k))
  }

  predicate StepValid(w: Wizard, o: Oracle, st: RunState, k: Key)
    requires w.Valid() && k in w.steps
  {
    IsValid(o, StoredForm(w, st, k))
  }

  /** `render`: the context of the current step around `form`. */
  function Render(w: Wizard, st: RunState, form: Form): (p: Page)
    requires w.Valid() && DetermineStep(w, st) in w.steps
    ensures p.step == DetermineStep(w, st) && p.form == form && p.extra == st.extra
    ensures p.count == |w.steps| && p.step0 < p.count && w.steps[p.step0] == p.step
    ensures p.step1 == p.step0 + 1
    ensures p.first == w.steps[0] && p.last == w.steps[p.count - 1]
    ensures p.prev.None? <==> p.step0 == 0
    ensures p.prev.Some? ==> p.prev.value == w.steps[p.step0 - 1]
    ensures p.next.None? <==> p.step1 == p.count
    ensures p.next.Some? ==> p.next.value == w.steps[p.step1]
  {
    var k := DetermineStep(w, st);
    Page(GetExtraContext(st), k, FirstStep(w), LastStep(w), PrevStep(w, k), NextStep(w, k),
         StepIndex(w, k), StepIndex(w, k) + 1, NumSteps(w), form)
  }

  /** `render_next_step`: move to the step after the current one and show
      it with its stored data. Past the last step there is no next step:
      the current step's form is built unbound and the pointer is cleared. */
  function RenderNextStep(w: Wizard, st: RunState): (out: Outcome)
    requires w.Valid() && DetermineStep(w, st) in w.steps
    ensures out.state.stepData == st.stepData && out.state.extra == st.extra
    ensures out.response.Rendered? && out.response.page.step == DetermineStep(w, out.state)
    ensures DetermineStep(w, st) != LastStep(w) ==>
      && out.state.current.Some?
      && out.state.current.value in w.steps
      && StepIndex(w, out.state.current.value) == StepIndex(w, DetermineStep(w, st)) + 1
      && out.response.page.form == StoredForm(w, st, out.state.current.value)
    ensures DetermineStep(w, st) == LastStep(w) ==> out.state.current.None?
  {
    var cur := DetermineStep(w, st);
    match NextStep(w, cur)
    case Some(n) =>
      var st' := SetCurrentStep(st, Some(n));
      Outcome(Rendered(Render(w, st', GetForm(w, n, GetStepData(st, n)))), st')
    case None =>
      var st' := SetCurrentStep(st, None);
      Outcome(Rendered(Render(w, st', GetForm(w, cur, None))), st')
  }

  /** `render_backward`: jump to the requested step and show it with its
      stored data. */
  function RenderBackward(w: Wizard, st: RunState, prev: Key): (out: Outcome)
    requires w.Valid() && prev in w.steps
    ensures out.state.current == Some(prev)
    ensures out.state.stepData == st.stepData && out.state.extra == st.extra
    ensures out.response.Rendered?
    ensures prev != "" ==> out.response.page.step == prev && out.response.page.form == StoredForm(w, st, prev)
  {
    var st' := SetCurrentStep(st, Some(prev));
    var k := DetermineStep(w, st');
    Outcome(Rendered(Render(w, st', GetForm(w, k, GetStepData(st', k)))), st')
  }

  /** `render_revalidation_failure`: rewind to the failing step and show
      its form. */
  function RenderRevalidationFailure(w: Wizard, st: RunState, k: Key, form: Form): (out: Outcome)
    requires w.Valid() && k in w.steps
    ensures out.state.current == Some(k)
    ensures out.state.stepData == st.stepData && out.state.extra == st.extra
    ensures out.response.Rendered? && out.response.page.form == form
    ensures out.response.page.step == DetermineStep(w, out.state)
  {
    var st' := SetCurrentStep(st, Some(k));
    Outcome(Rendered(Render(w, st', form)), st')
  }

  predicate AllStepsValid(w: Wizard, o: Oracle, st: RunState)
    requires w.Valid()
  {
    forall i :: 0 <= i < |w.steps| ==> StepValid(w, o, st, w.steps[i])
  }

  /** Position `i` holds the first step whose stored data is invalid. */
  predicate FirstInvalidAt(w: Wizard, o: Oracle, st: RunState, i: nat)
    requires w.Valid()
  {
    && i < |w.steps|
    && !StepValid(w, o, st, w.steps[i])
    && forall j :: 0 <= j < i ==> StepValid(w, o, st, w.steps[j])
  }

  /** Revalidation from position `from` on: the position of the first
      invalid step, or `None` when the rest of the steps are valid. */
  function FirstInvalidFrom(w: Wizard, o: Oracle, st: RunState, from: nat): (r: Option<nat>)
    requires w.Valid() && from <= |w.steps|
    ensures r.Some? ==>
      && from <= r.value < |w.steps|
      && !StepValid(w, o, st, w.steps[r.value])
      && forall j :: from <= j < r.value ==> StepValid(w, o, st, w.steps[j])
    ensures r.None? ==> forall j :: from <= j < |w.steps| ==> StepValid(w, o, st, w.steps[j])
    decreases |w.steps| - from
  {
    if from == |w.steps| then None
    else if !StepValid(w, o, st, w.steps[from]) then Some(from)
    else FirstInvalidFrom(w, o, st, from + 1)
  }

  /** The forms handed to `done`: every step's stored form, in order. */
  function StoredForms(w: Wizard, st: RunState): (forms: seq<Form>)
    requires w.Valid()
    ensures |forms| == |w.steps|
  {
    seq(|w.steps|, i requires 0 <= i < |w.steps| => StoredForm(w, st, w.steps[i]))
  }

  /** `render_done`: revalidate every step in order. The first invalid step
      becomes the current step and is shown again; when all are valid, the
      forms go to `done`, which fails when no handler is configured. */
  function RenderDone(w: Wizard, o: Oracle, st: RunState): (out: Outcome)
    requires w.Valid()
    ensures out.state.stepData == st.stepData && out.state.extra == st.extra
    ensures !AllStepsValid(w, o, st) ==>
      exists i: nat :: FirstInvalidAt(w, o, st, i)
        && out.state.current == Some(w.steps[i])
        && out.response.Rendered?
        && out.response.page.form == StoredForm(w, st, w.steps[i])
    ensures out.response.Completed? <==> AllStepsValid(w, o, st) && w.hasDone
    ensures out.response.Failed? <==> AllStepsValid(w, o, st) && !w.hasDone
    ensures out.response.Failed? ==> out.response.error == NotImplemented
    ensures AllStepsValid(w, o, st) ==> out.state == st
    ensures out.response.Completed? ==>
      && |out.response.forms| == |w.steps|
      && forall i :: 0 <= i < |w.steps| ==>
           out.response.forms[i] == StoredForm(w, st, w.steps[i]) && IsValid(o, out.response.forms[i])
  {
    match FirstInvalidFrom(w, o, st, 0)
    case Some(i) =>
      var k := w.steps[i];
      RenderRevalidationFailure(w, st, k, StoredForm(w, st, k))
    case None =>
      if w.hasDone then Outcome(Completed(StoredForms(w, st)), st)
      else Outcome(Failed(NotImplemented), st)
  }

  /** A step that revalidates is never the one `render_done` rewinds to. */
  lemma RewindSkipsValidStep(w: Wizard, o: Oracle, st: RunState, k: Key)
    requires w.Valid() && k in w.steps && StepValid(w, o, st, k)
    ensures RenderDone(w, o, st).response.Rendered? ==>
      && RenderDone(w, o, st).state.current.Some?
      && RenderDone(w, o, st).state.current.value in w.steps
      && RenderDone(w, o, st).state.current.value != k
  {
  }

  /** With nothing stored, no step revalidates, so finishing rewinds to the
      first step whatever the form classes and the oracle. */
  lemma RevalidationWithoutData(w: Wizard, o: Oracle, st: RunState)
    requires w.Valid() && st.stepData == map[]
    ensures RenderDone(w, o, st).state.current == Some(FirstStep(w))
    ensures RenderDone(w, o, st).response.Rendered?
  {
  }

  /** The entries step `k` adds to the aggregated cleaned data: nothing when
      its stored data is invalid, its list of records under
      `formset-<k>` when it is a form set, otherwise its fields. */
  function Contribution(w: Wizard, o: Oracle, st: RunState, k: Key): map<string, Entry>
    requires w.Valid() && k in w.steps
  {
    var f := StoredForm(w, st, k);
    if !IsValid(o, f) then map[]
    else match o.clean(f)
      case FormSet(rows) => map["formset-" + k := Rows(rows)]
      case Fields(values) => map n | n in values :: Scalar(values[n])
  }

  /** Every step's contribution, in step order. */
  function Contributions(w: Wizard, o: Oracle, st: RunState): (cs: seq<map<string, Entry>>)
    requires w.Valid()
    ensures |cs| == |w.steps|
  {
    seq(|w.steps|, i requires 0 <= i < |w.steps| => Contribution(w, o, st, w.steps[i]))
  }

  /** Among the first `upto` dictionaries of `cs`, the one at `i` is the
      last to hold key `n`. */
  ghost predicate LastWriter(cs: seq<map<string, Entry>>, i: nat, n: string, upto: nat)
    requires i < upto <= |cs|
  {
    n in cs[i] && forall j :: i < j < upto ==> n !in cs[j]
  }

  /** One of the first `k` dictionaries of `cs` holds key `n`. */
  ghost predicate WrittenBefore(cs: seq<map<string, Entry>>, k: nat, n: string)
    requires k <= |cs|
  {
    exists i :: 0 <= i < k && n in cs[i]
  }

  /** `d` is what `dict.update` leaves after applying the first `k`
      dictionaries of `cs` in order: exactly their keys, each with the value
      of its last writer. */
  ghost predicate MergedUpTo(cs: seq<map<string, Entry>>, d: map<string, Entry>, k: nat)
    requires k <= |cs|
  {
    && (forall n :: n in d <==> WrittenBefore(cs, k, n))
    && (forall i, n :: 0 <= i < k && LastWriter(cs, i, n, k) ==> n in d && d[n] == cs[i][n])
  }

  /** Applying the next dictionary keeps the merge invariant. */
  lemma MergeStep(cs: seq<map<string, Entry>>, d: map<string, Entry>, k: nat)
    requires k < |cs| && MergedUpTo(cs, d, k)
    ensures MergedUpTo(cs, d + cs[k], k + 1)
  {
  }

  /** Applies the dictionaries of `cs` in order with `dict.update`,
      starting from an empty dictionary. */
  method MergeAll(cs: seq<map<string, Entry>>) returns (d: map<string, Entry>)
    ensures MergedUpTo(cs, d, |cs|)
  {
    d := map[];
    var k := 0;
    while k < |cs|
      invariant 0 <= k <= |cs|
      invariant MergedUpTo(cs, d, k)
    {
      MergeStep(cs, d, k);
      d := d + cs[k];
      k := k + 1;
    }
  }

  /** `get_all_cleaned_data`: the contributions of all steps merged in step
      order, so an entry is present iff some step writes it, and holds the
      value of the last step that wrote it. */
  method GetAllCleanedData(w: Wizard, o: Oracle, st: RunState) returns (d: map<string, Entry>)
    requires w.Valid()
    ensures MergedUpTo(Contributions(w, o, st), d, |w.steps|)
  {
    d := MergeAll(Contributions(w, o, st));
  }

  /** `get_cleaned_data_for_step`: the cleaned data of step `k` revalidated
      from storage, or `None` for an unconfigured or invalid step. */
  function GetCleanedDataForStep(w: Wizard, o: Oracle, st: RunState, k: Key): (r: Option<Cleaned>)
    requires w.Valid()
    ensures r.Some? <==> k in w.steps && StepValid(w, o, st, k)
    ensures r.Some? ==> r.value == o.clean(StoredForm(w, st, k))
  {
    if k in w.steps && StepValid(w, o, st, k) then Some(o.clean(StoredForm(w, st, k))) else None
  }
}
