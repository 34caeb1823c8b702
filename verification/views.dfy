/** The request dispatcher of `formwizard/views.py`: a GET resets the
    wizard, a POST naming a configured `form_prev_step` goes backward, and
    any other POST runs the handler of the stored current step or the
    default handler. */
module Views {
  import opened Common
  import opened Steps
  import opened Storage
  import opened FormWizard

  datatype Request = Get | Post(data: Data)

  /** What a step handler is: the built-in default handler, or one named by
      the integrator, whose effect is supplied as a parameter. */
  datatype Handler = DefaultHandler | Custom(name: string)

  /** Runs a custom handler on the posted data and the current run state. */
  type CustomRunner = (string, Data, RunState) -> Outcome

  const PrevStepField: string := "form_prev_step"
  const DefaultKey: string := "default"

  /** The handler table `wizard` works with: `default` is added when the
      caller did not configure it, and nothing else changes. */
  function WithDefault(handlers: map<string, Handler>): (r: map<string, Handler>)
    ensures r.Keys == handlers.Keys + {DefaultKey}
    ensures forall n :: n in handlers ==> r[n] == handlers[n]
    ensures DefaultKey !in handlers ==> r[DefaultKey] == DefaultHandler
  {
    if DefaultKey in handlers then handlers else handlers[DefaultKey := DefaultHandler]
  }

  /** The handler of the raw stored current step, else the default one. */
  function SelectHandler(handlers: map<string, Handler>, st: RunState): (h: Handler)
    requires DefaultKey in handlers
    ensures h in handlers.Values
    ensures st.current.Some? && st.current.value in handlers ==> h == handlers[st.current.value]
    ensures st.current.None? || st.current.value !in handlers ==> h == handlers[DefaultKey]
  {
    if st.current.Some? && st.current.value in handlers then handlers[st.current.value]
    else handlers[DefaultKey]
  }

  /** `process_reset`: clear the run state and show the first step. */
  function ProcessReset(w: Wizard, st: RunState): (out: Outcome)
    requires w.Valid()
    ensures out.state == Reset(st)
    ensures out.response.Rendered?
    ensures out.response.page.step == FirstStep(w) && out.response.page.step0 == 0
    ensures out.response.page.form.data.None?
  {
    var st' := Reset(st);
    Outcome(Rendered(Render(w, st', GetForm(w, FirstStep(w), None))), st')
  }

  /** `wizard_default_step`: validate the posted data against the current
      step. Valid data is stored under the current step, then the wizard
      finishes when that step is the last one and advances otherwise.
      Invalid data re-renders the step and stores nothing. A stored current
      step that is not configured has no form class. */
  function DefaultStep(w: Wizard, o: Oracle, st: RunState, post: Data): (out: Outcome)
    requires w.Valid()
    ensures DetermineStep(w, st) !in w.steps ==>
      out == Outcome(Failed(UnknownStep(DetermineStep(w, st))), st)
    ensures DetermineStep(w, st) in w.steps && !IsValid(o, GetForm(w, DetermineStep(w, st), Some(post))) ==>
      && out.state == st
      && out.response.Rendered?
      && out.response.page.step == DetermineStep(w, st)
      && out.response.page.form == GetForm(w, DetermineStep(w, st), Some(post))
    ensures DetermineStep(w, st) in w.steps && IsValid(o, GetForm(w, DetermineStep(w, st), Some(post))) ==>
      && out.state.stepData == st.stepData[DetermineStep(w, st) := Some(post)]
      && out.state.extra == st.extra
      && (DetermineStep(w, st) == LastStep(w) ==>
            out == RenderDone(w, o, SetStepData(st, DetermineStep(w, st), Some(post))))
      && (DetermineStep(w, st) != LastStep(w) ==>
            out == RenderNextStep(w, SetStepData(st, DetermineStep(w, st), Some(post))))
  {
    var cur := DetermineStep(w, st);
    if cur !in w.steps then
      Outcome(Failed(UnknownStep(cur)), st)
    else
      var form := GetForm(w, cur, Some(post));
      if IsValid(o, form) then
        var st1 := SetStepData(st, cur, ProcessStep(form));
        if DetermineStep(w, st1) == LastStep(w) then RenderDone(w, o, st1)
        else RenderNextStep(w, st1)
      else
        Outcome(Rendered(Render(w, st, form)), st)
  }

  /** The posted data asks to go back to a configured step. */
  predicate GoesBack(w: Wizard, data: Data) {
    PrevStepField in data && data[PrevStepField] in w.steps
  }

  /** `_process_request`: the dispatch rules. */
  function ProcessRequest(w: Wizard, o: Oracle, handlers: map<string, Handler>, run: CustomRunner,
                          req: Request, st: RunState): (out: Outcome)
    requires w.Valid() && DefaultKey in handlers
    ensures req.Get? ==> out == ProcessReset(w, st)
    ensures req.Post? && GoesBack(w, req.data) ==>
      out == RenderBackward(w, st, req.data[PrevStepField])
    ensures req.Post? && !GoesBack(w, req.data) && SelectHandler(handlers, st) == DefaultHandler ==>
      out == DefaultStep(w, o, st, req.data)
    ensures req.Post? && !GoesBack(w, req.data) && SelectHandler(handlers, st).Custom? ==>
      out == run(SelectHandler(handlers, st).name, req.data, st)
  {
    match req
    case Get => ProcessReset(w, st)
    case Post(data) =>
      if GoesBack(w, data) then RenderBackward(w, st, data[PrevStepField])
      else
        match SelectHandler(handlers, st)
        case DefaultHandler => DefaultStep(w, o, st, data)
        case Custom(name) => run(name, data, st)
  }

  /** `wizard`: complete the handler table, dispatch, and let the storage
      backend finish the response. */
  function WizardView(w: Wizard, o: Oracle, handlers: map<string, Handler>, run: CustomRunner,
                      req: Request, st: RunState): (out: Outcome)
    requires w.Valid()
    ensures out == ProcessRequest(w, o, WithDefault(handlers), run, req, st)
  {
    UpdateResponse(ProcessRequest(w, o, WithDefault(handlers), run, req, st))
  }

  /** A GET request always resets, whatever the handlers and the state. */
  lemma GetAlwaysResets(w: Wizard, o: Oracle, handlers: map<string, Handler>, run: CustomRunner, st: RunState)
    requires w.Valid()
    ensures WizardView(w, o, handlers, run, Get, st).state == Empty
    ensures DetermineStep(w, WizardView(w, o, handlers, run, Get, st).state) == FirstStep(w)
  {
  }

  /** With no handler configured, every POST that does not go back is
      handled by the default handler. */
  lemma DefaultHandlerWhenUnconfigured(w: Wizard, o: Oracle, run: CustomRunner, data: Data, st: RunState)
    requires w.Valid() && !GoesBack(w, data)
    ensures WizardView(w, o, map[], run, Post(data), st) == DefaultStep(w, o, st, data)
  {
  }

  /** Every request keeps the stored current step among the configured
      steps, provided custom handlers do. */
  lemma ViewPreservesConsistency(w: Wizard, o: Oracle, handlers: map<string, Handler>, run: CustomRunner,
                                 req: Request, st: RunState)
    requires w.Valid() && Consistent(w, st)
    requires forall n, d, s :: Consistent(w, s) ==> Consistent(w, run(n, d, s).state)
    ensures Consistent(w, WizardView(w, o, handlers, run, req, st).state)
  {
  }

  /** A valid submission on a step other than the last stores the data and
      moves the current step exactly one position forward. */
  lemma ValidSubmissionAdvances(w: Wizard, o: Oracle, handlers: map<string, Handler>, run: CustomRunner,
                                data: Data, st: RunState)
    requires w.Valid() && Consistent(w, st)
    requires !GoesBack(w, data)
    requires SelectHandler(WithDefault(handlers), st) == DefaultHandler
    requires DetermineStep(w, st) != LastStep(w)
    requires IsValid(o, GetForm(w, DetermineStep(w, st), Some(data)))
    ensures var out := WizardView(w, o, handlers, run, Post(data), st);
      && GetStepData(out.state, DetermineStep(w, st)) == Some(data)
      && out.state.current.Some?
      && out.state.current.value in w.steps
      && StepIndex(w, out.state.current.value) == StepIndex(w, DetermineStep(w, st)) + 1
  {
  }

  /** A valid submission on the last step either finishes the wizard or
      rewinds to an earlier step: the step just submitted revalidates. */
  lemma LastStepSubmission(w: Wizard, o: Oracle, st: RunState, data: Data)
    requires w.Valid() && Consistent(w, st)
    requires DetermineStep(w, st) == LastStep(w)
    requires IsValid(o, GetForm(w, LastStep(w), Some(data)))
    ensures var out := DefaultStep(w, o, st, data);
      out.response.Rendered? ==>
        && out.state.current.Some?
        && out.state.current.value in w.steps
        && StepIndex(w, out.state.current.value) < StepIndex(w, LastStep(w))
  {
    var st1 := SetStepData(st, LastStep(w), Some(data));
    assert DefaultStep(w, o, st, data) == RenderDone(w, o, st1);
    RewindSkipsValidStep(w, o, st1, LastStep(w));
  }

  /** Data stored by a valid submission revalidates: the cleaned data of the
      submitted step is the cleaned form of exactly that data. */
  lemma SubmissionRoundTrip(w: Wizard, o: Oracle, st: RunState, data: Data)
    requires w.Valid() && Consistent(w, st)
    requires IsValid(o, GetForm(w, DetermineStep(w, st), Some(data)))
    ensures GetCleanedDataForStep(w, o, DefaultStep(w, o, st, data).state, DetermineStep(w, st))
            == Some(o.clean(GetForm(w, DetermineStep(w, st), Some(data))))
  {
  }
}
