# Form wizard step sequencing, in Dafny

This project models the core of `django-formwizard`: the controller that
sequences a fixed, ordered list of form steps (`FormWizard` in
`formwizard/forms.py`) and the request dispatcher in front of it (`wizard`,
`_process_request` and `wizard_default_step` in `formwizard/views.py`).

- `common.dfy` (`Common`): `Option`, `Result`, step keys (`Key = string`),
  raw field data (`Data = map<string, string>`), `Distinct`.
- `decimal.dfy` (`Decimal`): the decimal numeral `unicode(i)` gives a bare
  form at list position `i`. The partner of this numeral is a parser with a
  round-trip lemma, which gives injectivity.
- `steps.dfy` (`Steps`): the configured wizard. It holds step keys and form
  classes as two parallel sequences, in place of the source's ordered
  dictionary. It also holds the initial-data and instance tables and whether
  a `done` handler exists. This module has construction from a form list and
  the adjacency queries: first, last, next, previous, index and count.
- `storage.dfy` (`Storage`): the per-user run state that a storage backend
  keeps. That is the current-step pointer, the stored data of each step and
  the extra context. The module also has reset and additive context update.
- `wizard.dfy` (`FormWizard`): form construction (prefix, initial data,
  instance for model-backed forms), `determine_step`, rendering context, the
  forward, backward and final transitions, and cleaned-data aggregation.
- `views.dfy` (`Views`): request dispatch and the default step handler. It
  also has lemmas composing them with the controller.

Form validation is an abstract `Oracle`. It has `accepts` and `clean` over
the built form. A form built without data is unbound and never valid, as in
Django. This is why `render_done` with nothing stored rewinds to the first
step (`formwizard/tests/formtests.py:132-138`). Custom step handlers are a
function parameter (`CustomRunner`). A response is a value: a rendered
`Page`, the forms handed to `done` (`Completed`), or an error.

Behaviour of the code that the model keeps as written:
- The constructor does not reject duplicate step names; its only check is
  that the form list is not empty (`formwizard/forms.py:35`). `Construct`
  takes distinct keys as a precondition instead of inventing an error.
- `determine_step` uses Python's `or`. A stored current step that is the
  empty string therefore counts as unset, and the first step is used.
  `DetermineStep` keeps this. A step named `""` can be jumped to with
  `form_prev_step`, but it is shown as the first step.
- `render_next_step` on the last step is modelled as the code has it. There
  is no next step, so the pointer is cleared and the current step's form is
  built with `get_step_data(None)` (`formwizard/forms.py:69-71`). The model
  assumes the storage backend returns `None` for that lookup, since step
  data is only ever stored under step names; the form is therefore unbound.

## Model

| member | source | states |
|---|---|---|
| `Decimal.ParseNatToString` | formwizard/forms.py:42 | the key a bare form gets reads back as its list position |
| `Decimal.NatToStringInjective` | formwizard/forms.py:42 | different list positions give different keys |
| `Steps.KeysFrom` | formwizard/forms.py:37-42 | keys follow list order: a pair contributes its name, a bare form its absolute position as a decimal string |
| `Steps.Construct` | formwizard/forms.py:32-48 | construction fails exactly when the form list is empty; otherwise the steps are the list's keys in order with their form classes, tables and `done` flag |
| `Steps.BareKeysDistinct` | formwizard/forms.py:37-42 | a list of bare forms never yields a duplicate key |
| `Steps.MixedEntriesExample` | formwizard/tests/formtests.py:49-50 | `[S1, S2, ('finish', S3)]` is keyed `'0', '1', 'finish'` |
| `Steps.IndexOf` | formwizard/forms.py:244-251 | the index is the position of the first occurrence of the key |
| `Steps.NumSteps` | formwizard/forms.py:253-258 | the step count equals the number of configured steps, and is at least one |
| `Steps.FirstStep` | formwizard/forms.py:204-208 | the first step is configured and has index 0 |
| `Steps.LastStep` | formwizard/forms.py:210-214 | the last step is configured and has index `num_steps - 1` |
| `Steps.NextStep` | formwizard/forms.py:216-228 | `None` exactly for the last step; otherwise a configured step whose index is one more |
| `Steps.PrevStep` | formwizard/forms.py:230-242 | `None` exactly for the first step; otherwise a configured step whose index is one less |
| `Steps.NextPrevInverse` | formwizard/forms.py:216-242 | `n` follows `k` exactly when `k` precedes `n` |
| `Steps.NextStepAt` | formwizard/forms.py:216-228 | the step at position `i + 1` is the next step of the one at position `i` |
| `Storage.SetStepData` | formwizard/views.py:21 | storing data for one step leaves the other steps' data, the pointer and the context alone |
| `Storage.Reset` | formwizard/forms.py:268-272 | after a reset there is no current step, no stored data and no extra context |
| `Storage.UpdateExtraContext` | formwizard/forms.py:287-294 | keys only in the old context are kept, the patch wins on conflicts, the step state is untouched |
| `Storage.ExtraContextReadBack` | formwizard/forms.py:281-285 | `get_extra_context` reads back the old context with the last patch laid over it, and an empty context after a reset |
| `Storage.UpdateExtraContextTwice` | formwizard/forms.py:287-294 | two updates equal one update with the second patch laid over the first |
| `Storage.UpdateExtraContextIdempotent` | formwizard/tests/formtests.py:84-94 | updating the context again with the same patch leaves it unchanged, as the test expects `{'key1': 'value1'}` to survive a second request passing it |
| `Storage.ExtraContextMergeExample` | formwizard/forms.py:287-294 | `{x:1}` + `{y:2}` gives `{x:1, y:2}`, then + `{x:3}` gives `{x:3, y:2}` |
| `FormWizard.DetermineStep` | formwizard/forms.py:197-202 | the stored step when set (and non-empty), else the first step; a configured step whenever the pointer is consistent |
| `FormWizard.ResetRestarts` | formwizard/forms.py:268-272 | after a reset the wizard is at its first step with no stored data for any step |
| `FormWizard.ProcessStepRebuildsForm` | formwizard/forms.py:145-167 | the data `process_step` stores (the form's raw data) rebuilds exactly the form it came from |
| `FormWizard.GetForm` | formwizard/forms.py:97-143 | the form has the step's class, the step name as prefix, the given data, the step's initial data or `{}`, and an instance exactly when the class is model-backed and one is configured |
| `FormWizard.PrefixesIsolateSteps` | formwizard/forms.py:97-108 | forms of different steps never share a prefix |
| `FormWizard.Render` | formwizard/forms.py:296-332 | the context names the current step, its 0- and 1-based index, the step count, and first/last/prev/next consistent with the order, with `None` exactly at the ends |
| `FormWizard.RenderNextStep` | formwizard/forms.py:64-72 | the page names the step `determine_step` resolves after the move; before the last step the pointer moves one index forward and the shown form carries that step's stored data; stored data is unchanged |
| `FormWizard.RenderBackward` | formwizard/forms.py:74-80 | the pointer becomes the requested step, which is shown with its stored data; stored data is unchanged |
| `FormWizard.RenderRevalidationFailure` | formwizard/forms.py:153-160 | the pointer rewinds to the failing step and its form is shown on the page of the step `determine_step` then resolves |
| `FormWizard.FirstInvalidFrom` | formwizard/forms.py:89-93 | revalidation finds the least invalid position, or proves every remaining step valid |
| `FormWizard.RewindSkipsValidStep` | formwizard/forms.py:89-93 | a step whose stored data revalidates is never the step `render_done` rewinds to |
| `FormWizard.RenderDone` | formwizard/forms.py:82-95 | an invalid step rewinds the pointer to the first invalid one; otherwise `done` gets every step's revalidated form in order, or fails with `NotImplemented` when absent; stored data is never changed |
| `FormWizard.RevalidationWithoutData` | formwizard/tests/formtests.py:132-138 | with nothing stored, finishing rewinds to the first step and shows it |
| `FormWizard.MergeStep` | formwizard/forms.py:176-182 | applying one more dictionary with `dict.update` keeps exactly the keys written so far, each with the value of its last writer |
| `FormWizard.MergeAll` | formwizard/forms.py:175-183 | merging dictionaries in order yields exactly their keys, each with the value of the last dictionary holding it |
| `FormWizard.GetAllCleanedData` | formwizard/forms.py:169-183 | the result is the in-order merge of the step contributions: an invalid step contributes nothing, a form set its list under `formset-<step>`, a record its fields; an entry is present iff some step writes it and holds the last writer's value |
| `FormWizard.GetCleanedDataForStep` | formwizard/forms.py:185-195 | `None` exactly for an unconfigured or invalid step, else that step's cleaned stored data |
| `Views.WithDefault` | formwizard/views.py:8-9 | `default` is always present and the caller's entries are unchanged |
| `Views.SelectHandler` | formwizard/views.py:39-46 | the handler of the raw stored current step when it has one, else the `default` handler |
| `Views.ProcessReset` | formwizard/views.py:32-33 | a reset clears the run state and shows the first step unbound |
| `Views.DefaultStep` | formwizard/views.py:16-28 | invalid data re-renders the step with the state unchanged; valid data is stored under the current step, then `render_done` runs iff it is the last step, else `render_next_step` |
| `Views.ProcessRequest` | formwizard/views.py:30-46 | GET resets; POST naming a configured previous step goes back; any other POST runs the selected handler |
| `Views.WizardView` | formwizard/views.py:4-14 | the response is the dispatch result over the handler table completed with `default`, passed through `update_response` |
| `Views.GetAlwaysResets` | formwizard/views.py:32-33 | a GET leaves the empty state and the wizard at its first step, whatever the handlers |
| `Views.DefaultHandlerWhenUnconfigured` | formwizard/views.py:8-9 | without configured handlers every POST that does not go back is handled by the default handler |
| `Views.ViewPreservesConsistency` | formwizard/views.py:30-46 | every request keeps the current-step pointer on a configured step, if custom handlers do |
| `Views.ValidSubmissionAdvances` | formwizard/views.py:21-26 | a valid submission on a non-last step stores it and advances the step index by exactly one |
| `Views.LastStepSubmission` | formwizard/views.py:23-24 | a valid submission on the last step either completes or rewinds to an earlier step |
| `Views.SubmissionRoundTrip` | formwizard/views.py:21 | data stored by a valid submission revalidates to the cleaned form of exactly that data |

## Left out

- Django form validation and cleaning: abstract `Oracle` functions of the built form. The fields and the validation engine are not modelled.
- The `ModelForm` subclass test becomes the `ModelBacked` tag on a form class.
- Template rendering (`render_template`, `get_template`, `render_to_response`): `Render` returns the context as a `Page` value.
- `get_callable` lookups of `done_view` and of step handlers: `done` is a flag, and handlers are a table of `Handler` values. Custom handlers run through a `CustomRunner` parameter.
- Storage backends (`get_storage`, session and cookie storage) and the `SessionFormWizard`/`CookieFormWizard` subclasses that choose them: one in-memory `RunState`. `update_response` is the identity.
- `__repr__`, `__call__`, `get_wizard_name` and the deprecated `done` that raises `NotImplementedError`: these are cosmetic or transitional. A missing `done` is the `NotImplemented` error.
- `process_reset` is called at `formwizard/views.py:33` but is defined in neither `formwizard/forms.py` nor `formwizard/views.py`. `ProcessReset` clears the run state and shows the first step unbound. `real_call`, used by the tests, is not part of this model.
- views.py calls `render_done(form)`, `render_next_step(wizard, form)` and `render(form)` with arities that do not match forms.py. The intended semantics are modelled.
- Sharing of the mutable default `step_views={}` between calls is a Python argument-default effect and is left out.
- The per-request binding of `request` and `storage` onto the wizard object is replaced by explicit parameters.
- Steps.Construct: duplicate step names are excluded by a precondition instead of modelled. The constructor does not reject them, and the ordered dictionary's overwrite behaviour is outside this model.
- FormWizard.GetForm: step names are assumed to be ASCII. Under Python 2, `unicode(form[0])` (`formwizard/forms.py:40`) fails for a non-ASCII byte-string name, and `str(step)` in `get_form_prefix` (`formwizard/forms.py:108`) raises `UnicodeEncodeError` for a non-ASCII unicode name. The model builds such a step's form with the name as prefix instead of failing.
- Raw data is a `map<string, string>`: Django's multi-valued `QueryDict` is flattened to one value per field, and extra-context and cleaned values, which can be any Python object, are narrowed to strings. `Request` distinguishes GET from every other method (`formwizard/views.py:32`), and all other methods are `Post`.
