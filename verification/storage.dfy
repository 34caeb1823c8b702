/** The per-user run state a storage backend keeps for one wizard: the
    current step pointer, the raw data stored per step and the extra
    context. One in-memory record stands for every backend. */
module Storage {
  import opened Common

  datatype RunState = RunState(
    current: Option<Key>,
    stepData: map<Key, Option<Data>>,
    extra: Data)

  /** The state of a wizard nobody has interacted with, and the state
      `reset` leaves behind. */
  const Empty: RunState := RunState(None, map[], map[])

  /** `get_step_data`: the stored data of step `k`, or `None` when the step
      was never submitted. */
  function GetStepData(st: RunState, k: Key): Option<Data> {
    if k in st.stepData then st.stepData[k] else None
  }

  function SetStepData(st: RunState, k: Key, d: Option<Data>): (st': RunState)
    ensures GetStepData(st', k) == d
    ensures forall j :: j != k ==> GetStepData(st', j) == GetStepData(st, j)
    ensures st'.current == st.current && st'.extra == st.extra
  {
    st.(stepData := st.stepData[k := d])
  }

  function SetCurrentStep(st: RunState, k: Option<Key>): (st': RunState)
    ensures st'.current == k
    ensures st'.stepData == st.stepData && st'.extra == st.extra
  {
    st.(current := k)
  }

  /** `reset_wizard`: every part of the run state is cleared. */
  function Reset(st: RunState): (st': RunState)
    ensures st'.current.None? && st'.extra == map[]
    ensures forall k :: GetStepData(st', k).None?
  {
    Empty
  }

  function GetExtraContext(st: RunState): Data {
    st.extra
  }

  /** `update_extra_context`: the stored context updated with `patch`.
      Entries not named by `patch` are kept, `patch` wins on conflicts. */
  function UpdateExtraContext(st: RunState, patch: Data): (st': RunState)
    ensures st'.extra.Keys == st.extra.Keys + patch.Keys
    ensures forall n :: n in patch ==> st'.extra[n] == patch[n]
    ensures forall n :: n in st.extra && n !in patch ==> st'.extra[n] == st.extra[n]
    ensures st'.current == st.current && st'.stepData == st.stepData
  {
    st.(extra := GetExtraContext(st) + patch)
  }

  /** Two successive updates amount to one update with the second patch
      laid over the first. */
  lemma UpdateExtraContextTwice(st: RunState, a: Data, b: Data)
    ensures UpdateExtraContext(UpdateExtraContext(st, a), b) == UpdateExtraContext(st, a + b)
  {
  }

  /** `get_extra_context` reads back what the last update wrote: the old
      context with the patch laid over it; after a reset it is empty. */
  lemma ExtraContextReadBack(st: RunState, patch: Data)
    ensures GetExtraContext(UpdateExtraContext(st, patch)) == GetExtraContext(st) + patch
    ensures GetExtraContext(Reset(st)) == map[]
  {
  }

  /** Repeating an update changes nothing. */
  lemma UpdateExtraContextIdempotent(st: RunState, patch: Data)
    ensures UpdateExtraContext(UpdateExtraContext(st, patch), patch) == UpdateExtraContext(st, patch)
  {
  }

  /** {x: 1} updated with {y: 2} is {x: 1, y: 2}; updated again with
      {x: 3} it is {x: 3, y: 2}. */
  lemma ExtraContextMergeExample(st: RunState)
    requires st.extra == map["x" := "1"]
    ensures UpdateExtraContext(st, map["y" := "2"]).extra == map["x" := "1", "y" := "2"]
    ensures UpdateExtraContext(UpdateExtraContext(st, map["y" := "2"]), map["x" := "3"]).extra
            == map["x" := "3", "y" := "2"]
  {
  }

  /** `update_response`: the backend may attach state to the outgoing
      response; the in-memory backend passes it through unchanged. */
  function UpdateResponse<R>(response: R): R {
    response
  }
}
