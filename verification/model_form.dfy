/**
  The "New Model" wizard: a six-step counter with guarded Next and Back, a footer whose
  buttons follow the step, and a submit that validates the values against the record schema
  and offers the record as a download only on the last step.
*/
module ModelForm {
  import opened Wrappers
  import opened Schema
  import ToolBar

  const FirstStep: int := 1
  const TotalSteps: int := 6

  predicate InRange(step: int) {
    FirstStep <= step <= TotalSteps
  }

  // ---------------------------------------------------------------------------
  // Navigation

  /** `handleContinue`: one step forward, except on the last step. */
  function HandleContinue(step: int): (next: int)
    ensures step <= next <= step + 1
    ensures next != step <==> step < TotalSteps
    ensures InRange(step) ==> InRange(next)
  {
    if step < TotalSteps then step + 1 else step
  }

  /** `handleBack`: one step back, except on the first step. */
  function HandleBack(step: int): (prev: int)
    ensures step - 1 <= prev <= step
    ensures prev != step <==> step > FirstStep
    ensures InRange(step) ==> InRange(prev)
  {
    if step > FirstStep then step - 1 else step
  }

  /** Back undoes a Next that moved, and Next undoes a Back that moved. */
  lemma NavigationUndoes(step: int)
    requires InRange(step)
    ensures step < TotalSteps ==> HandleBack(HandleContinue(step)) == step
    ensures step > FirstStep ==> HandleContinue(HandleBack(step)) == step
  {
  }

  datatype Nav = Continue | Back

  /** The step after a run of Next and Back clicks. */
  function Run(step: int, navs: seq<Nav>): int
    decreases |navs|
  {
    if navs == [] then step
    else Run(if navs[0] == Continue then HandleContinue(step) else HandleBack(step), navs[1..])
  }

  function Count(navs: seq<Nav>, n: Nav): nat
    decreases |navs|
  {
    if navs == [] then 0 else (if navs[0] == n then 1 else 0) + Count(navs[1..], n)
  }

  /** No run of clicks leaves the steps 1 to 6. */
  lemma {:induction false} RunStaysInRange(step: int, navs: seq<Nav>)
    requires InRange(step)
    ensures InRange(Run(step, navs))
    decreases |navs|
  {
    if navs != [] {
      RunStaysInRange(if navs[0] == Continue then HandleContinue(step) else HandleBack(step), navs[1..]);
    }
  }

  /** Each Next moves at most one step forward, so the step never exceeds the start plus the Nexts. */
  lemma {:induction false} RunAdvancesAtMostPerContinue(step: int, navs: seq<Nav>)
    ensures Run(step, navs) <= step + Count(navs, Continue)
    decreases |navs|
  {
    if navs != [] {
      RunAdvancesAtMostPerContinue(if navs[0] == Continue then HandleContinue(step) else HandleBack(step), navs[1..]);
    }
  }

  /** From the opening step the last step takes at least five Nexts, and five are enough. */
  lemma LastStepNeedsFiveContinues(navs: seq<Nav>)
    ensures Run(FirstStep, navs) == TotalSteps ==> Count(navs, Continue) >= TotalSteps - FirstStep
    ensures Run(FirstStep, [Continue, Continue, Continue, Continue, Continue]) == TotalSteps
  {
    RunAdvancesAtMostPerContinue(FirstStep, navs);
  }

  // ---------------------------------------------------------------------------
  // Footer

  datatype LeftButton = BackButton | CancelButton
  datatype RightButton = NextButton | DownloadButton

  /** The footer offers Back exactly when Back would move, and Next exactly when Next would move. */
  function Footer(step: int): (buttons: (LeftButton, RightButton))
    ensures buttons.0 == BackButton <==> HandleBack(step) != step
    ensures buttons.1 == NextButton <==> HandleContinue(step) != step
  {
    (if step > 1 then BackButton else CancelButton,
     if step < TotalSteps then NextButton else DownloadButton)
  }

  // ---------------------------------------------------------------------------
  // Values and submission

  /**
    What the form holds. Cost fields are undefined until typed in (`None`); the modality lists
    live under a nested `modalities` object.
  */
  datatype FormValues = FormValues(
    id: string,
    name: string,
    providerId: string,
    provider: string,
    capabilities: seq<Capability>,
    inputModalities: seq<Modality>,
    outputModalities: seq<Modality>,
    contextLimit: real,
    outputLimit: real,
    costInput: Option<real>,
    costOutput: Option<real>,
    cacheRead: Option<real>,
    cacheWrite: Option<real>,
    temperature: bool,
    attachment: bool)

  /** `defaultValues` */
  function DefaultValues(): FormValues {
    FormValues("", "", "", "", [], [], [Text], 0.0, 0.0, None, None, None, None, false, false)
  }

  /** The record fields the form edits directly, with the given cost. */
  function Edited(v: FormValues, cost: Cost): Model {
    Model(v.id, v.name, v.provider, v.providerId, v.capabilities, v.attachment, v.temperature,
          None, None, None, cost, Limit(v.contextLimit, v.outputLimit))
  }

  /** The `cost` object as entered: a field left empty is undefined, so its key is absent. */
  function FormCostJson(v: FormValues): Json {
    JObject(Put(Put(Put(Put(map[], "input", v.costInput, n => JNumber(n)),
                        "output", v.costOutput, n => JNumber(n)),
                    "cache_read", v.cacheRead, n => JNumber(n)),
                "cache_write", v.cacheWrite, n => JNumber(n)))
  }

  function ModalitiesObject(v: FormValues): Json {
    JObject(map["input" := ModalitiesJson(v.inputModalities), "output" := ModalitiesJson(v.outputModalities)])
  }

  /**
    The values as the schema resolver sees them: the edited fields, the cost as entered, and
    the modalities under the `modalities` key. (The cost written by `Edited` is replaced.)
  */
  function FormJson(v: FormValues): Json {
    JObject(ToJson(Edited(v, Cost(0.0, 0.0, None, None))).fields
              ["cost" := FormCostJson(v)]
              ["modalities" := ModalitiesObject(v)])
  }

  /** The file offered for download. */
  datatype Download = Download(fileName: string, record: Model)

  /** `onSubmit`: nothing unless on the last step; there, the record saved as `{id}.json`. */
  function OnSubmit(step: int, m: Model): (d: Option<Download>)
    ensures d.Some? <==> step == TotalSteps
    ensures d.Some? ==> d.value.record == m
    ensures d.Some? ==> |d.value.fileName| == |m.id| + 5 && d.value.fileName[..|m.id|] == m.id
    ensures d.Some? ==> d.value.fileName[|m.id|..] == ".json"
  {
    if step != TotalSteps then None
    else Some(Download(m.id + ".json", m))
  }

  /** The submit button: the schema resolver validates first and calls `onSubmit` only on success. */
  function HandleSubmit(step: int, v: FormValues): Option<Download> {
    match SafeParse(FormJson(v))
    case None => None
    case Some(m) => OnSubmit(step, m)
  }

  /** The cost as entered passes the schema exactly when both required prices are filled in. */
  lemma FormCostParses(v: FormValues)
    ensures ParseCost(FormCostJson(v))
         == if v.costInput.Some? && v.costOutput.Some?
            then Some(Cost(v.costInput.value, v.costOutput.value, v.cacheRead, v.cacheWrite))
            else None
  {
    var c := FormCostJson(v).fields;
    assert "input" in c <==> v.costInput.Some?;
    assert "output" in c <==> v.costOutput.Some?;
    assert "cache_read" in c <==> v.cacheRead.Some?;
    assert "cache_write" in c <==> v.cacheWrite.Some?;
    assert v.costInput.Some? ==> c["input"] == JNumber(v.costInput.value);
    assert v.costOutput.Some? ==> c["output"] == JNumber(v.costOutput.value);
    assert v.cacheRead.Some? ==> c["cache_read"] == JNumber(v.cacheRead.value);
    assert v.cacheWrite.Some? ==> c["cache_write"] == JNumber(v.cacheWrite.value);
  }

  /** The record the resolver hands to `onSubmit`, when both required costs are filled in. */
  lemma ResolvedValues(v: FormValues)
    ensures SafeParse(FormJson(v))
         == if v.costInput.Some? && v.costOutput.Some?
            then Some(Edited(v, Cost(v.costInput.value, v.costOutput.value, v.cacheRead, v.cacheWrite)))
            else None
  {
    var base := Edited(v, Cost(0.0, 0.0, None, None));
    var o := ToJson(base).fields;
    ParseToJson(base);
    FormCostParses(v);
    ParseWithCost(o, FormCostJson(v));
    ParseIgnoresUnknownKey(o["cost" := FormCostJson(v)], "modalities", ModalitiesObject(v));
  }

  /**
    A download is offered exactly on the last step with both required costs filled in; it is
    named after the raw id and carries the edited fields, but no modalities: the schema knows
    no `modalities` key, so the resolver drops the lists the wizard collected.
  */
  lemma SubmitDownloadsIff(step: int, v: FormValues)
    ensures HandleSubmit(step, v).Some? <==> step == TotalSteps && v.costInput.Some? && v.costOutput.Some?
    ensures HandleSubmit(step, v).Some? ==>
      && HandleSubmit(step, v).value.fileName == v.id + ".json"
      && HandleSubmit(step, v).value.record
         == Edited(v, Cost(v.costInput.value, v.costOutput.value, v.cacheRead, v.cacheWrite))
      && HandleSubmit(step, v).value.record.inputModalities.None?
      && HandleSubmit(step, v).value.record.outputModalities.None?
  {
    ResolvedValues(v);
  }

  /** The untouched form cannot be downloaded: its costs are undefined. */
  lemma DefaultsAreNotSubmittable(step: int)
    ensures HandleSubmit(step, DefaultValues()).None?
    ensures DefaultValues().capabilities == [] && DefaultValues().inputModalities == []
    ensures DefaultValues().outputModalities == [Text]
    ensures DefaultValues().contextLimit == 0.0 && DefaultValues().outputLimit == 0.0
    ensures !DefaultValues().temperature && !DefaultValues().attachment
  {
    SubmitDownloadsIff(step, DefaultValues());
  }

  /** The downloaded file name matches the tool bar's link name exactly when the id has no `:`. */
  lemma DownloadNameVersusLinkName(id: string)
    ensures id + ".json" == ToolBar.FormatIdForUrl(Some(id)) + ".json" <==> ':' !in id
  {
    ToolBar.FormatFixedPoints(id);
    var f := ToolBar.FormatIdForUrl(Some(id));
    if id + ".json" == f + ".json" {
      assert id == (id + ".json")[..|id|] == (f + ".json")[..|f|] == f;
    }
  }
}
