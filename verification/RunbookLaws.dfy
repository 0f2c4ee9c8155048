/** How the dictionary forms are read (io_iii/core/task_spec.py, io_iii/core/runbook.py). */
module RunbookLaws {
  import opened Values
  import opened Runbooks

  /** A text as the readers take it: a string that is not blank, without the white space around it. */
  predicate ReadsAs(v: Value, text: string) {
    v.Str? && text != "" && text == Strip(v.text)
  }

  predicate IsText(v: Value) {
    v.Str? && Strip(v.text) != ""
  }

  /** A specification is read exactly from a dictionary with a mode and a prompt that are not blank, a list
      of such texts or nothing for capabilities, and a dictionary or nothing for metadata, each under its
      own name; a missing identifier is replaced by the one drawn. */
  lemma SpecIsReadIff(data: Value, newId: Value)
    ensures var r := TaskSpec.FromDict(data, newId);
            && (r.Ok? <==>
                  && data.Dict? && IsText(data.Get("mode")) && IsText(data.Get("prompt"))
                  && (data.Get("capabilities") != Null ==>
                        data.Get("capabilities").List? && forall c | c in data.Get("capabilities").items :: IsText(c))
                  && (data.Get("metadata").Null? || data.Get("metadata").Dict?))
            && (r.Ok? ==> SpecReads(r.value, data, newId))
  {
    hide Strip;
    if data.Dict? && data.Get("capabilities").List? {
      var items := data.Get("capabilities").items;
      assert forall i | 0 <= i < |items| :: items[i] in items;
    }
  }

  ghost predicate SpecReads(t: TaskSpec, data: Value, newId: Value)
    requires data.Dict?
  {
    var id, capabilities := data.Get("task_spec_id"), data.Get("capabilities");
    && t.taskSpecId == (if id.Truthy() then id else newId)
    && ReadsAs(data.Get("mode"), t.mode) && ReadsAs(data.Get("prompt"), t.prompt)
    && t.metadata == (if data.Get("metadata").Dict? then data.Get("metadata").entries else map[])
    && if capabilities == Null then t.capabilities == []
       else
         && capabilities.List? && |t.capabilities| == |capabilities.items|
         && forall i | 0 <= i < |t.capabilities| :: ReadsAs(capabilities.items[i], t.capabilities[i])
  }

  /** A runbook is read exactly from a list of one to twenty readable steps, each as its own step. */
  lemma RunbookIsReadIff(data: Value, newId: Value, newStepIds: nat -> Value)
    ensures var r := Runbook.FromDict(data, newId, newStepIds);
            && (r.Ok? <==>
                  && data.Dict? && data.Get("steps").List? && 1 <= |data.Get("steps").items| <= 20
                  && forall i | 0 <= i < |data.Get("steps").items| ::
                       TaskSpec.FromDict(data.Get("steps").items[i], newStepIds(i)).Ok?)
            && (r.Ok? ==>
                  && r.value.runbookId ==
                       (if data.Get("runbook_id").Truthy() then data.Get("runbook_id") else newId)
                  && |r.value.steps| == |data.Get("steps").items|
                  && forall i | 0 <= i < |r.value.steps| ::
                       TaskSpec.FromDict(data.Get("steps").items[i], newStepIds(i)) == Ok(r.value.steps[i]))
  {
    hide TaskSpec.FromDict;
  }

  /** The same for a conditional runbook. */
  lemma ConditionalIsReadIff(data: Value, newId: Value, newStepIds: nat -> Value)
    ensures var r := ConditionalRunbook.FromDict(data, newId, newStepIds);
            && (r.Ok? <==>
                  && data.Dict? && data.Get("steps").List? && 1 <= |data.Get("steps").items| <= 20
                  && forall i | 0 <= i < |data.Get("steps").items| ::
                       RunbookStep.FromDict(data.Get("steps").items[i], newStepIds(i)).Ok?)
            && (r.Ok? ==>
                  && r.value.runbookId ==
                       (if data.Get("runbook_id").Truthy() then data.Get("runbook_id") else newId)
                  && |r.value.steps| == |data.Get("steps").items|
                  && forall i | 0 <= i < |r.value.steps| ::
                       RunbookStep.FromDict(data.Get("steps").items[i], newStepIds(i)) == Ok(r.value.steps[i]))
  {
    hide RunbookStep.FromDict;
  }

  /** A step is a readable specification and, under its own name, a readable condition or none. */
  lemma StepIsReadIff(data: Value, newId: Value)
    ensures var r := RunbookStep.FromDict(data, newId);
            && (r.Ok? <==>
                  && data.Dict? && TaskSpec.FromDict(data.Get("task_spec"), newId).Ok?
                  && (data.Get("when") == Null || WhenCondition.FromDict(data.Get("when")).Ok?))
            && (r.Ok? ==>
                  && TaskSpec.FromDict(data.Get("task_spec"), newId) == Ok(r.value.taskSpec)
                  && (r.value.when.None? <==> data.Get("when") == Null)
                  && (r.value.when.Some? ==> WhenCondition.FromDict(data.Get("when")) == Ok(r.value.when.value)))
  {
    hide TaskSpec.Create, WhenCondition.FromDict;
  }

  /** A condition names one of the two context fields, a text, and eq, neq or, by default, eq. */
  lemma ConditionIsReadIff(data: Value)
    ensures var r := WhenCondition.FromDict(data);
            && (r.Ok? <==>
                  && data.Dict?
                  && data.GetOr("key", Str("")) in {Str("session_mode"), Str("persona_mode")}
                  && data.GetOr("value", Str("")).Str?
                  && data.GetOr("op", Str("eq")) in {Str("eq"), Str("neq")})
            && (r.Ok? ==>
                  && Str(r.value.key) == data.GetOr("key", Str(""))
                  && Str(r.value.value) == data.GetOr("value", Str(""))
                  && Str(r.value.op) == data.GetOr("op", Str("eq")))
  {
  }

  /** What Python calls true: everything but nothing, zero and the empty. */
  lemma TruthyIff(v: Value)
    ensures v.Truthy() <==>
            v !in {Null, Bool(false), Int(0), Float(0.0), Str(""), List([]), Tuple([]), PySet([]), Dict(map[])}
  {
  }
}
