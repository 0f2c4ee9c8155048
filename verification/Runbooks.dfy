/** Task specifications and runbooks with their dictionary forms
    (io_iii/core/task_spec.py, io_iii/core/runbook.py). */
module Runbooks {
  import opened Values

  // ---- str.strip -------------------------------------------------------------

  /** `str.isspace` on one character. */
  predicate IsSpace(c: char) {
    || '\t' <= c <= '\r'
    || '\U{1c}' <= c <= ' '
    || c == '\U{85}' || c == '\U{a0}' || c == '\U{1680}'
    || '\U{2000}' <= c <= '\U{200a}'
    || c == '\U{2028}' || c == '\U{2029}' || c == '\U{202f}' || c == '\U{205f}' || c == '\U{3000}'
  }

  function TrimLeft(s: string): string {
    if s != "" && IsSpace(s[0]) then TrimLeft(s[1..]) else s
  }

  function TrimRight(s: string): string {
    if s != "" && IsSpace(s[|s| - 1]) then TrimRight(s[..|s| - 1]) else s
  }

  function Strip(s: string): string {
    TrimRight(TrimLeft(s))
  }

  predicate Blank(s: string) {
    forall i | 0 <= i < |s| :: IsSpace(s[i])
  }

  /** No white space at either end. */
  predicate Trimmed(s: string) {
    s != "" ==> !IsSpace(s[0]) && !IsSpace(s[|s| - 1])
  }

  lemma {:induction false} TrimLeftSplits(s: string) returns (l: string)
    ensures s == l + TrimLeft(s) && Blank(l)
    ensures TrimLeft(s) != "" ==> !IsSpace(TrimLeft(s)[0])
  {
    l := "";
    if s != "" && IsSpace(s[0]) {
      l := TrimLeftSplits(s[1..]);
      l := [s[0]] + l;
    }
  }

  lemma {:induction false} TrimRightSplits(s: string) returns (r: string)
    ensures s == TrimRight(s) + r && Blank(r)
    ensures TrimRight(s) != "" ==> !IsSpace(TrimRight(s)[|TrimRight(s)| - 1])
  {
    r := "";
    if s != "" && IsSpace(s[|s| - 1]) {
      r := TrimRightSplits(s[..|s| - 1]);
      r := r + [s[|s| - 1]];
    }
  }

  /** Stripping removes exactly the white space around the text. */
  lemma StripSplits(s: string) returns (l: string, r: string)
    ensures s == l + Strip(s) + r && Blank(l) && Blank(r) && Trimmed(Strip(s))
  {
    l := TrimLeftSplits(s);
    r := TrimRightSplits(TrimLeft(s));
  }

  lemma StripFixesTrimmed(s: string)
    ensures Strip(s) == s <==> Trimmed(s)
  {
    var l, r := StripSplits(s);
  }

  // ---- Field checks ----------------------------------------------------------

  /** `_ensure_non_empty_string`. */
  function EnsureNonEmptyString(v: Value): Result<string> {
    if !v.Str? || Strip(v.text) == "" then Err(ValueError) else Ok(Strip(v.text))
  }

  ghost predicate NonBlankStrings(xs: seq<Value>) {
    forall i | 0 <= i < |xs| :: xs[i].Str? && Strip(xs[i].text) != ""
  }

  function StripAll(xs: seq<Value>): (r: Result<seq<string>>)
    ensures r.Ok? <==> NonBlankStrings(xs)
    ensures r.Ok? ==> |r.value| == |xs| && forall i | 0 <= i < |xs| :: r.value[i] == Strip(xs[i].text)
    ensures r.Err? ==> r.fault == ValueError
  {
    if xs == [] then Ok([])
    else
      var last := xs[|xs| - 1];
      match StripAll(xs[..|xs| - 1])
      case Err(f) => Err(f)
      case Ok(cleaned) =>
        if last.Str? && Strip(last.text) != "" then Ok(cleaned + [Strip(last.text)]) else Err(ValueError)
  }

  /** The value `_ensure_string_list` computes. */
  function StringList(v: Value): Result<seq<string>> {
    match v
    case Null => Ok([])
    case List(xs) => StripAll(xs)
    case _ => Err(ValueError)
  }

  /** `_ensure_string_list`. */
  method EnsureStringList(v: Value) returns (r: Result<seq<string>>)
    ensures r == StringList(v)
  {
    if v.Null? {
      return Ok([]);
    }
    if !v.List? {
      return Err(ValueError);
    }
    var cleaned: seq<string> := [];
    for i := 0 to |v.items|
      invariant StripAll(v.items[..i]) == Ok(cleaned)
    {
      assert v.items[..i + 1][..i] == v.items[..i];
      var item := v.items[i];
      if !item.Str? || Strip(item.text) == "" {
        assert !NonBlankStrings(v.items);
        return Err(ValueError);
      }
      cleaned := cleaned + [Strip(item.text)];
    }
    assert v.items[..|v.items|] == v.items;
    r := Ok(cleaned);
  }

  /** `_ensure_mapping`. */
  function EnsureMapping(v: Value): Result<map<Key, Value>> {
    match v
    case Null => Ok(map[])
    case Dict(m) => Ok(m)
    case _ => Err(ValueError)
  }

  // ---- TaskSpec ----------------------------------------------------------------

  /** The identifier is untyped, as `from_dict` passes on whatever the document holds. */
  datatype TaskSpec = TaskSpec(
    taskSpecId: Value,
    mode: string,
    prompt: string,
    capabilities: seq<string>,
    metadata: map<Key, Value>)
  {
    /** `TaskSpec.create`; `newId` is the identifier drawn when none is given. */
    static function Create(id: Value, mode: Value, prompt: Value, capabilities: Value, metadata: Value,
                           newId: Value): Result<TaskSpec>
    {
      match (EnsureNonEmptyString(mode), EnsureNonEmptyString(prompt), StringList(capabilities),
             EnsureMapping(metadata))
      case (Ok(m), Ok(p), Ok(cs), Ok(md)) => Ok(TaskSpec(id.OrElse(newId), m, p, cs, md))
      case _ => Err(ValueError)
    }

    static function FromDict(data: Value, newId: Value): Result<TaskSpec> {
      if !data.Dict? then Err(ValueError)
      else Create(data.Get("task_spec_id"), data.Get("mode"), data.Get("prompt"),
                  data.Get("capabilities"), data.Get("metadata"), newId)
    }

    function ToDict(): Value {
      Dict(map[
        Name("task_spec_id") := taskSpecId,
        Name("mode") := Str(mode),
        Name("prompt") := Str(prompt),
        Name("capabilities") := List(Texts(capabilities)),
        Name("metadata") := Dict(metadata)])
    }

    /** The specifications `Create` can build. */
    predicate WellFormed() {
      && taskSpecId.Truthy()
      && mode != "" && Trimmed(mode)
      && prompt != "" && Trimmed(prompt)
      && forall i | 0 <= i < |capabilities| :: capabilities[i] != "" && Trimmed(capabilities[i])
    }
  }

  lemma EnsuredIsTrimmed(v: Value)
    ensures EnsureNonEmptyString(v).Ok? ==>
              EnsureNonEmptyString(v).value != "" && Trimmed(EnsureNonEmptyString(v).value)
  {
    if v.Str? {
      var l, r := StripSplits(v.text);
    }
  }

  lemma CreateIsWellFormed(id: Value, mode: Value, prompt: Value, capabilities: Value, metadata: Value, newId: Value)
    requires newId.Truthy()
    ensures var r := TaskSpec.Create(id, mode, prompt, capabilities, metadata, newId);
            r.Ok? ==> r.value.WellFormed()
  {
    EnsuredIsTrimmed(mode);
    EnsuredIsTrimmed(prompt);
    if capabilities.List? && StripAll(capabilities.items).Ok? {
      forall i | 0 <= i < |capabilities.items|
        ensures Trimmed(Strip(capabilities.items[i].text))
      {
        var l, r := StripSplits(capabilities.items[i].text);
      }
    }
  }

  function Texts(ss: seq<string>): seq<Value> {
    seq(|ss|, i requires 0 <= i < |ss| => Str(ss[i]))
  }

  lemma ToDictFields(t: TaskSpec, newId: Value)
    ensures TaskSpec.FromDict(t.ToDict(), newId) ==
            TaskSpec.Create(t.taskSpecId, Str(t.mode), Str(t.prompt), List(Texts(t.capabilities)), Dict(t.metadata),
                            newId)
  {
  }

  lemma StripAllTexts(ss: seq<string>)
    ensures StripAll(Texts(ss)) == Ok(ss) <==> forall i | 0 <= i < |ss| :: ss[i] != "" && Trimmed(ss[i])
  {
    forall i | 0 <= i < |ss|
      ensures Strip(Texts(ss)[i].text) == ss[i] <==> Trimmed(ss[i])
    {
      StripFixesTrimmed(ss[i]);
    }
    if forall i | 0 <= i < |ss| :: ss[i] != "" && Trimmed(ss[i]) {
      assert StripAll(Texts(ss)).value == ss;
    }
  }

  /** A specification survives its dictionary form exactly when it is one `Create` can build. */
  lemma TaskSpecRoundTrip(t: TaskSpec, newId: Value)
    requires newId.Truthy()
    ensures TaskSpec.FromDict(t.ToDict(), newId) == Ok(t) <==> t.WellFormed()
  {
    ToDictFields(t, newId);
    StripFixesTrimmed(t.mode);
    StripFixesTrimmed(t.prompt);
    StripAllTexts(t.capabilities);
  }

  // ---- Runbook -----------------------------------------------------------------

  const RUNBOOK_MAX_STEPS := 20

  datatype Runbook = Runbook(runbookId: Value, steps: seq<TaskSpec>) {
    static function Create(steps: seq<TaskSpec>, id: Value, newId: Value): Result<Runbook> {
      if steps == [] || |steps| > RUNBOOK_MAX_STEPS then Err(ValueError)
      else Ok(Runbook(id.OrElse(newId), steps))
    }

    /** `newStepIds(i)` is drawn for step i when the document gives it no identifier. */
    static function FromDict(data: Value, newId: Value, newStepIds: nat -> Value): Result<Runbook> {
      if !data.Dict? || !data.Get("steps").List? then Err(ValueError)
      else match SpecsFromDicts(data.Get("steps").items, newStepIds)
        case Err(f) => Err(f)
        case Ok(steps) => Create(steps, data.Get("runbook_id"), newId)
    }

    function ToDict(): Value {
      Dict(map[
        Name("runbook_id") := runbookId,
        Name("steps") := List(seq(|steps|, i requires 0 <= i < |steps| => steps[i].ToDict()))])
    }

    /** The runbooks `Create` can build from specifications that `TaskSpec.Create` can build. */
    predicate WellFormed() {
      && runbookId.Truthy()
      && 1 <= |steps| <= RUNBOOK_MAX_STEPS
      && forall i | 0 <= i < |steps| :: steps[i].WellFormed()
    }
  }

  /** Parse every item with its position, or fail as the first one that fails. */
  function ParseAll<T>(items: seq<Value>, parse: (Value, nat) -> Result<T>): (r: Result<seq<T>>)
    ensures r.Ok? ==> |r.value| == |items|
    ensures r.Ok? ==> forall i | 0 <= i < |items| :: parse(items[i], i) == Ok(r.value[i])
    ensures r.Ok? <==> forall i | 0 <= i < |items| :: parse(items[i], i).Ok?
  {
    if items == [] then Ok([])
    else
      var n := |items| - 1;
      match ParseAll(items[..n], parse)
      case Err(f) => Err(f)
      case Ok(front) =>
        match parse(items[n], n)
        case Err(f) => Err(f)
        case Ok(last) => Ok(front + [last])
  }

  function SpecsFromDicts(items: seq<Value>, newStepIds: nat -> Value): Result<seq<TaskSpec>> {
    ParseAll(items, (item: Value, i: nat) => TaskSpec.FromDict(item, newStepIds(i)))
  }

  ghost predicate Fresh(newId: Value, newStepIds: nat -> Value) {
    newId.Truthy() && forall i :: newStepIds(i).Truthy()
  }

  lemma FromDictIsWellFormed(data: Value, newId: Value, newStepIds: nat -> Value)
    requires Fresh(newId, newStepIds)
    ensures var r := Runbook.FromDict(data, newId, newStepIds);
            r.Ok? ==> r.value.WellFormed()
  {
    var r := Runbook.FromDict(data, newId, newStepIds);
    if r.Ok? {
      var items := data.Get("steps").items;
      forall i | 0 <= i < |items|
        ensures r.value.steps[i].WellFormed()
      {
        var d := items[i];
        CreateIsWellFormed(d.Get("task_spec_id"), d.Get("mode"), d.Get("prompt"),
                           d.Get("capabilities"), d.Get("metadata"), newStepIds(i));
      }
    }
  }

  /** Reading back a runbook's dictionary form gives the same runbook, exactly for the well-formed ones. */
  lemma RunbookRoundTrip(rb: Runbook, newId: Value, newStepIds: nat -> Value)
    requires Fresh(newId, newStepIds)
    ensures Runbook.FromDict(rb.ToDict(), newId, newStepIds) == Ok(rb) <==> rb.WellFormed()
  {
    var items := rb.ToDict().Get("steps").items;
    if rb.WellFormed() {
      forall i | 0 <= i < |items|
        ensures TaskSpec.FromDict(items[i], newStepIds(i)) == Ok(rb.steps[i])
      {
        TaskSpecRoundTrip(rb.steps[i], newStepIds(i));
      }
      assert SpecsFromDicts(items, newStepIds).value == rb.steps;
    }
    FromDictIsWellFormed(rb.ToDict(), newId, newStepIds);
  }

  // ---- Conditional runbooks ------------------------------------------------------

  const WHEN_CONDITION_ALLOWED_KEYS := {"session_mode", "persona_mode"}
  const WHEN_CONDITION_ALLOWED_OPS := {"eq", "neq"}

  datatype WhenCondition = WhenCondition(key: string, value: string, op: string) {
    static function Create(key: Value, value: Value, op: Value): Result<WhenCondition> {
      // A list or dictionary cannot be looked up in a frozenset.
      if key.List? || key.Dict? then Err(TypeError)
      else if !key.Str? || key.text !in WHEN_CONDITION_ALLOWED_KEYS then Err(ValueError)
      else if op.List? || op.Dict? then Err(TypeError)
      else if !op.Str? || op.text !in WHEN_CONDITION_ALLOWED_OPS then Err(ValueError)
      else if !value.Str? then Err(TypeError)
      else Ok(WhenCondition(key.text, value.text, op.text))
    }

    static function FromDict(data: Value): Result<WhenCondition> {
      if !data.Dict? then Err(ValueError)
      else Create(data.GetOr("key", Str("")), data.GetOr("value", Str("")), data.GetOr("op", Str("eq")))
    }

    function ToDict(): Value {
      Dict(map[Name("key") := Str(key), Name("value") := Str(value), Name("op") := Str(op)])
    }

    predicate WellFormed() {
      key in WHEN_CONDITION_ALLOWED_KEYS && op in WHEN_CONDITION_ALLOWED_OPS
    }
  }

  datatype RunbookStep = RunbookStep(taskSpec: TaskSpec, when: Option<WhenCondition>) {
    static function FromDict(data: Value, newId: Value): Result<RunbookStep> {
      if !data.Dict? || data.Get("task_spec").Null? then Err(ValueError)
      else match TaskSpec.FromDict(data.Get("task_spec"), newId)
        case Err(f) => Err(f)
        case Ok(spec) =>
          if data.Get("when").Null? then Ok(RunbookStep(spec, None))
          else match WhenCondition.FromDict(data.Get("when"))
            case Err(f) => Err(f)
            case Ok(condition) => Ok(RunbookStep(spec, Some(condition)))
    }

    function ToDict(): Value {
      var spec := map[Name("task_spec") := taskSpec.ToDict()];
      match when
      case None => Dict(spec)
      case Some(condition) => Dict(spec[Name("when") := condition.ToDict()])
    }

    predicate WellFormed() {
      taskSpec.WellFormed() && (when.Some? ==> when.value.WellFormed())
    }
  }

  datatype ConditionalRunbook = ConditionalRunbook(runbookId: Value, steps: seq<RunbookStep>) {
    static function Create(steps: seq<RunbookStep>, id: Value, newId: Value): Result<ConditionalRunbook> {
      if steps == [] || |steps| > RUNBOOK_MAX_STEPS then Err(ValueError)
      else Ok(ConditionalRunbook(id.OrElse(newId), steps))
    }

    static function FromDict(data: Value, newId: Value, newStepIds: nat -> Value): Result<ConditionalRunbook> {
      if !data.Dict? || !data.Get("steps").List? then Err(ValueError)
      else match StepsFromDicts(data.Get("steps").items, newStepIds)
        case Err(f) => Err(f)
        case Ok(steps) => Create(steps, data.Get("runbook_id"), newId)
    }

    function ToDict(): Value {
      Dict(map[
        Name("runbook_id") := runbookId,
        Name("steps") := List(seq(|steps|, i requires 0 <= i < |steps| => steps[i].ToDict()))])
    }

    predicate WellFormed() {
      && runbookId.Truthy()
      && 1 <= |steps| <= RUNBOOK_MAX_STEPS
      && forall i | 0 <= i < |steps| :: steps[i].WellFormed()
    }
  }

  function StepsFromDicts(items: seq<Value>, newStepIds: nat -> Value): Result<seq<RunbookStep>> {
    ParseAll(items, (item: Value, i: nat) => RunbookStep.FromDict(item, newStepIds(i)))
  }

  lemma StepRoundTrip(s: RunbookStep, newId: Value)
    requires newId.Truthy()
    ensures RunbookStep.FromDict(s.ToDict(), newId) == Ok(s) <==> s.WellFormed()
  {
    TaskSpecRoundTrip(s.taskSpec, newId);
    assert s.ToDict().Get("task_spec") == s.taskSpec.ToDict();
    if s.when.Some? {
      var c := s.when.value;
      assert c.ToDict().Get("key") == Str(c.key) && c.ToDict().Get("value") == Str(c.value);
      assert c.ToDict().Get("op") == Str(c.op);
      assert s.ToDict().Get("when") == c.ToDict();
      assert WhenCondition.FromDict(c.ToDict()) == Ok(c) <==> c.WellFormed();
    } else {
      assert s.ToDict().Get("when") == Null;
    }
  }

  /** The same for conditional runbooks, whose conditions must be ones `WhenCondition.Create` accepts. */
  lemma ConditionalRunbookRoundTrip(rb: ConditionalRunbook, newId: Value, newStepIds: nat -> Value)
    requires Fresh(newId, newStepIds)
    ensures ConditionalRunbook.FromDict(rb.ToDict(), newId, newStepIds) == Ok(rb) <==> rb.WellFormed()
  {
    var items := rb.ToDict().Get("steps").items;
    forall i | 0 <= i < |items|
      ensures RunbookStep.FromDict(items[i], newStepIds(i)) == Ok(rb.steps[i]) <==> rb.steps[i].WellFormed()
    {
      StepRoundTrip(rb.steps[i], newStepIds(i));
    }
    if rb.WellFormed() {
      assert StepsFromDicts(items, newStepIds).value == rb.steps;
    }
  }
}
