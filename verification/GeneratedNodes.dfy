/** The sanitising pass over a whole generated workflow: every node, every Playwright step, and
    the tool parameters (backend/app/api/ai_assistant.py).
 */
module GeneratedNodes {
  import opened Json
  import opened Options
  import opened CredentialSanitizer

  // ---------------------------------------------------------------- what the pass computes

  predicate IsModelNode(kind: Json) { kind == Str("llm") || kind == Str("agent") }

  predicate IsAiStep(step: Json) { step.Obj? && Get(step.entries, "action") == Str("aiStep") }

  /** The credential of the step that was at the same place. */
  function WasCredential(was: seq<Json>, index: nat): Json {
    if index < |was| then Get(EntriesOf(was[index]), "credentialId") else Null
  }

  function CleanStep(s: Setting, step: Json, was: Json): Json {
    if IsAiStep(step) then Obj(ClearedPair(s, step.entries, "credentialId", "model", was)) else step
  }

  function CleanSteps(s: Setting, steps: seq<Json>, was: seq<Json>): (out: seq<Json>)
    ensures |out| == |steps|
  {
    seq(|steps|, i requires 0 <= i < |steps| => CleanStep(s, steps[i], WasCredential(was, i)))
  }

  function CleanStepsField(s: Setting, d: Dict, field: string, was: Dict): Dict {
    if Get(d, field).Arr? then Put(d, field, Arr(CleanSteps(s, Get(d, field).items, ItemsOf(Get(was, field))))) else d
  }

  function CleanModelNode(s: Setting, d: Dict, was: Dict): Dict {
    var filled := Filled(s, d, was);
    var one := ClearedPair(s, filled, "fallbackCredentialId", "fallbackModel", Get(was, "fallbackCredentialId"));
    ClearedPair(s, one, "guardrailCredentialId", "guardrailModel", Get(was, "guardrailCredentialId"))
  }

  function CleanPlaywright(s: Setting, d: Dict, was: Dict): Dict {
    var one := Cleared(s, d, "credentialId", Get(was, "credentialId"));
    var two := CleanStepsField(s, one, "playwrightSteps", was);
    CleanStepsField(s, two, "playwrightAuthFallbackSteps", was)
  }

  function CleanData(s: Setting, kind: Json, d: Dict, was: Dict): Dict {
    if IsModelNode(kind) then CleanModelNode(s, d, was)
    else if kind == Str("playwright") then CleanPlaywright(s, d, was)
    else d
  }

  predicate HasData(node: Json) { node.Obj? && Get(node.entries, "data").Obj? }

  function Data(node: Json): Dict
    requires HasData(node)
  {
    Get(node.entries, "data").entries
  }

  function WithData(node: Json, d: Dict): Json
    requires HasData(node)
  {
    Obj(Put(node.entries, "data", Obj(d)))
  }

  function Kind(node: Json): Json
    requires HasData(node)
  {
    Get(node.entries, "type")
  }

  function CleanNode(s: Setting, node: Json, previous: seq<Dict>): Json {
    if !HasData(node) then node
    else WithData(node, CleanData(s, Kind(node), Data(node), OldData(s, node.entries, previous)))
  }

  predicate NeedsText(tool: Json) { tool.Obj? && Get(tool.entries, "parameters").Obj? }

  function ToolWithText(s: Setting, tool: Json): Json {
    if NeedsText(tool) then Obj(Put(tool.entries, "parameters", Str(s.dumps(Get(tool.entries, "parameters"))))) else tool
  }

  function ToolsWithText(s: Setting, tools: seq<Json>): (out: seq<Json>)
    ensures |out| == |tools|
  {
    seq(|tools|, i requires 0 <= i < |tools| => ToolWithText(s, tools[i]))
  }

  function DataWithText(s: Setting, d: Dict): Dict {
    if Get(d, "tools").Arr? then Put(d, "tools", Arr(ToolsWithText(s, Get(d, "tools").items))) else d
  }

  function NodeWithText(s: Setting, node: Json): Json {
    if HasData(node) then WithData(node, DataWithText(s, Data(node))) else node
  }

  function Dicts(nodes: seq<Json>): seq<Dict> {
    if nodes == [] then []
    else if nodes[0].Obj? then [nodes[0].entries] + Dicts(nodes[1..])
    else Dicts(nodes[1..])
  }

  datatype Outcome = Ok(nodes: seq<Json>) | AttributeError

  predicate AllDicts(nodes: seq<Json>) { forall i | 0 <= i < |nodes| :: nodes[i].Obj? }

  function Sanitize(s: Setting, node: Json, previous: seq<Dict>): Json { NodeWithText(s, CleanNode(s, node, previous)) }

  /** The clearing loop skips what is no dict; the tool loop after it does not. */
  function SanitizeAll(s: Setting, nodes: seq<Json>, previousNodes: seq<Json>): Outcome {
    if AllDicts(nodes)
    then Ok(seq(|nodes|, i requires 0 <= i < |nodes| => Sanitize(s, nodes[i], Dicts(previousNodes))))
    else AttributeError
  }

  // ---------------------------------------------------------------- settled nodes

  predicate StepSettled(s: Setting, step: Json, was: Json) {
    IsAiStep(step) ==> PairSettled(s, step.entries, "credentialId", "model", was)
  }

  predicate StepsSettled(s: Setting, steps: Json, was: seq<Json>) {
    steps.Arr? ==> forall i | 0 <= i < |steps.items| :: StepSettled(s, steps.items[i], WasCredential(was, i))
  }

  predicate ModelNodeSettled(s: Setting, d: Dict, was: Dict) {
    && ModelSettled(s, d, was)
    && PairSettled(s, d, "fallbackCredentialId", "fallbackModel", Get(was, "fallbackCredentialId"))
    && PairSettled(s, d, "guardrailCredentialId", "guardrailModel", Get(was, "guardrailCredentialId"))
  }

  predicate PlaywrightSettled(s: Setting, d: Dict, was: Dict) {
    && Allowed(s, Get(d, "credentialId"), Get(was, "credentialId"))
    && StepsSettled(s, Get(d, "playwrightSteps"), ItemsOf(Get(was, "playwrightSteps")))
    && StepsSettled(s, Get(d, "playwrightAuthFallbackSteps"), ItemsOf(Get(was, "playwrightAuthFallbackSteps")))
  }

  predicate DataSettled(s: Setting, kind: Json, d: Dict, was: Dict) {
    && (IsModelNode(kind) ==> ModelNodeSettled(s, d, was))
    && (kind == Str("playwright") ==> PlaywrightSettled(s, d, was))
  }

  predicate ToolsSettled(tools: Json) { tools.Arr? ==> forall i | 0 <= i < |tools.items| :: !NeedsText(tools.items[i]) }

  /** Every credential on the node is as the pass leaves it, seen against the version it replaces. */
  predicate NodeSettled(s: Setting, node: Json, previous: seq<Dict>) {
    HasData(node) ==>
      && DataSettled(s, Kind(node), Data(node), OldData(s, node.entries, previous))
      && ToolsSettled(Get(Data(node), "tools"))
  }

  lemma StepsClean(s: Setting, steps: seq<Json>, was: seq<Json>)
    ensures StepsSettled(s, Arr(CleanSteps(s, steps, was)), was)
  {
    var out := CleanSteps(s, steps, was);
    forall i | 0 <= i < |steps|
      ensures StepSettled(s, out[i], WasCredential(was, i))
    {
      if IsAiStep(steps[i]) { PairCleared(s, steps[i].entries, "credentialId", "model", WasCredential(was, i), "action"); }
    }
  }

  lemma StepsStay(s: Setting, steps: seq<Json>, was: seq<Json>)
    requires StepsSettled(s, Arr(steps), was)
    ensures CleanSteps(s, steps, was) == steps
  {
    var settled := Arr(steps);
    forall i | 0 <= i < |steps|
      ensures CleanStep(s, steps[i], WasCredential(was, i)) == steps[i]
    {
      assert StepSettled(s, settled.items[i], WasCredential(was, i));
      if IsAiStep(steps[i]) { PairSettledStays(s, steps[i].entries, "credentialId", "model", WasCredential(was, i)); }
    }
  }

  /** Cleaning one list of steps settles it and touches no other key. */
  lemma StepsFieldClean(s: Setting, d: Dict, field: string, was: Dict, other: string)
    ensures var out := CleanStepsField(s, d, field, was);
            && StepsSettled(s, Get(out, field), ItemsOf(Get(was, field)))
            && (other != field ==> Get(out, other) == Get(d, other))
  {
    if Get(d, field).Arr? {
      var steps := CleanSteps(s, Get(d, field).items, ItemsOf(Get(was, field)));
      StepsClean(s, Get(d, field).items, ItemsOf(Get(was, field)));
      GetPut(d, field, Arr(steps), field);
      GetPut(d, field, Arr(steps), other);
    }
  }

  lemma StepsFieldStays(s: Setting, d: Dict, field: string, was: Dict)
    requires StepsSettled(s, Get(d, field), ItemsOf(Get(was, field)))
    ensures CleanStepsField(s, d, field, was) == d
  {
    if Get(d, field).Arr? {
      StepsStay(s, Get(d, field).items, ItemsOf(Get(was, field)));
      PutSettled(d, field, Get(d, field));
    }
  }

  lemma ModelNodeClean(s: Setting, d: Dict, was: Dict)
    ensures ModelNodeSettled(s, CleanModelNode(s, d, was), was)
  {
    var filled := Filled(s, d, was);
    var one := ClearedPair(s, filled, "fallbackCredentialId", "fallbackModel", Get(was, "fallbackCredentialId"));
    FilledSettles(s, d, was, "");
    var fallback, guardrail := Get(was, "fallbackCredentialId"), Get(was, "guardrailCredentialId");
    PairCleared(s, filled, "fallbackCredentialId", "fallbackModel", fallback, "credentialId");
    PairCleared(s, filled, "fallbackCredentialId", "fallbackModel", fallback, "model");
    PairCleared(s, one, "guardrailCredentialId", "guardrailModel", guardrail, "credentialId");
    PairCleared(s, one, "guardrailCredentialId", "guardrailModel", guardrail, "model");
    PairCleared(s, one, "guardrailCredentialId", "guardrailModel", guardrail, "fallbackCredentialId");
    PairCleared(s, one, "guardrailCredentialId", "guardrailModel", guardrail, "fallbackModel");
  }

  lemma PlaywrightClean(s: Setting, d: Dict, was: Dict)
    ensures PlaywrightSettled(s, CleanPlaywright(s, d, was), was)
  {
    var one := Cleared(s, d, "credentialId", Get(was, "credentialId"));
    var two := CleanStepsField(s, one, "playwrightSteps", was);
    GetPut(d, "credentialId", Str(""), "credentialId");
    StepsFieldClean(s, one, "playwrightSteps", was, "credentialId");
    StepsFieldClean(s, two, "playwrightAuthFallbackSteps", was, "credentialId");
    StepsFieldClean(s, two, "playwrightAuthFallbackSteps", was, "playwrightSteps");
  }

  lemma DataClean(s: Setting, kind: Json, d: Dict, was: Dict)
    ensures DataSettled(s, kind, CleanData(s, kind, d, was), was)
  {
    if IsModelNode(kind) {
      ModelNodeClean(s, d, was);
    } else if kind == Str("playwright") {
      PlaywrightClean(s, d, was);
    }
  }

  lemma DataStays(s: Setting, kind: Json, d: Dict, was: Dict)
    requires DataSettled(s, kind, d, was)
    ensures CleanData(s, kind, d, was) == d
  {
    if IsModelNode(kind) {
      ModelSettledStays(s, d, was);
      PairSettledStays(s, d, "fallbackCredentialId", "fallbackModel", Get(was, "fallbackCredentialId"));
      PairSettledStays(s, d, "guardrailCredentialId", "guardrailModel", Get(was, "guardrailCredentialId"));
    } else if kind == Str("playwright") {
      StepsFieldStays(s, d, "playwrightSteps", was);
      StepsFieldStays(s, d, "playwrightAuthFallbackSteps", was);
    }
  }

  // ---------------------------------------------------------------- what stays as it was

  /** The keys of a node's data that the pass may write. */
  predicate Governed(key: string) {
    || key == "credentialId" || key == "model" || key == "fallbackCredentialId" || key == "fallbackModel"
    || key == "guardrailCredentialId" || key == "guardrailModel" || key == "playwrightSteps"
    || key == "playwrightAuthFallbackSteps" || key == "tools"
  }

  lemma DataFrame(s: Setting, kind: Json, d: Dict, was: Dict, key: string)
    requires !Governed(key) || key == "tools"
    ensures Get(CleanData(s, kind, d, was), key) == Get(d, key)
  {
    if IsModelNode(kind) {
      var filled := Filled(s, d, was);
      var one := ClearedPair(s, filled, "fallbackCredentialId", "fallbackModel", Get(was, "fallbackCredentialId"));
      FilledSettles(s, d, was, key);
      PairCleared(s, filled, "fallbackCredentialId", "fallbackModel", Get(was, "fallbackCredentialId"), key);
      PairCleared(s, one, "guardrailCredentialId", "guardrailModel", Get(was, "guardrailCredentialId"), key);
    } else if kind == Str("playwright") {
      var one := Cleared(s, d, "credentialId", Get(was, "credentialId"));
      var two := CleanStepsField(s, one, "playwrightSteps", was);
      GetPut(d, "credentialId", Str(""), key);
      StepsFieldClean(s, one, "playwrightSteps", was, key);
      StepsFieldClean(s, two, "playwrightAuthFallbackSteps", was, key);
    }
  }

  lemma TextFrame(s: Setting, d: Dict, key: string)
    ensures var out := DataWithText(s, d);
            && ToolsSettled(Get(out, "tools"))
            && (key != "tools" ==> Get(out, key) == Get(d, key))
  {
    var tools := Get(d, "tools");
    if tools.Arr? {
      var out := ToolsWithText(s, tools.items);
      GetPut(d, "tools", Arr(out), "tools");
      GetPut(d, "tools", Arr(out), key);
      forall i | 0 <= i < |out|
        ensures !NeedsText(out[i])
      {
        var tool := tools.items[i];
        if NeedsText(tool) {
          GetPut(tool.entries, "parameters", Str(s.dumps(Get(tool.entries, "parameters"))), "parameters");
        }
      }
    }
  }

  lemma TextStays(s: Setting, d: Dict)
    requires ToolsSettled(Get(d, "tools"))
    ensures DataWithText(s, d) == d
  {
    var tools := Get(d, "tools");
    if tools.Arr? {
      assert ToolsWithText(s, tools.items) == tools.items;
      PutSettled(d, "tools", tools);
    }
  }

  /** Settledness reads only keys that the tool pass leaves alone. */
  lemma TextKeepsSettled(s: Setting, kind: Json, d: Dict, was: Dict)
    requires DataSettled(s, kind, d, was)
    ensures DataSettled(s, kind, DataWithText(s, d), was)
  {
    TextFrame(s, d, "credentialId");
    TextFrame(s, d, "model");
    TextFrame(s, d, "fallbackCredentialId");
    TextFrame(s, d, "fallbackModel");
    TextFrame(s, d, "guardrailCredentialId");
    TextFrame(s, d, "guardrailModel");
    TextFrame(s, d, "playwrightSteps");
    TextFrame(s, d, "playwrightAuthFallbackSteps");
  }

  lemma SanitizedData(s: Setting, node: Json, previous: seq<Dict>)
    requires HasData(node)
    ensures var out := Sanitize(s, node, previous);
            && HasData(out) && Kind(out) == Kind(node)
            && Data(out) == DataWithText(s, CleanData(s, Kind(node), Data(node), OldData(s, node.entries, previous)))
  {
    var d := CleanData(s, Kind(node), Data(node), OldData(s, node.entries, previous));
    var clean := WithData(node, d);
    GetPut(node.entries, "data", Obj(d), "data");
    GetPut(node.entries, "data", Obj(d), "type");
    GetPut(clean.entries, "data", Obj(DataWithText(s, d)), "data");
    GetPut(clean.entries, "data", Obj(DataWithText(s, d)), "type");
  }

  /** Only the node's data changes, and in it only governed keys. */
  lemma SanitizeFrame(s: Setting, node: Json, previous: seq<Dict>, key: string)
    requires HasData(node)
    ensures var out := Sanitize(s, node, previous);
            && HasData(out)
            && (key != "data" ==> Get(out.entries, key) == Get(node.entries, key))
            && (!Governed(key) ==> Get(Data(out), key) == Get(Data(node), key))
  {
    var was := OldData(s, node.entries, previous);
    var d := CleanData(s, Kind(node), Data(node), was);
    var clean := WithData(node, d);
    SanitizedData(s, node, previous);
    GetPut(node.entries, "data", Obj(d), "data");
    GetPut(node.entries, "data", Obj(d), key);
    GetPut(clean.entries, "data", Obj(DataWithText(s, d)), key);
    if !Governed(key) {
      DataFrame(s, Kind(node), Data(node), was, key);
      TextFrame(s, d, key);
    }
  }

  /** A sanitised node replaces the same version as before. */
  lemma SanitizeKeepsMatch(s: Setting, node: Json, previous: seq<Dict>)
    requires HasData(node)
    ensures OldData(s, Sanitize(s, node, previous).entries, previous) == OldData(s, node.entries, previous)
  {
    SanitizeFrame(s, node, previous, "id");
    SanitizeFrame(s, node, previous, "type");
    SanitizeFrame(s, node, previous, "label");
    AlikeFound(s, Sanitize(s, node, previous).entries, node.entries, previous);
  }

  // ---------------------------------------------------------------- the theorems

  lemma SanitizeSettles(s: Setting, node: Json, previous: seq<Dict>)
    ensures NodeSettled(s, Sanitize(s, node, previous), previous)
  {
    if HasData(node) {
      var was := OldData(s, node.entries, previous);
      var d := CleanData(s, Kind(node), Data(node), was);
      SanitizedData(s, node, previous);
      SanitizeKeepsMatch(s, node, previous);
      DataClean(s, Kind(node), Data(node), was);
      TextKeepsSettled(s, Kind(node), d, was);
      TextFrame(s, d, "");
    }
  }

  /** A settled node goes through unchanged. */
  lemma SettledStays(s: Setting, node: Json, previous: seq<Dict>)
    requires NodeSettled(s, node, previous)
    ensures Sanitize(s, node, previous) == node
  {
    if HasData(node) {
      DataStays(s, Kind(node), Data(node), OldData(s, node.entries, previous));
      TextStays(s, Data(node));
      PutSettled(node.entries, "data", Obj(Data(node)));
    }
  }

  /** The pass is a projection onto the settled nodes. */
  lemma UnchangedIffSettled(s: Setting, node: Json, previous: seq<Dict>)
    ensures Sanitize(s, node, previous) == node <==> NodeSettled(s, node, previous)
  {
    SanitizeSettles(s, node, previous);
    if NodeSettled(s, node, previous) { SettledStays(s, node, previous); }
  }

  lemma SanitizingTwiceIsOnce(s: Setting, nodes: seq<Json>, previousNodes: seq<Json>)
    ensures var once := SanitizeAll(s, nodes, previousNodes);
            && (once.Ok? <==> AllDicts(nodes))
            && (once.Ok? ==> SanitizeAll(s, once.nodes, previousNodes) == once)
  {
    var once := SanitizeAll(s, nodes, previousNodes);
    if once.Ok? {
      var previous := Dicts(previousNodes);
      forall i | 0 <= i < |nodes|
        ensures once.nodes[i].Obj? && Sanitize(s, once.nodes[i], previous) == once.nodes[i]
      {
        SanitizeSettles(s, nodes[i], previous);
        SettledStays(s, once.nodes[i], previous);
      }
      assert SanitizeAll(s, once.nodes, previousNodes).nodes == once.nodes;
    }
  }

  predicate CredentialField(kind: Json, field: string) {
    || (kind in {Str("llm"), Str("agent")} && (field == "credentialId" || field == "fallbackCredentialId" || field == "guardrailCredentialId"))
    || (kind == Str("playwright") && field == "credentialId")
  }

  /** What the pass leaves in a credential field. */
  function FieldAfter(s: Setting, node: Json, previous: seq<Dict>, field: string): Json
    requires HasData(node)
  {
    var v, was := Get(Data(node), field), Get(OldData(s, node.entries, previous), field);
    if IsModelNode(Kind(node)) && field == "credentialId" then ModelCredential(s, v, was)
    else if Allowed(s, v, was) then v else Str("")
  }

  lemma FieldIs(s: Setting, node: Json, previous: seq<Dict>, field: string)
    requires HasData(node) && CredentialField(Kind(node), field)
    ensures var out := Sanitize(s, node, previous);
            HasData(out) && Get(Data(out), field) == FieldAfter(s, node, previous, field)
  {
    var d, was := Data(node), OldData(s, node.entries, previous);
    SanitizedData(s, node, previous);
    TextFrame(s, CleanData(s, Kind(node), d, was), field);
    if IsModelNode(Kind(node)) {
      ModelNodeFields(s, d, was);
    } else {
      PlaywrightField(s, d, was);
    }
  }

  lemma PlaywrightField(s: Setting, d: Dict, was: Dict)
    ensures Get(CleanPlaywright(s, d, was), "credentialId") == ClearedValue(s, d, "credentialId", was)
  {
    var one := Cleared(s, d, "credentialId", Get(was, "credentialId"));
    var two := CleanStepsField(s, one, "playwrightSteps", was);
    GetPut(d, "credentialId", Str(""), "credentialId");
    StepsFieldClean(s, one, "playwrightSteps", was, "credentialId");
    StepsFieldClean(s, two, "playwrightAuthFallbackSteps", was, "credentialId");
  }

  /** The user's own credential, or what the same field of the replaced version held, or empty. */
  predicate Entitled(s: Setting, v: Json, was: Json) {
    !Truthy(v) || Owned(s, v) || (Truthy(was) && (v == was || Same(s, v, was)))
  }

  predicate EntitledPair(s: Setting, d: Dict, field: string, model: string, was: Dict) {
    && Entitled(s, Get(d, field), Get(was, field))
    && (!Truthy(Get(d, field)) ==> Get(d, model) == Str(""))
  }

  /** The same for the AI steps of a Playwright node, each against the step that was at its place. */
  predicate EntitledSteps(s: Setting, d: Dict, field: string, was: Dict) {
    var before := if Get(was, field).Arr? then Get(was, field).items else [];
    Get(d, field).Arr? ==>
      forall i | 0 <= i < |Get(d, field).items| && Get(d, field).items[i].Obj? ::
        var step := Get(d, field).items[i].entries;
        Get(step, "action") == Str("aiStep") ==>
          && Entitled(s, Get(step, "credentialId"),
                      if i < |before| && before[i].Obj? then Get(before[i].entries, "credentialId") else Null)
          && (!Truthy(Get(step, "credentialId")) ==> Get(step, "model") == Str(""))
  }

  predicate EntitledNode(s: Setting, kind: Json, d: Dict, was: Dict) {
    && (kind in {Str("llm"), Str("agent")} ==>
          && Entitled(s, Get(d, "credentialId"), Get(was, "credentialId"))
          && EntitledPair(s, d, "fallbackCredentialId", "fallbackModel", was)
          && EntitledPair(s, d, "guardrailCredentialId", "guardrailModel", was))
    && (kind == Str("playwright") ==>
          && Entitled(s, Get(d, "credentialId"), Get(was, "credentialId"))
          && EntitledSteps(s, d, "playwrightSteps", was)
          && EntitledSteps(s, d, "playwrightAuthFallbackSteps", was))
  }

  /** What may stay stays: each field of a model node keeps its value or takes the one replacement. */
  lemma ModelNodeFields(s: Setting, d: Dict, was: Dict)
    ensures var out := CleanModelNode(s, d, was);
            && Get(out, "credentialId") == ModelCredential(s, Get(d, "credentialId"), Get(was, "credentialId"))
            && Get(out, "fallbackCredentialId") == ClearedValue(s, d, "fallbackCredentialId", was)
            && Get(out, "guardrailCredentialId") == ClearedValue(s, d, "guardrailCredentialId", was)
            && (Truthy(Get(out, "fallbackCredentialId")) ==> Get(out, "fallbackModel") == Get(d, "fallbackModel"))
            && (Truthy(Get(out, "guardrailCredentialId")) ==> Get(out, "guardrailModel") == Get(d, "guardrailModel"))
  {
    var filled := Filled(s, d, was);
    var one := ClearedPair(s, filled, "fallbackCredentialId", "fallbackModel", Get(was, "fallbackCredentialId"));
    var fallback, guardrail := Get(was, "fallbackCredentialId"), Get(was, "guardrailCredentialId");
    FilledSettles(s, d, was, "fallbackCredentialId");
    FilledSettles(s, d, was, "fallbackModel");
    FilledSettles(s, d, was, "guardrailCredentialId");
    FilledSettles(s, d, was, "guardrailModel");
    PairCleared(s, filled, "fallbackCredentialId", "fallbackModel", fallback, "credentialId");
    PairCleared(s, filled, "fallbackCredentialId", "fallbackModel", fallback, "guardrailCredentialId");
    PairCleared(s, filled, "fallbackCredentialId", "fallbackModel", fallback, "guardrailModel");
    PairCleared(s, one, "guardrailCredentialId", "guardrailModel", guardrail, "credentialId");
    PairCleared(s, one, "guardrailCredentialId", "guardrailModel", guardrail, "fallbackCredentialId");
    PairCleared(s, one, "guardrailCredentialId", "guardrailModel", guardrail, "fallbackModel");
  }

  function ClearedValue(s: Setting, d: Dict, field: string, was: Dict): Json {
    if Allowed(s, Get(d, field), Get(was, field)) then Get(d, field) else Str("")
  }

  /** After the pass every credential field of every node is one its user is entitled to. */
  lemma SanitizedIsEntitled(s: Setting, nodes: seq<Json>, previousNodes: seq<Json>, i: nat)
    requires Canonical(s, s.selectedId)
    requires AllDicts(nodes) && i < |nodes| && HasData(nodes[i])
    ensures var out := SanitizeAll(s, nodes, previousNodes).nodes[i];
            && HasData(out) && Kind(out) == Kind(nodes[i])
            && EntitledNode(s, Kind(out), Data(out), OldData(s, nodes[i].entries, Dicts(previousNodes)))
  {
    var previous := Dicts(previousNodes);
    var out := Sanitize(s, nodes[i], previous);
    SanitizeSettles(s, nodes[i], previous);
    SanitizedData(s, nodes[i], previous);
    SanitizeKeepsMatch(s, nodes[i], previous);
    SettledIsEntitled(s, Kind(out), Data(out), OldData(s, nodes[i].entries, previous));
  }

  lemma SettledIsEntitled(s: Setting, kind: Json, d: Dict, was: Dict)
    requires Canonical(s, s.selectedId) && DataSettled(s, kind, d, was)
    ensures EntitledNode(s, kind, d, was)
  {
    SelectedIsUsable(s);
    UsableIff(s, Get(d, "credentialId"));
    UsableIff(s, Get(d, "fallbackCredentialId"));
    UsableIff(s, Get(d, "guardrailCredentialId"));
    if kind == Str("playwright") {
      StepsEntitled(s, d, "playwrightSteps", was);
      StepsEntitled(s, d, "playwrightAuthFallbackSteps", was);
    }
  }

  lemma StepsEntitled(s: Setting, d: Dict, field: string, was: Dict)
    requires StepsSettled(s, Get(d, field), ItemsOf(Get(was, field)))
    ensures EntitledSteps(s, d, field, was)
  {
    var steps := Get(d, field);
    if steps.Arr? {
      forall i | 0 <= i < |steps.items| && IsAiStep(steps.items[i])
        ensures StepSettled(s, steps.items[i], WasCredential(ItemsOf(Get(was, field)), i))
        ensures Allowed(s, Get(steps.items[i].entries, "credentialId"), WasCredential(ItemsOf(Get(was, field)), i)) ==>
                  Entitled(s, Get(steps.items[i].entries, "credentialId"), WasCredential(ItemsOf(Get(was, field)), i))
      {
        UsableIff(s, Get(steps.items[i].entries, "credentialId"));
      }
    }
  }

  /** And no accessible credential is taken away: a field that holds one comes out as it went in. */
  lemma AccessibleStays(s: Setting, nodes: seq<Json>, previousNodes: seq<Json>, i: nat, field: string, id: string)
    requires AllDicts(nodes) && i < |nodes| && HasData(nodes[i]) && CredentialField(Kind(nodes[i]), field)
    requires Canonical(s, id) && id in s.accessible && Get(Data(nodes[i]), field) == Str(id)
    ensures var out := SanitizeAll(s, nodes, previousNodes).nodes[i];
            HasData(out) && Get(Data(out), field) == Str(id)
  {
    AccessibleIsUsable(s, id);
    FieldIs(s, nodes[i], Dicts(previousNodes), field);
  }

  predicate StepsField(kind: Json, field: string) {
    kind == Str("playwright") && (field == "playwrightSteps" || field == "playwrightAuthFallbackSteps")
  }

  /** The steps of a Playwright node come out cleaned one by one. */
  lemma StepsAre(s: Setting, node: Json, previous: seq<Dict>, field: string)
    requires HasData(node) && StepsField(Kind(node), field) && Get(Data(node), field).Arr?
    ensures var out, was := Sanitize(s, node, previous), OldData(s, node.entries, previous);
            && HasData(out)
            && Get(Data(out), field)
            == Arr(CleanSteps(s, Get(Data(node), field).items, if Get(was, field).Arr? then Get(was, field).items else []))
  {
    var d, was := Data(node), OldData(s, node.entries, previous);
    var one := Cleared(s, d, "credentialId", Get(was, "credentialId"));
    var two := CleanStepsField(s, one, "playwrightSteps", was);
    SanitizedData(s, node, previous);
    TextFrame(s, CleanData(s, Kind(node), d, was), field);
    GetPut(d, "credentialId", Str(""), field);
    StepsFieldIs(s, one, "playwrightSteps", was, field);
    StepsFieldIs(s, two, "playwrightAuthFallbackSteps", was, field);
  }

  lemma StepsFieldIs(s: Setting, d: Dict, field: string, was: Dict, other: string)
    ensures Get(CleanStepsField(s, d, field, was), other)
         == if other == field && Get(d, field).Arr?
            then Arr(CleanSteps(s, Get(d, field).items, ItemsOf(Get(was, field)))) else Get(d, other)
  {
    if Get(d, field).Arr? {
      GetPut(d, field, Arr(CleanSteps(s, Get(d, field).items, ItemsOf(Get(was, field)))), other);
    }
  }

  /** The same for the step of a Playwright node. */
  lemma AccessibleStepStays(s: Setting, nodes: seq<Json>, previousNodes: seq<Json>, i: nat, field: string, k: nat, id: string)
    requires AllDicts(nodes) && i < |nodes| && HasData(nodes[i]) && StepsField(Kind(nodes[i]), field)
    requires Get(Data(nodes[i]), field).Arr? && k < |Get(Data(nodes[i]), field).items|
    requires var step := Get(Data(nodes[i]), field).items[k]; step.Obj? && Get(step.entries, "credentialId") == Str(id)
    requires Canonical(s, id) && id in s.accessible
    ensures var out := SanitizeAll(s, nodes, previousNodes).nodes[i];
            && HasData(out) && Get(Data(out), field).Arr? && k < |Get(Data(out), field).items|
            && Get(Data(out), field).items[k] == Get(Data(nodes[i]), field).items[k]
  {
    AccessibleIsUsable(s, id);
    StepsAre(s, nodes[i], Dicts(previousNodes), field);
  }

  /** The model goes with the credential: a node that keeps its own keeps its model unless that is
      blank, one that gets its earlier credential back gets the earlier model, and one that gets
      the chat's gets the chat's model. */
  lemma ModelFollowsCredential(s: Setting, node: Json, previous: seq<Dict>)
    requires HasData(node) && Kind(node) in {Str("llm"), Str("agent")}
    ensures var out, was := Sanitize(s, node, previous), OldData(s, node.entries, previous);
            var id, model := Get(Data(node), "credentialId"), Get(Data(node), "model");
            var oldId, oldModel := Get(was, "credentialId"), Get(was, "model");
            var blank := !Truthy(model) || (model.Str? && forall k | 0 <= k < |model.s| :: IsSpace(model.s[k]));
            var former := if Truthy(oldModel) then oldModel else Str("");
            && HasData(out)
            && var newId, newModel := Get(Data(out), "credentialId"), Get(Data(out), "model");
            && (Truthy(oldId) && Same(s, id, oldId) ==> newId == id && newModel == if blank then former else model)
            && (Usable(s, id) && !(Truthy(oldId) && Same(s, id, oldId)) ==>
                  newId == id && newModel == if blank && s.selectedIsModel && s.selectedId in s.accessible && s.selectedId != ""
                                             then Str(s.selectedModel) else model)
            && (!Usable(s, id) && Truthy(oldId) && !Same(s, id, oldId) ==> newId == oldId && newModel == former)
            && (!Usable(s, id) && !Truthy(oldId) ==>
                  if s.selectedIsModel && s.selectedId in s.accessible && s.selectedId != ""
                  then newId == Str(s.selectedId) && newModel == Str(s.selectedModel)
                  else newId == Str("") && newModel == model)
  {
    var d, was := Data(node), OldData(s, node.entries, previous);
    var filled := Filled(s, d, was);
    var one := ClearedPair(s, filled, "fallbackCredentialId", "fallbackModel", Get(was, "fallbackCredentialId"));
    SanitizedData(s, node, previous);
    TextFrame(s, CleanData(s, Kind(node), d, was), "credentialId");
    TextFrame(s, CleanData(s, Kind(node), d, was), "model");
    FilledGets(s, d, was, "credentialId");
    FilledGets(s, d, was, "model");
    PairCleared(s, filled, "fallbackCredentialId", "fallbackModel", Get(was, "fallbackCredentialId"), "credentialId");
    PairCleared(s, filled, "fallbackCredentialId", "fallbackModel", Get(was, "fallbackCredentialId"), "model");
    PairCleared(s, one, "guardrailCredentialId", "guardrailModel", Get(was, "guardrailCredentialId"), "credentialId");
    PairCleared(s, one, "guardrailCredentialId", "guardrailModel", Get(was, "guardrailCredentialId"), "model");
  }

  /** A tool whose parameters are a dict gets their JSON text instead, and no tool changes otherwise. */
  lemma ToolParametersAreText(s: Setting, node: Json, previous: seq<Dict>, i: nat, key: string)
    requires HasData(node) && Get(Data(node), "tools").Arr? && i < |Get(Data(node), "tools").items|
    ensures var out, tool := Sanitize(s, node, previous), Get(Data(node), "tools").items[i];
            && HasData(out) && Get(Data(out), "tools").Arr? && |Get(Data(out), "tools").items| == |Get(Data(node), "tools").items|
            && var now := Get(Data(out), "tools").items[i];
            if tool.Obj? && Get(tool.entries, "parameters").Obj?
            then now.Obj? && Get(now.entries, key) == if key == "parameters" then Str(s.dumps(Get(tool.entries, "parameters"))) else Get(tool.entries, key)
            else now == tool
  {
    var d, was := Data(node), OldData(s, node.entries, previous);
    var clean := CleanData(s, Kind(node), d, was);
    SanitizedData(s, node, previous);
    DataFrame(s, Kind(node), d, was, "tools");
    GetPut(clean, "tools", Arr(ToolsWithText(s, Get(clean, "tools").items)), "tools");
    var tool := Get(d, "tools").items[i];
    if NeedsText(tool) {
      GetPut(tool.entries, "parameters", Str(s.dumps(Get(tool.entries, "parameters"))), key);
    }
  }
}
