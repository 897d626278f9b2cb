/** The sanitising pass as it is written: dicts edited in place, node by node and step by step. */
module GeneratedNodesCode {
  import opened Json
  import opened Options
  import opened CredentialSanitizer
  import opened GeneratedNodes

  /** A Python dict that the pass writes to. */
  class MutableDict {
    var entries: Dict

    constructor (entries: Dict)
      ensures this.entries == entries
    {
      this.entries := entries;
    }

    method Set(key: string, value: Json)
      modifies this
      ensures entries == Put(old(entries), key, value)
    {
      entries := Put(entries, key, value);
    }
  }

  /** `_clear_unowned_credential_field` */
  method ClearUnownedCredentialField(s: Setting, data: MutableDict, field: string, was: Json)
    modifies data
    ensures data.entries == Cleared(s, old(data.entries), field, was)
  {
    var value := Get(data.entries, field);
    if !Truthy(value) || (Truthy(was) && Same(s, value, was)) { return; }
    if !Usable(s, value) {
      data.Set(field, Str(""));
    }
  }

  method ClearWithModel(s: Setting, data: MutableDict, field: string, model: string, was: Json)
    modifies data
    ensures data.entries == ClearedPair(s, old(data.entries), field, model, was)
  {
    ClearUnownedCredentialField(s, data, field, was);
    if !Truthy(Get(data.entries, field)) {
      data.Set(model, Str(""));
    }
  }

  /** `_fill_model_credential` */
  method FillModelCredential(s: Setting, data: MutableDict, was: Dict, selected: string)
    requires selected == Selected(s)
    modifies data
    ensures data.entries == Filled(s, old(data.entries), was)
  {
    var oldId, id := Get(was, "credentialId"), Get(data.entries, "credentialId");
    if Truthy(oldId) && Same(s, id, oldId) {
      if BlankText(Get(data.entries, "model")) {
        data.Set("model", OrEmpty(Get(was, "model")));
      }
      return;
    }
    if Usable(s, id) {
      if selected != "" && BlankText(Get(data.entries, "model")) {
        data.Set("model", Str(s.selectedModel));
      }
      return;
    }
    if Truthy(oldId) {
      data.Set("credentialId", oldId);
      data.Set("model", OrEmpty(Get(was, "model")));
      return;
    }
    data.Set("credentialId", Str(selected));
    if selected != "" {
      data.Set("model", Str(s.selectedModel));
    }
  }

  /** The first version with the node's id and type, else the first with its label and type. */
  method FindPreviousVersion(s: Setting, node: Dict, previous: seq<Dict>) returns (found: Option<Dict>)
    ensures found == PreviousVersion(s, node, previous)
  {
    for i := 0 to |previous|
      invariant FirstById(s, node, previous) == FirstById(s, node, previous[i..])
    {
      if MatchesById(s, previous[i], node) { return Some(previous[i]); }
    }
    if Label(s, node) == "" { return None; }
    for i := 0 to |previous|
      invariant FirstByLabel(s, node, previous) == FirstByLabel(s, node, previous[i..])
    {
      if MatchesByLabel(s, previous[i], node) { return Some(previous[i]); }
    }
    return None;
  }

  method CleanStepList(s: Setting, steps: array<Json>, was: seq<Json>)
    modifies steps
    ensures steps[..] == CleanSteps(s, old(steps[..]), was)
  {
    ghost var before := steps[..];
    for index := 0 to steps.Length
      invariant forall k | 0 <= k < index :: steps[k] == CleanStep(s, before[k], WasCredential(was, k))
      invariant forall k | index <= k < steps.Length :: steps[k] == before[k]
    {
      var cleaned := CleanStepDict(s, steps[index], WasCredential(was, index));
      steps[index] := cleaned;
    }
  }

  /** One round of the loop over the steps. */
  method CleanStepDict(s: Setting, step: Json, was: Json) returns (out: Json)
    ensures out == CleanStep(s, step, was)
  {
    if !IsAiStep(step) { return step; }
    var data := new MutableDict(step.entries);
    ClearWithModel(s, data, "credentialId", "model", was);
    return Obj(data.entries);
  }

  method CleanStepsOf(s: Setting, data: MutableDict, field: string, was: Dict)
    modifies data
    ensures data.entries == CleanStepsField(s, old(data.entries), field, was)
  {
    var value := Get(data.entries, field);
    if value.Arr? {
      var steps := new Json[|value.items|](i requires 0 <= i < |value.items| => value.items[i]);
      assert steps[..] == value.items;
      CleanStepList(s, steps, ItemsOf(Get(was, field)));
      data.Set(field, Arr(steps[..]));
    }
  }

  /** What the loop does with one node's data. */
  method CleanNodeData(s: Setting, kind: Json, data: MutableDict, was: Dict, selected: string)
    requires selected == Selected(s)
    modifies data
    ensures data.entries == CleanData(s, kind, old(data.entries), was)
  {
    if IsModelNode(kind) {
      FillModelCredential(s, data, was, selected);
      ClearWithModel(s, data, "fallbackCredentialId", "fallbackModel", Get(was, "fallbackCredentialId"));
      ClearWithModel(s, data, "guardrailCredentialId", "guardrailModel", Get(was, "guardrailCredentialId"));
    }
    if kind == Str("playwright") {
      ClearUnownedCredentialField(s, data, "credentialId", Get(was, "credentialId"));
      CleanStepsOf(s, data, "playwrightSteps", was);
      CleanStepsOf(s, data, "playwrightAuthFallbackSteps", was);
    }
  }

  method TextForTools(s: Setting, tools: array<Json>)
    modifies tools
    ensures tools[..] == ToolsWithText(s, old(tools[..]))
  {
    for i := 0 to tools.Length
      invariant forall k | 0 <= k < i :: tools[k] == ToolWithText(s, old(tools[k]))
      invariant forall k | i <= k < tools.Length :: tools[k] == old(tools[k])
    {
      if tools[i].Obj? {
        var params := Get(tools[i].entries, "parameters");
        if params.Obj? {
          tools[i] := Obj(Put(tools[i].entries, "parameters", Str(s.dumps(params))));
        }
      }
    }
  }

  /** `_normalize_agent_tool_parameters`: fails on the first node that is no dict. */
  method NormalizeAgentToolParameters(s: Setting, nodes: array<Json>) returns (ok: bool)
    modifies nodes
    ensures ok <==> AllDicts(old(nodes[..]))
    ensures ok ==> forall k | 0 <= k < nodes.Length :: nodes[k] == NodeWithText(s, old(nodes[k]))
  {
    for i := 0 to nodes.Length
      invariant forall k | 0 <= k < i :: old(nodes[k]).Obj? && nodes[k] == NodeWithText(s, old(nodes[k]))
      invariant forall k | i <= k < nodes.Length :: nodes[k] == old(nodes[k])
    {
      if !nodes[i].Obj? {
        assert !old(nodes[..])[i].Obj?;
        return false;
      }
      if HasData(nodes[i]) {
        var data := new MutableDict(Data(nodes[i]));
        var value := Get(data.entries, "tools");
        if value.Arr? {
          var tools := new Json[|value.items|](k requires 0 <= k < |value.items| => value.items[k]);
          assert tools[..] == value.items;
          TextForTools(s, tools);
          data.Set("tools", Arr(tools[..]));
        }
        nodes[i] := WithData(nodes[i], data.entries);
      }
    }
    return true;
  }

  /** One round of the clearing loop. */
  method CleanOne(s: Setting, node: Json, previous: seq<Dict>, selected: string) returns (out: Json)
    requires selected == Selected(s)
    ensures out == CleanNode(s, node, previous)
  {
    if !HasData(node) { return node; }
    var data := new MutableDict(Data(node));
    var before := FindPreviousVersion(s, node.entries, previous);
    var was := if before.Some? then EntriesOf(Get(before.value, "data")) else [];
    CleanNodeData(s, Kind(node), data, was, selected);
    return WithData(node, data.entries);
  }

  /** The clearing loop over the copied nodes. */
  method CleanEach(s: Setting, nodes: array<Json>, previous: seq<Dict>)
    modifies nodes
    ensures forall k | 0 <= k < nodes.Length :: nodes[k] == CleanNode(s, old(nodes[k]), previous)
  {
    var selected := Selected(s);
    ghost var before := nodes[..];
    for i := 0 to nodes.Length
      invariant forall k | 0 <= k < i :: nodes[k] == CleanNode(s, before[k], previous)
      invariant forall k | i <= k < nodes.Length :: nodes[k] == before[k]
    {
      var cleaned := CleanOne(s, nodes[i], previous, selected);
      nodes[i] := cleaned;
    }
  }

  /** `_sanitize_generated_workflow_nodes` */
  method SanitizeGeneratedWorkflowNodes(s: Setting, nodes: seq<Json>, previousNodes: seq<Json>) returns (r: Outcome)
    ensures r == SanitizeAll(s, nodes, previousNodes)
  {
    var previous := KeepDicts(previousNodes);
    var sanitized := new Json[|nodes|](i requires 0 <= i < |nodes| => nodes[i]);
    CleanEach(s, sanitized, previous);
    ghost var cleaned := sanitized[..];
    assert forall k | 0 <= k < |nodes| :: cleaned[k].Obj? <==> nodes[k].Obj?;
    var ok := NormalizeAgentToolParameters(s, sanitized);
    if !ok { return AttributeError; }
    r := Ok(sanitized[..]);
    assert r.nodes == SanitizeAll(s, nodes, previousNodes).nodes;
  }

  method KeepDicts(nodes: seq<Json>) returns (out: seq<Dict>)
    ensures out == Dicts(nodes)
  {
    out := [];
    for i := 0 to |nodes|
      invariant out + Dicts(nodes[i..]) == Dicts(nodes)
    {
      if nodes[i].Obj? {
        out := out + [nodes[i].entries];
      }
    }
  }
}
