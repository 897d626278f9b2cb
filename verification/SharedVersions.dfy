/** Which version a generated node replaces, and when two nodes replace the same one: the promise of
    `_sanitize_generated_workflow_nodes` that a kept credential never moves to another node.
 */
module SharedVersions {
  import opened Json
  import opened Options
  import opened CredentialSanitizer
  import opened GeneratedNodes

  /** The first version with the node's id and type. */
  function IdIndex(s: Setting, node: Dict, previous: seq<Dict>): (at: Option<nat>)
    ensures at.Some? ==> at.value < |previous| && MatchesById(s, previous[at.value], node)
    ensures forall i | 0 <= i < (if at.Some? then at.value else |previous|) :: !MatchesById(s, previous[i], node)
    ensures FirstById(s, node, previous) == if at.Some? then Some(previous[at.value]) else None
  {
    if previous == [] then None
    else if MatchesById(s, previous[0], node) then Some(0)
    else match IdIndex(s, node, previous[1..])
      case None => None
      case Some(i) => Some(i + 1)
  }

  /** The first version with the node's label and type. */
  function LabelIndex(s: Setting, node: Dict, previous: seq<Dict>): (at: Option<nat>)
    ensures at.Some? ==> at.value < |previous| && MatchesByLabel(s, previous[at.value], node)
    ensures forall i | 0 <= i < (if at.Some? then at.value else |previous|) :: !MatchesByLabel(s, previous[i], node)
    ensures FirstByLabel(s, node, previous) == if at.Some? then Some(previous[at.value]) else None
  {
    if previous == [] then None
    else if MatchesByLabel(s, previous[0], node) then Some(0)
    else match LabelIndex(s, node, previous[1..])
      case None => None
      case Some(i) => Some(i + 1)
  }

  /** The place of the version a node replaces. */
  function Replaced(s: Setting, node: Dict, previous: seq<Dict>): (at: Option<nat>)
    ensures at.Some? ==> at.value < |previous|
    ensures PreviousVersion(s, node, previous) == if at.Some? then Some(previous[at.value]) else None
  {
    if IdIndex(s, node, previous).Some? then IdIndex(s, node, previous)
    else if Label(s, node) == "" then None
    else LabelIndex(s, node, previous)
  }

  predicate Share(s: Setting, a: Dict, b: Dict, previous: seq<Dict>) {
    Replaced(s, a, previous).Some? && Replaced(s, a, previous) == Replaced(s, b, previous)
  }

  /** What `==` gives on the values of a workflow: equal to a common value is equal. (A NaN need not
      equal itself.) */
  ghost predicate Equality(s: Setting) {
    && (forall x, y :: Same(s, x, y) ==> Same(s, y, x))
    && (forall x, y, z :: Same(s, x, y) && Same(s, y, z) ==> Same(s, x, z))
  }

  predicate KnownById(s: Setting, node: Dict, previous: seq<Dict>) { IdIndex(s, node, previous).Some? }

  /** `b` is new by its id and carries the label of the version that `a` replaces by its id, with no
      earlier version of that label and type. */
  predicate TakesLabel(s: Setting, a: Dict, b: Dict, previous: seq<Dict>) {
    && KnownById(s, a, previous) && !KnownById(s, b, previous) && Label(s, b) != ""
    && LabelIndex(s, b, previous) == IdIndex(s, a, previous)
  }

  /** Two nodes replace one version exactly when they have the same known id and type, or are both
      new by id and have the same known label and type, or one has taken the label of the other's. */
  lemma SharedVersionIff(s: Setting, a: Dict, b: Dict, previous: seq<Dict>)
    requires Equality(s)
    ensures Share(s, a, b, previous) <==>
              if KnownById(s, a, previous) && KnownById(s, b, previous)
              then SameId(s, a, b) && SameType(s, a, b)
              else if !KnownById(s, a, previous) && !KnownById(s, b, previous)
              then Label(s, a) == Label(s, b) != "" && SameType(s, a, b) && LabelIndex(s, a, previous).Some?
              else TakesLabel(s, a, b, previous) || TakesLabel(s, b, a, previous)
  {
    if SameType(s, a, b) {
      if SameId(s, a, b) { SameIdIndex(s, a, b, previous); }
      if Label(s, a) == Label(s, b) { SameLabelIndex(s, a, b, previous); }
    }
    if Share(s, a, b, previous) {
      var version := previous[Replaced(s, a, previous).value];
      CommonType(s, version, a, b);
      if SameId(s, version, a) && SameId(s, version, b) { CommonId(s, version, a, b); }
    }
  }

  lemma CommonType(s: Setting, version: Dict, a: Dict, b: Dict)
    requires Equality(s) && SameType(s, version, a) && SameType(s, version, b)
    ensures SameType(s, a, b)
  {
    assert Same(s, Get(a, "type"), Get(version, "type"));
  }

  lemma CommonId(s: Setting, version: Dict, a: Dict, b: Dict)
    requires Equality(s) && SameId(s, version, a) && SameId(s, version, b)
    ensures SameId(s, a, b)
  {
    assert Same(s, Get(a, "id"), Get(version, "id"));
  }

  lemma {:induction false} SameIdIndex(s: Setting, a: Dict, b: Dict, previous: seq<Dict>)
    requires Equality(s) && SameId(s, a, b) && SameType(s, a, b)
    ensures IdIndex(s, a, previous) == IdIndex(s, b, previous)
  {
    if previous != [] {
      SameTypeMatch(s, previous[0], a, b);
      SameIdMatch(s, previous[0], a, b);
      SameIdIndex(s, a, b, previous[1..]);
    }
  }

  lemma {:induction false} SameLabelIndex(s: Setting, a: Dict, b: Dict, previous: seq<Dict>)
    requires Equality(s) && Label(s, a) == Label(s, b) && SameType(s, a, b)
    ensures LabelIndex(s, a, previous) == LabelIndex(s, b, previous)
  {
    if previous != [] {
      SameTypeMatch(s, previous[0], a, b);
      SameLabelIndex(s, a, b, previous[1..]);
    }
  }

  lemma SameTypeMatch(s: Setting, version: Dict, a: Dict, b: Dict)
    requires Equality(s) && SameType(s, a, b)
    ensures SameType(s, version, a) <==> SameType(s, version, b)
  {
    assert Same(s, Get(b, "type"), Get(a, "type"));
  }

  lemma SameIdMatch(s: Setting, version: Dict, a: Dict, b: Dict)
    requires Equality(s) && SameId(s, a, b)
    ensures SameId(s, version, a) <==> SameId(s, version, b)
  {
    assert Same(s, Get(b, "id"), Get(a, "id"));
  }

  // ---------------------------------------------------------------- kept values

  /** After the pass the field holds a credential that its user may not use. */
  predicate Keeps(s: Setting, node: Json, field: string)
    requires HasData(node)
  {
    Truthy(Get(Data(node), field)) && !Usable(s, Get(Data(node), field))
  }

  /** Seen before the pass, whether the field will keep a credential its user may not use. A model
      node's own credential comes back from its version even when the node lost it. */
  predicate KeptOnInput(s: Setting, node: Json, previous: seq<Dict>, field: string)
    requires HasData(node)
  {
    var v, was := Get(Data(node), field), Get(OldData(s, node.entries, previous), field);
    if IsModelNode(Kind(node)) && field == "credentialId" && !Kept(s, v, was)
    then Truthy(was) && !Usable(s, was) && !Usable(s, v)
    else Truthy(v) && !Usable(s, v) && Kept(s, v, was)
  }

  /** The field holds a credential its user may not use, and it is the one that the same field of
      the node's own version held. */
  predicate HoldsItsOwn(s: Setting, node: Json, previous: seq<Dict>, field: string)
    requires HasData(node)
  {
    var out, at := Sanitize(s, node, previous), Replaced(s, node.entries, previous);
    && HasData(out) && Keeps(s, out, field) && at.Some?
    && var was, now := Get(EntriesOf(Get(previous[at.value], "data")), field), Get(Data(out), field);
       Truthy(was) && (now == was || Same(s, now, was))
  }

  /** The pass leaves a credential its user may not use exactly when the input says so, and then it
      is the own version's, of the same field. */
  lemma KeepsIff(s: Setting, node: Json, previous: seq<Dict>, field: string)
    requires Canonical(s, s.selectedId) && HasData(node) && CredentialField(Kind(node), field)
    ensures var out := Sanitize(s, node, previous);
            HasData(out) && (Keeps(s, out, field) <==> KeptOnInput(s, node, previous, field))
    ensures HoldsItsOwn(s, node, previous, field) <==> KeptOnInput(s, node, previous, field)
  {
    FieldIs(s, node, previous, field);
    SelectedIsUsable(s);
    if Replaced(s, node.entries, previous).None? { assert Get(OldData(s, node.entries, previous), field) == Null; }
  }

  /** No two of the nodes replace the same version. */
  predicate Unshared(s: Setting, nodes: seq<Json>, previous: seq<Dict>)
    requires AllDicts(nodes)
  {
    forall i, j | 0 <= i < j < |nodes| :: !Share(s, nodes[i].entries, nodes[j].entries, previous)
  }

  /** Then a kept value never moves to another node: what two nodes keep in a field comes from two
      versions, each node's own. */
  lemma KeptValuesNeverMove(s: Setting, nodes: seq<Json>, previousNodes: seq<Json>, i: nat, j: nat, field: string)
    requires Canonical(s, s.selectedId) && AllDicts(nodes) && Unshared(s, nodes, Dicts(previousNodes))
    requires i < j < |nodes| && HasData(nodes[i]) && HasData(nodes[j])
    requires CredentialField(Kind(nodes[i]), field) && CredentialField(Kind(nodes[j]), field)
    ensures var out, previous := SanitizeAll(s, nodes, previousNodes).nodes, Dicts(previousNodes);
            HasData(out[i]) && HasData(out[j]) &&
            (Keeps(s, out[i], field) && Keeps(s, out[j], field) ==>
               && HoldsItsOwn(s, nodes[i], previous, field) && HoldsItsOwn(s, nodes[j], previous, field)
               && Replaced(s, nodes[i].entries, previous) != Replaced(s, nodes[j].entries, previous))
  {
    var previous := Dicts(previousNodes);
    KeepsIff(s, nodes[i], previous, field);
    KeepsIff(s, nodes[j], previous, field);
    assert !Share(s, nodes[i].entries, nodes[j].entries, previous);
  }

  /** Two nodes that replace one version. */
  predicate Pair(s: Setting, nodes: seq<Json>, previous: seq<Dict>, i: int, j: int, field: string)
    requires AllDicts(nodes)
  {
    && 0 <= i < j < |nodes| && HasData(nodes[i]) && HasData(nodes[j])
    && CredentialField(Kind(nodes[i]), field) && CredentialField(Kind(nodes[j]), field)
    && Share(s, nodes[i].entries, nodes[j].entries, previous)
  }

  /** The pass puts one version's credential, which its user may not use, on two nodes. */
  ghost predicate Moves(s: Setting, nodes: seq<Json>, previous: seq<Dict>)
    requires AllDicts(nodes)
  {
    exists i, j, field :: Pair(s, nodes, previous, i, j, field)
      && HoldsItsOwn(s, nodes[i], previous, field) && HoldsItsOwn(s, nodes[j], previous, field)
  }

  /** The same, seen before the pass. */
  ghost predicate MovesOnInput(s: Setting, nodes: seq<Json>, previous: seq<Dict>)
    requires AllDicts(nodes)
  {
    exists i, j, field :: Pair(s, nodes, previous, i, j, field)
      && KeptOnInput(s, nodes[i], previous, field) && KeptOnInput(s, nodes[j], previous, field)
  }

  /** A kept value moves to another node exactly when two nodes that replace one version both come
      in with it, or with a model credential that the pass restores from there. */
  lemma KeptValueMovesIff(s: Setting, nodes: seq<Json>, previousNodes: seq<Json>)
    requires Canonical(s, s.selectedId) && AllDicts(nodes)
    ensures Moves(s, nodes, Dicts(previousNodes)) <==> MovesOnInput(s, nodes, Dicts(previousNodes))
    ensures forall i | 0 <= i < |nodes| ::
              SanitizeAll(s, nodes, previousNodes).nodes[i] == Sanitize(s, nodes[i], Dicts(previousNodes))
  {
    var previous := Dicts(previousNodes);
    forall i, j, field | Pair(s, nodes, previous, i, j, field)
      ensures HoldsItsOwn(s, nodes[i], previous, field) <==> KeptOnInput(s, nodes[i], previous, field)
      ensures HoldsItsOwn(s, nodes[j], previous, field) <==> KeptOnInput(s, nodes[j], previous, field)
    {
      KeepsIff(s, nodes[i], previous, field);
      KeepsIff(s, nodes[j], previous, field);
    }
  }

  /** For example a node known by its id and a new one with the version's label both keep the
      version's credential, whoever's it is. */
  lemma OneVersionTwoNodes(s: Setting, credential: string) returns (version: Json, a: Json, b: Json)
    requires credential != ""
    ensures HasData(a) && HasData(b) && version.Obj? && Share(s, a.entries, b.entries, [version.entries])
    ensures var out := SanitizeAll(s, [a, b], [version]);
            && out.Ok? && HasData(out.nodes[0]) && HasData(out.nodes[1])
            && Get(Data(out.nodes[0]), "fallbackCredentialId") == Str(credential)
            && Get(Data(out.nodes[1]), "fallbackCredentialId") == Str(credential)
  {
    version, a, b := LlmNode("1", "first", credential), LlmNode("1", "renamed", credential), LlmNode("2", "first", credential);
    LlmNodeReads("1", "first", credential);
    LlmNodeReads("1", "renamed", credential);
    LlmNodeReads("2", "first", credential);
    OnlyVersion(s, version, a);
    OnlyVersion(s, version, b);
    assert Dicts([version]) == [version.entries] by { assert [version][1..] == []; }
    KeptField(s, a, [version.entries], credential);
    KeptField(s, b, [version.entries], credential);
  }

  /** A list of one version that matches. */
  lemma OnlyVersion(s: Setting, version: Json, node: Json)
    requires HasData(version) && HasData(node)
    requires MatchesById(s, version.entries, node.entries)
          || (MatchesByLabel(s, version.entries, node.entries) && Label(s, node.entries) != "")
    ensures Replaced(s, node.entries, [version.entries]) == Some(0)
    ensures OldData(s, node.entries, [version.entries]) == Data(version)
  {
    assert [version.entries][0] == version.entries;
    assert Replaced(s, node.entries, [version.entries]).Some?;
  }

  function LlmNode(id: string, text: string, credential: string): Json {
    Obj(Put(Put([Entry("id", Str(id))], "type", Str("llm")), "data", LlmData(text, credential)))
  }

  function LlmData(text: string, credential: string): Json {
    Obj(Put([Entry("label", Str(text))], "fallbackCredentialId", Str(credential)))
  }

  lemma LlmNodeReads(id: string, text: string, credential: string)
    ensures var node := LlmNode(id, text, credential);
            && Get(node.entries, "id") == Str(id) && Get(node.entries, "type") == Str("llm") && HasData(node)
            && Get(Data(node), "label") == Str(text) && Get(Data(node), "fallbackCredentialId") == Str(credential)
  {
    var typed := Put([Entry("id", Str(id))], "type", Str("llm"));
    GetPut([Entry("id", Str(id))], "type", Str("llm"), "id");
    GetPut([Entry("id", Str(id))], "type", Str("llm"), "type");
    GetPut(typed, "data", LlmData(text, credential), "id");
    GetPut(typed, "data", LlmData(text, credential), "type");
    GetPut(typed, "data", LlmData(text, credential), "data");
    GetPut([Entry("label", Str(text))], "fallbackCredentialId", Str(credential), "label");
    GetPut([Entry("label", Str(text))], "fallbackCredentialId", Str(credential), "fallbackCredentialId");
  }

  lemma KeptField(s: Setting, node: Json, previous: seq<Dict>, credential: string)
    requires credential != "" && HasData(node) && Kind(node) == Str("llm")
    requires Get(Data(node), "fallbackCredentialId") == Str(credential)
    requires Get(OldData(s, node.entries, previous), "fallbackCredentialId") == Str(credential)
    ensures var out := Sanitize(s, node, previous);
            HasData(out) && Get(Data(out), "fallbackCredentialId") == Str(credential)
  {
    var was := OldData(s, node.entries, previous);
    SanitizedData(s, node, previous);
    ModelNodeFields(s, Data(node), was);
    TextFrame(s, CleanData(s, Kind(node), Data(node), was), "fallbackCredentialId");
  }
}
