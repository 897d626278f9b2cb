/** Credentials on generated workflow nodes: `_sanitize_generated_workflow_nodes` and its helpers
    (backend/app/api/ai_assistant.py), with the node matcher of
    backend/app/services/generated_node_match.py. What the passes compute, on values.
 */
module CredentialSanitizer {
  import opened Json
  import opened Options

  type Dict = seq<Entry>

  // ---------------------------------------------------------------- dicts

  /** `d.get(key)`; a missing key reads as null. */
  function Get(d: Dict, key: string): Json {
    if d == [] then Null else if d[0].key == key then d[0].value else Get(d[1..], key)
  }

  /** `d[key] = value`: in place when the key is there, else at the end. */
  function Put(d: Dict, key: string, value: Json): Dict {
    if d == [] then [Entry(key, value)]
    else if d[0].key == key then [Entry(key, value)] + d[1..]
    else [d[0]] + Put(d[1..], key, value)
  }

  /** The text of a number that is zero: no digit but 0 before the exponent. */
  predicate Zero(text: string) {
    text == "" || text[0] == 'e' || text[0] == 'E' || ((text[0] == '0' || text[0] == '-' || text[0] == '.') && Zero(text[1..]))
  }

  predicate Truthy(v: Json) {
    match v
    case Null => false
    case Bool(b) => b
    case Num(text) => !Zero(text)
    case Str(s) => s != ""
    case Arr(items) => items != []
    case Obj(entries) => entries != []
  }

  /** `v or ""` */
  function OrEmpty(v: Json): Json { if Truthy(v) then v else Str("") }

  function EntriesOf(v: Json): Dict { if v.Obj? then v.entries else [] }

  function ItemsOf(v: Json): seq<Json> { if v.Arr? then v.items else [] }

  /** The values Python takes for false. */
  lemma FalsyIff(v: Json)
    ensures !Truthy(v) <==> v == Null || v == Bool(false) || v == Str("") || v == Arr([]) || v == Obj([]) || (v.Num? && ZeroDigits(v.text))
  {
    if v.Num? { ZeroIff(v.text); }
  }

  /** Up to its exponent, or its end, the number is written with zeros only. */
  ghost predicate ZeroDigits(text: string) { exists n :: ZeroUpTo(text, n) }

  ghost predicate ZeroUpTo(text: string, n: int) {
    && 0 <= n <= |text| && (n < |text| ==> text[n] in "eE")
    && forall i | 0 <= i < n :: text[i] in "0-."
  }

  lemma {:induction false} ZeroIff(text: string)
    ensures Zero(text) <==> ZeroDigits(text)
  {
    if text == "" || text[0] in "eE" {
      assert ZeroUpTo(text, 0);
    } else {
      var rest := text[1..];
      ZeroIff(rest);
      if n :| ZeroUpTo(text, n) {
        assert forall i | 0 <= i < n - 1 :: rest[i] == text[i + 1];
        assert ZeroUpTo(rest, n - 1);
      }
      if m :| ZeroUpTo(rest, m) && text[0] in "0-." {
        assert forall i | 1 <= i < m + 1 :: text[i] == rest[i - 1];
        assert ZeroUpTo(text, m + 1);
      }
    }
  }

  lemma {:induction false} GetPut(d: Dict, key: string, value: Json, other: string)
    ensures Get(Put(d, key, value), other) == if other == key then value else Get(d, other)
  {
    if d != [] && d[0].key != key {
      assert Put(d, key, value)[1..] == Put(d[1..], key, value);
      GetPut(d[1..], key, value, other);
    }
  }

  /** Writing what is there already changes nothing. */
  lemma {:induction false} PutSettled(d: Dict, key: string, value: Json)
    requires value != Null && Get(d, key) == value
    ensures Put(d, key, value) == d
  {
    if d[0].key != key { PutSettled(d[1..], key, value); }
  }

  // ---------------------------------------------------------------- what a pass is given

  /** The user's credentials and the chat's own, with the library functions the code calls. */
  datatype Setting = Setting(
    accessible: set<string>,
    selectedId: string,          // str(selected_credential.id)
    selectedIsModel: bool,       // its type is in LLM_CREDENTIAL_TYPES
    selectedModel: string,
    uuid: string -> Option<string>,  // str(uuid.UUID(s)), None for ValueError
    equal: (Json, Json) -> bool,     // == where the two are not both strings
    text: Json -> string,            // str(v) of a truthy value that is no string
    dumps: Json -> string)           // json.dumps

  predicate Same(s: Setting, a: Json, b: Json) { if a.Str? && b.Str? then a.s == b.s else s.equal(a, b) }

  /** `str.isspace` */
  predicate IsSpace(c: char) {
    || '\t' <= c <= '\r' || '\U{1c}' <= c <= ' ' || c == '\U{85}' || c == '\U{a0}' || c == '\U{1680}'
    || '\U{2000}' <= c <= '\U{200a}' || c == '\U{2028}' || c == '\U{2029}' || c == '\U{202f}'
    || c == '\U{205f}' || c == '\U{3000}'
  }

  lemma SpaceIff(c: char)
    ensures IsSpace(c) <==>
              c in "\t\n\U{b}\U{c}\r\U{1c}\U{1d}\U{1e}\U{1f} \U{85}\U{a0}\U{1680}\U{2000}\U{2001}\U{2002}\U{2003}\U{2004}\U{2005}\U{2006}\U{2007}\U{2008}\U{2009}\U{200a}\U{2028}\U{2029}\U{202f}\U{205f}\U{3000}"
  {
    var n := c as int;
    assert c == n as char;
  }

  /** Nothing but white space: `not s.strip()`. */
  predicate Blank(t: string) { forall c | c in t :: IsSpace(c) }

  /** `not str(v or "").strip()` */
  predicate BlankText(v: Json) { !Truthy(v) || (v.Str? && Blank(v.s)) }

  function LowerChar(c: char): char { if 'A' <= c <= 'Z' then c + 32 as char else c }

  function Lower(t: string): string { seq(|t|, i requires 0 <= i < |t| => LowerChar(t[i])) }

  predicate Contains(t: string, part: string) { exists i :: 0 <= i <= |t| - |part| && At(t, part, i) }

  predicate At(t: string, part: string, i: int)
    requires 0 <= i <= |t| - |part|
  {
    t[i..i + |part|] == part
  }

  const PLACEHOLDERS := [
    "YOUR_CREDENTIAL_ID", "credential-uuid", "llm-credential-uuid", "slack-credential-uuid",
    "telegram-credential-uuid", "imap-credential-uuid", "smtp-credential-uuid", "redis-credential-uuid",
    "grist-credential-uuid", "rabbitmq-credential-uuid", "flaresolverr-cred-id", "openai-cred-id",
    "google-drive-credential-uuid"]

  predicate Placeholder(id: string) {
    exists i :: 0 <= i < |PLACEHOLDERS| && Contains(Lower(id), Lower(PLACEHOLDERS[i]))
  }

  /** `not _is_placeholder_or_unowned_credential_id(v, accessible)` */
  predicate Usable(s: Setting, v: Json) {
    v.Str? && !Blank(v.s) && !Placeholder(v.s) && s.uuid(v.s).Some? && s.uuid(v.s).value in s.accessible
  }

  /** `_selected_llm_credential_id` */
  function Selected(s: Setting): string {
    if s.selectedIsModel && s.selectedId in s.accessible then s.selectedId else ""
  }

  /** A credential id as the database prints it. */
  predicate UuidChar(c: char) { '0' <= c <= '9' || 'a' <= c <= 'f' || c == '-' }

  lemma UuidCharIff(c: char)
    ensures UuidChar(c) <==> c in "0123456789abcdef-"
  {
    var n := c as int;
    assert c == n as char;
  }

  predicate Canonical(s: Setting, id: string) {
    id != "" && (forall c | c in id :: UuidChar(c)) && s.uuid(id) == Some(id)
  }

  /** The first or the second letter of a placeholder occurs in no credential id. */
  predicate Foreign(part: string) { |part| > 1 && (!UuidChar(LowerChar(part[0])) || !UuidChar(LowerChar(part[1]))) }

  lemma PlaceholdersAreForeign()
    ensures forall i | 0 <= i < |PLACEHOLDERS| :: Foreign(PLACEHOLDERS[i])
  {
  }

  lemma CanonicalIsNoPlaceholder(id: string)
    requires forall c | c in id :: UuidChar(c)
    ensures !Placeholder(id)
  {
    forall i | 0 <= i < |id|
      ensures LowerChar(id[i]) == id[i]
    {
      assert UuidChar(id[i]);
    }
    assert Lower(id) == id;
    PlaceholdersAreForeign();
    forall i | 0 <= i < |PLACEHOLDERS|
      ensures !Contains(id, Lower(PLACEHOLDERS[i]))
    {
      NoForeignPart(id, PLACEHOLDERS[i]);
    }
  }

  lemma NoForeignPart(id: string, part: string)
    requires (forall c | c in id :: UuidChar(c)) && Foreign(part)
    ensures !Contains(id, Lower(part))
  {
    var low := Lower(part);
    forall i | 0 <= i <= |id| - |low|
      ensures !At(id, low, i)
    {
      assert UuidChar(id[i]) && UuidChar(id[i + 1]);
      assert id[i..i + |low|][0] == id[i] && id[i..i + |low|][1] == id[i + 1];
      assert low[0] == LowerChar(part[0]) && low[1] == LowerChar(part[1]);
    }
  }

  // ---------------------------------------------------------------- which ids are usable

  /** The same letter, in upper or lower case. */
  predicate SameLetter(a: char, b: char) {
    a == b || ('A' <= a <= 'Z' && b == a + 32 as char) || ('A' <= b <= 'Z' && a == b + 32 as char)
  }

  predicate HoldsAt(t: string, part: string, at: int)
    requires 0 <= at <= |t| - |part|
  {
    forall k | 0 <= k < |part| :: SameLetter(t[at + k], part[k])
  }

  /** The id of a credential that the user owns or was shared, with no placeholder text in it. */
  predicate Owned(s: Setting, v: Json) {
    && v.Str? && s.uuid(v.s).Some? && s.uuid(v.s).value in s.accessible
    && forall i, at | 0 <= i < |PLACEHOLDERS| && 0 <= at <= |v.s| - |PLACEHOLDERS[i]| :: !HoldsAt(v.s, PLACEHOLDERS[i], at)
  }

  lemma HoldsAtIff(t: string, part: string, at: int)
    requires 0 <= at <= |t| - |part|
    ensures At(Lower(t), Lower(part), at) <==> HoldsAt(t, part, at)
  {
    var slice := Lower(t)[at..at + |part|];
    forall k | 0 <= k < |part| ensures slice[k] == Lower(part)[k] <==> SameLetter(t[at + k], part[k]) {
      assert slice[k] == LowerChar(t[at + k]);
    }
    if HoldsAt(t, part, at) { assert slice == Lower(part); }
  }

  lemma PlaceholderIff(id: string)
    ensures Placeholder(id) <==>
              exists i, at :: 0 <= i < |PLACEHOLDERS| && 0 <= at <= |id| - |PLACEHOLDERS[i]| && HoldsAt(id, PLACEHOLDERS[i], at)
  {
    forall i, at | 0 <= i < |PLACEHOLDERS| && 0 <= at <= |id| - |PLACEHOLDERS[i]|
      ensures At(Lower(id), Lower(PLACEHOLDERS[i]), at) <==> HoldsAt(id, PLACEHOLDERS[i], at)
    {
      HoldsAtIff(id, PLACEHOLDERS[i], at);
    }
    if i :| 0 <= i < |PLACEHOLDERS| && Contains(Lower(id), Lower(PLACEHOLDERS[i])) {
      var at :| 0 <= at <= |Lower(id)| - |Lower(PLACEHOLDERS[i])| && At(Lower(id), Lower(PLACEHOLDERS[i]), at);
      assert HoldsAt(id, PLACEHOLDERS[i], at);
    }
    if i, at :| 0 <= i < |PLACEHOLDERS| && 0 <= at <= |id| - |PLACEHOLDERS[i]| && HoldsAt(id, PLACEHOLDERS[i], at) {
      assert Contains(Lower(id), Lower(PLACEHOLDERS[i]));
    }
  }

  /** A usable value is one of the user's own credential ids, and every such id with a visible
      character in it is usable. */
  lemma UsableIff(s: Setting, v: Json)
    ensures Usable(s, v) <==> Owned(s, v) && exists i :: 0 <= i < |v.s| && !IsSpace(v.s[i])
  {
    if v.Str? { PlaceholderIff(v.s); }
  }

  /** In particular the id of an accessible credential as the database prints it. */
  lemma AccessibleIsUsable(s: Setting, id: string)
    requires Canonical(s, id) && id in s.accessible
    ensures Usable(s, Str(id))
  {
    CanonicalIsNoPlaceholder(id);
    assert UuidChar(id[0]) && id[0] in id;
  }

  /** The chat's own credential is offered to nodes only when they may use it. */
  lemma SelectedIsUsable(s: Setting)
    requires Canonical(s, s.selectedId)
    ensures Selected(s) == "" || Usable(s, Str(Selected(s)))
  {
    CanonicalIsNoPlaceholder(s.selectedId);
    assert UuidChar(s.selectedId[0]) && s.selectedId[0] in s.selectedId;
  }

  // ---------------------------------------------------------------- the previous version

  predicate SameType(s: Setting, a: Dict, b: Dict) { Same(s, Get(a, "type"), Get(b, "type")) }

  predicate SameId(s: Setting, a: Dict, b: Dict) { Same(s, Get(a, "id"), Get(b, "id")) }

  /** `node_label` */
  function Label(s: Setting, node: Dict): string {
    var text := Get(EntriesOf(Get(node, "data")), "label");
    if !Truthy(text) then "" else if text.Str? then text.s else s.text(text)
  }

  predicate MatchesById(s: Setting, was: Dict, node: Dict) { SameId(s, was, node) && SameType(s, was, node) }

  predicate MatchesByLabel(s: Setting, was: Dict, node: Dict) { SameType(s, was, node) && Label(s, was) == Label(s, node) }

  function FirstById(s: Setting, node: Dict, previous: seq<Dict>): Option<Dict> {
    if previous == [] then None
    else if MatchesById(s, previous[0], node) then Some(previous[0])
    else FirstById(s, node, previous[1..])
  }

  function FirstByLabel(s: Setting, node: Dict, previous: seq<Dict>): Option<Dict> {
    if previous == [] then None
    else if MatchesByLabel(s, previous[0], node) then Some(previous[0])
    else FirstByLabel(s, node, previous[1..])
  }

  /** `previous_node_version` */
  function PreviousVersion(s: Setting, node: Dict, previous: seq<Dict>): Option<Dict> {
    var found := FirstById(s, node, previous);
    if found.Some? then found
    else if Label(s, node) == "" then None
    else FirstByLabel(s, node, previous)
  }

  /** The data of the version a node replaces; empty for a new node. */
  function OldData(s: Setting, node: Dict, previous: seq<Dict>): Dict {
    var before := PreviousVersion(s, node, previous);
    if before.Some? then EntriesOf(Get(before.value, "data")) else []
  }

  predicate Alike(s: Setting, a: Dict, b: Dict) {
    Get(a, "id") == Get(b, "id") && Get(a, "type") == Get(b, "type") && Label(s, a) == Label(s, b)
  }

  lemma {:induction false} AlikeFound(s: Setting, a: Dict, b: Dict, previous: seq<Dict>)
    requires Alike(s, a, b)
    ensures FirstById(s, a, previous) == FirstById(s, b, previous)
    ensures FirstByLabel(s, a, previous) == FirstByLabel(s, b, previous)
  {
    if previous != [] { AlikeFound(s, a, b, previous[1..]); }
  }

  // ---------------------------------------------------------------- one field

  /** The field already held that exact value. */
  predicate Kept(s: Setting, v: Json, was: Json) { Truthy(was) && Same(s, v, was) }

  /** What a cleared field may hold. */
  predicate Allowed(s: Setting, v: Json, was: Json) { !Truthy(v) || Kept(s, v, was) || Usable(s, v) }

  /** `_clear_unowned_credential_field` */
  function Cleared(s: Setting, d: Dict, field: string, was: Json): Dict {
    if Allowed(s, Get(d, field), was) then d else Put(d, field, Str(""))
  }

  /** A cleared credential takes its model with it. */
  function ClearedPair(s: Setting, d: Dict, field: string, model: string, was: Json): Dict {
    var c := Cleared(s, d, field, was);
    if Truthy(Get(c, field)) then c else Put(c, model, Str(""))
  }

  predicate PairSettled(s: Setting, d: Dict, field: string, model: string, was: Json) {
    && Allowed(s, Get(d, field), was)
    && (!Truthy(Get(d, field)) ==> Get(d, model) == Str(""))
  }

  /** A field is left alone when it may stay, and is empty otherwise; nothing else moves. */
  lemma PairCleared(s: Setting, d: Dict, field: string, model: string, was: Json, other: string)
    requires field != model
    ensures var out := ClearedPair(s, d, field, model, was);
            && PairSettled(s, out, field, model, was)
            && Get(out, field) == (if Allowed(s, Get(d, field), was) then Get(d, field) else Str(""))
            && (other != field && other != model ==> Get(out, other) == Get(d, other))
            && (Truthy(Get(out, field)) ==> Get(out, model) == Get(d, model))
  {
    var c := Cleared(s, d, field, was);
    GetPut(d, field, Str(""), field);
    GetPut(d, field, Str(""), model);
    GetPut(d, field, Str(""), other);
    GetPut(c, model, Str(""), field);
    GetPut(c, model, Str(""), model);
    GetPut(c, model, Str(""), other);
  }

  lemma PairSettledStays(s: Setting, d: Dict, field: string, model: string, was: Json)
    requires PairSettled(s, d, field, model, was)
    ensures ClearedPair(s, d, field, model, was) == d
  {
    if !Truthy(Get(d, field)) { PutSettled(d, model, Str("")); }
  }

  // ---------------------------------------------------------------- the model credential

  /** `_fill_model_credential` */
  function Filled(s: Setting, d: Dict, was: Dict): Dict {
    var oldId, id := Get(was, "credentialId"), Get(d, "credentialId");
    if Kept(s, id, oldId) then
      if BlankText(Get(d, "model")) then Put(d, "model", OrEmpty(Get(was, "model"))) else d
    else if Usable(s, id) then
      if Selected(s) != "" && BlankText(Get(d, "model")) then Put(d, "model", Str(s.selectedModel)) else d
    else if Truthy(oldId) then
      Put(Put(d, "credentialId", oldId), "model", OrEmpty(Get(was, "model")))
    else if Selected(s) != "" then
      Put(Put(d, "credentialId", Str(Selected(s))), "model", Str(s.selectedModel))
    else Put(d, "credentialId", Str(""))
  }

  /** The credential a node ends with: its own if it may stay, else its earlier one, else the chat's. */
  function ModelCredential(s: Setting, id: Json, oldId: Json): Json {
    if Kept(s, id, oldId) || Usable(s, id) then id
    else if Truthy(oldId) then oldId
    else Str(Selected(s))
  }

  predicate ModelSettled(s: Setting, d: Dict, was: Dict) {
    var oldId, id, model := Get(was, "credentialId"), Get(d, "credentialId"), Get(d, "model");
    && id == ModelCredential(s, id, oldId)
    && (if Kept(s, id, oldId) then BlankText(model) ==> model == OrEmpty(Get(was, "model"))
        else if Usable(s, id) then Selected(s) != "" && BlankText(model) ==> model == Str(s.selectedModel)
        else if Truthy(oldId) then model == OrEmpty(Get(was, "model"))
        else Selected(s) != "" ==> model == Str(s.selectedModel))
  }

  /** A model credential is usable, or the very one the node had, or empty. */
  lemma FilledIsAllowed(s: Setting, d: Dict, was: Dict)
    requires Canonical(s, s.selectedId)
    ensures var id := Get(Filled(s, d, was), "credentialId");
            !Truthy(id) || Owned(s, id) || (Truthy(Get(was, "credentialId")) && (id == Get(was, "credentialId") || Same(s, id, Get(was, "credentialId"))))
  {
    FilledSettles(s, d, was, "");
    SelectedIsUsable(s);
    UsableIff(s, Get(Filled(s, d, was), "credentialId"));
  }

  lemma FilledSettles(s: Setting, d: Dict, was: Dict, other: string)
    ensures var out := Filled(s, d, was);
            && Get(out, "credentialId") == ModelCredential(s, Get(d, "credentialId"), Get(was, "credentialId"))
            && ModelSettled(s, out, was)
            && (other != "credentialId" && other != "model" ==> Get(out, other) == Get(d, other))
  {
    FilledGets(s, d, was, "credentialId");
    FilledGets(s, d, was, "model");
    FilledGets(s, d, was, other);
  }

  /** What one key of a filled node reads. */
  lemma FilledGets(s: Setting, d: Dict, was: Dict, key: string)
    ensures var oldId, id := Get(was, "credentialId"), Get(d, "credentialId");
            Get(Filled(s, d, was), key) ==
              if key == "credentialId" then ModelCredential(s, id, oldId)
              else if key != "model" then Get(d, key)
              else FilledModel(s, id, Get(d, "model"), oldId, Get(was, "model"))
  {
    var oldId := Get(was, "credentialId");
    GetPut(d, "model", OrEmpty(Get(was, "model")), key);
    GetPut(d, "model", Str(s.selectedModel), key);
    GetPut(d, "credentialId", oldId, key);
    GetPut(Put(d, "credentialId", oldId), "model", OrEmpty(Get(was, "model")), key);
    GetPut(d, "credentialId", Str(Selected(s)), key);
    GetPut(Put(d, "credentialId", Str(Selected(s))), "model", Str(s.selectedModel), key);
  }

  function FilledModel(s: Setting, id: Json, model: Json, oldId: Json, oldModel: Json): Json {
    if Kept(s, id, oldId) then if BlankText(model) then OrEmpty(oldModel) else model
    else if Usable(s, id) then if Selected(s) != "" && BlankText(model) then Str(s.selectedModel) else model
    else if Truthy(oldId) then OrEmpty(oldModel)
    else if Selected(s) != "" then Str(s.selectedModel)
    else model
  }

  lemma ModelSettledStays(s: Setting, d: Dict, was: Dict)
    requires ModelSettled(s, d, was)
    ensures Filled(s, d, was) == d
  {
    var oldId, id, model := Get(was, "credentialId"), Get(d, "credentialId"), Get(d, "model");
    if id != Null { PutSettled(d, "credentialId", id); }
    if model != Null { PutSettled(d, "model", model); }
  }
}
