/** The startup key check (backend/app/key_check.py): any number of main and worker processes,
    each with its own keys, check and at most once record this database's key.

    A ciphertext is the key it was made with and its plaintext; a process decrypts what any of
    its keys made and encrypts with its first. Steps are the stretches between two awaits.
 */
module KeyCheck {
  import opened Options

  type Key = string

  datatype Token = Token(key: Key, plaintext: string)

  /** A credential row: `secretBacked` when its value lives in a Secret. */
  datatype Stored = Stored(secretBacked: bool, token: Option<Token>)

  datatype Refusal = RetiredPrimary | WrongKeys | LostRace

  datatype Verdict = NotMigrated | NotRecordedYet | Matches | Recorded | Accepted | Refused(why: Refusal)

  datatype Pc =
    | AtTables
    | AtRotations
    | AtCanary
    | AtSample
    | AtReplace
    | AtInsert(sample: seq<Token>)
    | AtReread
    | Finished(verdict: Verdict)

  /** `keys` is never empty: the primary is always there. */
  datatype Process = Process(keys: seq<Key>, main: bool, accept: bool, pc: Pc)

  /** `author` is who last wrote the canary, and the values it had sampled. */
  datatype State = State(migrated: bool, canary: Option<Token>, retired: set<string>,
                         credentials: seq<Stored>, sso: Option<Token>, processes: seq<Process>,
                         author: Option<(Process, seq<Token>)>)

  datatype Action =
    | Step(p: nat)
    | StartProcess(keys: seq<Key>, main: bool, accept: bool)
    | Migrate
    | CompleteRotation(fingerprints: set<string>)
    | RewriteCanary(leader: seq<Key>)
    | StoreValues(credentials: seq<Stored>, sso: Option<Token>)

  const SEED_SAMPLE_SIZE := 20
  const CANARY_VALUE := "encryption-canary"

  /** A key's fingerprint, as `identity.primary_fingerprint` computes it. */
  type Digest = Key -> string

  predicate Decrypts(keys: seq<Key>, t: Token) { t.key in keys }

  predicate AnyDecrypts(keys: seq<Key>, sample: seq<Token>) { exists t :: t in sample && Decrypts(keys, t) }

  function Plain(rows: seq<Stored>): seq<Stored> {
    if rows == [] then []
    else if rows[0].secretBacked then Plain(rows[1..])
    else [rows[0]] + Plain(rows[1..])
  }

  function Tokens(rows: seq<Stored>): seq<Token> {
    if rows == [] then []
    else (if rows[0].token.Some? then [rows[0].token.value] else []) + Tokens(rows[1..])
  }

  /** `_sample_tokens`: the newest plain credentials (newest first), then the SSO secret. */
  function Sample(credentials: seq<Stored>, sso: Option<Token>): seq<Token> {
    var plain := Plain(credentials);
    Tokens(if |plain| <= SEED_SAMPLE_SIZE then plain else plain[..SEED_SAMPLE_SIZE])
    + if sso.Some? then [sso.value] else []
  }

  // ---------------------------------------------------------------- one process's steps

  function CanaryOf(p: Process): Token
    requires p.keys != []
  {
    Token(p.keys[0], CANARY_VALUE)
  }

  /** What `check` and `_check_worker` decide from the canary they read. */
  function AfterCanary(p: Process, canary: Option<Token>): Pc {
    if !p.main then
      if canary.None? then Finished(NotRecordedYet)
      else if Decrypts(p.keys, canary.value) then Finished(Matches)
      else Finished(Refused(WrongKeys))
    else if canary.Some? then
      if Decrypts(p.keys, canary.value) then Finished(Matches)
      else if !p.accept then Finished(Refused(WrongKeys))
      else AtReplace
    else AtSample
  }

  function AfterSample(p: Process, sample: seq<Token>): Pc {
    if sample != [] && !AnyDecrypts(p.keys, sample) && !p.accept then Finished(Refused(WrongKeys))
    else AtInsert(sample)
  }

  function AfterReread(p: Process, canary: Option<Token>): Pc {
    if canary.None? || !Decrypts(p.keys, canary.value) then Finished(Refused(LostRace)) else Finished(Recorded)
  }

  predicate Enabled(s: State, a: Action) {
    match a
    case Step(p) => p < |s.processes| && s.processes[p].keys != [] && !s.processes[p].pc.Finished?
    case StartProcess(keys, _, _) => keys != []
    case Migrate => !s.migrated
    case CompleteRotation(_) => true
    case RewriteCanary(leader) => leader != [] && s.canary.Some? && Decrypts(leader, s.canary.value)
    case StoreValues(_, _) => true
  }

  function Moved(s: State, p: nat, pc: Pc): State
    requires p < |s.processes|
  {
    s.(processes := s.processes[p := s.processes[p].(pc := pc)])
  }

  function Stepped(digest: Digest, s: State, p: nat): State
    requires Enabled(s, Step(p))
  {
    var me := s.processes[p];
    match me.pc
    case AtTables => Moved(s, p, if s.migrated then AtRotations else Finished(NotMigrated))
    case AtRotations =>
      Moved(s, p, if digest(me.keys[0]) in s.retired then Finished(Refused(RetiredPrimary)) else AtCanary)
    case AtCanary => Moved(s, p, AfterCanary(me, s.canary))
    case AtSample => Moved(s, p, AfterSample(me, Sample(s.credentials, s.sso)))
    case AtReplace => Moved(s, p, Finished(Accepted)).(canary := Some(CanaryOf(me)), author := Some((me, [])))
    case AtInsert(sample) =>
      if s.canary.Some? then Moved(s, p, AtReread)
      else Moved(s, p, AtReread).(canary := Some(CanaryOf(me)), author := Some((me, sample)))
    case AtReread => Moved(s, p, AfterReread(me, s.canary))
  }

  function Apply(digest: Digest, s: State, a: Action): State
    requires Enabled(s, a)
  {
    match a
    case Step(p) => Stepped(digest, s, p)
    case StartProcess(keys, main, accept) => s.(processes := s.processes + [Process(keys, main, accept, AtTables)])
    case Migrate => s.(migrated := true)
    case CompleteRotation(fingerprints) => s.(retired := s.retired + fingerprints)
    case RewriteCanary(leader) => s.(canary := Some(Token(leader[0], s.canary.value.plaintext)))
    case StoreValues(credentials, sso) => s.(credentials := credentials, sso := sso)
  }

  ghost predicate IsRun(digest: Digest, s: State, actions: seq<Action>, end: State)
    decreases |actions|
  {
    if actions == [] then s == end
    else Enabled(s, actions[0]) && IsRun(digest, Apply(digest, s, actions[0]), actions[1..], end)
  }

  /** What the starting processes find: migrated tables once somebody migrated them, and the
      fingerprints that completed rotations retired. */
  lemma {:induction false} SurroundingsAre(digest: Digest, s: State, actions: seq<Action>, end: State)
    requires IsRun(digest, s, actions, end)
    ensures end.migrated <==> s.migrated || Migrate in actions
    ensures forall f :: f in end.retired <==> f in s.retired || exists a | a in actions :: a.CompleteRotation? && f in a.fingerprints
    decreases |actions|
  {
    if actions != [] {
      SurroundingsAre(digest, Apply(digest, s, actions[0]), actions[1..], end);
      assert forall a :: a in actions <==> a == actions[0] || a in actions[1..];
    }
  }

  /** No start uses the accept flag, and no key rotation rewrites the canary meanwhile. */
  predicate Quiet(actions: seq<Action>) {
    forall a | a in actions :: !a.RewriteCanary? && (a.StartProcess? ==> !a.accept)
  }

  ghost predicate Empty(s: State) { s.canary.None? && s.processes == [] && s.author.None? }

  // ---------------------------------------------------------------- what quiet runs keep

  predicate Passed(v: Verdict) { v.Matches? || v.Recorded? }

  /** Nobody uses the accept flag; a process past its sample may record; whoever passed holds
      the canary's key; and the canary is its author's primary key. */
  ghost predicate Inv(s: State) {
    && (forall i | 0 <= i < |s.processes| :: ProcessInv(s.processes[i], s.canary, s.migrated))
    && CanaryInv(s)
  }

  ghost predicate CanaryInv(s: State) {
    s.canary.Some? ==>
      && s.migrated && s.author.Some? && s.author.value.0.keys != []
      && s.canary.value == CanaryOf(s.author.value.0) && s.author.value.0.main
      && MayRecord(s.author.value.0, s.author.value.1)
  }

  ghost predicate MayRecord(p: Process, sample: seq<Token>) { sample == [] || AnyDecrypts(p.keys, sample) }

  ghost predicate ProcessInv(p: Process, canary: Option<Token>, migrated: bool) {
    && p.keys != [] && !p.accept
    && match p.pc
       case AtTables => true
       case AtRotations => migrated
       case AtCanary => migrated
       case AtSample => migrated && p.main
       case AtReplace => false
       case AtInsert(sample) => migrated && p.main && MayRecord(p, sample)
       case AtReread => p.main && canary.Some?
       case Finished(v) => (Passed(v) ==> canary.Some? && Decrypts(p.keys, canary.value)) && !v.Accepted?
  }

  /** The process that moves keeps its invariant. */
  lemma OwnStep(digest: Digest, s: State, p: nat)
    requires Enabled(s, Step(p)) && ProcessInv(s.processes[p], s.canary, s.migrated)
    ensures var n := Stepped(digest, s, p);
            ProcessInv(n.processes[p], n.canary, n.migrated) && (s.canary.Some? ==> n.canary == s.canary)
  {
  }

  lemma CanaryStep(digest: Digest, s: State, p: nat)
    requires Enabled(s, Step(p)) && ProcessInv(s.processes[p], s.canary, s.migrated) && CanaryInv(s)
    ensures CanaryInv(Stepped(digest, s, p))
  {
  }

  lemma QuietStep(digest: Digest, s: State, a: Action)
    requires Enabled(s, a) && Quiet([a]) && Inv(s)
    ensures Inv(Apply(digest, s, a))
    ensures s.canary.Some? ==> Apply(digest, s, a).canary == s.canary
  {
    assert a in [a];
    if a.Step? {
      OwnStep(digest, s, a.p);
      CanaryStep(digest, s, a.p);
      var n := Stepped(digest, s, a.p);
      forall i | 0 <= i < |n.processes| ensures ProcessInv(n.processes[i], n.canary, n.migrated) {
        if i != a.p { assert n.processes[i] == s.processes[i]; }
      }
    }
  }

  lemma {:induction false} QuietRun(digest: Digest, s: State, actions: seq<Action>, end: State)
    requires IsRun(digest, s, actions, end) && Quiet(actions) && Inv(s)
    ensures Inv(end)
    ensures s.canary.Some? ==> end.canary == s.canary
    decreases |actions|
  {
    if actions != [] {
      assert actions[0] in actions;
      QuietStep(digest, s, actions[0]);
      QuietRun(digest, Apply(digest, s, actions[0]), actions[1..], end);
    }
  }

  /** However mains and workers interleave, all that start with "matches" or "recorded" hold
      one common key: the canary's, which a main recorded as its primary after one of the
      values it sampled had decrypted, or when there was none to sample. */
  lemma StartedProcessesShareTheCanaryKey(digest: Digest, s: State, actions: seq<Action>, end: State)
    requires Empty(s) && IsRun(digest, s, actions, end) && Quiet(actions)
    ensures forall i | 0 <= i < |end.processes| ::
              var p := end.processes[i];
              p.pc.Finished? && Passed(p.pc.verdict) ==> end.canary.Some? && end.canary.value.key in p.keys
    ensures end.canary.Some? ==>
              && end.author.Some? && end.author.value.0.main
              && end.author.value.0.keys != [] && end.author.value.0.keys[0] == end.canary.value.key
              && MayRecord(end.author.value.0, end.author.value.1)
  {
    QuietRun(digest, s, actions, end);
  }

  // ---------------------------------------------------------------- later starts

  /** No start uses the accept flag; rotations may run and rewrite the canary. */
  predicate Calm(actions: seq<Action>) { forall a | a in actions :: a.StartProcess? ==> !a.accept }

  ghost predicate CalmInv(s: State) {
    && (s.canary.Some? ==> s.migrated)
    && forall i | 0 <= i < |s.processes| :: CalmProcess(s.processes[i], s.canary, s.migrated)
  }

  ghost predicate CalmProcess(p: Process, canary: Option<Token>, migrated: bool) {
    && p.keys != [] && !p.accept && !p.pc.AtReplace?
    && (p.pc.AtTables? || p.pc.Finished? || migrated)
    && (p.pc.AtReread? || (p.pc.Finished? && Passed(p.pc.verdict)) ==> canary.Some?)
  }

  lemma CalmStep(digest: Digest, s: State, a: Action)
    requires CalmInv(s) && Enabled(s, a) && (a.StartProcess? ==> !a.accept)
    ensures CalmInv(Apply(digest, s, a))
    ensures s.canary.Some? ==>
              Apply(digest, s, a).canary.Some? && Apply(digest, s, a).canary.value.key == NextKey(s.canary.value.key, a)
  {
    var n := Apply(digest, s, a);
    forall i | 0 <= i < |n.processes| ensures CalmProcess(n.processes[i], n.canary, n.migrated) {
      if a.Step? && i != a.p { assert n.processes[i] == s.processes[i]; }
    }
  }

  lemma {:induction false} CalmRun(digest: Digest, s: State, actions: seq<Action>, end: State)
    requires CalmInv(s) && IsRun(digest, s, actions, end) && Calm(actions)
    ensures CalmInv(end) && (s.canary.Some? ==> end.canary.Some?) && s.retired <= end.retired
    decreases |actions|
  {
    if actions != [] {
      assert actions[0] in actions;
      CalmStep(digest, s, actions[0]);
      CalmRun(digest, Apply(digest, s, actions[0]), actions[1..], end);
    }
  }

  /** The canary's key after one action: only a rotation's rewrite changes it. */
  function NextKey(key: Key, a: Action): Key { if a.RewriteCanary? && a.leader != [] then a.leader[0] else key }

  /** The canary's key at the start of a calm run and after each of its actions. */
  function CanaryKeys(past: seq<Key>, actions: seq<Action>): (keys: seq<Key>)
    requires past != []
    ensures |keys| == |past| + |actions| && keys[..|past|] == past
    decreases |actions|
  {
    if actions == [] then past
    else CanaryKeys(past + [NextKey(past[|past| - 1], actions[0])], actions[1..])
  }

  ghost predicate SomeHeld(canaryKeys: seq<Key>, ring: seq<Key>) {
    exists n :: 0 <= n < |canaryKeys| && canaryKeys[n] in ring
  }

  ghost predicate SomeMissing(canaryKeys: seq<Key>, ring: seq<Key>) {
    exists n :: 0 <= n < |canaryKeys| && canaryKeys[n] !in ring
  }

  /** Where a process that started after the canary was recorded can be, and why. */
  ghost predicate LateInv(digest: Digest, retired: set<string>, p: Process, canaryKeys: seq<Key>) {
    match p.pc
    case AtTables => true
    case AtRotations => true
    case AtCanary => true
    case Finished(Matches) => SomeHeld(canaryKeys, p.keys)
    case Finished(Refused(WrongKeys)) => SomeMissing(canaryKeys, p.keys)
    case Finished(Refused(RetiredPrimary)) => p.keys != [] && digest(p.keys[0]) in retired
    case _ => false
  }

  lemma LateStep(digest: Digest, from: nat, s: State, a: Action, past: seq<Key>)
    requires CalmInv(s) && Enabled(s, a) && (a.StartProcess? ==> !a.accept)
    requires s.canary.Some? && past != [] && s.canary.value.key == past[|past| - 1] && from <= |s.processes|
    requires forall i | from <= i < |s.processes| :: LateInv(digest, s.retired, s.processes[i], past)
    ensures var n, now := Apply(digest, s, a), past + [NextKey(past[|past| - 1], a)];
            |s.processes| <= |n.processes| &&
            forall i | from <= i < |n.processes| :: LateInv(digest, n.retired, n.processes[i], now)
  {
    var n, now := Apply(digest, s, a), past + [NextKey(past[|past| - 1], a)];
    assert now[|past| - 1] == past[|past| - 1] && forall j | 0 <= j < |past| :: now[j] == past[j];
    forall i | from <= i < |n.processes| ensures LateInv(digest, n.retired, n.processes[i], now) {
      if i < |s.processes| {
        assert LateInv(digest, s.retired, s.processes[i], past);
        LaterKeys(past, now, s.processes[i].keys);
      }
    }
  }

  lemma LaterKeys(past: seq<Key>, now: seq<Key>, ring: seq<Key>)
    requires past <= now
    ensures SomeHeld(past, ring) ==> SomeHeld(now, ring)
    ensures SomeMissing(past, ring) ==> SomeMissing(now, ring)
  {
    if n :| 0 <= n < |past| && past[n] in ring { assert now[n] in ring; }
    if n :| 0 <= n < |past| && past[n] !in ring { assert now[n] !in ring; }
  }

  lemma {:induction false} LateRun(digest: Digest, from: nat, s: State, actions: seq<Action>, end: State, past: seq<Key>)
    requires CalmInv(s) && IsRun(digest, s, actions, end) && Calm(actions)
    requires s.canary.Some? && past != [] && s.canary.value.key == past[|past| - 1] && from <= |s.processes|
    requires forall i | from <= i < |s.processes| :: LateInv(digest, s.retired, s.processes[i], past)
    ensures |s.processes| <= |end.processes|
    ensures forall i | from <= i < |end.processes| ::
              LateInv(digest, end.retired, end.processes[i], CanaryKeys(past, actions))
    decreases |actions|
  {
    if actions != [] {
      assert actions[0] in actions;
      LateStep(digest, from, s, actions[0], past);
      CalmStep(digest, s, actions[0]);
      LateRun(digest, from, Apply(digest, s, actions[0]), actions[1..], end, past + [NextKey(past[|past| - 1], actions[0])]);
    }
  }

  /** The ring holds the canary's key and the primary of every leader that rewrites it. */
  ghost predicate HoldsThroughout(ring: seq<Key>, key: Key, actions: seq<Action>) {
    key in ring && forall a | a in actions && a.RewriteCanary? && a.leader != [] :: a.leader[0] in ring
  }

  /** Which is to hold every key the canary has during the run. */
  lemma {:induction false} HoldsEveryKeyIff(ring: seq<Key>, past: seq<Key>, actions: seq<Action>)
    requires past != []
    ensures SomeMissing(CanaryKeys(past, actions), ring) <==>
              SomeMissing(past, ring) || !HoldsThroughout(ring, past[|past| - 1], actions)
    decreases |actions|
  {
    var last := past[|past| - 1];
    if actions != [] {
      var next := NextKey(last, actions[0]);
      HoldsEveryKeyIff(ring, past + [next], actions[1..]);
      OneMoreKey(past, next, ring);
      assert forall a :: a in actions <==> a == actions[0] || a in actions[1..];
    }
  }

  lemma OneMoreKey(past: seq<Key>, next: Key, ring: seq<Key>)
    requires past != []
    ensures SomeMissing(past + [next], ring) <==> SomeMissing(past, ring) || next !in ring
    ensures past[|past| - 1] !in ring ==> SomeMissing(past, ring)
  {
    var now := past + [next];
    if SomeMissing(past, ring) { LaterKeys(past, now, ring); }
    assert now[|past|] == next;
    if n :| 0 <= n < |now| && now[n] !in ring {
      if n < |past| { assert past[n] !in ring; }
    }
  }

  /** Once a process has passed, whatever rotations do, a later start with an unretired primary
      is decided by one of the keys the canary has had since: it matches if its ring holds them
      all, it is refused if it holds none. In particular a ring that holds the canary's key
      keeps passing while every leader that rewrites the canary does so under one of its keys. */
  lemma LaterStartMatchesIff(digest: Digest, s: State, before: seq<Action>, mid: State, after: seq<Action>, end: State,
                             passed: nat, later: nat)
    requires Empty(s) && IsRun(digest, s, before, mid) && Calm(before)
    requires passed < |mid.processes| && mid.processes[passed].pc.Finished? && Passed(mid.processes[passed].pc.verdict)
    requires IsRun(digest, mid, after, end) && Calm(after)
    requires |mid.processes| <= later < |end.processes| && end.processes[later].pc.Finished?
    ensures mid.canary.Some? && end.processes[later].keys != []
    ensures var p, keys := end.processes[later], CanaryKeys([mid.canary.value.key], after);
            match p.pc.verdict
            case Matches => SomeHeld(keys, p.keys)
            case Refused(why) =>
              if why.RetiredPrimary? then digest(p.keys[0]) in end.retired else why.WrongKeys? && SomeMissing(keys, p.keys)
            case _ => false
    ensures var p := end.processes[later];
            HoldsThroughout(p.keys, mid.canary.value.key, after) && digest(p.keys[0]) !in end.retired ==>
              p.pc.verdict == Matches
    ensures var p := end.processes[later];
            (forall a | a in after :: !a.RewriteCanary?) && digest(p.keys[0]) !in end.retired ==>
              p.pc.verdict == if mid.canary.value.key in p.keys then Matches else Refused(WrongKeys)
  {
    CalmRun(digest, s, before, mid);
    CalmRun(digest, mid, after, end);
    assert CalmProcess(end.processes[later], end.canary, end.migrated);
    var k := mid.canary.value.key;
    LateRun(digest, |mid.processes|, mid, after, end, [k]);
    HoldsEveryKeyIff(end.processes[later].keys, [k], after);
    if forall a | a in after :: !a.RewriteCanary? { KeyStays([k], after); }
  }

  lemma {:induction false} KeyStays(past: seq<Key>, actions: seq<Action>)
    requires past != [] && forall a | a in actions :: !a.RewriteCanary?
    requires forall n | 0 <= n < |past| :: past[n] == past[0]
    ensures forall n | 0 <= n < |CanaryKeys(past, actions)| :: CanaryKeys(past, actions)[n] == past[0]
    decreases |actions|
  {
    if actions != [] {
      assert actions[0] in actions;
      KeyStays(past + [past[|past| - 1]], actions[1..]);
    }
  }

  // ---------------------------------------------------------------- retired primaries

  /** A process whose primary was retired before it started is refused, if the tables are there. */
  ghost predicate RetiredInv(digest: Digest, retired: set<string>, p: Process) {
    p.keys != [] && (digest(p.keys[0]) in retired ==>
      p.pc.AtTables? || p.pc.AtRotations? || p.pc == Finished(NotMigrated) || p.pc == Finished(Refused(RetiredPrimary)))
  }

  lemma {:induction false} RetiredRun(digest: Digest, retired: set<string>, migrated: bool, from: nat,
                                      s: State, actions: seq<Action>, end: State)
    requires IsRun(digest, s, actions, end) && retired <= s.retired && from <= |s.processes| && (migrated ==> s.migrated)
    requires forall i | from <= i < |s.processes| ::
               RetiredInv(digest, retired, s.processes[i]) && (migrated ==> s.processes[i].pc != Finished(NotMigrated))
    ensures forall i | from <= i < |end.processes| ::
              RetiredInv(digest, retired, end.processes[i]) && (migrated ==> end.processes[i].pc != Finished(NotMigrated))
    decreases |actions|
  {
    if actions != [] {
      var n := Apply(digest, s, actions[0]);
      forall i | from <= i < |n.processes|
        ensures RetiredInv(digest, retired, n.processes[i]) && (migrated ==> n.processes[i].pc != Finished(NotMigrated))
      {
        if i < |s.processes| { assert RetiredInv(digest, retired, s.processes[i]); }
      }
      RetiredRun(digest, retired, migrated, from, n, actions[1..], end);
    }
  }

  /** In any run at all, with accept flags and rotations: a process that starts under a primary that
      a completed rotation has retired never passes, records, is accepted or waits for main. Once
      it has finished on a migrated database it was refused for that reason. */
  lemma RetiredPrimaryNeverPasses(digest: Digest, s: State, actions: seq<Action>, end: State, p: nat)
    requires IsRun(digest, s, actions, end) && |s.processes| <= p < |end.processes|
    ensures end.processes[p].keys != []
    ensures digest(end.processes[p].keys[0]) in s.retired && end.processes[p].pc.Finished? ==>
              var v := end.processes[p].pc.verdict;
              v == Refused(RetiredPrimary) || (v == NotMigrated && !s.migrated)
  {
    RetiredRun(digest, s.retired, s.migrated, |s.processes|, s, actions, end);
    assert RetiredInv(digest, s.retired, end.processes[p]);
  }

  // ---------------------------------------------------------------- what main samples

  /** How many of the rows are credentials that no Secret backs. */
  function CountPlain(rows: seq<Stored>): nat {
    if rows == [] then 0 else (if rows[0].secretBacked then 0 else 1) + CountPlain(rows[1..])
  }

  /** Row i holds the ciphertext and is one of the first `limit` that no Secret backs. */
  ghost predicate SampledAt(rows: seq<Stored>, limit: int, t: Token, i: int) {
    0 <= i < |rows| && !rows[i].secretBacked && rows[i].token == Some(t) && CountPlain(rows[..i]) < limit
  }

  ghost predicate Sampled(rows: seq<Stored>, limit: int, t: Token) { exists i :: SampledAt(rows, limit, t, i) }

  /** The sample: the ciphertexts of the twenty newest credentials that no Secret backs, and the SSO secret. */
  lemma SampleIs(credentials: seq<Stored>, sso: Option<Token>, t: Token)
    ensures t in Sample(credentials, sso) <==> Sampled(credentials, 20, t) || sso == Some(t)
  {
    FirstTokens(credentials, SEED_SAMPLE_SIZE, t);
  }

  function FirstPlain(rows: seq<Stored>, limit: nat): seq<Stored> {
    var plain := Plain(rows);
    if |plain| <= limit then plain else plain[..limit]
  }

  lemma {:induction false} FirstTokens(rows: seq<Stored>, limit: nat, t: Token)
    ensures t in Tokens(FirstPlain(rows, limit)) <==> Sampled(rows, limit, t)
    decreases |rows|
  {
    if rows != [] {
      if rows[0].secretBacked {
        FirstTokens(rows[1..], limit, t);
      } else if limit > 0 {
        FirstTokens(rows[1..], limit - 1, t);
        assert FirstPlain(rows, limit) == [rows[0]] + FirstPlain(rows[1..], limit - 1);
      }
      SampledFirst(rows, limit, t);
    }
  }

  /** A row is sampled as the first one, or among the rest with one place less. */
  lemma SampledFirst(rows: seq<Stored>, limit: nat, t: Token)
    requires rows != []
    ensures Sampled(rows, limit, t) <==>
              || (limit > 0 && !rows[0].secretBacked && rows[0].token == Some(t))
              || Sampled(rows[1..], limit - (if rows[0].secretBacked then 0 else 1), t)
  {
    var rest := limit - if rows[0].secretBacked then 0 else 1;
    forall i | 0 < i < |rows| ensures SampledAt(rows, limit, t, i) <==> SampledAt(rows[1..], rest, t, i - 1) {
      assert rows[..i][1..] == rows[1..][..i - 1];
    }
    if i :| SampledAt(rows[1..], rest, t, i) { assert SampledAt(rows, limit, t, i + 1); }
    if limit > 0 && !rows[0].secretBacked && rows[0].token == Some(t) { assert SampledAt(rows, limit, t, 0); }
    if i :| SampledAt(rows, limit, t, i) {
      if i > 0 { assert SampledAt(rows[1..], rest, t, i - 1); }
    }
  }

  // ---------------------------------------------------------------- exactly when a ring keeps passing

  /** A new process and its steps with nobody in between. */
  function StartedAlone(digest: Digest, s: State, ring: seq<Key>, main: bool): Pc
    requires ring != []
  {
    var p := Process(ring, main, false, AtTables);
    if !s.migrated then Finished(NotMigrated)
    else if digest(ring[0]) in s.retired then Finished(Refused(RetiredPrimary))
    else AfterCanary(p, s.canary)
  }

  /** Those are steps of the protocol. */
  lemma StartedAloneIsRun(digest: Digest, s: State, ring: seq<Key>, main: bool) returns (end: State)
    requires ring != [] && s.migrated && digest(ring[0]) !in s.retired && s.canary.Some?
    ensures var step := Step(|s.processes|);
            IsRun(digest, s, [StartProcess(ring, main, false)] + ([step] + ([step] + ([step] + []))), end)
    ensures |end.processes| == |s.processes| + 1 && end.processes[|s.processes|].pc == StartedAlone(digest, s, ring, main)
    ensures end.canary == s.canary && end.retired == s.retired
  {
    var n, start := |s.processes|, StartProcess(ring, main, false);
    var s1 := Apply(digest, s, start);
    var s2, s3 := Moved(s1, n, AtRotations), Moved(s1, n, AtCanary);
    assert s2 == Stepped(digest, s1, n) && s3 == Stepped(digest, s2, n);
    end := Stepped(digest, s3, n);
    var step := Step(n);
    Prepend(digest, s3, step, [], end);
    Prepend(digest, s2, step, [step] + [], end);
    Prepend(digest, s1, step, [step] + ([step] + []), end);
    Prepend(digest, s, start, [step] + ([step] + ([step] + [])), end);
  }

  /** At every moment of the run a start with this ring would match. */
  ghost predicate PassesThroughout(digest: Digest, s: State, actions: seq<Action>, ring: seq<Key>, main: bool)
    requires ring != []
  {
    forall n, at | 0 <= n <= |actions| && IsRun(digest, s, actions[..n], at) ::
      StartedAlone(digest, at, ring, main) == Finished(Matches)
  }

  /** Over a calm run, a ring whose primary is not retired passes at every moment of it exactly
      when it holds the canary's key and the primary of every leader that rewrites the canary. */
  lemma RingPassesThroughoutIff(digest: Digest, s: State, actions: seq<Action>, end: State, ring: seq<Key>, main: bool)
    requires CalmInv(s) && s.canary.Some? && IsRun(digest, s, actions, end) && Calm(actions)
    requires ring != [] && digest(ring[0]) !in end.retired
    ensures HoldsThroughout(ring, s.canary.value.key, actions) <==> PassesThroughout(digest, s, actions, ring, main)
  {
    var k := s.canary.value.key;
    HoldsEveryKeyIff(ring, [k], actions);
    if HoldsThroughout(ring, k, actions) {
      HoldingPasses(digest, s, actions, end, ring, main);
    } else {
      var n := MissingKey(CanaryKeys([k], actions), ring);
      var at := StateAt(digest, s, actions, end, n);
      VerdictAt(digest, s, actions, end, ring, main, n, at);
    }
  }

  lemma MissingKey(canaryKeys: seq<Key>, ring: seq<Key>) returns (n: nat)
    requires SomeMissing(canaryKeys, ring)
    ensures n < |canaryKeys| && canaryKeys[n] !in ring
  {
    n :| 0 <= n < |canaryKeys| && canaryKeys[n] !in ring;
  }

  lemma HoldingPasses(digest: Digest, s: State, actions: seq<Action>, end: State, ring: seq<Key>, main: bool)
    requires CalmInv(s) && s.canary.Some? && IsRun(digest, s, actions, end) && Calm(actions)
    requires ring != [] && digest(ring[0]) !in end.retired
    requires !SomeMissing(CanaryKeys([s.canary.value.key], actions), ring)
    ensures PassesThroughout(digest, s, actions, ring, main)
  {
    forall n, at | 0 <= n <= |actions| && IsRun(digest, s, actions[..n], at)
      ensures StartedAlone(digest, at, ring, main) == Finished(Matches)
    {
      VerdictAt(digest, s, actions, end, ring, main, n, at);
    }
  }

  lemma VerdictAt(digest: Digest, s: State, actions: seq<Action>, end: State, ring: seq<Key>, main: bool, n: nat, at: State)
    requires CalmInv(s) && s.canary.Some? && IsRun(digest, s, actions, end) && Calm(actions)
    requires ring != [] && digest(ring[0]) !in end.retired
    requires n <= |actions| && IsRun(digest, s, actions[..n], at)
    ensures StartedAlone(digest, at, ring, main)
         == Finished(if CanaryKeys([s.canary.value.key], actions)[n] in ring then Matches else Refused(WrongKeys))
  {
    KeyAt(digest, s, actions, end, n, at, [s.canary.value.key]);
  }

  lemma {:induction false} StateAt(digest: Digest, s: State, actions: seq<Action>, end: State, n: nat) returns (at: State)
    requires IsRun(digest, s, actions, end) && n <= |actions|
    ensures IsRun(digest, s, actions[..n], at)
    decreases n
  {
    if n == 0 {
      at := s;
    } else {
      at := StateAt(digest, Apply(digest, s, actions[0]), actions[1..], end, n - 1);
      assert actions[..n][1..] == actions[1..][..n - 1];
    }
  }

  /** After n actions of a calm run the canary's key is the n-th of its keys, and nothing retired
      by then is unretired at the end. */
  lemma {:induction false} KeyAt(digest: Digest, s: State, actions: seq<Action>, end: State, n: nat, at: State, past: seq<Key>)
    requires CalmInv(s) && s.canary.Some? && past != [] && past[|past| - 1] == s.canary.value.key
    requires IsRun(digest, s, actions, end) && Calm(actions) && n <= |actions| && IsRun(digest, s, actions[..n], at)
    ensures CalmInv(at) && at.canary.Some? && at.retired <= end.retired
    ensures at.canary.value.key == CanaryKeys(past, actions)[|past| - 1 + n]
    decreases n
  {
    if n == 0 {
      CalmRun(digest, s, actions, end);
      assert CanaryKeys(past, actions)[..|past|][|past| - 1] == past[|past| - 1];
    } else {
      assert actions[0] in actions && actions[..n][1..] == actions[1..][..n - 1];
      CalmStep(digest, s, actions[0]);
      KeyAt(digest, Apply(digest, s, actions[0]), actions[1..], end, n - 1, at, past + [NextKey(past[|past| - 1], actions[0])]);
    }
  }

  /** So a passing ring does not always keep passing: a rewrite under a leader's primary that it
      lacks has it refused, although nothing retired its own primary. */
  lemma RewriteRefusesARing(digest: Digest, s: State, ring: seq<Key>, leader: seq<Key>, main: bool) returns (next: State)
    requires CalmInv(s) && s.canary.Some? && ring != [] && leader != [] && digest(ring[0]) !in s.retired
    requires s.canary.value.key in ring && s.canary.value.key in leader && leader[0] !in ring
    ensures StartedAlone(digest, s, ring, main) == Finished(Matches)
    ensures IsRun(digest, s, [RewriteCanary(leader)], next) && next.retired == s.retired
    ensures StartedAlone(digest, next, ring, main) == Finished(Refused(WrongKeys))
  {
    next := Apply(digest, s, RewriteCanary(leader));
    Prepend(digest, s, RewriteCanary(leader), [], next);
    assert [RewriteCanary(leader)] + [] == [RewriteCanary(leader)];
  }

  // ---------------------------------------------------------------- workers

  /** A worker never gets past reading the canary. */
  ghost predicate WorkersOnlyRead(s: State) {
    forall i | 0 <= i < |s.processes| :: WorkerPc(s.processes[i])
  }

  ghost predicate WorkerPc(p: Process) { p.main || p.pc.AtTables? || p.pc.AtRotations? || p.pc.AtCanary? || p.pc.Finished? }

  lemma WorkersStep(digest: Digest, s: State, a: Action)
    requires WorkersOnlyRead(s) && Enabled(s, a)
    ensures WorkersOnlyRead(Apply(digest, s, a))
  {
    var n := Apply(digest, s, a);
    forall i | 0 <= i < |n.processes| ensures WorkerPc(n.processes[i]) {
      if i < |s.processes| { assert WorkerPc(s.processes[i]); }
    }
  }

  lemma {:induction false} WorkersRun(digest: Digest, s: State, actions: seq<Action>, end: State)
    requires WorkersOnlyRead(s) && IsRun(digest, s, actions, end)
    ensures WorkersOnlyRead(end)
    decreases |actions|
  {
    if actions != [] {
      WorkersStep(digest, s, actions[0]);
      WorkersRun(digest, Apply(digest, s, actions[0]), actions[1..], end);
    }
  }

  /** In any run at all, with mains, accept flags and rotations, no worker's step changes the canary. */
  lemma WorkersNeverWriteTheCanary(digest: Digest, s: State, actions: seq<Action>, end: State, p: nat)
    requires s.processes == [] && IsRun(digest, s, actions, end)
    requires Enabled(end, Step(p)) && !end.processes[p].main
    ensures Stepped(digest, end, p).canary == end.canary
  {
    WorkersRun(digest, s, actions, end);
    assert WorkerPc(end.processes[p]);
  }

  // ---------------------------------------------------------------- what the accept flag gives up

  /** With the flag, one start by a main without the canary's key replaces it, and whoever
      passed without that new key no longer holds the canary's. */
  lemma AcceptReplacesTheCanary(digest: Digest, s: State, keys: seq<Key>) returns (actions: seq<Action>, end: State)
    requires s.migrated && s.canary.Some? && keys != [] && s.canary.value.key !in keys && digest(keys[0]) !in s.retired
    ensures IsRun(digest, s, actions, end) && end.canary == Some(Token(keys[0], CANARY_VALUE))
    ensures |s.processes| < |end.processes| && forall i | 0 <= i < |s.processes| :: end.processes[i] == s.processes[i]
  {
    var n := |s.processes|;
    var s1 := Apply(digest, s, StartProcess(keys, true, true));
    var s2, s3, s4 := Stepped(digest, s1, n), Moved(s1, n, AtCanary), Moved(s1, n, AtReplace);
    assert s3 == Stepped(digest, s2, n);
    assert s4 == Stepped(digest, s3, n);
    end := Stepped(digest, s4, n);
    var step := Step(n);
    assert IsRun(digest, end, [], end);
    Prepend(digest, s4, step, [], end);
    Prepend(digest, s3, step, [step] + [], end);
    Prepend(digest, s2, step, [step] + ([step] + []), end);
    Prepend(digest, s1, step, [step] + ([step] + ([step] + [])), end);
    Prepend(digest, s, StartProcess(keys, true, true), [step] + ([step] + ([step] + ([step] + []))), end);
    actions := [StartProcess(keys, true, true)] + ([step] + ([step] + ([step] + ([step] + []))));
  }

  lemma Prepend(digest: Digest, s: State, a: Action, actions: seq<Action>, end: State)
    requires Enabled(s, a) && IsRun(digest, Apply(digest, s, a), actions, end)
    ensures IsRun(digest, s, [a] + actions, end)
  {
    assert ([a] + actions)[1..] == actions;
  }
}
