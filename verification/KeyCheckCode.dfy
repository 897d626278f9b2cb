/** `check` itself, statement by statement on the database it changes, shown to end as the
    protocol's steps of `KeyCheck` do when no other process moves in between. */
module KeyCheckCode {
  import opened Options
  import opened KeyCheck

  /** A key rotation row: whether it completed, and the fingerprints it retired. */
  datatype Rotation = Rotation(completed: bool, retired: seq<string>)

  ghost function RetiredBy(rotations: seq<Rotation>): set<string> {
    set r, f | r in rotations && r.completed && f in r.retired :: f
  }

  function Remaining(pc: Pc): nat {
    match pc
    case AtTables => 6
    case AtRotations => 5
    case AtCanary => 4
    case AtSample => 3
    case AtInsert(_) => 2
    case AtReplace => 1
    case AtReread => 1
    case Finished(_) => 0
  }

  lemma StepRemains(digest: Digest, s: State)
    requires |s.processes| == 1 && Enabled(s, Step(0))
    ensures var n := Stepped(digest, s, 0);
            && |n.processes| == 1 && n.processes[0].keys == s.processes[0].keys
            && Remaining(n.processes[0].pc) < Remaining(s.processes[0].pc)
  {
  }

  /** The only process of `s` runs to its verdict. */
  ghost function Alone(digest: Digest, s: State): (end: State)
    requires |s.processes| == 1 && s.processes[0].keys != []
    ensures |end.processes| == 1 && end.processes[0].pc.Finished?
    decreases Remaining(s.processes[0].pc)
  {
    if s.processes[0].pc.Finished? then s else
      StepRemains(digest, s);
      Alone(digest, Stepped(digest, s, 0))
  }

  lemma OneStep(digest: Digest, s: State)
    requires |s.processes| == 1 && s.processes[0].keys != [] && !s.processes[0].pc.Finished?
    ensures Alone(digest, s) == Alone(digest, Stepped(digest, s, 0))
  {
  }

  /** The verdict of a process that nobody interrupts. */
  ghost function Decided(digest: Digest, s: State, p: Process): Verdict
    requires p.keys != []
  {
    if !s.migrated then NotMigrated
    else if digest(p.keys[0]) in s.retired then Refused(RetiredPrimary)
    else if !p.main || s.canary.Some? then
      match AfterCanary(p, s.canary)
      case Finished(v) => v
      case _ => Accepted
    else
      match AfterSample(p, Sample(s.credentials, s.sso))
      case Finished(v) => v
      case _ => Recorded
  }

  lemma AloneDecides(digest: Digest, s: State)
    requires |s.processes| == 1 && s.processes[0].keys != [] && s.processes[0].pc.AtTables?
    ensures var p, end := s.processes[0], Alone(digest, s);
            var v := Decided(digest, s, p);
            && end.processes[0].pc == Finished(v)
            && end.canary == if v.Recorded? || v.Accepted? then Some(CanaryOf(p)) else s.canary
  {
    OneStep(digest, s);
    var s1 := Stepped(digest, s, 0);
    if s.migrated {
      OneStep(digest, s1);
      var s2 := Stepped(digest, s1, 0);
      if s2.processes[0].pc.AtCanary? { AloneFromCanary(digest, s2); }
    }
  }

  lemma AloneFromCanary(digest: Digest, s: State)
    requires |s.processes| == 1 && s.processes[0].keys != [] && s.processes[0].pc.AtCanary?
    requires s.migrated && digest(s.processes[0].keys[0]) !in s.retired
    ensures var p, end := s.processes[0], Alone(digest, s);
            var v := Decided(digest, s, p);
            && end.processes[0].pc == Finished(v)
            && end.canary == if v.Recorded? || v.Accepted? then Some(CanaryOf(p)) else s.canary
  {
    OneStep(digest, s);
    var s1 := Stepped(digest, s, 0);
    if s1.processes[0].pc.AtReplace? { OneStep(digest, s1); }
    if s1.processes[0].pc.AtSample? { AloneFromSample(digest, s1); }
  }

  lemma AloneFromSample(digest: Digest, s: State)
    requires |s.processes| == 1 && s.processes[0].keys != [] && s.processes[0].pc.AtSample? && s.canary.None?
    ensures var p, end, next := s.processes[0], Alone(digest, s), AfterSample(s.processes[0], Sample(s.credentials, s.sso));
            if next.Finished? then end.processes[0].pc == next && end.canary.None?
            else end.processes[0].pc == Finished(Recorded) && end.canary == Some(CanaryOf(p))
  {
    OneStep(digest, s);
    var s1 := Stepped(digest, s, 0);
    if s1.processes[0].pc.AtInsert? { AloneFromInsert(digest, s1); }
  }

  lemma AloneFromInsert(digest: Digest, s: State)
    requires |s.processes| == 1 && s.processes[0].keys != [] && s.processes[0].pc.AtInsert? && s.canary.None?
    ensures var end := Alone(digest, s);
            end.processes[0].pc == Finished(Recorded) && end.canary == Some(CanaryOf(s.processes[0]))
  {
    OneStep(digest, s);
    var s1 := Stepped(digest, s, 0);
    assert s1.processes[0].pc == AtReread && s1.canary == Some(CanaryOf(s.processes[0]));
    OneStep(digest, s1);
    var s2 := Stepped(digest, s1, 0);
    assert s2.processes[0].pc == Finished(Recorded) && s2.canary == s1.canary;
  }

  class Database {
    var migrated: bool
    var canary: Option<Token>
    var rotations: seq<Rotation>
    var credentials: seq<Stored>
    var sso: Option<Token>

    ghost function Seen(p: Process): State
      reads this
    {
      State(migrated, canary, RetiredBy(rotations), credentials, sso, [p], None)
    }

    /** `_refuse_retired_primary`: true when a completed rotation retired this primary. */
    method PrimaryIsRetired(primary: string) returns (refused: bool)
      ensures refused <==> primary in RetiredBy(rotations)
    {
      for i := 0 to |rotations|
        invariant forall j | 0 <= j < i && rotations[j].completed :: primary !in rotations[j].retired
      {
        if rotations[i].completed && primary in rotations[i].retired {
          assert rotations[i] in rotations;
          return true;
        }
      }
      return false;
    }

    /** `_write_canary` */
    method WriteCanary(keys: seq<Key>, replace: bool)
      requires keys != []
      modifies this`canary
      ensures canary == if replace || old(canary).None? then Some(Token(keys[0], CANARY_VALUE)) else old(canary)
    {
      var token := Token(keys[0], CANARY_VALUE);
      if replace || canary.None? {
        canary := Some(token);
      }
    }

    /** `_check_worker`: a worker reads the canary and writes nothing. */
    method CheckWorker(keys: seq<Key>, found: Option<Token>) returns (verdict: Verdict)
      ensures verdict == if found.None? then NotRecordedYet
                         else if found.value.key in keys then Matches else Refused(WrongKeys)
    {
      if found.None? {
        return NotRecordedYet;
      }
      if Decrypts(keys, found.value) {
        return Matches;
      }
      return Refused(WrongKeys);
    }

    method Check(digest: Digest, keys: seq<Key>, main: bool, accept: bool) returns (verdict: Verdict)
      requires keys != []
      modifies this`canary
      ensures var end := Alone(digest, old(Seen(Process(keys, main, accept, AtTables))));
              end.processes[0].pc == Finished(verdict) && end.canary == canary
      ensures if verdict.Recorded? || verdict.Accepted? then main && canary == Some(Token(keys[0], CANARY_VALUE))
              else canary == old(canary)
      ensures verdict == NotMigrated <==> !migrated
      ensures verdict == Refused(RetiredPrimary) <==> migrated && digest(keys[0]) in RetiredBy(rotations)
      ensures migrated && digest(keys[0]) !in RetiredBy(rotations) ==>
                verdict == if old(canary).Some?
                           then if old(canary).value.key in keys then Matches
                                else if main && accept then Accepted else Refused(WrongKeys)
                           else if !main then NotRecordedYet
                           else if accept || Sample(credentials, sso) == []
                                   || exists t :: t in Sample(credentials, sso) && t.key in keys then Recorded
                           else Refused(WrongKeys)
      ensures verdict.Matches? ==> canary.Some? && canary.value.key in keys
      ensures verdict.Accepted? ==> accept && old(canary).Some? && old(canary).value.key !in keys
      ensures verdict.Recorded? && !accept ==> Sample(credentials, sso) == [] || AnyDecrypts(keys, Sample(credentials, sso))
    {
      AloneDecides(digest, Seen(Process(keys, main, accept, AtTables)));
      if !migrated {
        return NotMigrated;
      }
      var retired := PrimaryIsRetired(digest(keys[0]));
      if retired {
        return Refused(RetiredPrimary);
      }
      var found := canary;
      if !main {
        verdict := CheckWorker(keys, found);
        return;
      }
      if found.Some? {
        if Decrypts(keys, found.value) {
          return Matches;
        }
        if !accept {
          return Refused(WrongKeys);
        }
        WriteCanary(keys, true);
        return Accepted;
      }
      var sample := Sample(credentials, sso);
      if sample != [] && !AnyDecrypts(keys, sample) && !accept {
        return Refused(WrongKeys);
      }
      WriteCanary(keys, false);
      found := canary;
      if found.None? || !Decrypts(keys, found.value) {
        return Refused(LostRace);
      }
      return Recorded;
    }
  }
}
