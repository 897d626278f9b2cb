/** The encryption keys of one process (backend/app/config.py): ENCRYPTION_KEY, and the
    comma-separated ENCRYPTION_KEYS_EXTRA as it is validated, stored and read back. */
module KeyList {
  import opened Options
  import opened FirstSeen

  const COMMA := ','

  /** Whether `str.strip` removes the character; a comma is never among them. */
  type Space = f: char -> bool | !f(COMMA) witness c => c == ' '

  function Split(s: string): (parts: seq<string>)
    ensures parts != []
    ensures forall p | p in parts :: COMMA !in p
  {
    if s == "" then [""]
    else
      var rest := Split(s[1..]);
      if s[0] == COMMA then [""] + rest else [[s[0]] + rest[0]] + rest[1..]
  }

  function Join(parts: seq<string>): string {
    if parts == [] then ""
    else if |parts| == 1 then parts[0]
    else parts[0] + [COMMA] + Join(parts[1..])
  }

  function LStrip(space: Space, s: string): (t: string)
    ensures t == "" || !space(t[0])
    ensures forall c | c in t :: c in s
    ensures s != "" && !space(s[0]) ==> t == s
  {
    if s != "" && space(s[0]) then LStrip(space, s[1..]) else s
  }

  function RStrip(space: Space, s: string): (t: string)
    ensures t <= s && (t == "" || !space(t[|t| - 1]))
    ensures s != "" && !space(s[|s| - 1]) ==> t == s
  {
    if s != "" && space(s[|s| - 1]) then RStrip(space, s[..|s| - 1]) else s
  }

  function Strip(space: Space, s: string): (t: string)
    ensures forall c | c in t :: c in s
    ensures t == "" || (!space(t[0]) && !space(t[|t| - 1]))
  {
    RStrip(space, LStrip(space, s))
  }

  function NonEmpty(parts: seq<string>): (out: seq<string>)
    ensures forall p | p in out :: p != "" && p in parts
  {
    if parts == [] then []
    else if parts[0] == "" then NonEmpty(parts[1..])
    else [parts[0]] + NonEmpty(parts[1..])
  }

  function StripAll(space: Space, parts: seq<string>): (out: seq<string>)
    ensures |out| == |parts| && forall i | 0 <= i < |parts| :: out[i] == Strip(space, parts[i])
  {
    if parts == [] then [] else [Strip(space, parts[0])] + StripAll(space, parts[1..])
  }

  /** The keys a setting names: its comma-separated entries, stripped, empty ones dropped. */
  function Entries(space: Space, v: string): seq<string> { NonEmpty(StripAll(space, Split(v))) }

  /** `encryption_keys_extra_are_real_keys`: the stored form, or None for the refused placeholder. */
  function Validated(space: Space, placeholder: string, v: string): Option<string> {
    var keys := Entries(space, v);
    if placeholder in keys then None else Some(Join(keys))
  }

  lemma {:induction false} SplitPiece(a: string, b: string)
    requires COMMA !in a
    ensures Split(a + [COMMA] + b) == [a] + Split(b)
    ensures Split(a) == [a]
  {
    if a == "" {
      assert a + [COMMA] + b == [COMMA] + b;
    } else {
      SplitPiece(a[1..], b);
      assert (a + [COMMA] + b)[1..] == a[1..] + [COMMA] + b;
      assert [a[0]] + a[1..] == a;
    }
  }

  lemma {:induction false} SplitJoin(parts: seq<string>)
    requires parts != [] && forall p | p in parts :: COMMA !in p
    ensures Split(Join(parts)) == parts
  {
    if |parts| == 1 {
      SplitPiece(parts[0], "");
    } else {
      SplitJoin(parts[1..]);
      SplitPiece(parts[0], Join(parts[1..]));
    }
  }

  lemma {:induction false} NonEmptyFixed(parts: seq<string>)
    requires forall p | p in parts :: p != ""
    ensures NonEmpty(parts) == parts
  {
    if parts != [] {
      assert parts[0] in parts && forall p | p in parts[1..] :: p in parts;
      NonEmptyFixed(parts[1..]);
    }
  }

  /** The pieces are what stands between the commas. */
  lemma {:induction false} JoinSplit(s: string)
    ensures Join(Split(s)) == s
  {
    if s != "" {
      JoinSplit(s[1..]);
      var rest := Split(s[1..]);
      if s[0] == COMMA {
        JoinCons("", rest);
      } else {
        JoinChar(s[0], rest[0], rest[1..]);
        assert [rest[0]] + rest[1..] == rest;
      }
      assert s == [s[0]] + s[1..];
    }
  }

  lemma JoinCons(p: string, rest: seq<string>)
    ensures Join([p] + rest) == if rest == [] then p else p + [COMMA] + Join(rest)
  {
    assert ([p] + rest)[1..] == rest;
  }

  lemma JoinChar(c: char, p: string, rest: seq<string>)
    ensures Join([[c] + p] + rest) == [c] + Join([p] + rest)
  {
    JoinCons(p, rest);
    JoinCons([c] + p, rest);
    assert rest != [] ==> [c] + p + [COMMA] + Join(rest) == [c] + (p + [COMMA] + Join(rest));
  }

  /** Stripping takes away the run of spaces at either end and nothing else. */
  lemma {:induction false} StripIs(space: Space, s: string) returns (i: nat, j: nat)
    ensures i <= j <= |s| && Strip(space, s) == s[i..j]
    ensures forall k | 0 <= k < i || j <= k < |s| :: space(s[k])
    ensures i < j ==> !space(s[i]) && !space(s[j - 1])
  {
    i := LStripIs(space, s);
    var rest := s[i..];
    var m := RStripIs(space, rest);
    j := i + m;
    assert rest[..m] == s[i..j];
    forall k | j <= k < |s| ensures space(s[k]) { assert s[k] == rest[k - i]; }
  }

  lemma {:induction false} LStripIs(space: Space, s: string) returns (i: nat)
    ensures i <= |s| && LStrip(space, s) == s[i..]
    ensures forall k | 0 <= k < i :: space(s[k])
  {
    if s != "" && space(s[0]) {
      i := LStripIs(space, s[1..]);
      assert s[1..][i..] == s[i + 1..];
      forall k | 0 <= k < i + 1 ensures space(s[k]) {
        if k > 0 { assert s[k] == s[1..][k - 1]; }
      }
      i := i + 1;
    } else {
      i := 0;
    }
  }

  lemma {:induction false} RStripIs(space: Space, s: string) returns (j: nat)
    ensures j <= |s| && RStrip(space, s) == s[..j]
    ensures forall k | j <= k < |s| :: space(s[k])
  {
    if s != "" && space(s[|s| - 1]) {
      j := RStripIs(space, s[..|s| - 1]);
      assert s[..|s| - 1][..j] == s[..j];
    } else {
      j := |s|;
    }
  }

  /** The setting names a key exactly when one of its pieces, stripped, is that key. */
  lemma NamedIff(space: Space, v: string, key: string)
    ensures key in Entries(space, v) <==> key != "" && exists piece | piece in Split(v) :: Strip(space, piece) == key
  {
    var pieces, stripped := Split(v), StripAll(space, Split(v));
    NonEmptyIff(stripped, key);
    if key in stripped {
      var i :| 0 <= i < |pieces| && stripped[i] == key;
      assert pieces[i] in pieces;
    }
    if piece :| piece in pieces && Strip(space, piece) == key {
      var i :| 0 <= i < |pieces| && pieces[i] == piece;
      assert stripped[i] == key;
    }
  }

  lemma {:induction false} NonEmptyIff(parts: seq<string>, p: string)
    ensures p in NonEmpty(parts) <==> p != "" && p in parts
  {
    if parts != [] { NonEmptyIff(parts[1..], p); }
  }

  /** The setting is refused exactly when one of its entries is the placeholder. */
  lemma RefusedIff(space: Space, placeholder: string, v: string)
    requires placeholder != ""
    ensures Validated(space, placeholder, v).None? <==> exists piece | piece in Split(v) :: Strip(space, piece) == placeholder
  {
    NamedIff(space, v, placeholder);
  }

  lemma EntryShape(space: Space, v: string)
    ensures forall p | p in Entries(space, v) :: p != "" && COMMA !in p && Strip(space, p) == p
  {
    var pieces := Split(v);
    forall p | p in StripAll(space, pieces) ensures COMMA !in p && Strip(space, p) == p {
      var i :| 0 <= i < |pieces| && p == Strip(space, pieces[i]);
      assert pieces[i] in pieces;
    }
  }

  /** What is stored reads back as exactly the named keys, in order, and validating it again
      changes nothing. */
  lemma StoredFormReadsBack(space: Space, placeholder: string, v: string)
    requires Validated(space, placeholder, v).Some?
    ensures var stored := Validated(space, placeholder, v).value;
            && NonEmpty(Split(stored)) == Entries(space, v)
            && Validated(space, placeholder, stored) == Some(stored)
  {
    var keys := Entries(space, v);
    EntryShape(space, v);
    if keys == [] {
      assert Split(Join(keys)) == [""];
      assert StripAll(space, [""]) == [""];
    } else {
      SplitJoin(keys);
      NonEmptyFixed(keys);
      assert StripAll(space, keys) == keys;
    }
  }

  /** `Settings.encryption_keys`. */
  method EncryptionKeys(primary: string, extra: string) returns (keys: seq<string>)
    ensures keys == Firsts([primary] + NonEmpty(Split(extra)))
  {
    keys := [primary];
    var parts := Split(extra);
    assert Firsts([primary]) == [primary];
    assert [primary] + NonEmpty([]) == [primary];
    for i := 0 to |parts|
      invariant keys == Firsts([primary] + NonEmpty(parts[..i]))
    {
      var key := parts[i];
      assert parts[..i + 1] == parts[..i] + [key];
      OneMorePart(primary, parts[..i], key);
      if key != "" && key !in keys {
        keys := keys + [key];
      }
    }
    assert parts[..|parts|] == parts;
  }

  lemma OneMorePart(primary: string, parts: seq<string>, key: string)
    ensures var keys := Firsts([primary] + NonEmpty(parts));
            Firsts([primary] + NonEmpty(parts + [key])) == if key != "" && key !in keys then keys + [key] else keys
  {
    NonEmptyAppend(parts, key);
    if key != "" {
      FirstsAppend([primary] + NonEmpty(parts), key);
      assert [primary] + NonEmpty(parts) + [key] == [primary] + (NonEmpty(parts) + [key]);
    }
  }

  lemma {:induction false} NonEmptyAppend(parts: seq<string>, p: string)
    ensures NonEmpty(parts + [p]) == if p == "" then NonEmpty(parts) else NonEmpty(parts) + [p]
  {
    if parts == [] {
      assert parts + [p] == [p];
    } else {
      assert (parts + [p])[1..] == parts[1..] + [p];
      NonEmptyAppend(parts[1..], p);
    }
  }

  /** From the setting as written to the list that decrypts: the primary first, then every
      named key, each once, and nothing else. */
  lemma KeysAreThePrimaryAndTheExtras(space: Space, placeholder: string, primary: string, v: string)
    requires Validated(space, placeholder, v).Some?
    ensures var keys := Firsts([primary] + NonEmpty(Split(Validated(space, placeholder, v).value)));
            && keys != [] && keys[0] == primary
            && (forall k :: k in keys <==> k == primary || k in Entries(space, v))
            && (forall i, j | 0 <= i < j < |keys| :: keys[i] != keys[j])
  {
    StoredFormReadsBack(space, placeholder, v);
    var all := [primary] + Entries(space, v);
    var keys := Firsts(all);
    forall k ensures k in keys <==> k in all { SameElements(all, k); }
    assert all[0] == primary;
    var p := FirstIndex(keys, primary);
    if p > 0 { InOrderOfFirstOccurrence(all, 0, p); }
    forall i, j | 0 <= i < j < |keys| ensures keys[i] != keys[j] { InOrderOfFirstOccurrence(all, i, j); }
  }
}
