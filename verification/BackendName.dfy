/** The placeholder for an engine's own name in a metric prefix. */
module BackendName {
  import opened Labels

  const TOKEN: string := "%BACKEND%"

  datatype Expansion = Expanded(prefix: string) | NoName

  predicate Occurs(s: string, k: nat) {
    k + |TOKEN| <= |s| && s[k..k + |TOKEN|] == TOKEN
  }

  ghost predicate HasToken(s: string) {
    exists k: nat :: Occurs(s, k)
  }

  /** Left to right, no part of the text twice. */
  function ReplaceAll(s: string, name: string): string
    decreases |s|
  {
    if |s| < |TOKEN| then s
    else if Occurs(s, 0) then name + ReplaceAll(s[|TOKEN|..], name)
    else [s[0]] + ReplaceAll(s[1..], name)
  }

  method FindToken(s: string) returns (found: bool)
    ensures found <==> HasToken(s)
  {
    var k := 0;
    while k + |TOKEN| <= |s|
      invariant forall j: nat | j < k :: !Occurs(s, j)
    {
      if s[k..k + |TOKEN|] == TOKEN {
        assert Occurs(s, k);
        return true;
      }
      k := k + 1;
    }
    return false;
  }

  /** A word none of whose characters a name can hold, at the front of what replacing leaves, was at the
      front before. */
  lemma {:induction false} WordWasThere(s: string, name: string, word: string)
    requires name != "" && AllKept(name) && forall i | 0 <= i < |word| :: !Keeps(word[i])
    requires word <= ReplaceAll(s, name)
    ensures word <= s
    decreases |word|
  {
    if word != "" && |s| >= |TOKEN| {
      var r := ReplaceAll(s, name);
      assert word[0] == r[0];
      if Occurs(s, 0) {
        assert false;
      }
      assert word[1..] <= ReplaceAll(s[1..], name) by {
        assert r[1..] == ReplaceAll(s[1..], name);
      }
      WordWasThere(s[1..], name, word[1..]);
      assert word == [word[0]] + word[1..] && s == [s[0]] + s[1..];
    }
  }

  lemma TokenWasThere(s: string, name: string)
    requires name != "" && AllKept(name) && |s| >= |TOKEN| && Occurs([s[0]] + ReplaceAll(s[1..], name), 0)
    ensures Occurs(s, 0)
  {
    var rest := ReplaceAll(s[1..], name);
    var r := [s[0]] + rest;
    assert TOKEN[1..] <= rest by { assert r[1..] == rest && r[..|TOKEN|] == TOKEN; }
    WordWasThere(s[1..], name, TOKEN[1..]);
    assert r[0] == TOKEN[0] && s == [s[0]] + s[1..] && TOKEN == [TOKEN[0]] + TOKEN[1..];
  }

  lemma OccursBehind(front: string, rest: string, k: nat)
    requires k >= |front| && Occurs(front + rest, k)
    ensures Occurs(rest, k - |front|)
  {
    assert (front + rest)[k..k + |TOKEN|] == rest[k - |front|..k - |front| + |TOKEN|];
  }

  /** Expanding a name that is not empty, and is sanitized, leaves no placeholder. */
  lemma {:induction false} NoTokenIsLeft(s: string, name: string)
    requires name != "" && AllKept(name)
    ensures !HasToken(ReplaceAll(s, name))
    decreases |s|
  {
    if |s| >= |TOKEN| {
      var here := Occurs(s, 0);
      var front := if here then name else [s[0]];
      var tail := if here then s[|TOKEN|..] else s[1..];
      NoTokenIsLeft(tail, name);
      var rest := ReplaceAll(tail, name);
      assert ReplaceAll(s, name) == front + rest;
      forall k: nat | Occurs(front + rest, k)
        ensures false
      {
        if k >= |front| {
          OccursBehind(front, rest, k);
        } else if here {
          NotInAName(name, rest, k);
        } else {
          TokenWasThere(s, name);
        }
      }
    }
  }

  lemma NotInAName(name: string, rest: string, k: nat)
    requires AllKept(name) && k < |name|
    ensures !Occurs(name + rest, k)
  {
    var r := name + rest;
    if k + |TOKEN| <= |r| {
      assert r[k..k + |TOKEN|][0] == name[k] && !Keeps(TOKEN[0]);
    }
  }

  lemma TokenOnly(name: string)
    ensures ReplaceAll(TOKEN, name) == name
  {
    assert Occurs(TOKEN, 0) && TOKEN[|TOKEN|..] == "";
    assert name + "" == name;
  }

  lemma NoTokenFurther(s: string)
    requires s != "" && !HasToken(s)
    ensures !HasToken(s[1..])
  {
    forall k: nat | Occurs(s[1..], k)
      ensures false
    {
      assert s[1..][k..k + |TOKEN|] == s[k + 1..k + 1 + |TOKEN|];
      assert Occurs(s, k + 1);
    }
  }

  lemma NotAtTheFront(prefix: string)
    requires !HasToken(prefix)
    ensures !Occurs(prefix + "." + TOKEN, 0)
  {
    var s := prefix + "." + TOKEN;
    if |prefix| >= |TOKEN| {
      assert s[..|TOKEN|] == prefix[..|TOKEN|] && !Occurs(prefix, 0);
    } else {
      assert s[..|TOKEN|][|prefix|] == '.' && '.' !in TOKEN;
    }
  }

  /** A placeholder behind a prefix that has none is the only one replaced. */
  lemma {:induction false} ReplaceTail(prefix: string, name: string)
    requires !HasToken(prefix)
    ensures ReplaceAll(prefix + "." + TOKEN, name) == prefix + "." + name
    decreases |prefix|
  {
    var s := prefix + "." + TOKEN;
    NotAtTheFront(prefix);
    assert ReplaceAll(s, name) == [s[0]] + ReplaceAll(s[1..], name);
    hide ReplaceAll, HasToken, Occurs;
    if prefix == "" {
      assert s[1..] == TOKEN;
      TokenOnly(name);
    } else {
      assert s[1..] == prefix[1..] + "." + TOKEN;
      NoTokenFurther(prefix);
      ReplaceTail(prefix[1..], name);
      assert prefix == [prefix[0]] + prefix[1..];
    }
  }

  /** A sink's prefix with the backend's name in place of every placeholder; a service without a name
      refuses one that asks for it. */
  method ExpandBackendName(name: string, prefix: string) returns (r: Expansion)
    ensures !HasToken(prefix) ==> r == Expanded(prefix)
    ensures HasToken(prefix) ==> r == if name == "" then NoName else Expanded(ReplaceAll(prefix, name))
    ensures r.Expanded? && AllKept(name) ==> !HasToken(r.prefix)
  {
    var found := FindToken(prefix);
    if !found {
      return Expanded(prefix);
    }
    if name == "" {
      return NoName;
    }
    r := Expanded(ReplaceAll(prefix, name));
    if AllKept(name) {
      NoTokenIsLeft(prefix, name);
    }
  }
}
