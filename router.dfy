/**
 * The provider router of server/types.go: a client model id of the form
 * `[provider]model` selects the first configured provider whose name sits
 * between the brackets, and the bracketed prefix is stripped before the id is
 * forwarded upstream.
 */
module Router {
  import opened Wrappers
  import opened Types

  /** The match test inside FindProvider's loop: `[`, the name, `]`, and at least one more character. */
  predicate Matches(name: string, modelName: string) {
    && |modelName| > |name| + 2
    && modelName[0] == '['
    && modelName[|name| + 1] == ']'
    && modelName[1..|name| + 1] == name
  }

  /** The match test is exactly "the id is `[name]` followed by a non-empty rest". */
  lemma MatchesIffQualified(name: string, modelName: string)
    ensures Matches(name, modelName) <==>
              exists rest :: rest != [] && modelName == "[" + name + "]" + rest
  {
    if Matches(name, modelName) {
      var rest := modelName[|name| + 2..];
      assert modelName == "[" + name + "]" + rest;
    }
    if exists rest :: rest != [] && modelName == "[" + name + "]" + rest {
      var rest :| rest != [] && modelName == "[" + name + "]" + rest;
      assert modelName[1..|name| + 1] == name;
    }
  }

  /** The index of the first provider at or after `from` whose name matches. */
  function ResolveFrom(providers: seq<Provider>, modelName: string, from: nat): (r: Option<nat>)
    requires from <= |providers|
    ensures r.Some? ==> from <= r.value < |providers| && Matches(providers[r.value].name, modelName)
    ensures r.Some? ==> forall j :: from <= j < r.value ==> !Matches(providers[j].name, modelName)
    ensures r.None? ==> forall j :: from <= j < |providers| ==> !Matches(providers[j].name, modelName)
    decreases |providers| - from
  {
    if from == |providers| then None
    else if Matches(providers[from].name, modelName) then Some(from)
    else ResolveFrom(providers, modelName, from + 1)
  }

  /** The provider FindProvider returns, as an index into the configuration's provider list. */
  function Resolve(providers: seq<Provider>, modelName: string): (r: Option<nat>)
    ensures r.Some? ==> r.value < |providers| && Matches(providers[r.value].name, modelName)
    ensures r.Some? ==> forall j :: 0 <= j < r.value ==> !Matches(providers[j].name, modelName)
    ensures r.None? <==> forall j :: 0 <= j < |providers| ==> !Matches(providers[j].name, modelName)
  {
    ResolveFrom(providers, modelName, 0)
  }

  /** FindProvider's search loop with early return; `None` is the nil provider. */
  method FindProvider(providers: seq<Provider>, modelName: string) returns (r: Option<nat>)
    ensures r == Resolve(providers, modelName)
  {
    var i := 0;
    while i < |providers|
      invariant 0 <= i <= |providers|
      invariant forall j :: 0 <= j < i ==> !Matches(providers[j].name, modelName)
    {
      var name := providers[i].name;
      if |modelName| > |name| + 2 && modelName[0] == '[' && modelName[|name| + 1] == ']' && modelName[1..|name| + 1] == name {
        return Some(i);
      }
      i := i + 1;
    }
    return None;
  }

  /** The id forwarded upstream: the resolved provider's `[name]` prefix removed, or the id itself when nothing resolves. */
  function GetActualModelName(providers: seq<Provider>, modelName: string): (r: string)
    ensures Resolve(providers, modelName).Some? ==>
              var p := providers[Resolve(providers, modelName).value];
              r != [] && modelName == "[" + p.name + "]" + r
    ensures Resolve(providers, modelName).None? ==> r == modelName
  {
    match Resolve(providers, modelName)
    case Some(k) => modelName[|providers[k].name| + 2..]
    case None => modelName
  }

  /** What a match says about the id, character by character. */
  lemma MatchedCharacters(name: string, modelName: string)
    requires Matches(name, modelName)
    ensures modelName[|name| + 1] == ']'
    ensures forall k :: 0 <= k < |name| ==> modelName[k + 1] == name[k]
  {
    forall k | 0 <= k < |name|
      ensures modelName[k + 1] == name[k]
    {
      assert modelName[1..|name| + 1][k] == modelName[k + 1];
    }
  }

  /**
   * An id with nothing after the closing bracket never resolves to that name;
   * when the bracketed name holds no `]`, it resolves to no provider at all.
   */
  lemma BareBracketNeverResolves(providers: seq<Provider>, name: string)
    ensures !Matches(name, "[" + name + "]")
    ensures ']' !in name ==> Resolve(providers, "[" + name + "]").None?
  {
    var m := "[" + name + "]";
    if ']' !in name {
      forall j | 0 <= j < |providers|
        ensures !Matches(providers[j].name, m)
      {
        var pn := providers[j].name;
        if Matches(pn, m) {
          MatchedCharacters(pn, m);
          assert false;
        }
      }
    }
  }

  /** When two names contain no `]`, both can match one id only if they are equal. */
  lemma MatchDeterminesName(a: string, b: string, modelName: string)
    requires ']' !in a && ']' !in b
    requires Matches(a, modelName) && Matches(b, modelName)
    ensures a == b
  {
    MatchedCharacters(a, modelName);
    MatchedCharacters(b, modelName);
    assert |a| == |b|;
    assert modelName[1..|a| + 1] == a;
  }

  /**
   * For `[P]M` with `P` a configured name and `M` non-empty, when no configured
   * name contains `]`, routing resolves to a provider named `P` and strips the id
   * to exactly `M`.
   */
  lemma QualifiedIdRoutes(providers: seq<Provider>, i: nat, m: string)
    requires i < |providers| && m != []
    requires forall j :: 0 <= j < |providers| ==> ']' !in providers[j].name
    ensures Resolve(providers, "[" + providers[i].name + "]" + m).Some?
    ensures providers[Resolve(providers, "[" + providers[i].name + "]" + m).value].name == providers[i].name
    ensures GetActualModelName(providers, "[" + providers[i].name + "]" + m) == m
  {
    var id := "[" + providers[i].name + "]" + m;
    MatchesIffQualified(providers[i].name, id);
    assert Matches(providers[i].name, id);
    var k := Resolve(providers, id).value;
    MatchDeterminesName(providers[k].name, providers[i].name, id);
    var r := GetActualModelName(providers, id);
    assert id == "[" + providers[k].name + "]" + r;
    assert r == id[|providers[k].name| + 2..];
  }

  /** An id that fits no provider's bracket prefix is forwarded unchanged. */
  lemma UnresolvedIsIdentity(providers: seq<Provider>, modelName: string)
    requires forall j :: 0 <= j < |providers| ==> !Matches(providers[j].name, modelName)
    ensures Resolve(providers, modelName).None?
    ensures GetActualModelName(providers, modelName) == modelName
  {
  }

  /**
   * The first match in configuration order wins, even when a later provider
   * also matches: with names `a]b` and `a`, the id `[a]b]x` goes to `a]b`,
   * which comes first, and is stripped to `x`.
   */
  lemma FirstMatchWins(p: Provider, q: Provider)
    requires p.name == "a]b" && q.name == "a"
    ensures Matches(q.name, "[a]b]x")
    ensures Resolve([p, q], "[a]b]x") == Some(0)
    ensures GetActualModelName([p, q], "[a]b]x") == "x"
    ensures Resolve([q, p], "[a]b]x") == Some(0)
    ensures GetActualModelName([q, p], "[a]b]x") == "b]x"
  {
    assert Matches(p.name, "[a]b]x") by {
      assert "[a]b]x"[1..4] == "a]b";
    }
    assert Matches(q.name, "[a]b]x") by {
      assert "[a]b]x"[1..2] == "a";
    }
    assert "[a]b]x"[5..] == "x";
    assert "[a]b]x"[3..] == "b]x";
  }
}
