/** The tag filter applied to every scenario file before it runs
    (isAllowed, scenario.go:175-195): each requirement is a "key=value"
    string, and a scenario runs only when its `tags` meet every one. */
module TagFilter {
  import opened Text

  /** A requirement holds for a scenario's tags when it splits on "=" into
      exactly a key and a value and the tags map that key to that value. */
  predicate Satisfies(req: string, tags: map<string, string>) {
    var parts := Split(req, "=");
    |parts| == 2 && parts[0] in tags && tags[parts[0]] == parts[1]
  }

  /** A scenario is allowed when it satisfies every requirement (in
      particular, always when there are none). */
  predicate Allowed(reqs: seq<string>, tags: map<string, string>) {
    forall j :: 0 <= j < |reqs| ==> Satisfies(reqs[j], tags)
  }

  /** How many of the requirements the tags satisfy. */
  function SatisfiedCount(reqs: seq<string>, tags: map<string, string>): (n: nat)
    ensures n <= |reqs|
  {
    if |reqs| == 0 then 0
    else SatisfiedCount(reqs[..|reqs| - 1], tags) + (if Satisfies(reqs[|reqs| - 1], tags) then 1 else 0)
  }

  /** Counting the satisfied requirements reaches their number exactly when
      all of them are satisfied. */
  lemma {:induction false} SatisfiedCountAll(reqs: seq<string>, tags: map<string, string>)
    ensures SatisfiedCount(reqs, tags) == |reqs| <==> Allowed(reqs, tags)
  {
    if |reqs| > 0 {
      var init := reqs[..|reqs| - 1];
      SatisfiedCountAll(init, tags);
      AllowedSnoc(reqs, tags);
    }
  }

  /** All requirements are met when those before the last one are and the
      last one is. */
  lemma AllowedSnoc(reqs: seq<string>, tags: map<string, string>)
    requires |reqs| > 0
    ensures Allowed(reqs, tags) <==>
      Allowed(reqs[..|reqs| - 1], tags) && Satisfies(reqs[|reqs| - 1], tags)
  {
    var init := reqs[..|reqs| - 1];
    assert forall j :: 0 <= j < |init| ==> init[j] == reqs[j];
  }

  /** isAllowed: with no requirements every scenario runs; otherwise each
      well-formed requirement is matched against the scenario's tags by
      scanning them, and the scenario runs when the matches add up to the
      number of requirements. */
  method IsAllowed(reqs: seq<string>, tags: map<string, string>) returns (ok: bool)
    ensures ok <==> Allowed(reqs, tags)
  {
    if |reqs| == 0 {
      return true;
    }
    var matched := 0;
    for i := 0 to |reqs|
      invariant matched == SatisfiedCount(reqs[..i], tags)
    {
      assert reqs[..i + 1][..i] == reqs[..i];
      var tt := Split(reqs[i], "=");
      if |tt| == 2 {
        var unseen := tags.Keys;
        ghost var before := matched;
        while unseen != {}
          invariant unseen <= tags.Keys
          invariant matched == before +
            (if tt[0] in tags && tt[0] !in unseen && tags[tt[0]] == tt[1] then 1 else 0)
          decreases |unseen|
        {
          var k :| k in unseen;
          if k == tt[0] && tags[k] == tt[1] {
            matched := matched + 1;
          }
          unseen := unseen - {k};
        }
      }
    }
    assert reqs[..|reqs|] == reqs;
    SatisfiedCountAll(reqs, tags);
    return matched == |reqs|;
  }

  /** A requirement without exactly one "=" (such as "a" or "a=b=c") is met
      by no scenario at all, so every scenario is filtered out. */
  lemma MalformedRequirementRejectsAll(reqs: seq<string>, j: nat, tags: map<string, string>)
    requires j < |reqs| && Count(reqs[j], '=') != 1
    ensures !Allowed(reqs, tags)
  {
    SplitCharCount(reqs[j], '=');
  }

  /** A well-formed requirement "k=v" is met exactly when the tags map k to v. */
  lemma PairRequirement(k: string, v: string, tags: map<string, string>)
    requires '=' !in k && '=' !in v
    ensures Satisfies(k + "=" + v, tags) <==> (k in tags && tags[k] == v)
  {
    SplitOnce(k, v, '=');
  }

  /** The scenarios (given by their tags) that the filter lets through, in
      their original order. */
  function Select(reqs: seq<string>, scenarios: seq<map<string, string>>): (kept: seq<map<string, string>>)
    ensures |kept| <= |scenarios|
    ensures forall t :: t in kept <==> t in scenarios && Allowed(reqs, t)
  {
    if |scenarios| == 0 then []
    else
      var rest := Select(reqs, scenarios[1..]);
      assert forall t :: t in scenarios <==> t == scenarios[0] || t in scenarios[1..];
      if Allowed(reqs, scenarios[0]) then [scenarios[0]] + rest else rest
  }

  /** Filtering the already filtered scenarios changes nothing. */
  lemma {:induction false} SelectIdempotent(reqs: seq<string>, scenarios: seq<map<string, string>>)
    ensures Select(reqs, Select(reqs, scenarios)) == Select(reqs, scenarios)
  {
    if |scenarios| > 0 {
      SelectIdempotent(reqs, scenarios[1..]);
      var rest := Select(reqs, scenarios[1..]);
      if Allowed(reqs, scenarios[0]) {
        var kept := [scenarios[0]] + rest;
        assert kept[0] == scenarios[0] && kept[1..] == rest;
      }
    }
  }
}
