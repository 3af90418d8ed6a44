/** How a running scenario can be cancelled from outside (scenario.go:197-222):
    a run started for a pull request or a branch registers its cancel
    function in the application's registry under a key naming that pull
    request or branch, and removes it again on every way out. */
module Cancellation {
  import opened Wrappers
  import opened Text
  import opened Metadata

  /** Whom a run belongs to. */
  datatype Owner = PullRequest(number: string) | Branch(name: string)

  /** The registry key of an owner: "pr_<number>" or "branch_<name>". */
  function KeyFor(o: Owner): string {
    match o
    case PullRequest(n) => "pr_" + n
    case Branch(b) => "branch_" + b
  }

  /** Reads the owner back from a registry key. */
  function ParseKey(key: string): Option<Owner> {
    if HasPrefix(key, "pr_") then Some(PullRequest(key[3..]))
    else if HasPrefix(key, "branch_") then Some(Branch(key[7..]))
    else None
  }

  /** Keys name their owner unambiguously: a pull request and a branch never
      share a key, and neither do two different pull requests or branches. */
  lemma ParseKeyFor(o: Owner)
    ensures ParseKey(KeyFor(o)) == Some(o)
  {
    var key := KeyFor(o);
    match o
    case PullRequest(n) =>
      assert key[..3] == "pr_" && key[3..] == n;
    case Branch(b) =>
      assert key[..7] == "branch_" && key[7..] == b;
      assert key[..3] != "pr_" by { assert key[0] == 'b'; }
  }

  /** The owner named by the metadata: a non-empty `pr_number` string wins
      over a non-empty `branch` string; anything else names nobody. */
  function OwnerOf(md: map<string, Meta>): (o: Option<Owner>)
    ensures NonEmptyStr(md, "pr_number").Some? ==> o == Some(PullRequest(NonEmptyStr(md, "pr_number").value))
    ensures NonEmptyStr(md, "pr_number").None? && NonEmptyStr(md, "branch").Some? ==>
      o == Some(Branch(NonEmptyStr(md, "branch").value))
    ensures o.None? <==> NonEmptyStr(md, "pr_number").None? && NonEmptyStr(md, "branch").None?
  {
    match NonEmptyStr(md, "pr_number")
    case Some(n) => Some(PullRequest(n))
    case None =>
      match NonEmptyStr(md, "branch")
      case Some(b) => Some(Branch(b))
      case None => None
  }

  /** The key a run registers under, if any: only a run that has an
      application context and names an owner registers. */
  function CancelKey(hasApp: bool, md: map<string, Meta>): (key: Option<string>)
    ensures key.Some? <==> hasApp && OwnerOf(md).Some?
    ensures key.Some? ==> ParseKey(key.value) == OwnerOf(md)
  {
    if hasApp && OwnerOf(md).Some? then
      ParseKeyFor(OwnerOf(md).value);
      Some(KeyFor(OwnerOf(md).value))
    else None
  }

  /** The registry of running tests (appctx.runningTests): each key maps to
      the token of the cancel function registered under it. */
  class Registry {
    var running: map<string, nat>

    constructor ()
      ensures running == map[]
    {
      running := map[];
    }

    /** Registers `token` under `key`, replacing any earlier registration
        under the same key. */
    method Register(key: string, token: nat)
      modifies this
      ensures running == old(running)[key := token]
    {
      running := running[key := token];
    }

    /** Removes whatever is registered under `key`. */
    method Deregister(key: string)
      modifies this
      ensures running == old(running) - {key}
    {
      running := running - {key};
    }
  }
}
