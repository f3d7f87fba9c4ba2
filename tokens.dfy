/**
 * The command-line tokens and environment entries that
 * `get_runtime_args_and_envs` builds from the resolved secrets.
 */
module Tokens {
  import opened Wrappers
  import opened Secrets

  /** One entry of `runtime_args` or `env` in a tool configuration: a name and an optional `alias` list. */
  datatype SecretSpec = SecretSpec(name: string, alias: Option<seq<string>>)

  /** A spec whose secret resolved, paired with the value. */
  datatype Binding = Binding(name: string, value: string)

  /** The marker token that precedes each environment assignment. */
  const EnvFlag: string := "-e"

  /** `get_secret(spec["name"], spec.get("alias", []), secrets)`. */
  function Resolve(spec: SecretSpec, secrets: Secrets): Option<string> {
    GetSecret(spec.name, spec.alias.GetOr([]), secrets)
  }

  /** The runtime flag `--NAME=VALUE`. */
  function RuntimeToken(b: Binding): string {
    "--" + b.name + "=" + b.value
  }

  /** The environment assignment `NAME=VALUE`. */
  function Assignment(b: Binding): string {
    b.name + "=" + b.value
  }

  /**
   * Reference definition: the specs that resolve, with their values, in
   * declaration order; a spec that does not resolve contributes nothing.
   */
  function Resolved(specs: seq<SecretSpec>, secrets: Secrets): (bs: seq<Binding>)
    ensures |bs| <= |specs|
    ensures forall k :: 0 <= k < |bs| ==> bs[k].value != ""
  {
    if |specs| == 0 then []
    else
      var rest := Resolved(specs[1..], secrets);
      match Resolve(specs[0], secrets)
      case None => rest
      case Some(v) => [Binding(specs[0].name, v)] + rest
  }

  /** Resolution works spec by spec: it distributes over concatenation. */
  lemma {:induction false} ResolvedAppend(a: seq<SecretSpec>, b: seq<SecretSpec>, secrets: Secrets)
    ensures Resolved(a + b, secrets) == Resolved(a, secrets) + Resolved(b, secrets)
  {
    if |a| == 0 {
      assert a + b == b;
    } else {
      assert (a + b)[0] == a[0] && (a + b)[1..] == a[1..] + b;
      ResolvedAppend(a[1..], b, secrets);
    }
  }

  /** The `runtime_args` list after the loop has seen `specs`. */
  function RuntimeTokens(specs: seq<SecretSpec>, secrets: Secrets): (tokens: seq<string>)
    ensures |tokens| <= |specs|
  {
    if |specs| == 0 then []
    else
      var init := RuntimeTokens(specs[..|specs| - 1], secrets);
      var last := specs[|specs| - 1];
      match Resolve(last, secrets)
      case None => init
      case Some(v) => init + [RuntimeToken(Binding(last.name, v))]
  }

  /** The `env_args` list after the loop has seen `specs`. */
  function EnvTokens(specs: seq<SecretSpec>, secrets: Secrets): (tokens: seq<string>)
    ensures |tokens| % 2 == 0 && |tokens| <= 2 * |specs|
  {
    if |specs| == 0 then []
    else
      var init := EnvTokens(specs[..|specs| - 1], secrets);
      var last := specs[|specs| - 1];
      match Resolve(last, secrets)
      case None => init
      case Some(v) => init + [EnvFlag, Assignment(Binding(last.name, v))]
  }

  /** The `envs` dict after the loop has seen `specs`. */
  function EnvMap(specs: seq<SecretSpec>, secrets: Secrets): (envs: map<string, string>)
    ensures forall name :: name in envs ==>
      exists i :: 0 <= i < |specs| && specs[i].name == name && Resolve(specs[i], secrets).Some?
  {
    if |specs| == 0 then map[]
    else
      var init := EnvMap(specs[..|specs| - 1], secrets);
      var last := specs[|specs| - 1];
      match Resolve(last, secrets)
      case None => init
      case Some(v) =>
        assert forall i :: 0 <= i < |specs| - 1 ==> specs[..|specs| - 1][i] == specs[i];
        init[last.name := v]
  }

  /** `specs` is its prefix followed by its last spec. */
  lemma SplitLast(specs: seq<SecretSpec>)
    requires |specs| > 0
    ensures specs == specs[..|specs| - 1] + [specs[|specs| - 1]]
  {
  }

  /** Each resolved spec gives exactly one runtime token, `--NAME=VALUE`, in declaration order. */
  lemma {:induction false} RuntimeTokensFollowResolved(specs: seq<SecretSpec>, secrets: Secrets)
    ensures var bs, ts := Resolved(specs, secrets), RuntimeTokens(specs, secrets);
      |ts| == |bs| && forall k :: 0 <= k < |bs| ==> ts[k] == RuntimeToken(bs[k])
  {
    if |specs| > 0 {
      var init, last := specs[..|specs| - 1], specs[|specs| - 1];
      SplitLast(specs);
      ResolvedAppend(init, [last], secrets);
      assert [last][1..] == [];
      RuntimeTokensFollowResolved(init, secrets);
    }
  }

  /** Each resolved spec gives the pair `-e`, `NAME=VALUE`, in declaration order. */
  lemma {:induction false} EnvTokensFollowResolved(specs: seq<SecretSpec>, secrets: Secrets)
    ensures var bs, ts := Resolved(specs, secrets), EnvTokens(specs, secrets);
      |ts| == 2 * |bs| &&
      forall k :: 0 <= k < |bs| ==> ts[2 * k] == EnvFlag && ts[2 * k + 1] == Assignment(bs[k])
  {
    if |specs| > 0 {
      var init, last := specs[..|specs| - 1], specs[|specs| - 1];
      SplitLast(specs);
      ResolvedAppend(init, [last], secrets);
      assert [last][1..] == [];
      EnvTokensFollowResolved(init, secrets);
    }
  }

  /**
   * For a name declared more than once, the last spec that resolves wins:
   * a resolved spec that no later resolved spec of the same name follows
   * gives the map's value for that name.
   */
  lemma {:induction false} EnvMapLastWins(specs: seq<SecretSpec>, secrets: Secrets, i: nat)
    requires i < |specs| && Resolve(specs[i], secrets).Some?
    requires forall j :: i < j < |specs| && Resolve(specs[j], secrets).Some? ==> specs[j].name != specs[i].name
    ensures specs[i].name in EnvMap(specs, secrets)
    ensures EnvMap(specs, secrets)[specs[i].name] == Resolve(specs[i], secrets).value
  {
    var n := |specs| - 1;
    var init, last := specs[..n], specs[n];
    var name := specs[i].name;
    if i < n {
      assert init[i] == specs[i];
      assert forall j :: i < j < |init| ==> init[j] == specs[j];
      EnvMapLastWins(init, secrets, i);
      var before := EnvMap(init, secrets);
      match Resolve(last, secrets)
      case None =>
        assert EnvMap(specs, secrets) == before;
      case Some(v) =>
        assert last.name != name;
        assert EnvMap(specs, secrets) == before[last.name := v];
    }
  }
}
