/**
 * `get_secret`: the value of a secret name, falling back to its aliases in
 * declared order. Values are tested with Python truthiness, so a key that is
 * present with an empty value counts as absent.
 */
module Secrets {
  import opened Wrappers

  type Secrets = map<string, string>

  /** `secrets.get(key)` is truthy: the key is present and its value is non-empty. */
  predicate Usable(secrets: Secrets, key: string) {
    key in secrets && secrets[key] != ""
  }

  /** `keys[k]` is the first usable key of `keys`. */
  ghost predicate FirstUsableAt(keys: seq<string>, secrets: Secrets, k: int) {
    0 <= k < |keys| && Usable(secrets, keys[k]) &&
    forall j :: 0 <= j < k ==> !Usable(secrets, keys[j])
  }

  /** The alias loop: the value of the first usable key, or None. */
  function FirstUsable(keys: seq<string>, secrets: Secrets): (r: Option<string>)
    ensures r.None? <==> forall j :: 0 <= j < |keys| ==> !Usable(secrets, keys[j])
    ensures r.Some? ==> exists k :: FirstUsableAt(keys, secrets, k) && r.value == secrets[keys[k]]
  {
    if |keys| == 0 then None
    else if Usable(secrets, keys[0]) then
      assert FirstUsableAt(keys, secrets, 0);
      Some(secrets[keys[0]])
    else
      var r := FirstUsable(keys[1..], secrets);
      if r.Some? then
        assert exists k :: FirstUsableAt(keys, secrets, k) && r.value == secrets[keys[k]] by {
          var k :| FirstUsableAt(keys[1..], secrets, k) && r.value == secrets[keys[1..][k]];
          assert FirstUsableAt(keys, secrets, k + 1);
        }
        r
      else
        assert forall j :: 1 <= j < |keys| ==> keys[j] == keys[1..][j - 1];
        r
  }

  /** `get_secret(key, alias_keys, secrets)`. */
  function GetSecret(key: string, aliases: seq<string>, secrets: Secrets): (r: Option<string>)
    ensures r.Some? ==> r.value != ""
    ensures Usable(secrets, key) ==> r == Some(secrets[key])
    ensures r.None? <==> !Usable(secrets, key) && forall j :: 0 <= j < |aliases| ==> !Usable(secrets, aliases[j])
  {
    if Usable(secrets, key) then Some(secrets[key])
    else FirstUsable(aliases, secrets)
  }

  /**
   * The primary key and then the aliases, in order, are the candidates: the
   * result is the value of the first usable candidate, and None when none is.
   * An empty value under the primary key does not stop the fallback.
   */
  lemma GetSecretIsFirstUsableCandidate(key: string, aliases: seq<string>, secrets: Secrets)
    ensures GetSecret(key, aliases, secrets) == FirstUsable([key] + aliases, secrets)
  {
    var keys := [key] + aliases;
    assert keys[0] == key && keys[1..] == aliases;
  }

  /** Uniqueness of the first usable candidate, so the lemma above pins the value down. */
  lemma FirstUsableValue(keys: seq<string>, secrets: Secrets, k: int)
    requires FirstUsableAt(keys, secrets, k)
    ensures FirstUsable(keys, secrets) == Some(secrets[keys[k]])
  {
    var r := FirstUsable(keys, secrets);
    var k' :| FirstUsableAt(keys, secrets, k') && r.value == secrets[keys[k']];
    assert k' == k;
  }

  /** The precedence examples (own key, alias, neither), plus an empty primary value falling through to its alias. */
  lemma GetSecretExamples()
    ensures GetSecret("A", ["ALT_A"], map["A" := "1", "ALT_A" := "2"]) == Some("1")
    ensures GetSecret("B", ["ALT_A"], map["A" := "1", "ALT_A" := "2"]) == Some("2")
    ensures GetSecret("C", ["ALT_C"], map["A" := "1", "ALT_A" := "2"]) == None
    ensures GetSecret("A", ["ALT_A"], map["A" := "", "ALT_A" := "2"]) == Some("2")
  {
    var s := map["A" := "1", "ALT_A" := "2"];
    assert FirstUsableAt(["ALT_A"], s, 0);
    FirstUsableValue(["ALT_A"], s, 0);
    var s' := map["A" := "", "ALT_A" := "2"];
    assert FirstUsableAt(["ALT_A"], s', 0);
    FirstUsableValue(["ALT_A"], s', 0);
  }
}
