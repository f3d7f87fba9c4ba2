/**
 * Resolution of a connector id into a stdio launch specification:
 * `get_runtime_args_and_envs`, `validate_configurations` and
 * `fetch_connector_details`. The two database look-ups are inputs: a tool
 * store answering the configuration query by tool name, and a vault
 * answering the credential query by its filter.
 */
module Launch {
  import opened Wrappers
  import opened ConnectorId
  import opened Secrets
  import opened Tokens
  import opened ArgAssembly

  /** The `configurations` document of a tool; each field may be missing. */
  datatype Configuration = Configuration(
    transport: Option<string>,
    command: Option<string>,
    args: Option<seq<string>>,
    runtimeArgs: Option<seq<SecretSpec>>,
    env: Option<seq<SecretSpec>>)

  /** A record of the tool-configuration collection. */
  datatype ToolConfigRecord = ToolConfigRecord(configurations: Option<Configuration>)

  /** A record of the credential collection. */
  datatype CredentialRecord = CredentialRecord(secrets: Option<Secrets>)

  /** The triple `(runtime_args, envs, env_args)`. */
  datatype Synthesized = Synthesized(runtimeArgs: seq<string>, envs: map<string, string>, envArgs: seq<string>)

  /** `StdioServerParameters(command=..., args=..., env=...)`. */
  datatype StdioParams = StdioParams(command: string, args: seq<string>, env: map<string, string>)

  /** `find_one(filter={"name": ...})` on the tool-configuration collection. */
  type ToolStore = string -> Option<ToolConfigRecord>

  /** `find_one(filter={"$and": ...})` on the credential collection. */
  type Vault = seq<Condition> -> Option<CredentialRecord>

  const Stdio: string := "stdio"

  /** `tool_config.get("configurations", {})`: a missing document reads as one with no fields. */
  function ConfigurationOf(record: ToolConfigRecord): Configuration {
    record.configurations.GetOr(Configuration(None, None, None, None, None))
  }

  /**
   * `get_runtime_args_and_envs`. None stands for the exception raised when
   * secret specs exist but no credential record matches the filter.
   */
  function Synthesize(segments: seq<string>, vault: Vault, runtimeArgsInfo: seq<SecretSpec>, envsInfo: seq<SecretSpec>)
    : (r: Option<Synthesized>)
    requires |segments| >= 1
    ensures |runtimeArgsInfo| == 0 && |envsInfo| == 0 ==> r == Some(Synthesized([], map[], []))
    ensures |runtimeArgsInfo| + |envsInfo| > 0 ==> (r.None? <==> vault(CredentialFilter(segments)).None?)
    ensures r.Some? ==>
      |r.value.runtimeArgs| <= |runtimeArgsInfo| &&
      |r.value.envArgs| % 2 == 0 && |r.value.envArgs| <= 2 * |envsInfo|
  {
    if |runtimeArgsInfo| == 0 && |envsInfo| == 0 then Some(Synthesized([], map[], []))
    else
      match vault(CredentialFilter(segments))
      case None => None
      case Some(record) =>
        var secrets := record.secrets.GetOr(map[]);
        Some(Synthesized(RuntimeTokens(runtimeArgsInfo, secrets), EnvMap(envsInfo, secrets), EnvTokens(envsInfo, secrets)))
  }

  /**
   * With a credential record found, the tokens are those of the resolved
   * specs, in declaration order: one `--NAME=VALUE` per resolved runtime spec
   * and one `-e`, `NAME=VALUE` pair per resolved env spec.
   */
  lemma SynthesizeFollowsResolved(segments: seq<string>, vault: Vault, runtimeArgsInfo: seq<SecretSpec>, envsInfo: seq<SecretSpec>)
    requires |segments| >= 1 && |runtimeArgsInfo| + |envsInfo| > 0
    requires vault(CredentialFilter(segments)).Some?
    ensures var secrets := vault(CredentialFilter(segments)).value.secrets.GetOr(map[]);
      var s := Synthesize(segments, vault, runtimeArgsInfo, envsInfo).value;
      var rb, eb := Resolved(runtimeArgsInfo, secrets), Resolved(envsInfo, secrets);
      |s.runtimeArgs| == |rb| && (forall k :: 0 <= k < |rb| ==> s.runtimeArgs[k] == RuntimeToken(rb[k])) &&
      |s.envArgs| == 2 * |eb| &&
      (forall k :: 0 <= k < |eb| ==> s.envArgs[2 * k] == EnvFlag && s.envArgs[2 * k + 1] == Assignment(eb[k])) &&
      s.envs == EnvMap(envsInfo, secrets)
  {
    var secrets := vault(CredentialFilter(segments)).value.secrets.GetOr(map[]);
    RuntimeTokensFollowResolved(runtimeArgsInfo, secrets);
    EnvTokensFollowResolved(envsInfo, secrets);
  }

  /** `get_runtime_args_and_envs`, with its two loops. */
  method GetRuntimeArgsAndEnvs(segments: seq<string>, vault: Vault, runtimeArgsInfo: seq<SecretSpec>, envsInfo: seq<SecretSpec>)
    returns (r: Option<Synthesized>)
    requires |segments| >= 1
    ensures r == Synthesize(segments, vault, runtimeArgsInfo, envsInfo)
  {
    if |runtimeArgsInfo| == 0 && |envsInfo| == 0 {
      return Some(Synthesized([], map[], []));
    }
    var credentials := vault(CredentialFilter(segments));
    if credentials.None? {
      // `credentials.get("secrets", {})` on None raises
      return None;
    }
    var secrets := credentials.value.secrets.GetOr(map[]);

    var runtimeArgs: seq<string> := [];
    for i := 0 to |runtimeArgsInfo|
      invariant runtimeArgs == RuntimeTokens(runtimeArgsInfo[..i], secrets)
    {
      var arg := runtimeArgsInfo[i];
      var value := GetSecret(arg.name, arg.alias.GetOr([]), secrets);
      if value.Some? {
        runtimeArgs := runtimeArgs + [RuntimeToken(Binding(arg.name, value.value))];
      }
      assert runtimeArgsInfo[..i + 1][..i] == runtimeArgsInfo[..i];
    }
    assert runtimeArgsInfo[..|runtimeArgsInfo|] == runtimeArgsInfo;

    var envs: map<string, string> := map[];
    var envArgs: seq<string> := [];
    for i := 0 to |envsInfo|
      invariant envs == EnvMap(envsInfo[..i], secrets)
      invariant envArgs == EnvTokens(envsInfo[..i], secrets)
    {
      var env := envsInfo[i];
      var value := GetSecret(env.name, env.alias.GetOr([]), secrets);
      if value.Some? {
        envs := envs[env.name := value.value];
        envArgs := envArgs + [EnvFlag];
        envArgs := envArgs + [Assignment(Binding(env.name, value.value))];
      }
      assert envsInfo[..i + 1][..i] == envsInfo[..i];
    }
    assert envsInfo[..|envsInfo|] == envsInfo;

    r := Some(Synthesized(runtimeArgs, envs, envArgs));
  }

  /**
   * `validate_configurations`: None for a transport other than "stdio" and
   * when the secrets cannot be read; otherwise the command (empty when
   * missing), the assembled arguments and the environment.
   */
  function StdioLaunch(segments: seq<string>, configuration: Configuration, vault: Vault): (r: Option<StdioParams>)
    requires |segments| >= 1
    ensures var s := Synthesize(segments, vault, configuration.runtimeArgs.GetOr([]), configuration.env.GetOr([]));
      r.Some? <==> configuration.transport == Some(Stdio) && s.Some?
    ensures var s := Synthesize(segments, vault, configuration.runtimeArgs.GetOr([]), configuration.env.GetOr([]));
      var base := configuration.args.GetOr([]);
      r.Some? ==>
        && r.value.command == configuration.command.GetOr("")
        && r.value.env == s.value.envs
        && |r.value.args| == |base| + |s.value.envArgs| + |s.value.runtimeArgs|
        && (|base| > 0 ==> r.value.args == base[..|base| - 1] + s.value.envArgs + [base[|base| - 1]] + s.value.runtimeArgs)
        && (|base| == 0 && |s.value.envArgs| > 0 ==> r.value.args == s.value.envArgs[1..] + [s.value.envArgs[0]] + s.value.runtimeArgs)
        && (|base| == 0 && |s.value.envArgs| == 0 ==> r.value.args == s.value.runtimeArgs)
  {
    if configuration.transport == Some(Stdio) then
      var base := configuration.args.GetOr([]);
      match Synthesize(segments, vault, configuration.runtimeArgs.GetOr([]), configuration.env.GetOr([]))
      case None => None
      case Some(s) =>
        AssembleArgsOrder(base, s.envArgs, s.runtimeArgs);
        Some(StdioParams(configuration.command.GetOr(""), AssembleArgs(base, s.envArgs, s.runtimeArgs), s.envs))
    else None
  }

  /** `validate_configurations`, inserting the env tokens into the argument list one at a time. */
  method ValidateConfigurations(segments: seq<string>, configuration: Configuration, vault: Vault)
    returns (r: Option<StdioParams>)
    requires |segments| >= 1
    ensures r == StdioLaunch(segments, configuration, vault)
  {
    if configuration.transport != Some(Stdio) {
      return None;
    }
    var base := configuration.args.GetOr([]);
    var args := base;
    var synthesized := GetRuntimeArgsAndEnvs(segments, vault, configuration.runtimeArgs.GetOr([]), configuration.env.GetOr([]));
    if synthesized.None? {
      return None;
    }
    var envArgs := synthesized.value.envArgs;
    for k := 0 to |envArgs|
      invariant args == InsertAll(base, envArgs[..k])
    {
      args := PyInsert(args, -1, envArgs[k]);
      assert envArgs[..k + 1][..k] == envArgs[..k];
    }
    assert envArgs[..|envArgs|] == envArgs;
    args := args + synthesized.value.runtimeArgs;
    r := Some(StdioParams(configuration.command.GetOr(""), args, synthesized.value.envs));
  }

  /**
   * `fetch_connector_details`: the configuration is looked up by segment 0
   * of the id; a missing record, and every failure of the resolution, give
   * None instead of an exception.
   */
  function FetchConnectorDetails(connectorId: string, store: ToolStore, vault: Vault): (r: Option<StdioParams>)
    ensures var segments := SplitConnectorId(connectorId);
      store(segments[0]).None? ==> r.None?
    ensures var segments := SplitConnectorId(connectorId);
      store(segments[0]).Some? ==> r == StdioLaunch(segments, ConfigurationOf(store(segments[0]).value), vault)
  {
    var segments := SplitConnectorId(connectorId);
    match store(segments[0])
    case None => None
    case Some(record) => StdioLaunch(segments, ConfigurationOf(record), vault)
  }

  /** The credential store is consulted only with the filter built from the id, and the tool store only with segment 0. */
  lemma FetchConsultsOnlyTheFilter(connectorId: string, store: ToolStore, store': ToolStore, vault: Vault, vault': Vault)
    requires var segments := SplitConnectorId(connectorId);
      store(segments[0]) == store'(segments[0]) &&
      vault(CredentialFilter(segments)) == vault'(CredentialFilter(segments))
    ensures FetchConnectorDetails(connectorId, store, vault) == FetchConnectorDetails(connectorId, store', vault')
  {
  }

  /** A sample tool store holding one docker-launched tool. */
  function DockerStore(name: string): Option<ToolConfigRecord> {
    if name == "docker" then
      Some(ToolConfigRecord(Some(Configuration(
        Some(Stdio), Some("docker"), Some(["run", "-i", "--rm", "image"]),
        Some([SecretSpec("x", None)]),
        Some([SecretSpec("A", None), SecretSpec("B", Some(["ALT_B"]))])))))
    else None
  }

  /** A sample vault holding the credentials of user "u1" only. */
  function DockerVault(filter: seq<Condition>): Option<CredentialRecord> {
    if filter == [ToolNameIs("docker"), UserIdIs("u1")] then
      Some(CredentialRecord(Some(map["A" := "1", "ALT_B" := "2", "x" := "1"])))
    else None
  }

  /** Token synthesis for the sample tool: `B` resolves through its alias `ALT_B`. */
  lemma DockerTokensExample()
    ensures var secrets := map["A" := "1", "ALT_B" := "2", "x" := "1"];
      var envSpecs := [SecretSpec("A", None), SecretSpec("B", Some(["ALT_B"]))];
      RuntimeTokens([SecretSpec("x", None)], secrets) == ["--x=1"] &&
      EnvTokens(envSpecs, secrets) == ["-e", "A=1", "-e", "B=2"] &&
      EnvMap(envSpecs, secrets) == map["A" := "1", "B" := "2"]
  {
    var secrets := map["A" := "1", "ALT_B" := "2", "x" := "1"];
    var runtimeSpecs := [SecretSpec("x", None)];
    var envSpecs := [SecretSpec("A", None), SecretSpec("B", Some(["ALT_B"]))];
    assert Resolve(envSpecs[1], secrets) == Some("2") by {
      assert FirstUsableAt(["ALT_B"], secrets, 0);
      FirstUsableValue(["ALT_B"], secrets, 0);
    }
    assert runtimeSpecs[..0] == [] && envSpecs[..1] == [SecretSpec("A", None)] && envSpecs[..1][..0] == [];
    assert RuntimeToken(Binding("x", "1")) == "--x=1";
    assert Assignment(Binding("A", "1")) == "A=1" && Assignment(Binding("B", "2")) == "B=2";
  }

  /** End to end: the sample docker tool resolves to the expected command line. */
  lemma FetchDockerExample()
    ensures FetchConnectorDetails("docker-u1", DockerStore, DockerVault)
         == Some(StdioParams("docker", ["run", "-i", "--rm", "-e", "A=1", "-e", "B=2", "image", "--x=1"],
                             map["A" := "1", "B" := "2"]))
  {
    var segments := ["docker", "u1"];
    assert SplitConnectorId("docker-u1") == segments by {
      assert JoinDash(segments) == "docker-u1";
      SplitJoinRoundTrip(segments, 2);
    }
    var configuration := ConfigurationOf(DockerStore("docker").value);
    assert FetchConnectorDetails("docker-u1", DockerStore, DockerVault) == StdioLaunch(segments, configuration, DockerVault);
    assert CredentialFilter(segments) == [ToolNameIs("docker"), UserIdIs("u1")];
    var runtimeSpecs := [SecretSpec("x", None)];
    var envSpecs := [SecretSpec("A", None), SecretSpec("B", Some(["ALT_B"]))];
    assert Synthesize(segments, DockerVault, runtimeSpecs, envSpecs)
        == Some(Synthesized(["--x=1"], map["A" := "1", "B" := "2"], ["-e", "A=1", "-e", "B=2"])) by {
      DockerTokensExample();
    }
    AssembleArgsDockerExample();
  }

  /** A user without a credential record gets no launch spec, although the tool is configured. */
  lemma FetchMissingCredentialsExample()
    ensures FetchConnectorDetails("docker-u2", DockerStore, DockerVault).None?
  {
    SplitJoinRoundTrip(["docker", "u2"], 2);
    assert JoinDash(["docker", "u2"]) == "docker-u2";
  }

  /** An id naming no configured tool gets no launch spec. */
  lemma FetchUnknownToolExample()
    ensures FetchConnectorDetails("podman-u1", DockerStore, DockerVault).None?
  {
    SplitJoinRoundTrip(["podman", "u1"], 2);
    assert JoinDash(["podman", "u1"]) == "podman-u1";
  }
}
