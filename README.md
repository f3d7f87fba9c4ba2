# Connector launch-spec resolution and process teardown

This project models, in Dafny, the deterministic core of `run_MCP.py`. That file is a service that bridges
streaming HTTP clients to tool connectors, and each connector runs as a subprocess that speaks over
standard input/output. The model covers:

- **Connector id parsing.** `connector_id.split("-", 2)` gives one to three segments. Segment 0 is the
  tool name and segment 1, when there is one, is the user id. Anything after the second dash stays in the
  third segment and is never used.
- **Secret lookup** (`get_secret`). The value under the name wins, and otherwise the first alias in
  declared order wins. Python truthiness applies, so a key whose value is the empty string counts as
  absent and the lookup falls through to the aliases.
- **Token synthesis** (`get_runtime_args_and_envs`). Each resolved runtime spec gives one `--NAME=VALUE`
  token. Each resolved env spec gives an env-map entry and the two tokens `-e`, `NAME=VALUE`. Unresolved
  specs are skipped. The model has pure specification functions and a method with the source's two loops,
  proved equal to them.
- **Argument assembly** (`validate_configurations`). Every env token goes in with `args.insert(-1, …)`,
  then the runtime tokens are appended with `args.extend`. Python's `list.insert` index rules are modelled
  as written. With a non-empty base the env tokens land in order before the last base element. With an
  empty base, the first env token inserted ends up last and every later one goes in front of it.
- **Resolution outcome** (`fetch_connector_details`). Each of these gives no launch spec: an unknown
  tool, a transport other than `"stdio"`, and secret specs for which no credential record matches. The
  two database queries are inputs: a tool store keyed by tool name, and a vault keyed by the credential
  filter. That lets the model state that the vault is queried only with the filter built from the id,
  and not at all when there are no secret specs.
- **Process teardown** (the `finally` block of `handle_sse`). A decision function gives the trace of
  calls (terminate, a wait of 5 seconds, kill) and whether an exception leaves the block. A `Process`
  class records the calls made on it, and a method over it is proved to follow that decision.

Where the code behaves in a way a reader might not expect, the model follows the code:

- A missing credential record is a failure. `find_one` returns `None` and `credentials.get` raises
  (`run_MCP.py:76-77`). It is not treated as an empty secrets map.
- With an empty base argument list, the env tokens are not simply appended. `insert(-1, …)` on an empty
  list puts the first token at index 0, and each later token goes in front of the last element. So the
  `-e`, `A=1`, `-e`, `B=2` tokens become `A=1 -e B=2 -e`.
- Secret precedence uses truthiness: an empty value is skipped, not returned.
- An empty tool name after the split is not rejected. It is looked up like any other name.
- Not every teardown error is swallowed. `terminate()` is called before the `try` (`run_MCP.py:257`), and
  `kill()` is called inside the timeout handler (`run_MCP.py:268`), where the sibling `except` clauses
  do not catch it. Errors from these two calls leave the `finally` block. Only errors raised by the wait
  are caught and logged.

## Model

| member | source | states |
|---|---|---|
| ConnectorId.FirstDash | run_MCP.py:126 | the index found holds a dash and no earlier character is one; None means the string has no dash |
| ConnectorId.SplitN | run_MCP.py:126 | `str.split("-", n)`: 1 to n+1 segments; every segment but the last is dash-free; with fewer than n+1 segments the last one is dash-free too |
| ConnectorId.JoinSplitRoundTrip | run_MCP.py:126 | joining the segments of any split with dashes gives the input string back |
| ConnectorId.SplitConnectorId | run_MCP.py:126 | the connector id splits into 1 to 3 segments; every segment but the last is dash-free, and the last too when there are fewer than 3; the segments rejoin to the id |
| ConnectorId.SplitJoinRoundTrip | run_MCP.py:126 | the other round trip: splitting the dash-join of any list that `split` could produce gives back that list |
| ConnectorId.SplitToolOnlyExample | run_MCP.py:126 | `"foo"` splits to `["foo"]`: a tool name and no user id |
| ConnectorId.SplitToolUserExample | run_MCP.py:126 | `"foo-bar"` splits to `["foo", "bar"]` |
| ConnectorId.SplitRemainderExample | run_MCP.py:126 | `"foo-bar-baz-qux"` splits to `["foo", "bar", "baz-qux"]`: tool `foo`, user `bar`, the rest in one segment |
| ConnectorId.CredentialFilter | run_MCP.py:66-74 | the filter always starts with `tool_name = segment 0`; it has a second condition, and a `user_id` condition, exactly when segment 1 exists and is non-empty, and then for that value only |
| ConnectorId.FilterIgnoresRemainder | run_MCP.py:66-74 | for `tool-user-rest` the filter is `[tool, user]`: the remainder after the second dash never reaches the query |
| Secrets.FirstUsable | run_MCP.py:49-54 | the alias loop returns None exactly when no key has a non-empty value; otherwise it returns the value of the first key, in list order, that has one |
| Secrets.GetSecret | run_MCP.py:43-54 | a returned value is never empty; a non-empty value under the key itself wins; None exactly when neither the key nor any alias has a non-empty value |
| Secrets.GetSecretIsFirstUsableCandidate | run_MCP.py:43-54 | the result is the first usable candidate of the key followed by its aliases, so an empty value under the key does not stop the fallback |
| Secrets.FirstUsableValue | run_MCP.py:49-54 | when candidate k is the first usable one, the lookup returns exactly its value |
| Secrets.GetSecretExamples | run_MCP.py:43-54 | `A` resolves to its own value; `B` falls back to `ALT_A`; `C` with alias `ALT_C` resolves to nothing; an empty `A` falls back to `ALT_A` |
| Tokens.Resolved | run_MCP.py:79-94 | the reference list of resolved specs: at most one per spec, every value non-empty |
| Tokens.ResolvedAppend | run_MCP.py:79-94 | resolution goes spec by spec: resolving `a + b` gives the bindings of `a` followed by those of `b` |
| Tokens.RuntimeTokens | run_MCP.py:79-84 | the runtime token list never has more tokens than there are specs |
| Tokens.EnvTokens | run_MCP.py:86-94 | the env token list has even length, at most twice the number of specs |
| Tokens.EnvMap | run_MCP.py:86-92 | every key of `envs` is the name of some spec that resolved |
| Tokens.RuntimeTokensFollowResolved | run_MCP.py:79-84 | token k is `--NAME=VALUE` of the k-th resolved spec: one token per resolved spec, in declaration order, none for the others |
| Tokens.EnvTokensFollowResolved | run_MCP.py:86-94 | the env tokens number 2 × (resolved specs): position 2k is `-e` and position 2k+1 is `NAME=VALUE` of the k-th resolved spec |
| Tokens.EnvMapLastWins | run_MCP.py:86-92 | a resolved spec that no later resolved spec of the same name follows sets that name's value in `envs`: for a repeated name the last one wins |
| ArgAssembly.InsertionPoint | run_MCP.py:111 | Python's `insert` index: a non-negative index within the list is used as is, a negative one counts from the end, and an index past either end clamps to that end |
| ArgAssembly.PyInsert | run_MCP.py:111 | `list.insert(i, x)` puts `x` at the insertion point, with the elements before it and after it unchanged and in order |
| ArgAssembly.InsertBeforeLast | run_MCP.py:111 | `insert(-1, x)` puts `x` just before the last element, and makes `[x]` of an empty list |
| ArgAssembly.InsertAll | run_MCP.py:110-111 | the insert loop adds exactly as many elements as there are env tokens |
| ArgAssembly.InsertAllBeforeLast | run_MCP.py:110-111 | with base `[a0..aN]` the loop gives `[a0..a(N-1)] + env_args + [aN]` |
| ArgAssembly.InsertAllIntoEmpty | run_MCP.py:110-111 | with an empty base and non-empty `env_args` the loop gives `env_args[1..] + [env_args[0]]` |
| ArgAssembly.AssembleArgs | run_MCP.py:110-113 | the final list is exactly as long as the base, env tokens and runtime tokens together |
| ArgAssembly.AssembleArgsOrder | run_MCP.py:110-113 | the exact final order: `[a0..a(N-1)] + env_args + [aN] + runtime_args`, or `env_args[1..] + [env_args[0]] + runtime_args` for an empty base, or just `runtime_args` when both are empty |
| ArgAssembly.InsertAllPermutes | run_MCP.py:110-111 | the insert loop only rearranges: the result's multiset is the base's plus the inserted elements' |
| ArgAssembly.AssembleArgsPermutes | run_MCP.py:110-113 | the final list is a permutation of base, env tokens and runtime tokens together |
| ArgAssembly.AssembleArgsDockerExample | run_MCP.py:102-113 | base `run -i --rm image` with `-e A=1 -e B=2` and `--x=1` gives `run -i --rm -e A=1 -e B=2 image --x=1` |
| ArgAssembly.AssembleArgsEmptyBaseExample | run_MCP.py:102-113 | an empty base with the same tokens gives `A=1 -e B=2 -e --x=1` |
| Launch.Synthesize | run_MCP.py:57-96 | no secret specs gives `([], {}, [])` whatever the vault holds; otherwise a failure exactly when no credential record matches the filter; at most one runtime token per spec; an even number of env tokens, at most two per spec |
| Launch.SynthesizeFollowsResolved | run_MCP.py:76-96 | with a credential record found, the runtime and env tokens are exactly those of the resolved specs from its secrets, in declaration order, and the env map is the in-order fold of the resolved env specs |
| Launch.GetRuntimeArgsAndEnvs | run_MCP.py:57-96 | the two loops building `runtime_args`, `envs` and `env_args` compute `Synthesize` |
| Launch.StdioLaunch | run_MCP.py:99-119 | a launch spec exactly when the transport is `"stdio"` and the secrets could be read; its command defaults to `""`; its env is the resolved env map; its args have the assembled order and length in all three cases |
| Launch.ValidateConfigurations | run_MCP.py:99-119 | the insert-then-extend method computes `StdioLaunch` |
| Launch.FetchConnectorDetails | run_MCP.py:122-141 | no tool record for segment 0 gives None; otherwise the result is the launch spec of that record's configuration, with None in place of every raised error |
| Launch.FetchConsultsOnlyTheFilter | run_MCP.py:122-141 | two stores and vaults that agree on segment 0 and on the credential filter give the same result |
| Launch.DockerTokensExample | run_MCP.py:79-94 | for the sample tool the runtime token is `--x=1`, the env tokens are `-e A=1 -e B=2` (`B` through its alias), and `envs` is `{A: 1, B: 2}` |
| Launch.FetchDockerExample | run_MCP.py:122-141 | `docker-u1` resolves to command `docker`, args `run -i --rm -e A=1 -e B=2 image --x=1` and env `{A: 1, B: 2}` |
| Launch.FetchMissingCredentialsExample | run_MCP.py:71-77 | `docker-u2`, whose user has no credential record, resolves to nothing although the tool is configured |
| Launch.FetchUnknownToolExample | run_MCP.py:128-131 | an id naming no configured tool resolves to nothing |
| Teardown.TeardownPlan | run_MCP.py:254-276 | no calls when there is no process or it has a return code; otherwise exactly one terminate, first; exactly one wait of 5, only after terminate returned; a kill exactly when that wait timed out, then as the last and only kill; an exception escapes exactly when terminate fails, or when the wait timed out and kill fails; never from the wait |
| Teardown.Process.Terminate | run_MCP.py:257 | records one terminate call and reports how it ended |
| Teardown.Process.WaitFor | run_MCP.py:260-262 | records one wait with its timeout; a process that exits gets its return code |
| Teardown.Process.Kill | run_MCP.py:268 | records one kill call and reports how it ended |
| Teardown.TeardownProcess | run_MCP.py:254-276 | the calls made on the handle are exactly the plan's, an exception leaves the block exactly when the plan says so, and the return code becomes the exit code exactly after a graceful exit within the grace period |
| Teardown.KillAfterTimeoutExample | run_MCP.py:254-268 | a process that ignores terminate receives terminate, wait(5), kill, in that order, and nothing escapes |

## Left out

- The race between the relay task and the disconnect monitor, its cancellation and `asyncio.wait` (`run_MCP.py:179-238`). This is concurrency.
- `monitor_disconnect` polling with `asyncio.sleep` (`run_MCP.py:144-151`). This is timing and I/O.
- `stdio_client`, `ClientSession`, `create_proxy_server` and `SseServerTransport`. These are external libraries.
- Starting the subprocess. The model takes the resulting process handle, or its absence, as an input.
- Whether `streams[0]` carries a `process` attribute. That depends on `stdio_client`, so the model takes the process as an optional input.
- The MongoDB connection (`run_MCP.py:125`). The two `find_one` queries are total input functions, so a failing connection, which the source also turns into None, is not represented.
- The Starlette routes, the health endpoints (`/live` is wired to the readiness handler at `run_MCP.py:283`), the command-line entry point, dotenv loading and logging.
- The commented-out copy of the module (`run_MCP.py:304-605`). It is dead code.
- The real five-second wait. It is an abstract outcome: the process exits within the grace period, the wait times out, or the wait raises.
- What happens after an exception leaves the teardown block. `handle_sse` then raises instead of returning `Response()`; that is the transport's concern.
- Secret values are modelled as strings with empty-string falsiness. Non-string values from the credential document, which have their own Python truthiness, are not modelled.
- A secret spec without a `name` key (`arg.get("name")` gives `None`, which would produce a `--None=…` token) is not modelled: names are always strings.
- A configuration field that is present but null (such as `"args": null`) is not modelled. A missing field is `None` in the model and takes the source's default.
- `args = configuration.get("args", [])` aliases the list inside the fetched document, and the inserts change that document in place. The model works on a copy. The document is discarded after the call, so the difference cannot be observed.
- The `if not config` check at `run_MCP.py:137` has no branch of its own. A `StdioServerParameters` object is always truthy, so only the None returned by `validate_configurations` reaches that raise.
