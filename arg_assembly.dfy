/**
 * Assembly of the final argument list in `validate_configurations`: every
 * environment token goes in with `args.insert(-1, token)`, then the runtime
 * tokens are appended with `args.extend(runtime_args)`.
 */
module ArgAssembly {

  /** Where Python's `xs.insert(i, x)` puts `x` in a list of length `n`: a negative `i` counts from the end, and both ends clamp. */
  function InsertionPoint(i: int, n: nat): (j: nat)
    ensures j <= n
    ensures 0 <= i <= n ==> j == i
    ensures -(n as int) <= i < 0 ==> j as int == n as int + i
    ensures i > n ==> j == n
    ensures i < -(n as int) ==> j == 0
  {
    if i < 0 then (if i + n < 0 then 0 else i + n)
    else if i > n then n
    else i
  }

  /** Python's `xs.insert(i, x)`: `x` goes just before the element at the insertion point; nothing else moves out of order. */
  function PyInsert<T>(xs: seq<T>, i: int, x: T): (r: seq<T>)
    ensures |r| == |xs| + 1
    ensures var j := InsertionPoint(i, |xs|); r[j] == x && r[..j] == xs[..j] && r[j + 1..] == xs[j..]
  {
    var j := InsertionPoint(i, |xs|);
    assert xs == xs[..j] + xs[j..];
    xs[..j] + [x] + xs[j..]
  }

  /** `args.insert(-1, x)`: before the last element, or as the only element of an empty list. */
  function InsertBeforeLast<T>(xs: seq<T>, x: T): (r: seq<T>)
    ensures |xs| == 0 ==> r == [x]
    ensures |xs| > 0 ==> r == xs[..|xs| - 1] + [x] + [xs[|xs| - 1]]
  {
    PyInsert(xs, -1, x)
  }

  /** `for env in env_args: args.insert(-1, env)`, starting from `xs`. */
  function InsertAll<T>(xs: seq<T>, es: seq<T>): (r: seq<T>)
    ensures |r| == |xs| + |es|
  {
    if |es| == 0 then xs
    else InsertBeforeLast(InsertAll(xs, es[..|es| - 1]), es[|es| - 1])
  }

  /** With a non-empty base, the inserted elements land in order just before the base's last element. */
  lemma {:induction false} InsertAllBeforeLast<T>(base: seq<T>, es: seq<T>)
    requires |base| > 0
    ensures InsertAll(base, es) == base[..|base| - 1] + es + [base[|base| - 1]]
  {
    if |es| > 0 {
      InsertAllBeforeLast(base, es[..|es| - 1]);
      assert es == es[..|es| - 1] + [es[|es| - 1]];
    } else {
      assert base == base[..|base| - 1] + [base[|base| - 1]];
    }
  }

  /** With an empty base, the first element inserted ends up last and every later one goes in front of it. */
  lemma {:induction false} InsertAllIntoEmpty<T>(es: seq<T>)
    requires |es| > 0
    ensures InsertAll([], es) == es[1..] + [es[0]]
  {
    if |es| > 1 {
      var init := es[..|es| - 1];
      InsertAllIntoEmpty(init);
      assert init[1..] + [es[|es| - 1]] == es[1..];
    }
  }

  /** The argument list handed to the launcher: `args` after the inserts, extended by the runtime tokens. */
  function AssembleArgs(base: seq<string>, envArgs: seq<string>, runtimeArgs: seq<string>): (args: seq<string>)
    ensures |args| == |base| + |envArgs| + |runtimeArgs|
  {
    InsertAll(base, envArgs) + runtimeArgs
  }

  /** The exact order of the assembled list, in every case. */
  lemma AssembleArgsOrder(base: seq<string>, envArgs: seq<string>, runtimeArgs: seq<string>)
    ensures |base| > 0 ==>
      AssembleArgs(base, envArgs, runtimeArgs) == base[..|base| - 1] + envArgs + [base[|base| - 1]] + runtimeArgs
    ensures |base| == 0 && |envArgs| > 0 ==>
      AssembleArgs(base, envArgs, runtimeArgs) == envArgs[1..] + [envArgs[0]] + runtimeArgs
    ensures |base| == 0 && |envArgs| == 0 ==> AssembleArgs(base, envArgs, runtimeArgs) == runtimeArgs
  {
    if |base| > 0 {
      InsertAllBeforeLast(base, envArgs);
    } else if |envArgs| > 0 {
      InsertAllIntoEmpty(envArgs);
    }
  }

  /** Moving the last element of `xs` behind `es` keeps every element. */
  lemma MoveLastBehind<T>(xs: seq<T>, es: seq<T>)
    requires |xs| > 0
    ensures multiset(xs[..|xs| - 1] + es + [xs[|xs| - 1]]) == multiset(xs) + multiset(es)
  {
    var n := |xs| - 1;
    assert xs == xs[..n] + [xs[n]];
  }

  /** Rotating the first element to the end keeps every element. */
  lemma RotateFirst<T>(es: seq<T>)
    requires |es| > 0
    ensures multiset(es[1..] + [es[0]]) == multiset(es)
  {
    assert es == [es[0]] + es[1..];
  }

  /** The inserts only rearrange: the result holds the base and the inserted elements, each as often as before. */
  lemma InsertAllPermutes<T>(xs: seq<T>, es: seq<T>)
    ensures multiset(InsertAll(xs, es)) == multiset(xs) + multiset(es)
  {
    if |xs| > 0 {
      InsertAllBeforeLast(xs, es);
      MoveLastBehind(xs, es);
    } else if |es| > 0 {
      InsertAllIntoEmpty(es);
      RotateFirst(es);
    }
  }

  /** The assembled list is a rearrangement of the base, env and runtime tokens put together. */
  lemma AssembleArgsPermutes(base: seq<string>, envArgs: seq<string>, runtimeArgs: seq<string>)
    ensures multiset(AssembleArgs(base, envArgs, runtimeArgs))
         == multiset(base) + multiset(envArgs) + multiset(runtimeArgs)
  {
    InsertAllPermutes(base, envArgs);
  }

  /** The docker-style example: env tokens before the image name, runtime flag at the end. */
  lemma AssembleArgsDockerExample()
    ensures AssembleArgs(["run", "-i", "--rm", "image"], ["-e", "A=1", "-e", "B=2"], ["--x=1"])
         == ["run", "-i", "--rm", "-e", "A=1", "-e", "B=2", "image", "--x=1"]
  {
    var base := ["run", "-i", "--rm", "image"];
    InsertAllBeforeLast(base, ["-e", "A=1", "-e", "B=2"]);
    assert base[..3] == ["run", "-i", "--rm"];
  }

  /** The same tokens with an empty base: the first `-e` moves behind the other env tokens. */
  lemma AssembleArgsEmptyBaseExample()
    ensures AssembleArgs([], ["-e", "A=1", "-e", "B=2"], ["--x=1"])
         == ["A=1", "-e", "B=2", "-e", "--x=1"]
  {
    var es := ["-e", "A=1", "-e", "B=2"];
    InsertAllIntoEmpty(es);
    assert es[1..] == ["A=1", "-e", "B=2"];
  }
}
