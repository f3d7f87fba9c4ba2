/**
 * Parsing of a connector id such as "github-user42" into the segments that
 * select the tool configuration and the credential record.
 */
module ConnectorId {
  import opened Wrappers

  /** Index of the first '-' in `s`, if there is one. */
  function FirstDash(s: string): (r: Option<nat>)
    ensures r.Some? ==> r.value < |s| && s[r.value] == '-' && '-' !in s[..r.value]
    ensures r.None? ==> '-' !in s
  {
    if |s| == 0 then None
    else if s[0] == '-' then Some(0)
    else
      match FirstDash(s[1..])
      case None => None
      case Some(i) =>
        assert s[..i + 1] == [s[0]] + s[1..][..i];
        Some(i + 1)
  }

  /** Python's `"-".join(parts)`. */
  function JoinDash(parts: seq<string>): string {
    if |parts| == 0 then ""
    else if |parts| == 1 then parts[0]
    else parts[0] + "-" + JoinDash(parts[1..])
  }

  /**
   * Python's `s.split("-", maxsplit)`: splits at the first `maxsplit` dashes,
   * from the left, and keeps whatever follows the last split as one segment.
   */
  function SplitN(s: string, maxsplit: nat): (parts: seq<string>)
    ensures 1 <= |parts| <= maxsplit + 1
    ensures forall k :: 0 <= k < |parts| - 1 ==> '-' !in parts[k]
    ensures |parts| <= maxsplit ==> '-' !in parts[|parts| - 1]
  {
    if maxsplit == 0 then [s]
    else
      match FirstDash(s)
      case None => [s]
      case Some(i) => [s[..i]] + SplitN(s[i + 1..], maxsplit - 1)
  }

  /** Joining the segments with dashes gives the split string back. */
  lemma {:induction false} JoinSplitRoundTrip(s: string, maxsplit: nat)
    ensures JoinDash(SplitN(s, maxsplit)) == s
  {
    if maxsplit == 0 || FirstDash(s).None? {
      assert SplitN(s, maxsplit) == [s];
    } else {
      var i := FirstDash(s).value;
      var head, rest := s[..i], SplitN(s[i + 1..], maxsplit - 1);
      assert SplitN(s, maxsplit) == [head] + rest;
      calc {
        JoinDash([head] + rest);
        { assert ([head] + rest)[1..] == rest; }
        head + "-" + JoinDash(rest);
        { JoinSplitRoundTrip(s[i + 1..], maxsplit - 1); }
        head + "-" + s[i + 1..];
        { assert s == s[..i] + [s[i]] + s[i + 1..]; }
        s;
      }
    }
  }

  /** `connector_id.split("-", 2)`: one to three segments. */
  function SplitConnectorId(connectorId: string): (segments: seq<string>)
    ensures 1 <= |segments| <= 3
    ensures forall k :: 0 <= k < |segments| - 1 ==> '-' !in segments[k]
    ensures |segments| <= 2 ==> '-' !in segments[|segments| - 1]
    ensures JoinDash(segments) == connectorId
  {
    JoinSplitRoundTrip(connectorId, 2);
    SplitN(connectorId, 2)
  }

  /** A dash preceded by no other dash is the first one. */
  lemma FirstDashAt(s: string, i: nat)
    requires i < |s| && s[i] == '-' && '-' !in s[..i]
    ensures FirstDash(s) == Some(i)
  {
  }

  /** Joining a dash-free head to a non-empty tail puts the first dash right after the head. */
  lemma JoinedHead(head: string, tail: seq<string>)
    requires '-' !in head && |tail| >= 1
    ensures var s := JoinDash([head] + tail);
      FirstDash(s) == Some(|head|) && s[..|head|] == head && s[|head| + 1..] == JoinDash(tail)
  {
    var s := JoinDash([head] + tail);
    assert ([head] + tail)[1..] == tail;
    assert s == head + "-" + JoinDash(tail);
    assert s[..|head|] == head;
    FirstDashAt(s, |head|);
  }

  /** One step of the split: the text before the first dash, then the split of the rest with one split fewer. */
  lemma SplitNStep(s: string, maxsplit: nat, i: nat)
    requires maxsplit > 0 && FirstDash(s) == Some(i)
    ensures SplitN(s, maxsplit) == [s[..i]] + SplitN(s[i + 1..], maxsplit - 1)
  {
  }

  /** A single segment splits to itself, when it has no dash or no split is allowed. */
  lemma SplitJoinSingle(part: string, maxsplit: nat)
    requires maxsplit > 0 ==> '-' !in part
    ensures SplitN(JoinDash([part]), maxsplit) == [part]
  {
    assert JoinDash([part]) == part;
  }

  /** Putting a dash-free head in front of a round-tripping tail keeps the round trip. */
  lemma SplitJoinCons(head: string, tail: seq<string>, maxsplit: nat)
    requires '-' !in head && |tail| >= 1 && maxsplit > 0
    requires SplitN(JoinDash(tail), maxsplit - 1) == tail
    ensures SplitN(JoinDash([head] + tail), maxsplit) == [head] + tail
  {
    JoinedHead(head, tail);
    SplitNStep(JoinDash([head] + tail), maxsplit, |head|);
  }

  /** Splitting a dash-joined list of segments, all dash-free except possibly the last one when it is the final allowed segment, gives the segments back. */
  lemma {:induction false} SplitJoinRoundTrip(parts: seq<string>, maxsplit: nat)
    requires 1 <= |parts| <= maxsplit + 1
    requires forall k :: 0 <= k < |parts| - 1 ==> '-' !in parts[k]
    requires |parts| <= maxsplit ==> '-' !in parts[|parts| - 1]
    ensures SplitN(JoinDash(parts), maxsplit) == parts
  {
    if |parts| == 1 {
      SplitJoinSingle(parts[0], maxsplit);
      assert parts == [parts[0]];
    } else {
      var head, tail := parts[0], parts[1..];
      assert forall k :: 0 <= k < |tail| ==> tail[k] == parts[k + 1];
      SplitJoinRoundTrip(tail, maxsplit - 1);
      SplitJoinCons(head, tail, maxsplit);
      assert parts == [head] + tail;
    }
  }

  /** An id without a dash is the tool name alone. */
  lemma SplitToolOnlyExample()
    ensures SplitConnectorId("foo") == ["foo"]
  {
    SplitJoinRoundTrip(["foo"], 2);
  }

  /** An id with one dash gives the tool name and the user id. */
  lemma SplitToolUserExample()
    ensures SplitConnectorId("foo-bar") == ["foo", "bar"]
  {
    assert JoinDash(["foo", "bar"]) == "foo-bar";
    SplitJoinRoundTrip(["foo", "bar"], 2);
  }

  /** Everything after the second dash stays in the third segment. */
  lemma SplitRemainderExample()
    ensures SplitConnectorId("foo-bar-baz-qux") == ["foo", "bar", "baz-qux"]
  {
    var parts := ["foo", "bar", "baz-qux"];
    assert parts[1..] == ["bar", "baz-qux"] && parts[1..][1..] == ["baz-qux"];
    assert JoinDash(parts) == "foo-bar-baz-qux";
    SplitJoinRoundTrip(parts, 2);
  }

  /** One condition of the `$and` filter sent to the credential collection. */
  datatype Condition = ToolNameIs(toolName: string) | UserIdIs(userId: string)

  /**
   * The credential filter: always the tool name (segment 0); the user id
   * (segment 1) only when that segment exists and is non-empty.
   */
  function CredentialFilter(segments: seq<string>): (filter: seq<Condition>)
    requires |segments| >= 1
    ensures 1 <= |filter| <= 2 && filter[0] == ToolNameIs(segments[0])
    ensures |filter| == 2 <==> |segments| > 1 && segments[1] != ""
    ensures forall u :: UserIdIs(u) in filter <==> |segments| > 1 && segments[1] != "" && u == segments[1]
  {
    var userId := if |segments| > 1 then Some(segments[1]) else None;
    if userId.Some? && userId.value != "" then [ToolNameIs(segments[0]), UserIdIs(userId.value)]
    else [ToolNameIs(segments[0])]
  }

  /** The third segment of a long id never reaches the credential filter. */
  lemma FilterIgnoresRemainder(tool: string, user: string, remainder: string)
    requires '-' !in tool && '-' !in user && user != ""
    ensures CredentialFilter(SplitConnectorId(tool + "-" + user + "-" + remainder))
         == [ToolNameIs(tool), UserIdIs(user)]
  {
    var parts := [tool, user, remainder];
    assert parts[1..] == [user, remainder] && parts[1..][1..] == [remainder];
    assert JoinDash(parts[1..]) == user + "-" + JoinDash([remainder]);
    assert JoinDash(parts) == tool + "-" + user + "-" + remainder;
    SplitJoinRoundTrip(parts, 2);
  }
}
