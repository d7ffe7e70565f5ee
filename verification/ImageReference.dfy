/** Custom image references: the split into repository and tag at launch, and the join at start-up. */
module ImageReference {

  /** The columns of the workspace row. */
  datatype Parts = Parts(repo: string, tag: string)

  /** `lastIndexOf(':')`. */
  function LastColon(s: string): (i: int)
    ensures -1 <= i < |s|
    ensures i >= 0 ==> s[i] == ':'
    ensures forall k | i < k < |s| :: s[k] != ':'
  {
    if s == "" then -1
    else if s[|s| - 1] == ':' then |s| - 1
    else LastColon(s[..|s| - 1])
  }

  /** The last colon separates a tag, and is not that of a registry's port. */
  predicate SeparatesTag(s: string, colon: int)
    requires -1 <= colon < |s|
  {
    colon > 0 && '/' !in s[colon + 1..]
  }

  function Split(s: string): Parts {
    var colon := LastColon(s);
    if SeparatesTag(s, colon) then Parts(s[..colon], s[colon + 1..]) else Parts(s, "latest")
  }

  function OrLatest(tag: string): string {
    if tag == "" then "latest" else tag
  }

  function Join(p: Parts): string {
    p.repo + ":" + OrLatest(p.tag)
  }

  predicate HasTag(s: string) {
    SeparatesTag(s, LastColon(s)) && LastColon(s) < |s| - 1
  }

  lemma {:induction false} LastColonIs(s: string, i: nat)
    requires i < |s| && s[i] == ':' && forall k | i < k < |s| :: s[k] != ':'
    ensures LastColon(s) == i
  {
    if s[|s| - 1] != ':' { LastColonIs(s[..|s| - 1], i); }
  }

  /** The joined reference splits where it was joined. */
  lemma SplitOfJoin(repo: string, tag: string)
    requires repo != "" && ':' !in tag && '/' !in tag
    ensures Split(Join(Parts(repo, tag))) == Parts(repo, OrLatest(tag))
  {
    var s := Join(Parts(repo, tag));
    var t := OrLatest(tag);
    assert ':' !in "latest" && '/' !in "latest";
    forall k | |repo| < k < |s| ensures s[k] != ':' { assert s[k] == t[k - |repo| - 1]; }
    LastColonIs(s, |repo|);
    assert s[|repo| + 1..] == t && s[..|repo|] == repo;
  }

  lemma SplitTagIsPlain(s: string)
    ensures var p := Split(s); ':' !in p.tag && '/' !in p.tag && (s != "" ==> p.repo != "")
  {
    assert ':' !in "latest" && '/' !in "latest";
  }

  /** The agent gets back the reference the user gave exactly when it carries a tag that is not empty. */
  lemma JoinUndoesSplitIff(s: string)
    ensures Join(Split(s)) == s <==> HasTag(s)
  {
    var colon := LastColon(s);
    if SeparatesTag(s, colon) {
      assert s == s[..colon] + ":" + s[colon + 1..];
      if s[colon + 1..] == "" { assert |Join(Split(s))| == |s| + 6; }
    } else {
      assert |Join(Split(s))| == |s| + 7;
    }
  }

  /** Splitting what was joined gives the stored parts with the tag spelled out, for every reference,
      registry ports included. */
  lemma SplitUndoesJoin(s: string)
    requires s != ""
    ensures Split(Join(Split(s))) == Parts(Split(s).repo, OrLatest(Split(s).tag))
    ensures Join(Split(Join(Split(s)))) == Join(Split(s))
  {
    SplitTagIsPlain(s);
    SplitOfJoin(Split(s).repo, Split(s).tag);
  }
}
