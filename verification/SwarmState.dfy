/** The shared state of a swarm (swarm/core/state.py): artifacts, expectations and completions. */
module SwarmStates {
  import opened Basics
  import opened StableSort

  /** An artifact; an empty correlation id stands for none. */
  datatype Artifact<D> = Artifact(name: string, kind: string, corr: string, version: int, data: D)

  type Expectations = map<string, map<string, int>>
  type Completions = map<string, seq<string>>

  // ---- queries

  function InGroup<D>(kind: string, corr: string): Artifact<D> -> bool {
    (a: Artifact<D>) => a.kind == kind && a.corr == corr
  }

  function Group<D>(artifacts: seq<Artifact<D>>, kind: string, corr: string): seq<Artifact<D>> {
    Filter(InGroup(kind, corr), artifacts)
  }

  /** The latest version under a name: of several with the highest version, the one recorded first. */
  function Latest<D>(artifacts: seq<Artifact<D>>, name: string): Option<Artifact<D>> {
    if artifacts == [] then None
    else
      var front, a := Latest(artifacts[..|artifacts| - 1], name), artifacts[|artifacts| - 1];
      if a.name == name && (front.None? || a.version > front.value.version) then Some(a) else front
  }

  lemma {:induction false} LatestMeans<D>(artifacts: seq<Artifact<D>>, name: string)
    ensures match Latest(artifacts, name)
            case None => forall a | a in artifacts :: a.name != name
            case Some(b) =>
              exists k :: 0 <= k < |artifacts| && artifacts[k] == b && b.name == name
                && (forall j | 0 <= j < |artifacts| && artifacts[j].name == name :: artifacts[j].version <= b.version)
                && (forall j | 0 <= j < k && artifacts[j].name == name :: artifacts[j].version < b.version)
  {
    if artifacts != [] {
      var n := |artifacts| - 1;
      LatestMeans(artifacts[..n], name);
      assert artifacts == artifacts[..n] + [artifacts[n]];
      var front := Latest(artifacts[..n], name);
      if front.Some? {
        var k :| 0 <= k < n && artifacts[..n][k] == front.value && front.value.name == name
          && (forall j | 0 <= j < n && artifacts[..n][j].name == name ::
              artifacts[..n][j].version <= front.value.version)
          && (forall j | 0 <= j < k && artifacts[..n][j].name == name ::
              artifacts[..n][j].version < front.value.version);
        assert forall j | 0 <= j < n :: artifacts[..n][j] == artifacts[j];
        if Latest(artifacts, name) == front {
          assert artifacts[k] == front.value;
        } else {
          assert artifacts[n] == Latest(artifacts, name).value;
        }
      } else if artifacts[n].name == name {
        assert forall j | 0 <= j < n :: artifacts[j] in artifacts[..n];
      }
    }
  }

  lemma GroupAppend<D>(artifacts: seq<Artifact<D>>, more: seq<Artifact<D>>, kind: string, corr: string)
    ensures Group(artifacts + more, kind, corr) == Group(artifacts, kind, corr) + Group(more, kind, corr)
  {
    FilterAppend(InGroup(kind, corr), artifacts, more);
  }

  lemma GroupOfOne<D>(a: Artifact<D>)
    ensures Group([a], a.kind, a.corr) == [a]
  {
    var p := InGroup<D>(a.kind, a.corr);
    assert Filter(p, [a][1..]) == [];
    assert Filter(p, [a]) == [a] + Filter(p, [a][1..]);
  }

  function Expected(e: Expectations, corr: string, kind: string): Option<int> {
    if corr in e && kind in e[corr] then Some(e[corr][kind]) else None
  }

  function Declared(e: Expectations, corr: string, kind: string, count: int): Expectations {
    e[corr := (if corr in e then e[corr] else map[])[kind := count]]
  }

  function ClosedGroups(c: Completions, corr: string): seq<string> { if corr in c then c[corr] else [] }

  function Closed(c: Completions, corr: string, kind: string): Completions {
    if kind in ClosedGroups(c, corr) then c else c[corr := ClosedGroups(c, corr) + [kind]]
  }

  class SwarmState<D> {
    const requestId: string
    var artifacts: seq<Artifact<D>>
    var expectations: Expectations
    var completions: Completions

    constructor (requestId: string)
      ensures this.requestId == requestId && artifacts == [] && expectations == map[] && completions == map[]
    {
      this.requestId := requestId;
      artifacts, expectations, completions := [], map[], map[];
    }

    method PutArtifact(a: Artifact<D>)
      modifies this`artifacts
      ensures artifacts == old(artifacts) + [a]
    {
      artifacts := artifacts + [a];
    }

    method GetArtifact(name: string) returns (latest: Option<Artifact<D>>)
      ensures latest == Latest(artifacts, name)
    {
      latest := None;
      for k := 0 to |artifacts|
        invariant latest == Latest(artifacts[..k], name)
      {
        assert artifacts[..k + 1][..k] == artifacts[..k];
        if artifacts[k].name == name && (latest.None? || artifacts[k].version > latest.value.version) {
          latest := Some(artifacts[k]);
        }
      }
      assert artifacts[..|artifacts|] == artifacts;
    }

    method FindArtifacts(kind: string, corr: string) returns (matches: seq<Artifact<D>>)
      ensures matches == Group(artifacts, kind, corr)
    {
      hide Filter;
      matches := [];
      assert artifacts[0..] == artifacts;
      for k := 0 to |artifacts|
        invariant matches + Group(artifacts[k..], kind, corr) == Group(artifacts, kind, corr)
      {
        FilterStep(InGroup(kind, corr), artifacts, k);
        if artifacts[k].kind == kind && artifacts[k].corr == corr { matches := matches + [artifacts[k]]; }
      }
      FilterNothing(InGroup(kind, corr), artifacts);
    }

    /** Whether anything of the kind was recorded, for any request. */
    method HasKind(kind: string) returns (found: bool)
      ensures found <==> exists a :: a in artifacts && a.kind == kind
    {
      for k := 0 to |artifacts|
        invariant forall j | 0 <= j < k :: artifacts[j].kind != kind
      {
        if artifacts[k].kind == kind {
          assert artifacts[k] in artifacts;
          return true;
        }
      }
      return false;
    }

    /** Refused when there is neither a correlation id nor a request id. */
    method ExpectArtifact(kind: string, count: int, corr: string) returns (ok: bool)
      modifies this`expectations
      ensures ok <==> corr != "" || requestId != ""
      ensures expectations
           == if ok then Declared(old(expectations), if corr != "" then corr else requestId, kind, count)
              else old(expectations)
    {
      var cid := if corr != "" then corr else requestId;
      if cid == "" { return false; }
      if cid !in expectations { expectations := expectations[cid := map[]]; }
      expectations := expectations[cid := expectations[cid][kind := count]];
      ok := true;
    }

    method CompleteArtifact(kind: string, corr: string) returns (ok: bool)
      modifies this`completions
      ensures ok <==> corr != "" || requestId != ""
      ensures completions == if ok then Closed(old(completions), if corr != "" then corr else requestId, kind)
                             else old(completions)
    {
      var cid := if corr != "" then corr else requestId;
      if cid == "" { return false; }
      if kind !in ClosedGroups(completions, cid) {
        completions := completions[cid := ClosedGroups(completions, cid) + [kind]];
      }
      ok := true;
    }
  }
}
