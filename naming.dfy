/** The names every sub-resource of one deployment shares, and the parameter paths derived from them. */
module Naming {

  /** The `namePrefix` and `nameSuffix` resource properties. */
  datatype Names = Names(prefix: string, suffix: string)

  /** `${namePrefix}-${nameSuffix}`: the name of the policies, the collection, the index,
      the knowledge base and the data source. */
  function ResourceName(n: Names): (r: string)
    ensures |r| == |n.prefix| + 1 + |n.suffix|
    ensures r[..|n.prefix|] == n.prefix && r[|n.prefix|] == '-' && r[|n.prefix| + 1..] == n.suffix
  {
    n.prefix + "-" + n.suffix
  }

  /** `/${namePrefix}-${nameSuffix}/<attribute>`: where one identifier is persisted. */
  function ParameterPath(n: Names, attribute: string): string {
    "/" + ResourceName(n) + "/" + attribute
  }

  /** The attributes Create persists, in the order it writes them. */
  const CreatedAttributes: seq<string> :=
    ["collectionId", "collectionArn", "collectionName", "collectionEndpoint",
     "knowledgeBaseId", "knowledgeBaseArn", "dataSourceId"]

  /** The attributes Delete removes, in the order it removes them. */
  const DeletedAttributes: seq<string> :=
    ["collectionArn", "collectionEndpoint", "collectionId", "collectionName",
     "dataSourceId", "knowledgeBaseArn", "knowledgeBaseId"]

  function Paths(n: Names, attributes: seq<string>): (r: seq<string>)
    ensures |r| == |attributes|
    ensures forall i :: 0 <= i < |attributes| ==> r[i] == ParameterPath(n, attributes[i])
  {
    seq(|attributes|, i requires 0 <= i < |attributes| => ParameterPath(n, attributes[i]))
  }

  /** The set of paths Create writes (and Delete removes) for one deployment. */
  function PersistedPaths(n: Names): set<string> {
    set a | a in CreatedAttributes :: ParameterPath(n, a)
  }

  /** The paths of one deployment, spelled out. */
  lemma PersistedPathsAre(n: Names)
    ensures PersistedPaths(n)
            == {ParameterPath(n, "collectionId"), ParameterPath(n, "collectionArn"), ParameterPath(n, "collectionName"),
                ParameterPath(n, "collectionEndpoint"), ParameterPath(n, "knowledgeBaseId"),
                ParameterPath(n, "knowledgeBaseArn"), ParameterPath(n, "dataSourceId")}
  {
    forall k | k in PersistedPaths(n)
      ensures k in {ParameterPath(n, "collectionId"), ParameterPath(n, "collectionArn"), ParameterPath(n, "collectionName"),
                    ParameterPath(n, "collectionEndpoint"), ParameterPath(n, "knowledgeBaseId"),
                    ParameterPath(n, "knowledgeBaseArn"), ParameterPath(n, "dataSourceId")}
    {
      var a :| a in CreatedAttributes && k == ParameterPath(n, a);
    }
  }

  /** The store answers requests about every persisted path of the deployment. */
  predicate PathsReachable(n: Names, unreachable: set<string>) {
    && ParameterPath(n, "collectionId") !in unreachable && ParameterPath(n, "collectionArn") !in unreachable
    && ParameterPath(n, "collectionName") !in unreachable && ParameterPath(n, "collectionEndpoint") !in unreachable
    && ParameterPath(n, "knowledgeBaseId") !in unreachable && ParameterPath(n, "knowledgeBaseArn") !in unreachable
    && ParameterPath(n, "dataSourceId") !in unreachable
  }

  /** Equivalently, no persisted path is unreachable. */
  lemma PathsReachableIff(n: Names, unreachable: set<string>)
    ensures PathsReachable(n, unreachable) <==> PersistedPaths(n) !! unreachable
  {
    PersistedPathsAre(n);
  }

  predicate Distinct<T(==)>(s: seq<T>) {
    forall i, j :: 0 <= i < j < |s| ==> s[i] != s[j]
  }

  /** Two attributes of one deployment never share a parameter path. */
  lemma PathInjective(n: Names, a: string, b: string)
    requires ParameterPath(n, a) == ParameterPath(n, b)
    ensures a == b
  {
    var p := "/" + ResourceName(n) + "/";
    assert ParameterPath(n, a) == p + a && ParameterPath(n, b) == p + b;
    assert (p + a)[|p|..] == a;
    assert (p + b)[|p|..] == b;
  }

  /** Two different attributes of one deployment never share a parameter path. */
  lemma PathsDiffer(n: Names, a: string, b: string)
    requires a != b
    ensures ParameterPath(n, a) != ParameterPath(n, b)
  {
    if ParameterPath(n, a) == ParameterPath(n, b) {
      PathInjective(n, a, b);
    }
  }

  lemma {:induction false} PathsDistinct(n: Names, attributes: seq<string>)
    requires Distinct(attributes)
    ensures Distinct(Paths(n, attributes))
  {
    forall i, j | 0 <= i < j < |attributes|
      ensures Paths(n, attributes)[i] != Paths(n, attributes)[j]
    {
      if Paths(n, attributes)[i] == Paths(n, attributes)[j] {
        PathInjective(n, attributes[i], attributes[j]);
      }
    }
  }

  /** Delete removes the same seven attributes that Create writes, each once. */
  lemma DeletedAreCreated()
    ensures Distinct(CreatedAttributes) && Distinct(DeletedAttributes)
    ensures (set a | a in DeletedAttributes) == (set a | a in CreatedAttributes)
  {
    assert (set a | a in DeletedAttributes) == (set a | a in CreatedAttributes) by {
      forall a | a in CreatedAttributes ensures a in DeletedAttributes {
      }
    }
  }

  /** Hence Delete's seven paths are distinct and are exactly the paths Create writes. */
  lemma DeletedPathsArePersisted(n: Names)
    ensures Distinct(Paths(n, DeletedAttributes))
    ensures (set k | k in Paths(n, DeletedAttributes)) == PersistedPaths(n)
  {
    DeletedAreCreated();
    PathsDistinct(n, DeletedAttributes);
    forall k | k in Paths(n, DeletedAttributes) ensures k in PersistedPaths(n) {
      var i :| 0 <= i < |DeletedAttributes| && Paths(n, DeletedAttributes)[i] == k;
      assert DeletedAttributes[i] in CreatedAttributes;
    }
    forall k | k in PersistedPaths(n) ensures k in Paths(n, DeletedAttributes) {
      var a :| a in CreatedAttributes && k == ParameterPath(n, a);
      assert a in DeletedAttributes;
      var i :| 0 <= i < |DeletedAttributes| && DeletedAttributes[i] == a;
      assert Paths(n, DeletedAttributes)[i] == k;
    }
  }
}
