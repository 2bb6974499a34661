/** version-vector.cpp, extractClusterKey: the group a node belongs to, read off its URI. */
module ClusterKeys {
  import opened Collections
  import opened Nodes
  import opened Numbers
  import opened VersionVectors
  import opened Selection
  import opened SelectionFacts

  const NOT_FOUND: int := -1

  /** std::string::find, from the given position. */
  function Find(text: string, c: char, from: nat := 0): (i: int)
    requires from <= |text|
    ensures i == NOT_FOUND ==> forall j | from <= j < |text| :: text[j] != c
    ensures i != NOT_FOUND ==> from <= i < |text| && text[i] == c && forall j | from <= j < i :: text[j] != c
    decreases |text| - from
  {
    if from == |text| then NOT_FOUND
    else if text[from] == c then from
    else Find(text, c, from + 1)
  }

  /** std::string::find_last_of. */
  function FindLast(text: string, c: char): (i: int)
    ensures i == NOT_FOUND ==> forall j | 0 <= j < |text| :: text[j] != c
    ensures i != NOT_FOUND ==> 0 <= i < |text| && text[i] == c && forall j | i < j < |text| :: text[j] != c
  {
    if text == "" then NOT_FOUND
    else
      var last := |text| - 1;
      if text[last] == c then last else
        assert forall j | 0 <= j < last :: text[..last][j] == text[j];
        FindLast(text[..last], c)
  }

  function LastSegment(uri: string): string {
    var slash := FindLast(uri, '/');
    if slash != NOT_FOUND && slash + 1 < |uri| then uri[slash + 1..] else uri
  }

  function ClusterOf(uri: NodeID -> string): NodeID -> ClusterKey {
    nid => ClusterKey(ExtractClusterKey(uri(nid)))
  }

  function ExtractClusterKey(uri: string): string {
    var text := LastSegment(uri);
    if Find(text, '_') > 0 then text[..Find(text, '_')]
    else if Find(text, '-') > 0 then text[..Find(text, '-')]
    else text
  }

  lemma LastSegmentIs(prefix: string, segment: string)
    requires segment != "" && '/' !in segment
    ensures LastSegment(prefix + "/" + segment) == segment
  {
    var uri := prefix + "/" + segment;
    assert uri[|prefix|] == '/';
    assert forall j | |prefix| < j < |uri| :: uri[j] == segment[j - |prefix| - 1];
    assert uri[|prefix| + 1..] == segment;
  }

  lemma FindIn(key: string, c: char, index: string)
    requires c !in key
    ensures Find(key + [c] + index, c) == |key| && (key + [c] + index)[..|key|] == key
  {
    var text := key + [c] + index;
    assert text[|key|] == c && forall j | 0 <= j < |key| :: text[j] == key[j];
    assert text[..|key|] == key;
  }

  /** The last segment is <key>_<index>: the cluster is what precedes the first underscore. */
  lemma ClusterOfIndexedNode(prefix: string, key: string, index: string)
    requires key != "" && '/' !in key && '_' !in key && '/' !in index
    ensures ExtractClusterKey(prefix + "/" + key + "_" + index) == key
  {
    assert prefix + "/" + (key + "_" + index) == prefix + "/" + key + "_" + index;
    LastSegmentIs(prefix, key + "_" + index);
    FindIn(key, '_', index);
  }

  /** No underscore, or none but at the very beginning. */
  predicate Unscored(segment: string) {
    '_' !in segment || segment[0] == '_'
  }

  lemma UnscoredFind(segment: string)
    ensures Find(segment, '_') <= 0 <==> Unscored(segment)
  {
  }

  /** It is <key>-<index>, without such an underscore: the cluster is what precedes the first dash. */
  lemma ClusterOfDashedNode(prefix: string, key: string, index: string)
    requires key != "" && '/' !in key && '-' !in key && '/' !in index && Unscored(key + "-" + index)
    ensures ExtractClusterKey(prefix + "/" + key + "-" + index) == key
  {
    assert prefix + "/" + (key + "-" + index) == prefix + "/" + key + "-" + index;
    LastSegmentIs(prefix, key + "-" + index);
    UnscoredFind(key + "-" + index);
    FindIn(key, '-', index);
  }

  /** It has neither, except at its beginning: the cluster is the whole segment. */
  lemma ClusterOfPlainNode(prefix: string, segment: string)
    requires segment != "" && '/' !in segment && Unscored(segment) && ('-' !in segment || segment[0] == '-')
    ensures ExtractClusterKey(prefix + "/" + segment) == segment
  {
    LastSegmentIs(prefix, segment);
    UnscoredFind(segment);
  }

  /** How nodes are named when the key of each can be read off its URI. */
  ghost predicate NamedByKey(uri: NodeID -> string, key: NodeID -> string, nodes: set<NodeID>) {
    forall x | x in nodes :: exists prefix, index :: IsIndexed(uri(x), prefix, key(x), index)
  }

  predicate IsIndexed(uri: string, prefix: string, key: string, index: string) {
    key != "" && '/' !in key && '_' !in key && '/' !in index && uri == prefix + "/" + key + "_" + index
  }

  function KeysAmong(key: NodeID -> string, nodes: set<NodeID>): set<string> {
    set x | x in nodes :: key(x)
  }

  lemma ClusterOfNamed(uri: NodeID -> string, key: NodeID -> string, nodes: set<NodeID>, x: NodeID)
    requires NamedByKey(uri, key, nodes) && x in nodes
    ensures ClusterOf(uri)(x) == ClusterKey(key(x))
  {
    var prefix, index :| IsIndexed(uri(x), prefix, key(x), index);
    ClusterOfIndexedNode(prefix, key(x), index);
  }

  lemma {:induction false} SameCount(clusters: set<ClusterKey>, keys: set<string>)
    requires forall k :: ClusterKey(k) in clusters <==> k in keys
    ensures |clusters| == |keys|
    decreases |keys|
  {
    if keys == {} {
      forall c: ClusterKey ensures c !in clusters { assert c == ClusterKey(c.text); }
      assert clusters == {};
    } else {
      var k :| k in keys;
      SameCount(clusters - {ClusterKey(k)}, keys - {k});
    }
  }

  /** The clusters of nodes so named are their keys. */
  lemma ClustersAreKeys(uri: NodeID -> string, key: NodeID -> string, nodes: set<NodeID>, env: Outside)
    requires NamedByKey(uri, key, nodes) && env.cluster == ClusterOf(uri)
    ensures |Clusters(env, nodes)| == |KeysAmong(key, nodes)|
  {
    forall x | x in nodes ensures env.cluster(x) == ClusterKey(key(x)) { ClusterOfNamed(uri, key, nodes, x); }
    SameCount(Clusters(env, nodes), KeysAmong(key, nodes));
  }

  /** In a group whose nodes are named <prefix>/<key>_<index>, what ClusterHybrid selects comes from as
      many different keys as its cluster budget allows. */
  lemma KeysSpread(vv: VersionVector, req: Request, fig: Figures, env: Outside, uri: NodeID -> string,
                   key: NodeID -> string)
    requires 0 < req.maxEntries <= |vv.entries| && req.strategy == ClusterHybrid && ValidOutside(vv, env)
    requires env.cluster == ClusterOf(uri) && NamedByKey(uri, key, vv.entries.Keys)
    ensures var s := |Preselected(vv, req)|;
            |KeysAmong(key, SelectKeys(vv, req, fig, env))| >=
            Min(|KeysAmong(key, vv.entries.Keys)|, s + Min(FirstBudget(req, fig.hotTarget, s), req.maxEntries - s))
  {
    var selected := SelectKeys(vv, req, fig, env);
    var spread := ClusterSpread(vv, req, fig, env);
    SelectorContract(vv, req, fig, env);
    SubsetSize(spread, Clusters(env, selected));
    ClustersAreKeys(uri, key, selected, env);
    ClustersAreKeys(uri, key, vv.entries.Keys, env);
  }
}
