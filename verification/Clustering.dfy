/** Near-duplicate clustering of one drained batch (arena/live/analyst.py).
    Articles are followed by their position in the batch. */
module Clustering {
  import opened Wrappers
  import opened DropQueues
  import opened NewsFeed

  /** When a new article counts as a repeat of an existing one. */
  type Relation = (LiveArticle, LiveArticle) -> bool

  function Jaccard(left: set<string>, right: set<string>): real {
    if left == {} || right == {} then 0.0
    else
      assert left <= left + right && |left + right| > 0;
      |left * right| as real / |left + right| as real
  }

  /** The relation of the source: same non-empty URL, or token sets whose
      Jaccard similarity reaches the threshold. */
  function SameStory(tokens: LiveArticle -> set<string>, threshold: real): Relation {
    (article: LiveArticle, existing: LiveArticle) =>
      || (article.url != "" && article.url == existing.url)
      || Jaccard(tokens(article), tokens(existing)) >= threshold
  }

  lemma SameStoryIsSymmetric(tokens: LiveArticle -> set<string>, threshold: real, a: LiveArticle, b: LiveArticle)
    ensures SameStory(tokens, threshold)(a, b) == SameStory(tokens, threshold)(b, a)
  {
    var l, r := tokens(a), tokens(b);
    assert l * r == r * l && l + r == r + l;
    assert Jaccard(l, r) == Jaccard(r, l);
  }

  datatype ArticleCluster = ArticleCluster(representative: LiveArticle, articles: seq<LiveArticle>)

  // ---------------------------------------------------------- specification

  type Group = seq<nat>

  predicate InBatch(batch: seq<LiveArticle>, group: Group) {
    forall k :: 0 <= k < |group| ==> group[k] < |batch|
  }

  predicate Matches(alike: Relation, batch: seq<LiveArticle>, group: Group, article: LiveArticle)
    requires InBatch(batch, group)
  {
    exists k :: 0 <= k < |group| && alike(article, batch[group[k]])
  }

  /** The first group from `c` on holding something alike, or the number of groups. */
  function FirstMatch(alike: Relation, batch: seq<LiveArticle>, groups: seq<Group>, article: LiveArticle,
                      c: nat): (f: nat)
    requires c <= |groups| && forall g :: 0 <= g < |groups| ==> InBatch(batch, groups[g])
    ensures c <= f <= |groups|
    ensures f < |groups| ==> Matches(alike, batch, groups[f], article)
    ensures forall g :: c <= g < f ==> !Matches(alike, batch, groups[g], article)
    decreases |groups| - c
  {
    if c == |groups| || Matches(alike, batch, groups[c], article) then c
    else FirstMatch(alike, batch, groups, article, c + 1)
  }

  function Place(groups: seq<Group>, c: nat, i: nat): seq<Group>
    requires c <= |groups|
  {
    if c == |groups| then groups + [[i]] else groups[c := groups[c] + [i]]
  }

  /** The groups after article `i` has joined them. */
  function Join(alike: Relation, batch: seq<LiveArticle>, groups: seq<Group>, i: nat): (after: seq<Group>)
    requires i < |batch| && forall g :: 0 <= g < |groups| ==> InBatch(batch, groups[g])
    ensures forall g :: 0 <= g < |after| ==> InBatch(batch, after[g])
  {
    Place(groups, FirstMatch(alike, batch, groups, batch[i], 0), i)
  }

  function Groups(alike: Relation, batch: seq<LiveArticle>, n: nat): (groups: seq<Group>)
    requires n <= |batch|
    ensures forall g :: 0 <= g < |groups| ==> InBatch(batch, groups[g])
  {
    if n == 0 then [] else Join(alike, batch, Groups(alike, batch, n - 1), n - 1)
  }

  // ------------------------------------------------------------- properties

  function Count(groups: seq<Group>): multiset<nat> {
    if groups == [] then multiset{} else multiset(groups[0]) + Count(groups[1..])
  }

  /** Groups and founders follow the batch order; a founder is alike to nothing
      placed before it in an earlier group, and every other member is alike to
      an earlier member of its own group. */
  predicate FirstFit(alike: Relation, batch: seq<LiveArticle>, groups: seq<Group>, n: nat) {
    && (forall g :: 0 <= g < |groups| ==> GroupOk(alike, batch, groups[g], n))
    && (forall f, g :: 0 <= f < g < |groups| ==>
          groups[f] != [] && groups[g] != [] && Apart(alike, batch, groups[f], groups[g]))
  }

  predicate GroupOk(alike: Relation, batch: seq<LiveArticle>, group: Group, n: nat) {
    && group != []
    && InBatch(batch, group)
    && (forall k :: 0 <= k < |group| ==> group[k] < n)
    && (forall k, l :: 0 <= k < l < |group| ==> group[k] < group[l])
    && (forall l {:trigger HasAlike(alike, batch, group, l)} :: 0 < l < |group| ==> HasAlike(alike, batch, group, l))
  }

  predicate HasAlike(alike: Relation, batch: seq<LiveArticle>, group: Group, l: nat)
    requires InBatch(batch, group) && l < |group|
  {
    exists k :: 0 <= k < l && alike(batch[group[l]], batch[group[k]])
  }

  predicate Apart(alike: Relation, batch: seq<LiveArticle>, earlier: Group, later: Group) {
    && InBatch(batch, earlier) && InBatch(batch, later)
    && (forall k, l :: 0 <= k < |earlier| && 0 <= l < |later| && earlier[k] < later[l] ==>
          !alike(batch[later[l]], batch[earlier[k]]))
    && (earlier != [] && later != [] ==> earlier[0] < later[0])
  }

  lemma {:induction false} PlaceCounts(groups: seq<Group>, c: nat, i: nat)
    requires c <= |groups|
    ensures Count(Place(groups, c, i)) == Count(groups) + multiset{i}
  {
    if c == 0 && groups == [] {
      assert Place(groups, c, i)[1..] == [];
    } else if c == 0 {
      assert Place(groups, c, i)[1..] == groups[1..];
    } else {
      PlaceCounts(groups[1..], c - 1, i);
      assert Place(groups, c, i)[1..] == Place(groups[1..], c - 1, i);
    }
  }

  /** The first `n` positions are in the groups, each once. */
  predicate Partition(groups: seq<Group>, n: nat) { Count(groups) == Below(n) }

  lemma JoinKeepsPartition(alike: Relation, batch: seq<LiveArticle>, groups: seq<Group>, n: nat)
    requires n < |batch| && AllInBatch(batch, groups) && Partition(groups, n)
    ensures Partition(Join(alike, batch, groups, n), n + 1)
  {
    PlaceCounts(groups, FirstMatch(alike, batch, groups, batch[n], 0), n);
  }

  lemma NothingPartitioned()
    ensures Partition([], 0)
  {
  }

  /** Every position of the batch is in exactly one group, once. */
  lemma GroupsPartition(alike: Relation, batch: seq<LiveArticle>, n: nat)
    requires n <= |batch|
    ensures Partition(Groups(alike, batch, n), n)
  {
    NothingPartitioned();
    forall groups, k: nat | k < n && AllInBatch(batch, groups) && Partition(groups, k)
      ensures Partition(Join(alike, batch, groups, k), k + 1)
    {
      JoinKeepsPartition(alike, batch, groups, k);
    }
    GroupsKeep(alike, batch, n, (groups: seq<Group>, k: nat) => Partition(groups, k));
  }

  lemma JoinKeepsFirstFit(alike: Relation, batch: seq<LiveArticle>, groups: seq<Group>, n: nat)
    requires n < |batch| && FirstFit(alike, batch, groups, n)
    ensures FirstFit(alike, batch, Join(alike, batch, groups, n), n + 1)
  {
    var c := FirstMatch(alike, batch, groups, batch[n], 0);
    var after := Join(alike, batch, groups, n);
    forall g | 0 <= g < |after|
      ensures GroupOk(alike, batch, after[g], n + 1)
    {
      if g < |groups| {
        assert GroupOk(alike, batch, groups[g], n);
        if g == c {
          ExtendGroup(alike, batch, groups[g], n);
        }
      }
    }
    forall f, g | 0 <= f < g < |after|
      ensures after[f] != [] && after[g] != [] && Apart(alike, batch, after[f], after[g])
    {
      assert GroupOk(alike, batch, after[f], n + 1) && GroupOk(alike, batch, after[g], n + 1);
      assert GroupOk(alike, batch, groups[f], n);
      if g < |groups| {
        assert GroupOk(alike, batch, groups[g], n);
        assert Apart(alike, batch, groups[f], groups[g]);
        if f == c { LateInEarlier(alike, batch, groups[f], groups[g], n); }
        if g == c { LateInLater(alike, batch, groups[f], groups[g], n); }
      } else {
        assert after[f] == groups[f] && !Matches(alike, batch, groups[f], batch[n]);
        assert Apart(alike, batch, groups[f], [n]);
      }
    }
  }

  lemma LateInEarlier(alike: Relation, batch: seq<LiveArticle>, earlier: Group, later: Group, n: nat)
    requires n < |batch| && Apart(alike, batch, earlier, later) && GroupOk(alike, batch, earlier, n)
             && GroupOk(alike, batch, later, n)
    ensures Apart(alike, batch, earlier + [n], later)
  {
  }

  lemma LateInLater(alike: Relation, batch: seq<LiveArticle>, earlier: Group, later: Group, n: nat)
    requires n < |batch| && Apart(alike, batch, earlier, later) && GroupOk(alike, batch, earlier, n)
             && GroupOk(alike, batch, later, n)
    requires !Matches(alike, batch, earlier, batch[n])
    ensures Apart(alike, batch, earlier, later + [n])
  {
  }

  lemma ExtendGroup(alike: Relation, batch: seq<LiveArticle>, group: Group, n: nat)
    requires n < |batch| && GroupOk(alike, batch, group, n) && Matches(alike, batch, group, batch[n])
    ensures GroupOk(alike, batch, group + [n], n + 1)
  {
    var extended := group + [n];
    forall l | 0 < l < |extended|
      ensures HasAlike(alike, batch, extended, l)
    {
      if l < |group| {
        assert HasAlike(alike, batch, group, l);
        var k :| 0 <= k < l && alike(batch[group[l]], batch[group[k]]);
        assert extended[k] == group[k];
      } else {
        var k :| 0 <= k < |group| && alike(batch[n], batch[group[k]]);
        assert extended[k] == group[k];
      }
    }
  }

  predicate AllInBatch(batch: seq<LiveArticle>, groups: seq<Group>) {
    forall g :: 0 <= g < |groups| ==> InBatch(batch, groups[g])
  }

  /** What every joining article keeps holds of all of them. */
  lemma {:induction false} GroupsKeep(alike: Relation, batch: seq<LiveArticle>, n: nat, p: (seq<Group>, nat) -> bool)
    requires n <= |batch| && p([], 0)
    requires forall groups, k: nat :: k < n && AllInBatch(batch, groups) && p(groups, k) ==>
               p(Join(alike, batch, groups, k), k + 1)
    ensures p(Groups(alike, batch, n), n)
  {
    if n > 0 {
      GroupsKeep(alike, batch, n - 1, p);
      assert AllInBatch(batch, Groups(alike, batch, n - 1));
    }
  }

  lemma GroupsAreFirstFit(alike: Relation, batch: seq<LiveArticle>, n: nat)
    requires n <= |batch|
    ensures FirstFit(alike, batch, Groups(alike, batch, n), n)
  {
    var p := (groups: seq<Group>, k: nat) => FirstFit(alike, batch, groups, k);
    forall groups, k: nat | k < n && AllInBatch(batch, groups) && p(groups, k)
      ensures p(Join(alike, batch, groups, k), k + 1)
    {
      JoinKeepsFirstFit(alike, batch, groups, k);
    }
    GroupsKeep(alike, batch, n, p);
  }

  /** No two founders are alike, read in batch order. */
  lemma FoundersAreDissimilar(alike: Relation, batch: seq<LiveArticle>, f: nat, g: nat)
    requires f < g < |Groups(alike, batch, |batch|)|
    ensures var groups := Groups(alike, batch, |batch|);
            && groups[f] != [] && groups[g] != []
            && groups[f][0] < groups[g][0] < |batch|
            && !alike(batch[groups[g][0]], batch[groups[f][0]])
  {
    GroupsAreFirstFit(alike, batch, |batch|);
    var groups := Groups(alike, batch, |batch|);
    assert Apart(alike, batch, groups[f], groups[g]);
  }

  // --------------------------------------------------------- representatives

  function TextLength(article: LiveArticle): nat {
    if article.fullText.None? then 0 else |article.fullText.value|
  }

  /** Lexicographic comparison of (text length, title length, publication time). */
  predicate Outranks(left: LiveArticle, right: LiveArticle) {
    var l, r := TextLength(left), TextLength(right);
    || l > r
    || (l == r && |left.title| > |right.title|)
    || (l == r && |left.title| == |right.title| && left.published > right.published)
  }

  /** The place of the first of the best among the first `n`. */
  function BestIndex(articles: seq<LiveArticle>, n: nat): (k: nat)
    requires 0 < n <= |articles|
    ensures k < n
  {
    if n == 1 then 0
    else
      var k := BestIndex(articles, n - 1);
      if Outranks(articles[n - 1], articles[k]) then n - 1 else k
  }

  /** Python's `max`: the first article no other outranks. */
  function Representative(articles: seq<LiveArticle>): LiveArticle
    requires articles != []
  {
    articles[BestIndex(articles, |articles|)]
  }

  predicate FirstBest(articles: seq<LiveArticle>, n: nat, k: nat) {
    && k < n <= |articles|
    && (forall j :: 0 <= j < k ==> Outranks(articles[k], articles[j]))
    && (forall j :: 0 <= j < n ==> !Outranks(articles[j], articles[k]))
  }

  /** It is outranked by none and outranks everything before it. */
  lemma {:induction false} BestIndexIsFirstBest(articles: seq<LiveArticle>, n: nat)
    requires 0 < n <= |articles|
    ensures FirstBest(articles, n, BestIndex(articles, n))
  {
    if n > 1 {
      BestIndexIsFirstBest(articles, n - 1);
      var k := BestIndex(articles, n - 1);
      if Outranks(articles[n - 1], articles[k]) {
        forall j | 0 <= j < n - 1
          ensures Outranks(articles[n - 1], articles[j]) && !Outranks(articles[j], articles[n - 1])
        {
          OutranksAll(articles[n - 1], articles[k], articles[j]);
        }
      }
    }
  }

  lemma OutranksAll(best: LiveArticle, second: LiveArticle, other: LiveArticle)
    requires Outranks(best, second) && !Outranks(other, second)
    ensures Outranks(best, other) && !Outranks(other, best)
  {
  }

  // ------------------------------------------------------------ the algorithm

  function Members(batch: seq<LiveArticle>, group: Group): (articles: seq<LiveArticle>)
    requires InBatch(batch, group)
    ensures |articles| == |group|
    ensures forall k :: 0 <= k < |group| ==> articles[k] == batch[group[k]]
  {
    seq(|group|, k requires 0 <= k < |group| => batch[group[k]])
  }

  ghost predicate Holds(batch: seq<LiveArticle>, clusters: seq<seq<LiveArticle>>, groups: seq<Group>) {
    && |clusters| == |groups|
    && forall g :: 0 <= g < |groups| ==> InBatch(batch, groups[g]) && clusters[g] == Members(batch, groups[g])
  }

  /** The cluster-by-cluster search of the source, with its early exit. */
  method FindCluster(alike: Relation, clusters: seq<seq<LiveArticle>>, article: LiveArticle,
                     ghost batch: seq<LiveArticle>, ghost groups: seq<Group>)
    returns (c: nat)
    requires Holds(batch, clusters, groups)
    ensures c == FirstMatch(alike, batch, groups, article, 0)
  {
    c := 0;
    while c < |clusters|
      invariant c <= |clusters|
      invariant FirstMatch(alike, batch, groups, article, 0) == FirstMatch(alike, batch, groups, article, c)
    {
      var cluster := clusters[c];
      assert Matches(alike, batch, groups[c], article)
        <==> exists k :: 0 <= k < |cluster| && alike(article, cluster[k]);
      if exists k :: 0 <= k < |cluster| && alike(article, cluster[k]) {
        return;
      }
      c := c + 1;
    }
  }

  method ClusterNearDuplicates(tokens: LiveArticle -> set<string>, threshold: real, batch: seq<LiveArticle>)
    returns (clusters: seq<ArticleCluster>)
    ensures var groups := Groups(SameStory(tokens, threshold), batch, |batch|);
            && |clusters| == |groups|
            && forall g :: 0 <= g < |groups| ==>
                 && groups[g] != []
                 && clusters[g].articles == Members(batch, groups[g])
                 && clusters[g].representative == Representative(clusters[g].articles)
  {
    var alike := SameStory(tokens, threshold);
    var grown: seq<seq<LiveArticle>> := [];
    for i := 0 to |batch|
      invariant Holds(batch, grown, Groups(alike, batch, i))
    {
      var c := FindCluster(alike, grown, batch[i], batch, Groups(alike, batch, i));
      JoinHolds(alike, batch, grown, Groups(alike, batch, i), i);
      if c == |grown| {
        grown := grown + [[batch[i]]];
      } else {
        grown := grown[c := grown[c] + [batch[i]]];
      }
    }
    clusters := [];
    for g := 0 to |grown|
      invariant |clusters| == g
      invariant forall h :: 0 <= h < g ==>
                  grown[h] != [] && clusters[h] == ArticleCluster(Representative(grown[h]), grown[h])
    {
      GroupsAreFirstFit(alike, batch, |batch|);
      assert GroupOk(alike, batch, Groups(alike, batch, |batch|)[g], |batch|);
      clusters := clusters + [ArticleCluster(Representative(grown[g]), grown[g])];
    }
  }

  lemma JoinHolds(alike: Relation, batch: seq<LiveArticle>, clusters: seq<seq<LiveArticle>>, groups: seq<Group>, i: nat)
    requires i < |batch| && Holds(batch, clusters, groups)
    ensures var c := FirstMatch(alike, batch, groups, batch[i], 0);
            Holds(batch, if c == |clusters| then clusters + [[batch[i]]] else clusters[c := clusters[c] + [batch[i]]],
                  Join(alike, batch, groups, i))
  {
  }

  /** The evidence an analyst works on and publishes: one article per cluster. */
  function Deduplicated(alike: Relation, batch: seq<LiveArticle>): (articles: seq<LiveArticle>)
    ensures |articles| == |Groups(alike, batch, |batch|)|
    ensures forall g :: 0 <= g < |articles| ==> IsMember(batch, Groups(alike, batch, |batch|)[g], articles[g])
  {
    GroupsAreFirstFit(alike, batch, |batch|);
    var groups := Groups(alike, batch, |batch|);
    seq(|groups|, g requires 0 <= g < |groups| =>
      assert GroupOk(alike, batch, groups[g], |batch|);
      Delegate(batch, groups[g]))
  }

  predicate IsMember(batch: seq<LiveArticle>, group: Group, article: LiveArticle) {
    exists k :: k in group && k < |batch| && article == batch[k]
  }

  /** The representative of a group is one of its members. */
  function Delegate(batch: seq<LiveArticle>, group: Group): (article: LiveArticle)
    requires InBatch(batch, group) && group != []
    ensures IsMember(batch, group, article)
  {
    var articles := Members(batch, group);
    assert group[BestIndex(articles, |articles|)] in group;
    Representative(articles)
  }
}
