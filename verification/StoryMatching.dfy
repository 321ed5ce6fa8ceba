/** What the near-duplicate test of the clustering means: which articles are repeats,
    which found a cluster of their own, and which stay alone. */
module StoryMatching {
  import opened Reals
  import opened DropQueues
  import opened NewsFeed
  import opened Clustering

  // ------------------------------------------------------------- similarity

  lemma UnionIsLarger(left: set<string>, right: set<string>)
    ensures left * right <= left <= left + right && left * right <= right <= left + right
    ensures |left * right| <= |left + right|
    ensures |left * right| == |left + right| <==> left == right
  {
    Within(left * right, left + right);
    if |left * right| == |left + right| {
      assert left * right == left + right;
      assert left == right;
    }
    if left == right {
      assert left * right == left + right;
    }
  }

  lemma Within(small: set<string>, large: set<string>)
    requires small <= large
    ensures |small| <= |large| && (|small| == |large| ==> small == large)
  {
    assert large == small + (large - small);
    if |large - small| == 0 {
      assert large - small == {};
    }
  }

  /** One exactly for equal sets, zero exactly for sets without a common token. */
  lemma JaccardRange(left: set<string>, right: set<string>)
    ensures 0.0 <= Jaccard(left, right) <= 1.0
    ensures Jaccard(left, right) == 1.0 <==> left == right && left != {}
    ensures Jaccard(left, right) == 0.0 <==> left !! right
  {
    UnionIsLarger(left, right);
    if left != {} && right != {} {
      var common, all := |left * right| as real, |left + right| as real;
      assert left + right != {} && |left + right| > 0;
      Share(common, all);
      assert left * right == {} <==> |left * right| == 0;
    }
  }

  lemma Share(part: real, whole: real)
    requires 0.0 <= part <= whole && whole > 0.0
    ensures 0.0 <= part / whole <= 1.0
    ensures part / whole == 1.0 <==> part == whole
    ensures part / whole == 0.0 <==> part == 0.0
  {
    QuotientSign(part, whole);
    var share := part / whole;
    assert share * whole == part;
    if share > 1.0 {
      MulLt(1.0, share, whole);
    }
  }

  /** The threshold, multiplied out. */
  lemma JaccardReaches(left: set<string>, right: set<string>, threshold: real)
    requires left != {} && right != {}
    ensures Jaccard(left, right) >= threshold
       <==> |left * right| as real >= Times(threshold, |left + right| as real)
  {
    UnionIsLarger(left, right);
    assert left + right != {} && |left + right| > 0;
    var common, all := |left * right| as real, |left + right| as real;
    if threshold <= common / all {
      QuotientCost(threshold, common, all);
    }
    if Times(threshold, all) <= common {
      CostQuotient(threshold, common, all);
    }
  }

  lemma SharedCounts(left: set<string>, right: set<string>, token: string)
    requires token !in left * right
    ensures var l, r := left + {token}, right + {token};
            && |l * r| == |left * right| + 1
            && |l + r| == |left + right| + (if token in left + right then 0 else 1)
  {
    var l, r := left + {token}, right + {token};
    assert l * r == left * right + {token};
    assert l + r == left + right + {token};
    if token in left + right {
      assert left + right + {token} == left + right;
    }
  }

  /** A token shared in addition never lowers the similarity, and raises it unless
      the sets were the same already. */
  lemma SharingRaises(left: set<string>, right: set<string>, token: string)
    requires token !in left * right
    ensures var before, after := Jaccard(left, right), Jaccard(left + {token}, right + {token});
            after >= before && (after > before <==> left != right || left == {})
  {
    var l, r := left + {token}, right + {token};
    JaccardRange(left, right);
    JaccardRange(l, r);
    SharedCounts(left, right, token);
    UnionIsLarger(left, right);
    if left == {} || right == {} {
      assert token in l * r;
    } else if left == right {
      assert l == r;
    } else {
      var a, b := |left * right| as real, |left + right| as real;
      var more := if token in left + right then b else b + 1.0;
      Larger(a, b, more);
    }
  }

  lemma Larger(a: real, b: real, more: real)
    requires 0.0 <= a < b && b <= more <= b + 1.0
    ensures (a + 1.0) / more > a / b
  {
    var x, y := a / b, (a + 1.0) / more;
    Share(a, b);
    assert x * b == a && y * more == a + 1.0;
    MulLe(more, b + 1.0, x);
    assert (b + 1.0) * x == a + x && x < 1.0;
    if y <= x {
      MulLe(y, x, more);
    }
  }

  // ------------------------------------------------------------- repetition

  /** Written out: the same URL, or enough tokens in common of those of both. */
  predicate Repeats(tokens: LiveArticle -> set<string>, threshold: real, a: LiveArticle, b: LiveArticle) {
    var l, r := tokens(a), tokens(b);
    || (a.url == b.url && a.url != "")
    || (if l == {} || r == {} then threshold <= 0.0
        else |l * r| as real >= Times(threshold, |l + r| as real))
  }

  lemma SameStoryMeans(tokens: LiveArticle -> set<string>, threshold: real, a: LiveArticle, b: LiveArticle)
    ensures SameStory(tokens, threshold)(a, b) <==> Repeats(tokens, threshold, a, b)
  {
    var l, r := tokens(a), tokens(b);
    if l != {} && r != {} {
      JaccardReaches(l, r, threshold);
    }
  }

  // --------------------------------------------------------------- founders

  lemma {:induction false} InSomeGroup(groups: seq<Group>, i: nat) returns (f: nat, k: nat)
    requires i in Count(groups)
    ensures f < |groups| && k < |groups[f]| && groups[f][k] == i
  {
    if i in multiset(groups[0]) {
      f := 0;
      k :| 0 <= k < |groups[0]| && groups[0][k] == i;
    } else {
      f, k := InSomeGroup(groups[1..], i);
      f := f + 1;
    }
  }

  predicate Founds(groups: seq<Group>, i: nat) { exists g :: 0 <= g < |groups| && groups[g] != [] && groups[g][0] == i }

  predicate Alone(groups: seq<Group>, i: nat) { exists g :: 0 <= g < |groups| && groups[g] == [i] }

  predicate New(alike: Relation, batch: seq<LiveArticle>, i: nat)
    requires i < |batch|
  {
    forall j :: 0 <= j < i ==> !alike(batch[i], batch[j])
  }

  lemma GroupOf(alike: Relation, batch: seq<LiveArticle>, i: nat) returns (f: nat, k: nat)
    requires i < |batch|
    ensures var groups := Groups(alike, batch, |batch|);
            f < |groups| && GroupOk(alike, batch, groups[f], |batch|) && k < |groups[f]| && groups[f][k] == i
  {
    GroupsAreFirstFit(alike, batch, |batch|);
    GroupsPartition(alike, batch, |batch|);
    f, k := InSomeGroup(Groups(alike, batch, |batch|), i);
  }

  /** An article founds a cluster exactly when it is alike to none before it. */
  lemma FoundersAreNew(alike: Relation, batch: seq<LiveArticle>, i: nat)
    requires i < |batch|
    ensures Founds(Groups(alike, batch, |batch|), i) <==> New(alike, batch, i)
  {
    var groups := Groups(alike, batch, |batch|);
    if Founds(groups, i) {
      GroupsAreFirstFit(alike, batch, |batch|);
      GroupsPartition(alike, batch, |batch|);
      var g :| 0 <= g < |groups| && groups[g] != [] && groups[g][0] == i;
      forall j | 0 <= j < i
        ensures !alike(batch[i], batch[j])
      {
        EarlierIsApart(alike, batch, groups, g, j);
      }
    } else {
      var f, k := GroupOf(alike, batch, i);
      assert k > 0 && HasAlike(alike, batch, groups[f], k);
    }
  }

  lemma EarlierIsApart(alike: Relation, batch: seq<LiveArticle>, groups: seq<Group>, g: nat, j: nat)
    requires FirstFit(alike, batch, groups, |batch|) && Partition(groups, |batch|)
    requires g < |groups| && groups[g] != [] && j < groups[g][0] < |batch|
    ensures !alike(batch[groups[g][0]], batch[j])
  {
    var f, k := InSomeGroup(groups, j);
    assert GroupOk(alike, batch, groups[f], |batch|) && GroupOk(alike, batch, groups[g], |batch|);
    assert f < g ==> Apart(alike, batch, groups[f], groups[g]);
  }

  /** In a group of several every member is alike to another, one way or the other. */
  lemma Companion(alike: Relation, batch: seq<LiveArticle>, group: Group, k: nat) returns (j: nat)
    requires GroupOk(alike, batch, group, |batch|) && k < |group| && |group| > 1
    ensures j < |batch| && j != group[k]
    ensures alike(batch[group[k]], batch[j]) || alike(batch[j], batch[group[k]])
  {
    var later := if k > 0 then k else 1;
    assert HasAlike(alike, batch, group, later);
    var l :| 0 <= l < later && alike(batch[group[later]], batch[group[l]]);
    j := if k > 0 then group[l] else group[1];
  }

  /** One that is alike to no other, either way, is alone in its cluster. */
  lemma StrangersAreAlone(alike: Relation, batch: seq<LiveArticle>, i: nat)
    requires i < |batch|
    requires forall j :: 0 <= j < |batch| && j != i ==> !alike(batch[i], batch[j]) && !alike(batch[j], batch[i])
    ensures Alone(Groups(alike, batch, |batch|), i)
  {
    var groups := Groups(alike, batch, |batch|);
    var f, k := GroupOf(alike, batch, i);
    if |groups[f]| > 1 {
      var j := Companion(alike, batch, groups[f], k);
    }
    assert groups[f] == [i];
  }

  // ---------------------------------------------------------- main result

  /** The clusters of a batch: an article founds one exactly when it repeats none
      before it, and is alone in it when it repeats no other. */
  lemma ClustersFollowStories(tokens: LiveArticle -> set<string>, threshold: real, batch: seq<LiveArticle>, i: nat)
    requires i < |batch|
    ensures var groups := Groups(SameStory(tokens, threshold), batch, |batch|);
            && (Founds(groups, i) <==> forall j :: 0 <= j < i ==> !Repeats(tokens, threshold, batch[i], batch[j]))
            && ((forall j :: 0 <= j < |batch| && j != i ==> !Repeats(tokens, threshold, batch[i], batch[j])) ==>
                  Alone(groups, i))
  {
    var alike := SameStory(tokens, threshold);
    forall j | 0 <= j < |batch|
      ensures alike(batch[i], batch[j]) == alike(batch[j], batch[i]) == Repeats(tokens, threshold, batch[i], batch[j])
    {
      SameStoryMeans(tokens, threshold, batch[i], batch[j]);
      SameStoryIsSymmetric(tokens, threshold, batch[i], batch[j]);
    }
    FoundersAreNew(alike, batch, i);
    if forall j :: 0 <= j < |batch| && j != i ==> !Repeats(tokens, threshold, batch[i], batch[j]) {
      StrangersAreAlone(alike, batch, i);
    }
  }

  /** The same URL, or the same words, as an earlier article: never a founder. */
  lemma CopiesNeverFound(tokens: LiveArticle -> set<string>, threshold: real, batch: seq<LiveArticle>, i: nat, j: nat)
    requires j < i < |batch|
    requires || (batch[i].url == batch[j].url && batch[i].url != "")
             || (tokens(batch[i]) == tokens(batch[j]) && tokens(batch[i]) != {} && threshold <= 1.0)
    ensures !Founds(Groups(SameStory(tokens, threshold), batch, |batch|), i)
  {
    var l, r := tokens(batch[i]), tokens(batch[j]);
    ClustersFollowStories(tokens, threshold, batch, i);
    if l == r && l != {} && threshold <= 1.0 {
      assert l * r == l == l + r;
      TimesLe(threshold, 1.0, |l| as real);
      TimesSmall(|l| as real);
    }
    assert Repeats(tokens, threshold, batch[i], batch[j]);
  }

  /** A URL of its own and no word in common with any other: alone. */
  lemma OriginalsAreAlone(tokens: LiveArticle -> set<string>, threshold: real, batch: seq<LiveArticle>, i: nat)
    requires i < |batch| && threshold > 0.0
    requires forall j :: 0 <= j < |batch| && j != i ==>
               (batch[i].url == "" || batch[j].url != batch[i].url) && tokens(batch[i]) !! tokens(batch[j])
    ensures Alone(Groups(SameStory(tokens, threshold), batch, |batch|), i)
  {
    forall j | 0 <= j < |batch| && j != i
      ensures !Repeats(tokens, threshold, batch[i], batch[j])
    {
      var l, r := tokens(batch[i]), tokens(batch[j]);
      assert l * r == {};
      if l != {} && r != {} {
        assert l + r != {} && |l + r| > 0;
        MulLt(0.0, threshold, |l + r| as real);
      }
    }
    ClustersFollowStories(tokens, threshold, batch, i);
  }

  // --------------------------------------------------------- representatives

  function Body(article: LiveArticle): string { if article.fullText.Some? then article.fullText.value else "" }

  /** A cluster is represented by its longest text, of those by the longest title, and
      of those by the latest; the first of them where several tie. */
  lemma RepresentativeIsFullest(articles: seq<LiveArticle>)
    requires articles != []
    ensures var best := Representative(articles);
            && best in articles
            && forall other :: other in articles ==>
                 && |Body(other)| <= |Body(best)|
                 && (|Body(other)| == |Body(best)| ==> |other.title| <= |best.title|)
                 && (|Body(other)| == |Body(best)| && |other.title| == |best.title| ==>
                       other.published <= best.published)
  {
    var n := |articles|;
    BestIndexIsFirstBest(articles, n);
    forall other | other in articles
      ensures !Outranks(other, Representative(articles))
    {
      var j :| 0 <= j < n && articles[j] == other;
    }
  }
}
