/** From the barrier to the published id: both arms of the experiment publish
    the same batch identity for the same barrier batch. */
module MatchedExperiment {
  import opened Wrappers
  import opened NewsFeed
  import opened PairedRuns
  import opened Clustering
  import opened BatchId

  /** The text behind the id an analyst publishes for a batch it was handed. */
  function PublishedMaterial(alike: Relation, market: int, batch: PairedNewsBatch): string {
    Material(market, Deduplicated(alike, batch.articles), Some(batch.referencePrice))
  }

  /** In every legal run, whenever two receipts (of either arm, after any number
      of retries) are for the same batch, the published texts agree; and
      receipts whose texts agree show the same price and the same URLs. */
  lemma MatchedIdentity(
    setup: Setup, events: seq<Event>, market: int, alike: Relation, one: Arm, two: Arm, i: nat, j: nat)
    requires LegalRun(setup, events) && one in setup.Arms() && two in setup.Arms()
    requires var m := MarketOf(setup, Run(setup, events), market);
             && one in m.ledgers && i < |m.ledgers[one].received|
             && two in m.ledgers && j < |m.ledgers[two].received|
    ensures var m := MarketOf(setup, Run(setup, events), market);
            var a, b := m.ledgers[one].received[i], m.ledgers[two].received[j];
            && (a.index == b.index ==>
                  PublishedMaterial(alike, market, a.batch) == PublishedMaterial(alike, market, b.batch))
            && (NulFreeUrls(Deduplicated(alike, a.batch.articles))
                && NulFreeUrls(Deduplicated(alike, b.batch.articles)) ==>
                  (PublishedMaterial(alike, market, a.batch) == PublishedMaterial(alike, market, b.batch) <==>
                    && a.batch.referencePrice == b.batch.referencePrice
                    && multiset(Urls(Deduplicated(alike, a.batch.articles)))
                      == multiset(Urls(Deduplicated(alike, b.batch.articles)))))
  {
    var m := MarketOf(setup, Run(setup, events), market);
    var a, b := m.ledgers[one].received[i].batch, m.ledgers[two].received[j].batch;
    SameBatchSameEvidence(setup, events, market, one, two);
    var u, v := Deduplicated(alike, a.articles), Deduplicated(alike, b.articles);
    if NulFreeUrls(u) && NulFreeUrls(v) {
      MaterialIdentifiesBatch(market, u, Some(a.referencePrice), market, v, Some(b.referencePrice));
    }
  }
}
