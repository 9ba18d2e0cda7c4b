// The naming convention every script derives from one index name: the indexer,
// the skillset and the blob data source are all called after the index.
module Naming {

  function IndexerName(index: string): string { index + "-indexer" }

  function SkillsetName(index: string): string { index + "-skillset" }

  function DataSourceName(index: string): string { index + "-blob" }

  /** A name with a known suffix determines the index it was derived from. */
  lemma SuffixCancels(a: string, b: string, suffix: string)
    requires a + suffix == b + suffix
    ensures a == b
  {
    assert |a| == |b|;
    assert a == (a + suffix)[..|a|];
    assert b == (b + suffix)[..|b|];
  }

  /** Each kind of name is injective in the index name. */
  lemma NamesInjective(a: string, b: string)
    ensures IndexerName(a) == IndexerName(b) ==> a == b
    ensures SkillsetName(a) == SkillsetName(b) ==> a == b
    ensures DataSourceName(a) == DataSourceName(b) ==> a == b
  {
    if IndexerName(a) == IndexerName(b) { SuffixCancels(a, b, "-indexer"); }
    if SkillsetName(a) == SkillsetName(b) { SuffixCancels(a, b, "-skillset"); }
    if DataSourceName(a) == DataSourceName(b) { SuffixCancels(a, b, "-blob"); }
  }

  function LastChar(s: string): char
    requires s != []
  {
    s[|s| - 1]
  }

  /**
   * Names of different kinds never coincide, whatever the two index names:
   * they end in different characters ('r', 't', 'b').
   */
  lemma KindsNeverCollide(a: string, b: string)
    ensures IndexerName(a) != SkillsetName(b)
    ensures IndexerName(a) != DataSourceName(b)
    ensures SkillsetName(a) != DataSourceName(b)
  {
    assert LastChar(IndexerName(a)) == 'r';
    assert LastChar(SkillsetName(b)) == 't';
    assert LastChar(DataSourceName(b)) == 'b';
    assert LastChar(SkillsetName(a)) == 't';
  }

  /** None of the derived names is the index name itself. */
  lemma DerivedNamesDifferFromIndex(index: string)
    ensures IndexerName(index) != index
    ensures SkillsetName(index) != index
    ensures DataSourceName(index) != index
  {
    assert |IndexerName(index)| == |index| + 8;
  }
}
