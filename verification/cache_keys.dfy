/**
 * How the four providers' cache keys separate entries: which requests share
 * an entry and which never do.
 */
module CacheKeys {
  import opened Symbols
  import CmcProvider
  import GeckoProvider
  import LegacyCmcProvider
  import LegacyGeckoProvider

  predicate NoUnderscore(s: string) {
    forall i :: 0 <= i < |s| ==> s[i] != '_'
  }

  lemma PrefixCancel(p: string, s: string, t: string)
    requires p + s == p + t
    ensures s == t
  {
    assert s == (p + s)[|p|..];
    assert t == (p + t)[|p|..];
  }

  /** Two symbols share a current CoinMarketCap entry exactly when they agree up to letter case. */
  lemma CmcKeySharedIffSameLower(s: string, t: string)
    ensures CmcProvider.CacheKey(s) == CmcProvider.CacheKey(t) <==> ToLower(s) == ToLower(t)
  {
    if CmcProvider.CacheKey(s) == CmcProvider.CacheKey(t) {
      PrefixCancel("cmc_", ToLower(s), ToLower(t));
    }
  }

  /** The same for the current CoinGecko provider. */
  lemma GeckoKeySharedIffSameLower(s: string, t: string)
    ensures GeckoProvider.CacheKey(s) == GeckoProvider.CacheKey(t) <==> ToLower(s) == ToLower(t)
  {
    if GeckoProvider.CacheKey(s) == GeckoProvider.CacheKey(t) {
      PrefixCancel("coingecko_", ToLower(s), ToLower(t));
    }
  }

  /** The two current providers share one cache, but never one entry. */
  lemma CurrentNamespacesDisjoint(s: string, t: string)
    ensures CmcProvider.CacheKey(s) != GeckoProvider.CacheKey(t)
  {
    assert CmcProvider.CacheKey(s)[1] == 'm';
    assert GeckoProvider.CacheKey(t)[1] == 'o';
  }

  /**
   * With a shorter first symbol, the separator of one key stands opposite a
   * symbol character of the other.
   */
  lemma SeparatorMisplaced(p: string, b1: string, q1: string, b2: string, q2: string)
    ensures |b1| < |b2| && NoUnderscore(b2) ==>
      (p + b1 + "_" + q1)[|p| + |b1|] != (p + b2 + "_" + q2)[|p| + |b1|]
  {
  }

  /**
   * In `p + b + "_" + q` the separator is found again when neither symbol
   * contains `_`, so the key determines both symbols.
   */
  lemma PairKeyInjective(p: string, b1: string, q1: string, b2: string, q2: string)
    requires NoUnderscore(b1) && NoUnderscore(b2)
    requires p + b1 + "_" + q1 == p + b2 + "_" + q2
    ensures b1 == b2 && q1 == q2
  {
    var k1 := p + b1 + "_" + q1;
    var k2 := p + b2 + "_" + q2;
    SeparatorMisplaced(p, b1, q1, b2, q2);
    SeparatorMisplaced(p, b2, q2, b1, q1);
    assert b1 == k1[|p|..|p| + |b1|];
    assert b2 == k2[|p|..|p| + |b2|];
    assert q1 == k1[|p| + |b1| + 1..];
    assert q2 == k2[|p| + |b2| + 1..];
  }

  lemma CaseMappingKeepsNoUnderscore(s: string)
    requires NoUnderscore(s)
    ensures NoUnderscore(ToUpper(s)) && NoUnderscore(ToLower(s))
  {
    forall i | 0 <= i < |s|
      ensures ToUpper(s)[i] != '_' && ToLower(s)[i] != '_'
    {
      CaseKeepsUnderscore(s, i);
    }
  }

  /**
   * For symbols without `_` (alphanumeric ones among them) the older
   * CoinMarketCap key identifies the upper-cased pair.
   */
  lemma LegacyCmcKeyIdentifiesPair(b1: string, q1: string, b2: string, q2: string)
    requires NoUnderscore(b1) && NoUnderscore(b2)
    ensures LegacyCmcProvider.CacheKey(b1, q1) == LegacyCmcProvider.CacheKey(b2, q2)
        <==> ToUpper(b1) == ToUpper(b2) && ToUpper(q1) == ToUpper(q2)
  {
    if LegacyCmcProvider.CacheKey(b1, q1) == LegacyCmcProvider.CacheKey(b2, q2) {
      CaseMappingKeepsNoUnderscore(b1);
      CaseMappingKeepsNoUnderscore(b2);
      PairKeyInjective("cmc_", ToUpper(b1), ToUpper(q1), ToUpper(b2), ToUpper(q2));
    }
  }

  /** The same for the older CoinGecko key and the lower-cased pair. */
  lemma LegacyGeckoKeyIdentifiesPair(b1: string, q1: string, b2: string, q2: string)
    requires NoUnderscore(b1) && NoUnderscore(b2)
    ensures LegacyGeckoProvider.CacheKey(b1, q1) == LegacyGeckoProvider.CacheKey(b2, q2)
        <==> ToLower(b1) == ToLower(b2) && ToLower(q1) == ToLower(q2)
  {
    if LegacyGeckoProvider.CacheKey(b1, q1) == LegacyGeckoProvider.CacheKey(b2, q2) {
      CaseMappingKeepsNoUnderscore(b1);
      CaseMappingKeepsNoUnderscore(b2);
      PairKeyInjective("gecko_", ToLower(b1), ToLower(q1), ToLower(b2), ToLower(q2));
    }
  }

  /** With `_` allowed in a symbol, two different pairs share an older CoinMarketCap entry. */
  lemma LegacyCmcKeyCollision()
    ensures LegacyCmcProvider.CacheKey("A_B", "C") == LegacyCmcProvider.CacheKey("A", "B_C")
  {
    assert ToUpper("A_B") == "A_B";
    assert ToUpper("C") == "C";
    assert ToUpper("A") == "A";
    assert ToUpper("B_C") == "B_C";
  }
}
