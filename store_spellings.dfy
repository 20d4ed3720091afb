/** Two stores of the sample list whose names spell their chain differently
    from the keyword the price bands are chosen by, worked through both the
    keyword list as written and the one with the extra spellings. */
module StoreSpellings {
  import Text
  import opened DummyData

  /** The first three keywords do not occur in the Kabukicho store's name; its 'ン' is followed by '・', not 'キ'. */
  lemma KabukichoMissesFirstKeywords()
    ensures !Text.Contains(KabukichoStore, "業務スーパー")
    ensures !Text.Contains(KabukichoStore, "ビッグ・エー")
    ensures !Text.Contains(KabukichoStore, "ドンキホーテ")
  {
    var s := KabukichoStore;
    assert '業' !in s; Text.CharOfContained(s, "業務スーパー", '業');
    assert 'ビ' !in s; Text.CharOfContained(s, "ビッグ・エー", 'ビ');
    assert forall k :: 0 <= k < |s| - 1 && s[k] == 'ン' ==> s[k + 1] != 'キ';
    Text.PairOfContained(s, "ドンキホーテ", 1, 'ン', 'キ');
  }

  /** The last four keywords do not occur in the Kabukicho store's name. */
  lemma KabukichoMissesLastKeywords()
    ensures !Text.Contains(KabukichoStore, "イオン")
    ensures !Text.Contains(KabukichoStore, "西友")
    ensures !Text.Contains(KabukichoStore, "ライフ")
    ensures !Text.Contains(KabukichoStore, "まいばすけっと")
  {
    var s := KabukichoStore;
    assert 'イ' !in s; Text.CharOfContained(s, "イオン", 'イ');
    assert '西' !in s; Text.CharOfContained(s, "西友", '西');
    assert 'ラ' !in s; Text.CharOfContained(s, "ライフ", 'ラ');
    assert 'ま' !in s; Text.CharOfContained(s, "まいばすけっと", 'ま');
  }

  /** The first three keywords do not occur in the Ichikawa store's name. */
  lemma IchikawaMissesFirstKeywords()
    ensures !Text.Contains(IchikawaBigA, "業務スーパー")
    ensures !Text.Contains(IchikawaBigA, "ビッグ・エー")
    ensures !Text.Contains(IchikawaBigA, "ドンキホーテ")
  {
    var s := IchikawaBigA;
    assert '業' !in s; Text.CharOfContained(s, "業務スーパー", '業');
    assert '・' !in s; Text.CharOfContained(s, "ビッグ・エー", '・');
    assert 'ド' !in s; Text.CharOfContained(s, "ドンキホーテ", 'ド');
  }

  /** The last four keywords do not occur in the Ichikawa store's name. */
  lemma IchikawaMissesLastKeywords()
    ensures !Text.Contains(IchikawaBigA, "イオン")
    ensures !Text.Contains(IchikawaBigA, "西友")
    ensures !Text.Contains(IchikawaBigA, "ライフ")
    ensures !Text.Contains(IchikawaBigA, "まいばすけっと")
  {
    var s := IchikawaBigA;
    assert 'イ' !in s; Text.CharOfContained(s, "イオン", 'イ');
    assert '西' !in s; Text.CharOfContained(s, "西友", '西');
    assert 'ラ' !in s; Text.CharOfContained(s, "ライフ", 'ラ');
    assert 'ま' !in s; Text.CharOfContained(s, "まいばすけっと", 'ま');
  }

  /** A name with none of the seven keywords gets no chain as written. */
  lemma NoKeywordIsNoChain(s: string)
    requires !Text.Contains(s, "業務スーパー")
    requires !Text.Contains(s, "ビッグ・エー")
    requires !Text.Contains(s, "ドンキホーテ")
    requires !Text.Contains(s, "イオン")
    requires !Text.Contains(s, "西友")
    requires !Text.Contains(s, "ライフ")
    requires !Text.Contains(s, "まいばすけっと")
    ensures ChainOfAsWritten(s) == Other
  {
  }

  /** As written, the discount store spelled 'ドン・キホーテ' matches no keyword
      and gets the default band. */
  lemma DonQuijoteSpellingMissed()
    ensures ChainOfAsWritten(KabukichoStore) == Other
    ensures PriceRangeAsWritten(KabukichoStore, "卵") == (180, 220)
  {
    KabukichoMissesFirstKeywords();
    KabukichoMissesLastKeywords();
    NoKeywordIsNoChain(KabukichoStore);
  }

  /** As written, the store spelled 'BIGA（ビッグエー）' matches no keyword
      and gets the default band. */
  lemma BigASpellingMissed()
    ensures ChainOfAsWritten(IchikawaBigA) == Other
    ensures PriceRangeAsWritten(IchikawaBigA, "卵") == (180, 220)
  {
    IchikawaMissesFirstKeywords();
    IchikawaMissesLastKeywords();
    NoKeywordIsNoChain(IchikawaBigA);
  }

  /** The Kabukicho store's name holds the second spelling of the
      discount chain and neither spelling of the two chains tried before it. */
  lemma KabukichoSpellings()
    ensures !Text.Contains(KabukichoStore, "業務スーパー")
    ensures !Text.Contains(KabukichoStore, "ビッグ・エー") && !Text.Contains(KabukichoStore, "ビッグエー")
    ensures Text.Contains(KabukichoStore, "ドン・キホーテ")
  {
    var s := KabukichoStore;
    assert '業' !in s; Text.CharOfContained(s, "業務スーパー", '業');
    assert 'ビ' !in s; Text.CharOfContained(s, "ビッグ・エー", 'ビ'); Text.CharOfContained(s, "ビッグエー", 'ビ');
    assert Text.OccursAt(s, "ドン・キホーテ", 0);
  }

  /** The Ichikawa store's name holds the second spelling of its chain and not the keyword tried before it. */
  lemma IchikawaSpellings()
    ensures !Text.Contains(IchikawaBigA, "業務スーパー")
    ensures Text.Contains(IchikawaBigA, "ビッグエー")
  {
    var s := IchikawaBigA;
    assert '業' !in s; Text.CharOfContained(s, "業務スーパー", '業');
    assert Text.OccursAt(s, "ビッグエー", 5);
  }

  /** With both spellings recognised, the Kabukicho store gets the discount chain's band. */
  lemma CorrectedKabukichoChain()
    ensures ChainOf(KabukichoStore) == DonQuijote
    ensures PriceRange(KabukichoStore, "卵") == (160, 220)
  {
    KabukichoSpellings();
    assert ContainsAny(KabukichoStore, Keywords[2]) by { assert Text.Contains(KabukichoStore, Keywords[2][1]); }
  }

  /** With both spellings recognised, the Ichikawa store gets its chain's band. */
  lemma CorrectedIchikawaChain()
    ensures ChainOf(IchikawaBigA) == BigA
    ensures PriceRange(IchikawaBigA, "卵") == (150, 184)
  {
    IchikawaSpellings();
    assert ContainsAny(IchikawaBigA, Keywords[1]) by { assert Text.Contains(IchikawaBigA, Keywords[1][1]); }
  }
}
