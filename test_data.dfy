/** Concrete evaluations behind the test scenarios: the provider's list
    after each `add` of a scenario (Collections.sort on a literal list,
    then Collections.reverse), and the complete run of the scenario whose
    ceiling is too low for its run of equal weights. */
module TestData {
  import opened Optional
  import opened Sequences
  import opened Provider
  import opened PaginatorSpec
  import opened Extraction
  import opened Guarantees

  lemma StoreA1()
    ensures Added([], Item(1, 'A')) == [Item(1, 'A')]
  {
    assert [] + [Item(1, 'A')] == [Item(1, 'A')];
    SortA1();
    ReverseA1();
  }

  lemma SortA1()
    ensures SortedByParam([Item(1, 'A')]) == [Item(1, 'A')]
  {
  }

  lemma ReverseA1()
    ensures Reversed([Item(1, 'A')]) == [Item(1, 'A')]
  {
  }

  lemma StoreB2A1()
    ensures Added([Item(1, 'A')], Item(2, 'B')) == [Item(2, 'B'), Item(1, 'A')]
  {
    assert [Item(1, 'A')] + [Item(2, 'B')] == [Item(1, 'A'), Item(2, 'B')];
    SortB2A1();
    ReverseB2A1();
  }

  lemma SortB2A1()
    ensures SortedByParam([Item(1, 'A'), Item(2, 'B')]) == [Item(1, 'A'), Item(2, 'B')]
  {
  }

  lemma ReverseB2A1()
    ensures Reversed([Item(1, 'A'), Item(2, 'B')]) == [Item(2, 'B'), Item(1, 'A')]
  {
  }

  lemma StoreC3B2A1()
    ensures Added([Item(2, 'B'), Item(1, 'A')], Item(3, 'C')) == [Item(3, 'C'), Item(2, 'B'), Item(1, 'A')]
  {
    assert [Item(2, 'B'), Item(1, 'A')] + [Item(3, 'C')] == [Item(2, 'B'), Item(1, 'A'), Item(3, 'C')];
    SortC3B2A1();
    ReverseC3B2A1();
  }

  lemma SortC3B2A1()
    ensures SortedByParam([Item(2, 'B'), Item(1, 'A'), Item(3, 'C')]) == [Item(1, 'A'), Item(2, 'B'), Item(3, 'C')]
  {
  }

  lemma ReverseC3B2A1()
    ensures Reversed([Item(1, 'A'), Item(2, 'B'), Item(3, 'C')]) == [Item(3, 'C'), Item(2, 'B'), Item(1, 'A')]
  {
    assert Reversed([Item(2, 'B'), Item(3, 'C')]) == [Item(3, 'C'), Item(2, 'B')];
  }

  lemma StoreD4C3B2A1()
    ensures Added([Item(3, 'C'), Item(2, 'B'), Item(1, 'A')], Item(4, 'D')) == [Item(4, 'D'), Item(3, 'C'), Item(2, 'B'), Item(1, 'A')]
  {
    assert [Item(3, 'C'), Item(2, 'B'), Item(1, 'A')] + [Item(4, 'D')] == [Item(3, 'C'), Item(2, 'B'), Item(1, 'A'), Item(4, 'D')];
    SortD4C3B2A1();
    ReverseD4C3B2A1();
  }

  lemma SortD4C3B2A1()
    ensures SortedByParam([Item(3, 'C'), Item(2, 'B'), Item(1, 'A'), Item(4, 'D')]) == [Item(1, 'A'), Item(2, 'B'), Item(3, 'C'), Item(4, 'D')]
  {
  }

  lemma ReverseD4C3B2A1()
    ensures Reversed([Item(1, 'A'), Item(2, 'B'), Item(3, 'C'), Item(4, 'D')]) == [Item(4, 'D'), Item(3, 'C'), Item(2, 'B'), Item(1, 'A')]
  {
    assert Reversed([Item(3, 'C'), Item(4, 'D')]) == [Item(4, 'D'), Item(3, 'C')];
    assert Reversed([Item(2, 'B'), Item(3, 'C'), Item(4, 'D')]) == [Item(4, 'D'), Item(3, 'C'), Item(2, 'B')];
  }

  lemma StoreE5D4C3B2A1()
    ensures Added([Item(4, 'D'), Item(3, 'C'), Item(2, 'B'), Item(1, 'A')], Item(5, 'E')) == [Item(5, 'E'), Item(4, 'D'), Item(3, 'C'), Item(2, 'B'), Item(1, 'A')]
  {
    assert [Item(4, 'D'), Item(3, 'C'), Item(2, 'B'), Item(1, 'A')] + [Item(5, 'E')] == [Item(4, 'D'), Item(3, 'C'), Item(2, 'B'), Item(1, 'A'), Item(5, 'E')];
    SortE5D4C3B2A1();
    ReverseE5D4C3B2A1();
  }

  lemma SortE5D4C3B2A1()
    ensures SortedByParam([Item(4, 'D'), Item(3, 'C'), Item(2, 'B'), Item(1, 'A'), Item(5, 'E')]) == [Item(1, 'A'), Item(2, 'B'), Item(3, 'C'), Item(4, 'D'), Item(5, 'E')]
  {
  }

  lemma ReverseE5D4C3B2A1()
    ensures Reversed([Item(1, 'A'), Item(2, 'B'), Item(3, 'C'), Item(4, 'D'), Item(5, 'E')]) == [Item(5, 'E'), Item(4, 'D'), Item(3, 'C'), Item(2, 'B'), Item(1, 'A')]
  {
    assert Reversed([Item(4, 'D'), Item(5, 'E')]) == [Item(5, 'E'), Item(4, 'D')];
    assert Reversed([Item(3, 'C'), Item(4, 'D'), Item(5, 'E')]) == [Item(5, 'E'), Item(4, 'D'), Item(3, 'C')];
    assert Reversed([Item(2, 'B'), Item(3, 'C'), Item(4, 'D'), Item(5, 'E')]) == [Item(5, 'E'), Item(4, 'D'), Item(3, 'C'), Item(2, 'B')];
  }

  lemma StoreC2B2A1()
    ensures Added([Item(2, 'B'), Item(1, 'A')], Item(2, 'C')) == [Item(2, 'C'), Item(2, 'B'), Item(1, 'A')]
  {
    assert [Item(2, 'B'), Item(1, 'A')] + [Item(2, 'C')] == [Item(2, 'B'), Item(1, 'A'), Item(2, 'C')];
    SortC2B2A1();
    ReverseC2B2A1();
  }

  lemma SortC2B2A1()
    ensures SortedByParam([Item(2, 'B'), Item(1, 'A'), Item(2, 'C')]) == [Item(1, 'A'), Item(2, 'B'), Item(2, 'C')]
  {
  }

  lemma ReverseC2B2A1()
    ensures Reversed([Item(1, 'A'), Item(2, 'B'), Item(2, 'C')]) == [Item(2, 'C'), Item(2, 'B'), Item(1, 'A')]
  {
    assert Reversed([Item(2, 'B'), Item(2, 'C')]) == [Item(2, 'C'), Item(2, 'B')];
  }

  lemma StoreD3B2C2A1()
    ensures Added([Item(2, 'C'), Item(2, 'B'), Item(1, 'A')], Item(3, 'D')) == [Item(3, 'D'), Item(2, 'B'), Item(2, 'C'), Item(1, 'A')]
  {
    assert [Item(2, 'C'), Item(2, 'B'), Item(1, 'A')] + [Item(3, 'D')] == [Item(2, 'C'), Item(2, 'B'), Item(1, 'A'), Item(3, 'D')];
    SortD3B2C2A1();
    ReverseD3B2C2A1();
  }

  lemma SortD3B2C2A1()
    ensures SortedByParam([Item(2, 'C'), Item(2, 'B'), Item(1, 'A'), Item(3, 'D')]) == [Item(1, 'A'), Item(2, 'C'), Item(2, 'B'), Item(3, 'D')]
  {
  }

  lemma ReverseD3B2C2A1()
    ensures Reversed([Item(1, 'A'), Item(2, 'C'), Item(2, 'B'), Item(3, 'D')]) == [Item(3, 'D'), Item(2, 'B'), Item(2, 'C'), Item(1, 'A')]
  {
    assert Reversed([Item(2, 'B'), Item(3, 'D')]) == [Item(3, 'D'), Item(2, 'B')];
    assert Reversed([Item(2, 'C'), Item(2, 'B'), Item(3, 'D')]) == [Item(3, 'D'), Item(2, 'B'), Item(2, 'C')];
  }

  lemma StoreE4D3C2B2A1()
    ensures Added([Item(3, 'D'), Item(2, 'B'), Item(2, 'C'), Item(1, 'A')], Item(4, 'E')) == [Item(4, 'E'), Item(3, 'D'), Item(2, 'C'), Item(2, 'B'), Item(1, 'A')]
  {
    assert [Item(3, 'D'), Item(2, 'B'), Item(2, 'C'), Item(1, 'A')] + [Item(4, 'E')] == [Item(3, 'D'), Item(2, 'B'), Item(2, 'C'), Item(1, 'A'), Item(4, 'E')];
    SortE4D3C2B2A1();
    ReverseE4D3C2B2A1();
  }

  lemma SortE4D3C2B2A1()
    ensures SortedByParam([Item(3, 'D'), Item(2, 'B'), Item(2, 'C'), Item(1, 'A'), Item(4, 'E')]) == [Item(1, 'A'), Item(2, 'B'), Item(2, 'C'), Item(3, 'D'), Item(4, 'E')]
  {
  }

  lemma ReverseE4D3C2B2A1()
    ensures Reversed([Item(1, 'A'), Item(2, 'B'), Item(2, 'C'), Item(3, 'D'), Item(4, 'E')]) == [Item(4, 'E'), Item(3, 'D'), Item(2, 'C'), Item(2, 'B'), Item(1, 'A')]
  {
    assert Reversed([Item(3, 'D'), Item(4, 'E')]) == [Item(4, 'E'), Item(3, 'D')];
    assert Reversed([Item(2, 'C'), Item(3, 'D'), Item(4, 'E')]) == [Item(4, 'E'), Item(3, 'D'), Item(2, 'C')];
    assert Reversed([Item(2, 'B'), Item(2, 'C'), Item(3, 'D'), Item(4, 'E')]) == [Item(4, 'E'), Item(3, 'D'), Item(2, 'C'), Item(2, 'B')];
  }

  lemma StoreD2B2C2A1()
    ensures Added([Item(2, 'C'), Item(2, 'B'), Item(1, 'A')], Item(2, 'D')) == [Item(2, 'D'), Item(2, 'B'), Item(2, 'C'), Item(1, 'A')]
  {
    assert [Item(2, 'C'), Item(2, 'B'), Item(1, 'A')] + [Item(2, 'D')] == [Item(2, 'C'), Item(2, 'B'), Item(1, 'A'), Item(2, 'D')];
    SortD2B2C2A1();
    ReverseD2B2C2A1();
  }

  lemma SortD2B2C2A1()
    ensures SortedByParam([Item(2, 'C'), Item(2, 'B'), Item(1, 'A'), Item(2, 'D')]) == [Item(1, 'A'), Item(2, 'C'), Item(2, 'B'), Item(2, 'D')]
  {
  }

  lemma ReverseD2B2C2A1()
    ensures Reversed([Item(1, 'A'), Item(2, 'C'), Item(2, 'B'), Item(2, 'D')]) == [Item(2, 'D'), Item(2, 'B'), Item(2, 'C'), Item(1, 'A')]
  {
    assert Reversed([Item(2, 'B'), Item(2, 'D')]) == [Item(2, 'D'), Item(2, 'B')];
    assert Reversed([Item(2, 'C'), Item(2, 'B'), Item(2, 'D')]) == [Item(2, 'D'), Item(2, 'B'), Item(2, 'C')];
  }

  lemma StoreE2C2B2D2A1()
    ensures Added([Item(2, 'D'), Item(2, 'B'), Item(2, 'C'), Item(1, 'A')], Item(2, 'E')) == [Item(2, 'E'), Item(2, 'C'), Item(2, 'B'), Item(2, 'D'), Item(1, 'A')]
  {
    assert [Item(2, 'D'), Item(2, 'B'), Item(2, 'C'), Item(1, 'A')] + [Item(2, 'E')] == [Item(2, 'D'), Item(2, 'B'), Item(2, 'C'), Item(1, 'A'), Item(2, 'E')];
    SortE2C2B2D2A1();
    ReverseE2C2B2D2A1();
  }

  lemma SortE2C2B2D2A1()
    ensures SortedByParam([Item(2, 'D'), Item(2, 'B'), Item(2, 'C'), Item(1, 'A'), Item(2, 'E')]) == [Item(1, 'A'), Item(2, 'D'), Item(2, 'B'), Item(2, 'C'), Item(2, 'E')]
  {
  }

  lemma ReverseE2C2B2D2A1()
    ensures Reversed([Item(1, 'A'), Item(2, 'D'), Item(2, 'B'), Item(2, 'C'), Item(2, 'E')]) == [Item(2, 'E'), Item(2, 'C'), Item(2, 'B'), Item(2, 'D'), Item(1, 'A')]
  {
    assert Reversed([Item(2, 'C'), Item(2, 'E')]) == [Item(2, 'E'), Item(2, 'C')];
    assert Reversed([Item(2, 'B'), Item(2, 'C'), Item(2, 'E')]) == [Item(2, 'E'), Item(2, 'C'), Item(2, 'B')];
    assert Reversed([Item(2, 'D'), Item(2, 'B'), Item(2, 'C'), Item(2, 'E')]) == [Item(2, 'E'), Item(2, 'C'), Item(2, 'B'), Item(2, 'D')];
  }

  lemma StoreF3D2B2C2E2A1()
    ensures Added([Item(2, 'E'), Item(2, 'C'), Item(2, 'B'), Item(2, 'D'), Item(1, 'A')], Item(3, 'F')) == [Item(3, 'F'), Item(2, 'D'), Item(2, 'B'), Item(2, 'C'), Item(2, 'E'), Item(1, 'A')]
  {
    assert [Item(2, 'E'), Item(2, 'C'), Item(2, 'B'), Item(2, 'D'), Item(1, 'A')] + [Item(3, 'F')] == [Item(2, 'E'), Item(2, 'C'), Item(2, 'B'), Item(2, 'D'), Item(1, 'A'), Item(3, 'F')];
    SortF3D2B2C2E2A1();
    ReverseF3D2B2C2E2A1();
  }

  lemma SortF3D2B2C2E2A1()
    ensures SortedByParam([Item(2, 'E'), Item(2, 'C'), Item(2, 'B'), Item(2, 'D'), Item(1, 'A'), Item(3, 'F')]) == [Item(1, 'A'), Item(2, 'E'), Item(2, 'C'), Item(2, 'B'), Item(2, 'D'), Item(3, 'F')]
  {
  }

  lemma ReverseF3D2B2C2E2A1()
    ensures Reversed([Item(1, 'A'), Item(2, 'E'), Item(2, 'C'), Item(2, 'B'), Item(2, 'D'), Item(3, 'F')]) == [Item(3, 'F'), Item(2, 'D'), Item(2, 'B'), Item(2, 'C'), Item(2, 'E'), Item(1, 'A')]
  {
    assert Reversed([Item(2, 'D'), Item(3, 'F')]) == [Item(3, 'F'), Item(2, 'D')];
    assert Reversed([Item(2, 'B'), Item(2, 'D'), Item(3, 'F')]) == [Item(3, 'F'), Item(2, 'D'), Item(2, 'B')];
    assert Reversed([Item(2, 'C'), Item(2, 'B'), Item(2, 'D'), Item(3, 'F')]) == [Item(3, 'F'), Item(2, 'D'), Item(2, 'B'), Item(2, 'C')];
    assert Reversed([Item(2, 'E'), Item(2, 'C'), Item(2, 'B'), Item(2, 'D'), Item(3, 'F')]) == [Item(3, 'F'), Item(2, 'D'), Item(2, 'B'), Item(2, 'C'), Item(2, 'E')];
  }

  lemma StoreE3C2B2D2A1()
    ensures Added([Item(2, 'D'), Item(2, 'B'), Item(2, 'C'), Item(1, 'A')], Item(3, 'E')) == [Item(3, 'E'), Item(2, 'C'), Item(2, 'B'), Item(2, 'D'), Item(1, 'A')]
  {
    assert [Item(2, 'D'), Item(2, 'B'), Item(2, 'C'), Item(1, 'A')] + [Item(3, 'E')] == [Item(2, 'D'), Item(2, 'B'), Item(2, 'C'), Item(1, 'A'), Item(3, 'E')];
    SortE3C2B2D2A1();
    ReverseE3C2B2D2A1();
  }

  lemma SortE3C2B2D2A1()
    ensures SortedByParam([Item(2, 'D'), Item(2, 'B'), Item(2, 'C'), Item(1, 'A'), Item(3, 'E')]) == [Item(1, 'A'), Item(2, 'D'), Item(2, 'B'), Item(2, 'C'), Item(3, 'E')]
  {
  }

  lemma ReverseE3C2B2D2A1()
    ensures Reversed([Item(1, 'A'), Item(2, 'D'), Item(2, 'B'), Item(2, 'C'), Item(3, 'E')]) == [Item(3, 'E'), Item(2, 'C'), Item(2, 'B'), Item(2, 'D'), Item(1, 'A')]
  {
    assert Reversed([Item(2, 'C'), Item(3, 'E')]) == [Item(3, 'E'), Item(2, 'C')];
    assert Reversed([Item(2, 'B'), Item(2, 'C'), Item(3, 'E')]) == [Item(3, 'E'), Item(2, 'C'), Item(2, 'B')];
    assert Reversed([Item(2, 'D'), Item(2, 'B'), Item(2, 'C'), Item(3, 'E')]) == [Item(3, 'E'), Item(2, 'C'), Item(2, 'B'), Item(2, 'D')];
  }

  lemma StoreF2D2B2C2E2A1()
    ensures Added([Item(2, 'E'), Item(2, 'C'), Item(2, 'B'), Item(2, 'D'), Item(1, 'A')], Item(2, 'F')) == [Item(2, 'F'), Item(2, 'D'), Item(2, 'B'), Item(2, 'C'), Item(2, 'E'), Item(1, 'A')]
  {
    assert [Item(2, 'E'), Item(2, 'C'), Item(2, 'B'), Item(2, 'D'), Item(1, 'A')] + [Item(2, 'F')] == [Item(2, 'E'), Item(2, 'C'), Item(2, 'B'), Item(2, 'D'), Item(1, 'A'), Item(2, 'F')];
    SortF2D2B2C2E2A1();
    ReverseF2D2B2C2E2A1();
  }

  lemma SortF2D2B2C2E2A1()
    ensures SortedByParam([Item(2, 'E'), Item(2, 'C'), Item(2, 'B'), Item(2, 'D'), Item(1, 'A'), Item(2, 'F')]) == [Item(1, 'A'), Item(2, 'E'), Item(2, 'C'), Item(2, 'B'), Item(2, 'D'), Item(2, 'F')]
  {
  }

  lemma ReverseF2D2B2C2E2A1()
    ensures Reversed([Item(1, 'A'), Item(2, 'E'), Item(2, 'C'), Item(2, 'B'), Item(2, 'D'), Item(2, 'F')]) == [Item(2, 'F'), Item(2, 'D'), Item(2, 'B'), Item(2, 'C'), Item(2, 'E'), Item(1, 'A')]
  {
    assert Reversed([Item(2, 'D'), Item(2, 'F')]) == [Item(2, 'F'), Item(2, 'D')];
    assert Reversed([Item(2, 'B'), Item(2, 'D'), Item(2, 'F')]) == [Item(2, 'F'), Item(2, 'D'), Item(2, 'B')];
    assert Reversed([Item(2, 'C'), Item(2, 'B'), Item(2, 'D'), Item(2, 'F')]) == [Item(2, 'F'), Item(2, 'D'), Item(2, 'B'), Item(2, 'C')];
    assert Reversed([Item(2, 'E'), Item(2, 'C'), Item(2, 'B'), Item(2, 'D'), Item(2, 'F')]) == [Item(2, 'F'), Item(2, 'D'), Item(2, 'B'), Item(2, 'C'), Item(2, 'E')];
  }

  lemma StoreG3E2C2B2D2F2A1()
    ensures Added([Item(2, 'F'), Item(2, 'D'), Item(2, 'B'), Item(2, 'C'), Item(2, 'E'), Item(1, 'A')], Item(3, 'G')) == [Item(3, 'G'), Item(2, 'E'), Item(2, 'C'), Item(2, 'B'), Item(2, 'D'), Item(2, 'F'), Item(1, 'A')]
  {
    assert [Item(2, 'F'), Item(2, 'D'), Item(2, 'B'), Item(2, 'C'), Item(2, 'E'), Item(1, 'A')] + [Item(3, 'G')] == [Item(2, 'F'), Item(2, 'D'), Item(2, 'B'), Item(2, 'C'), Item(2, 'E'), Item(1, 'A'), Item(3, 'G')];
    SortG3E2C2B2D2F2A1();
    ReverseG3E2C2B2D2F2A1();
  }

  lemma SortG3E2C2B2D2F2A1()
    ensures SortedByParam([Item(2, 'F'), Item(2, 'D'), Item(2, 'B'), Item(2, 'C'), Item(2, 'E'), Item(1, 'A'), Item(3, 'G')]) == [Item(1, 'A'), Item(2, 'F'), Item(2, 'D'), Item(2, 'B'), Item(2, 'C'), Item(2, 'E'), Item(3, 'G')]
  {
  }

  lemma ReverseG3E2C2B2D2F2A1()
    ensures Reversed([Item(1, 'A'), Item(2, 'F'), Item(2, 'D'), Item(2, 'B'), Item(2, 'C'), Item(2, 'E'), Item(3, 'G')]) == [Item(3, 'G'), Item(2, 'E'), Item(2, 'C'), Item(2, 'B'), Item(2, 'D'), Item(2, 'F'), Item(1, 'A')]
  {
    assert Reversed([Item(2, 'E'), Item(3, 'G')]) == [Item(3, 'G'), Item(2, 'E')];
    assert Reversed([Item(2, 'C'), Item(2, 'E'), Item(3, 'G')]) == [Item(3, 'G'), Item(2, 'E'), Item(2, 'C')];
    assert Reversed([Item(2, 'B'), Item(2, 'C'), Item(2, 'E'), Item(3, 'G')]) == [Item(3, 'G'), Item(2, 'E'), Item(2, 'C'), Item(2, 'B')];
    assert Reversed([Item(2, 'D'), Item(2, 'B'), Item(2, 'C'), Item(2, 'E'), Item(3, 'G')]) == [Item(3, 'G'), Item(2, 'E'), Item(2, 'C'), Item(2, 'B'), Item(2, 'D')];
    assert Reversed([Item(2, 'F'), Item(2, 'D'), Item(2, 'B'), Item(2, 'C'), Item(2, 'E'), Item(3, 'G')]) == [Item(3, 'G'), Item(2, 'E'), Item(2, 'C'), Item(2, 'B'), Item(2, 'D'), Item(2, 'F')];
  }

  /** The lists the tests page through can be paged through completely,
      except the one whose run of equal weights outgrows the ceiling. */
  lemma IteratorCoverable()
    ensures Coverable([Item(5, 'E'), Item(4, 'D'), Item(3, 'C'), Item(2, 'B'), Item(1, 'A')], None)
  {
  }

  lemma RepeatedWeightsCoverable()
    ensures Coverable([Item(4, 'E'), Item(3, 'D'), Item(2, 'C'), Item(2, 'B'), Item(1, 'A')], None)
  {
  }

  lemma RepeatsPastLimitCoverable()
    ensures Coverable([Item(3, 'F'), Item(2, 'D'), Item(2, 'B'), Item(2, 'C'), Item(2, 'E'), Item(1, 'A')], None)
  {
  }

  lemma CeilingSufficesCoverable()
    ensures Coverable([Item(3, 'E'), Item(2, 'C'), Item(2, 'B'), Item(2, 'D'), Item(1, 'A')], Some(4))
  {
  }

  lemma FewerThanLimitCoverable()
    ensures Coverable([Item(2, 'B'), Item(1, 'A')], None)
  {
  }

  lemma CeilingTooLowNotCoverable()
    ensures !Coverable([Item(3, 'G'), Item(2, 'E'), Item(2, 'C'), Item(2, 'B'), Item(2, 'D'), Item(2, 'F'), Item(1, 'A')], Some(4))
  {
    assert TooLow[1].param == TooLow[5].param;
  }

  const G := Item(3, 'G')
  const E := Item(2, 'E')
  const C := Item(2, 'C')
  const B := Item(2, 'B')
  const D := Item(2, 'D')
  const F := Item(2, 'F')
  const A := Item(1, 'A')
  const TooLow: seq<Item> := [G, E, C, B, D, F, A]

  /** Below the top weight the store holds every item but G. */
  lemma UpToTwo()
    ensures Filtered(TooLow, Some(2)) == [E, C, B, D, F, A]
  {
    KeepAll(TooLow[1..], Below(Some(2)));
  }

  lemma FirstBatch()
    ensures Provided(TooLow, None, 3) == [G, E, C]
  {
    UnfilteredWithoutParameter(TooLow);
  }

  lemma SecondBatch()
    ensures Provided(TooLow, Some(2), 3) == [E, C, B]
  {
    UpToTwo();
  }

  lemma WiderBatch()
    ensures Provided(TooLow, Some(2), 4) == [E, C, B, D]
  {
    UpToTwo();
  }

  const S0 := Start(3, Some(4))
  const S1 := State(3, 3, Some(2), Some(Descending), Some(4), [G, E, C], [G, E, C])
  const S2 := State(3, 3, Some(2), Some(Descending), Some(4), [B], [G, E, C, B])
  const S3 := S2.(actualLimit := 4)
  const S4 := State(3, 3, Some(2), Some(Descending), Some(4), [B, D], [G, E, C, B, D])
  const S5 := S4.(actualLimit := 4)

  lemma TooLowDistinct()
    ensures Distinct(TooLow)
  {
  }

  /** The unseen part of the batch TooLow[j..e] once TooLow[..k] is seen. */
  lemma Novel(j: int, k: int, e: int)
    requires 0 <= j <= k <= 7 && j <= e <= 7
    ensures Unseen(TooLow[j..e], TooLow[..k]) == if e <= k then [] else TooLow[k..e]
  {
    TooLowDistinct();
    UnseenWindow(TooLow, j, k, e);
  }

  lemma Step0()
    ensures Step(S0, TooLow) == (S1, false)
  {
    FirstBatch();
    Novel(0, 0, 3);
    assert TooLow[0..3] == [G, E, C] && TooLow[..0] == [];
    assert [] + [G, E, C] == [G, E, C];
    assert NextCursor([G, E, C], None, None) == (Some(2), Some(Descending));
  }

  /** The second batch brings B alone. */
  lemma SecondBatchNovel()
    ensures Unseen(Provided(TooLow, Some(2), 3), [G, E, C]) == [B]
  {
    SecondBatch();
    Novel(1, 3, 4);
    assert TooLow[1..4] == [E, C, B] && TooLow[..3] == [G, E, C] && TooLow[3..4] == [B];
  }

  lemma Step1()
    ensures Step(S1.(items := []), TooLow) == (S2, false)
  {
    SecondBatchNovel();
    assert [] + [B] == [B] && [G, E, C] + [B] == [G, E, C, B];
  }

  lemma Step2()
    ensures Step(S2, TooLow) == (S3, false)
  {
    SecondBatch();
    Novel(1, 4, 4);
    assert TooLow[1..4] == [E, C, B] && TooLow[..4] == [G, E, C, B];
    assert S2.items + [] == S2.items && S2.unique + [] == S2.unique;
  }

  /** The first batch of four brings D alone. */
  lemma WiderBatchNovel()
    ensures Unseen(Provided(TooLow, Some(2), 4), [G, E, C, B]) == [D]
  {
    WiderBatch();
    Novel(1, 4, 5);
    assert TooLow[1..5] == [E, C, B, D] && TooLow[..4] == [G, E, C, B] && TooLow[4..5] == [D];
  }

  lemma Step3()
    ensures Step(S3, TooLow) == (S4, false)
  {
    WiderBatchNovel();
    assert [B] + [D] == [B, D] && [G, E, C, B] + [D] == [G, E, C, B, D];
  }

  lemma Step4()
    ensures Step(S4, TooLow) == (S5, false)
  {
    SecondBatch();
    Novel(1, 5, 4);
    assert TooLow[1..4] == [E, C, B] && TooLow[..5] == [G, E, C, B, D];
    assert S4.items + [] == S4.items && S4.unique + [] == S4.unique;
  }

  lemma Step5(s: State)
    requires s == S5 || s == S5.(items := [])
    ensures Step(s, TooLow) == (s, true)
  {
    WiderBatch();
    Novel(1, 5, 5);
    assert TooLow[1..5] == [E, C, B, D] && TooLow[..5] == [G, E, C, B, D];
    assert s.items + [] == s.items && s.unique + [] == s.unique;
  }

  lemma FirstRound()
    ensures Round(S0, TooLow) == S1
  {
    Step0();
    RoundUnfolds(S0, TooLow);
  }

  lemma SecondRound()
    ensures Round(S1.(items := []), TooLow) == S5
  {
    Step1();
    RoundUnfolds(S1.(items := []), TooLow);
    Step2();
    RoundUnfolds(S2, TooLow);
    Step3();
    RoundUnfolds(S3, TooLow);
    Step4();
    RoundUnfolds(S4, TooLow);
    Step5(S5);
    RoundUnfolds(S5, TooLow);
  }

  lemma LastRound()
    ensures Round(S5.(items := []), TooLow) == S5.(items := [])
  {
    Step5(S5.(items := []));
    RoundUnfolds(S5.(items := []), TooLow);
  }

  lemma SessionEnd()
    ensures Drain(S5.(items := []), TooLow) == ([], S5.(items := []))
  {
    LastRound();
    DrainFetches(S5.(items := []), TooLow);
  }

  lemma SessionAfterFirstBatch()
    ensures Drain(S1.(items := []), TooLow) == ([B, D], S5.(items := []))
  {
    SecondRound();
    DrainFetches(S1.(items := []), TooLow);
    DrainBuffer(S5, TooLow);
    SessionEnd();
    assert [B, D] + [] == [B, D];
  }

  lemma TooLowSession()
    ensures Drain(S0, TooLow) == ([G, E, C, B, D], S5.(items := []))
  {
    FirstRound();
    DrainFetches(S0, TooLow);
    DrainBuffer(S1, TooLow);
    SessionAfterFirstBatch();
    assert [G, E, C] + [B, D] == [G, E, C, B, D];
  }

  // Coverable is sufficient for a whole session, not necessary: two
  // stores outside it that still come out whole.

  /** The store of limitLargerThanNumberOfItems(), [B, A]. */
  const Pair: seq<Item> := [Item(2, 'B'), Item(1, 'A')]
  const R0 := Start(3, Some(1))
  const R1 := State(3, 3, Some(1), Some(Descending), Some(1), Pair, Pair)

  lemma PairFirstStep()
    ensures Step(R0, Pair) == (R1, false)
  {
    UnfilteredWithoutParameter(Pair);
    assert Provided(Pair, None, 3) == Pair;
    assert Unseen(Pair, []) == Pair;
    assert [] + Pair == Pair;
  }

  lemma PairAtRest(s: State)
    requires s == R1 || s == R1.(items := [])
    ensures Step(s, Pair) == (s, true)
  {
    assert Provided(Pair, Some(1), 3) == [Item(1, 'A')];
    assert Unseen([Item(1, 'A')], Pair) == [];
    assert s.items + [] == s.items && s.unique + [] == s.unique;
  }

  /** Under a ceiling of 1, which Coverable excludes, [B, A] still comes
      out whole: the first batch of three takes both items. */
  lemma CeilingOfOneSuffices()
    ensures !Coverable(Pair, Some(1))
    ensures Drain(R0, Pair).0 == Pair
  {
    PairFirstStep();
    RoundUnfolds(R0, Pair);
    PairAtRest(R1);
    RoundAtRest(R1, Pair);
    DrainFetches(R0, Pair);
    DrainBuffer(R1, Pair);
    PairAtRest(R1.(items := []));
    RoundAtRest(R1.(items := []), Pair);
    DrainFetches(R1.(items := []), Pair);
    assert Pair + [] == Pair;
  }

  /** An ascending store, [A, B], which Coverable excludes. */
  const Rising: seq<Item> := [Item(1, 'A'), Item(2, 'B')]
  const U0 := Start(3, None)
  const U1 := State(3, 3, Some(1), Some(Ascending), None, Rising, Rising)

  lemma RisingFirstStep()
    ensures Step(U0, Rising) == (U1, false)
  {
    UnfilteredWithoutParameter(Rising);
    assert Provided(Rising, None, 3) == Rising;
    assert Unseen(Rising, []) == Rising;
    assert [] + Rising == Rising;
  }

  lemma RisingAtRest(s: State)
    requires s == U1 || s == U1.(items := [])
    ensures Step(s, Rising) == (s, true)
  {
    assert Provided(Rising, Some(1), 3) == [Item(1, 'A')];
    assert Unseen([Item(1, 'A')], Rising) == [];
    assert s.items + [] == s.items && s.unique + [] == s.unique;
  }

  /** The ascending store still comes out whole: the first batch takes
      both items, and the guessed order is ascending. */
  lemma UnsortedSuffices()
    ensures !Coverable(Rising, None)
    ensures Drain(U0, Rising).0 == Rising
  {
    RisingFirstStep();
    RoundUnfolds(U0, Rising);
    RisingAtRest(U1);
    RoundAtRest(U1, Rising);
    DrainFetches(U0, Rising);
    DrainBuffer(U1, Rising);
    RisingAtRest(U1.(items := []));
    RoundAtRest(U1.(items := []), Rising);
    DrainFetches(U1.(items := []), Rising);
    assert Rising + [] == Rising;
  }
}
