/**
 * The home screen's view model: the loaded product list, the search query and
 * the list filtered by it. The product stream is delivered to the view model
 * one emission at a time through `OnProductsLoaded`, or ends with
 * `OnProductsFailed`.
 */
module Home {
  import opened Util
  import opened Text
  import opened ProductModel
  import Session

  datatype HomeUiState = HomeUiState(
    products: seq<Product>,
    filteredProducts: seq<Product>,
    searchQuery: string,
    isLoading: bool,
    error: Option<string>
  )

  /** `HomeUiState()` with every default. */
  const DefaultState := HomeUiState([], [], "", false, None)

  /** Brand, model or storage contains the query, ignoring case. */
  predicate Matches(p: Product, q: string) {
    ContainsIgnoreCase(p.brand, q) || ContainsIgnoreCase(p.model, q) || ContainsIgnoreCase(p.storage, q)
  }

  /** `list.filter { it matches q }`. */
  function KeepMatching(list: seq<Product>, q: string): (r: seq<Product>)
    ensures |r| <= |list|
  {
    if list == [] then [] else (if Matches(list[0], q) then [list[0]] else []) + KeepMatching(list[1..], q)
  }

  /** The search filter: a blank query keeps everything. */
  function Filter(list: seq<Product>, q: string): (r: seq<Product>)
    ensures |r| <= |list|
    ensures forall p :: p in r ==> p in list
  {
    if IsBlank(q) then list else KeepMatchingMembers(list, q); KeepMatching(list, q)
  }

  /** `a` is `b` with some elements removed, the rest in their original order. */
  predicate IsSubsequence<T(==)>(a: seq<T>, b: seq<T>)
    decreases |b|
  {
    a == [] || (b != [] && if a[0] == b[0] then IsSubsequence(a[1..], b[1..]) else IsSubsequence(a, b[1..]))
  }

  /** A blank query leaves the list as it is. */
  lemma FilterBlankIsIdentity(list: seq<Product>, q: string)
    requires IsBlank(q)
    ensures Filter(list, q) == list
  {
  }

  /** Exactly the matching products are kept. */
  lemma {:induction false} KeepMatchingMembers(list: seq<Product>, q: string)
    ensures forall p :: p in KeepMatching(list, q) <==> p in list && Matches(p, q)
  {
    if list != [] {
      KeepMatchingMembers(list[1..], q);
      assert list == [list[0]] + list[1..];
    }
  }

  lemma {:induction false} KeepMatchingIsSubsequence(list: seq<Product>, q: string)
    ensures IsSubsequence(KeepMatching(list, q), list)
  {
    if list != [] {
      KeepMatchingIsSubsequence(list[1..], q);
      var rest := KeepMatching(list[1..], q);
      if !Matches(list[0], q) {
        assert KeepMatching(list, q) == rest;
        if rest != [] {
          KeepMatchingMembers(list[1..], q);
          assert rest[0] in rest;
          assert rest[0] != list[0];
        }
      }
    }
  }

  /** Filtering keeps the relative order of the products it keeps. */
  lemma FilterIsSubsequence(list: seq<Product>, q: string)
    ensures IsSubsequence(Filter(list, q), list)
  {
    if IsBlank(q) {
      SubsequenceReflexive(list);
    } else {
      KeepMatchingIsSubsequence(list, q);
    }
  }

  lemma {:induction false} SubsequenceReflexive<T>(s: seq<T>)
    ensures IsSubsequence(s, s)
  {
    if s != [] {
      SubsequenceReflexive(s[1..]);
    }
  }

  /**
   * For a non-blank query, a product is in the result exactly when it is in
   * the list and its brand, model or storage contains the query ignoring case.
   */
  lemma FilterSoundAndComplete(list: seq<Product>, q: string)
    requires !IsBlank(q)
    ensures forall p :: p in Filter(list, q) <==> p in list && Matches(p, q)
  {
    KeepMatchingMembers(list, q);
  }

  /** Filtering a concatenation filters each part. */
  lemma {:induction false} KeepMatchingAppend(a: seq<Product>, b: seq<Product>, q: string)
    ensures KeepMatching(a + b, q) == KeepMatching(a, q) + KeepMatching(b, q)
  {
    if a == [] {
      assert a + b == b;
    } else {
      var head := if Matches(a[0], q) then [a[0]] else [];
      assert (a + b)[0] == a[0];
      assert (a + b)[1..] == a[1..] + b;
      assert KeepMatching(a + b, q) == head + KeepMatching(a[1..] + b, q);
      KeepMatchingAppend(a[1..], b, q);
      assert KeepMatching(a, q) == head + KeepMatching(a[1..], q);
    }
  }

  lemma {:induction false} KeepMatchingOfMatching(list: seq<Product>, q: string)
    requires forall p :: p in list ==> Matches(p, q)
    ensures KeepMatching(list, q) == list
  {
    if list != [] {
      KeepMatchingOfMatching(list[1..], q);
      assert list == [list[0]] + list[1..];
    }
  }

  /** Filtering twice with the same query is the same as filtering once. */
  lemma FilterIdempotent(list: seq<Product>, q: string)
    ensures Filter(Filter(list, q), q) == Filter(list, q)
  {
    if !IsBlank(q) {
      KeepMatchingMembers(list, q);
      KeepMatchingOfMatching(KeepMatching(list, q), q);
    }
  }

  lemma {:induction false} KeepMatchingUpperQuery(list: seq<Product>, q: string)
    ensures KeepMatching(list, q) == KeepMatching(list, UpperAll(q))
  {
    if list != [] {
      var p := list[0];
      ContainsIgnoreCaseOfUpperQuery(p.brand, q);
      ContainsIgnoreCaseOfUpperQuery(p.model, q);
      ContainsIgnoreCaseOfUpperQuery(p.storage, q);
      KeepMatchingUpperQuery(list[1..], q);
    }
  }

  /** The case of the search query does not matter. */
  lemma FilterIgnoresQueryCase(list: seq<Product>, q: string)
    ensures Filter(list, q) == Filter(list, UpperAll(q))
  {
    UpperAllKeepsBlankness(q);
    KeepMatchingUpperQuery(list, q);
  }

  class HomeViewModel {
    var uiState: HomeUiState

    /** The filtered list is always the loaded list filtered by the current query. */
    ghost predicate Valid()
      reads this
    {
      uiState.filteredProducts == Filter(uiState.products, uiState.searchQuery)
    }

    /** Construction starts a load (`init { loadProducts() }`). */
    constructor ()
      ensures Valid()
      ensures uiState == DefaultState.(isLoading := true)
    {
      uiState := DefaultState.(isLoading := true);
    }

    /** `loadProducts()`, up to the first emission: loading, error cleared. */
    method LoadProducts()
      requires Valid()
      modifies this
      ensures Valid()
      ensures uiState == old(uiState).(isLoading := true, error := None)
    {
      uiState := uiState.(isLoading := true, error := None);
    }

    /** One emission `list` of the product stream, filtered with the current query. */
    method OnProductsLoaded(list: seq<Product>)
      modifies this
      ensures Valid()
      ensures uiState == old(uiState).(products := list, filteredProducts := Filter(list, old(uiState).searchQuery), isLoading := false)
    {
      uiState := uiState.(products := list, filteredProducts := Filter(list, uiState.searchQuery), isLoading := false);
    }

    /** The product stream failed with an exception whose localized message is `message`. */
    method OnProductsFailed(message: Option<string>)
      requires Valid()
      modifies this
      ensures Valid()
      ensures uiState == old(uiState).(isLoading := false, error := message)
    {
      uiState := uiState.(isLoading := false, error := message);
    }

    /** `onSearchQueryChanged(q)`: the loaded list is refiltered with the new query. */
    method OnSearchQueryChanged(q: string)
      modifies this
      ensures Valid()
      ensures uiState == old(uiState).(searchQuery := q, filteredProducts := Filter(old(uiState).products, q))
    {
      uiState := uiState.(searchQuery := q, filteredProducts := Filter(uiState.products, q));
    }

    /** `onLogout()`: the saved token is cleared (the identity provider's sign-out is not modelled). */
    method OnLogout(tokens: Session.TokenManager)
      modifies tokens
      ensures tokens.currentToken == None
    {
      tokens.ClearToken();
    }
  }
}
