/**
 * `src/pages/Home.tsx`: the listing page's favourites, its pagination and the page reset when
 * a search starts.
 */
module Home {
  import opened Wrappers
  import opened Seqs
  import opened Types
  import PropertyCard
  import opened PropertySearch

  const PageSize: nat := 10

  // ---------------------------------------------------------------------------------------
  // Favourites

  predicate IsTenantUser(user: Option<User>) {
    user.Some? && user.value.userType == Tenant
  }

  /** `handleToggleFavorite`'s update of the favourite ids: nothing unless a tenant is signed
      in; adding appends (a repeat is kept); removing drops every occurrence. */
  function ToggleFavorite(user: Option<User>, favorites: seq<string>, propertyId: string, isFavorite: bool)
    : (r: seq<string>)
    ensures !IsTenantUser(user) ==> r == favorites
    ensures IsTenantUser(user) && isFavorite ==> r == favorites + [propertyId]
    ensures IsTenantUser(user) && !isFavorite ==>
      && r == RemoveAll(favorites, propertyId)
      && propertyId !in r && multiset(r) == multiset(favorites)[propertyId := 0]
  {
    if !IsTenantUser(user) then favorites
    else if isFavorite then favorites + [propertyId]
    else
      RemoveAllMultiset(favorites, propertyId);
      RemoveAll(favorites, propertyId)
  }

  function FavoriteToast(isFavorite: bool): string {
    if isFavorite then "Property added to favorites" else "Property removed from favorites"
  }

  /** `favoritePropertyIds.includes(property.id)`. */
  predicate IsFavorite(favorites: seq<string>, propertyId: string) {
    propertyId in favorites
  }

  /** A tenant's click on a card's heart flips that card's favourite state, and leaves every
      other card's state as it was. */
  lemma {:induction false} HeartClickFlipsFavorite(user: User, favorites: seq<string>, propertyId: string, other: string)
    requires user.userType == Tenant
    requires other != propertyId
    ensures var click := PropertyCard.HandleToggleFavorite(true, Some(user), true, propertyId,
      IsFavorite(favorites, propertyId));
      && click.Toggle?
      && var after := ToggleFavorite(Some(user), favorites, click.propertyId, click.favorite);
      && (IsFavorite(after, propertyId) <==> !IsFavorite(favorites, propertyId))
      && (IsFavorite(after, other) <==> IsFavorite(favorites, other))
  {
    var click := PropertyCard.HandleToggleFavorite(true, Some(user), true, propertyId,
      IsFavorite(favorites, propertyId));
    var after := ToggleFavorite(Some(user), favorites, click.propertyId, click.favorite);
    if !click.favorite {
      assert other in multiset(after) <==> other in multiset(favorites);
    }
  }

  /** Adding a listing that was not a favourite and then removing it restores the list. */
  lemma {:induction false} AddThenRemoveFavorite(user: User, favorites: seq<string>, propertyId: string)
    requires user.userType == Tenant && propertyId !in favorites
    ensures ToggleFavorite(Some(user), ToggleFavorite(Some(user), favorites, propertyId, true), propertyId, false) == favorites
  {
    AppendThenRemoveAll(favorites, propertyId);
  }

  // ---------------------------------------------------------------------------------------
  // Pagination

  /** `Math.ceil(count / 10)`. */
  function TotalPages(count: nat): (pages: nat)
    ensures (pages - 1) * PageSize < count <= pages * PageSize || (count == 0 && pages == 0)
  {
    (count + PageSize - 1) / PageSize
  }

  /** The pagination bar: hidden for one page or none; otherwise numbered buttons 1 to the
      total, with Previous disabled on the first page and Next on the last. */
  datatype Pagination = Hidden | Bar(pages: seq<nat>, previousDisabled: bool, nextDisabled: bool)

  function PaginationBar(currentPage: int, totalPages: nat): (p: Pagination)
    ensures p.Hidden? <==> totalPages <= 1
    ensures p.Bar? ==> |p.pages| == totalPages && forall i :: 0 <= i < |p.pages| ==> p.pages[i] == i + 1
    ensures p.Bar? ==> (p.previousDisabled <==> currentPage == 1) && (p.nextDisabled <==> currentPage == totalPages)
  {
    if totalPages <= 1 then Hidden
    else Bar(seq(totalPages, i requires 0 <= i < totalPages => i + 1), currentPage == 1, currentPage == totalPages)
  }

  /** Previous and Next, when enabled, keep a page within 1 to the total. */
  lemma {:induction false} PaginationStaysInRange(currentPage: int, totalPages: nat)
    requires 1 <= currentPage <= totalPages
    ensures var p := PaginationBar(currentPage, totalPages);
      p.Bar? ==> ((!p.previousDisabled ==> 1 <= currentPage - 1 <= totalPages) &&
                  (!p.nextDisabled ==> 1 <= currentPage + 1 <= totalPages))
  {
  }

  // ---------------------------------------------------------------------------------------
  // Search

  /** The parts of the page's state that a search touches. */
  datatype SearchState = SearchState(currentPage: int, activeFilters: Filters, isSearching: bool)

  /** What `handleSearch` sets before the simulated request: the filters, page 1, searching. */
  function StartSearch(state: SearchState, filters: Filters): (r: SearchState)
    ensures r.currentPage == 1 && r.activeFilters == filters && r.isSearching
  {
    SearchState(1, filters, true)
  }

  /** "Search completed" is shown only for a search with at least one filter. */
  function SearchToast(filters: Filters): (r: Option<string>)
    ensures r.Some? <==> |filters| > 0
  {
    if |filters| > 0 then Some("Search completed") else None
  }

  /** Whatever page was showing, a new search starts on the first page, which is always a
      page of the bar. */
  lemma {:induction false} SearchResetsToFirstPage(state: SearchState, filters: Filters, count: nat)
    requires count > 0
    ensures 1 <= StartSearch(state, filters).currentPage <= TotalPages(count)
    ensures PaginationBar(StartSearch(state, filters).currentPage, TotalPages(count)).Bar? ==>
      PaginationBar(StartSearch(state, filters).currentPage, TotalPages(count)).previousDisabled
  {
  }
}
