/**
 * The carbon-credit marketplace (`marketplace`): a fixed catalogue of offset projects, a type
 * filter and a search box over it, and a shopping cart with a running total.
 */
module Marketplace {
  import opened Wrappers
  import opened Seqs
  import opened Text
  import opened Tables

  datatype CreditType = Forestry | RenewableEnergy | WaterConservation | SustainableAgriculture

  function TypeName(t: CreditType): string
  {
    match t
    case Forestry => "Forestal"
    case RenewableEnergy => "Energía Renovable"
    case WaterConservation => "Conservación de Agua"
    case SustainableAgriculture => "Agricultura Sostenible"
  }

  /** One carbon-credit project; the price is per credit. */
  datatype Credit = Credit(
    id: string, name: string, description: string, price: real, quantity: int,
    creditType: CreditType, location: string, certification: string)

  const IdOf := (c: Credit) => c.id

  /** The five projects on offer. */
  const Catalogue := [
    Credit("1", "Reforestación Amazónica",
           "Apoye la reforestación de la selva amazónica y compense su huella de carbono.",
           25.0, 1, Forestry, "Amazonas, Brasil", "Verified Carbon Standard (VCS)"),
    Credit("2", "Parque Eólico Patagonia",
           "Invierta en energía eólica limpia en la Patagonia argentina.",
           30.0, 1, RenewableEnergy, "Patagonia, Argentina", "Gold Standard"),
    Credit("3", "Conservación de Manglares",
           "Proteja los ecosistemas de manglares y su capacidad de captura de carbono.",
           20.0, 1, WaterConservation, "Sundarbans, Bangladesh", "Plan Vivo"),
    Credit("4", "Agricultura Regenerativa",
           "Apoye prácticas agrícolas que secuestran carbono en el suelo.",
           22.0, 1, SustainableAgriculture, "Pampa, Argentina", "Climate Action Reserve (CAR)"),
    Credit("5", "Planta Solar Atacama",
           "Contribuya al desarrollo de energía solar en el desierto de Atacama.",
           28.0, 1, RenewableEnergy, "Desierto de Atacama, Chile", "CDM (Clean Development Mechanism)")]

  /** The catalogue's ids are "1" to "5", so no two projects share one. */
  lemma CatalogueIdsDistinct()
    ensures |Catalogue| == 5
    ensures forall i :: 0 <= i < |Catalogue| ==> Catalogue[i].id == [DigitChar(i + 1)]
    ensures forall i, j :: 0 <= i < |Catalogue| && 0 <= j < |Catalogue| && i != j ==>
      Catalogue[i].id != Catalogue[j].id
  {
    CountingIds(Catalogue, IdOf);
    forall i, j | 0 <= i < |Catalogue| && 0 <= j < |Catalogue| && i != j
      ensures Catalogue[i].id != Catalogue[j].id
    {
      AscendingUnique(Catalogue, IdOf, i, j);
    }
  }

  // ---------------------------------------------------------------------------------------
  // The catalogue filter

  /** The type selector: "all" or one of the four types. */
  datatype TypeFilter = AllTypes | OfType(t: CreditType)

  predicate MatchesFilter(filter: TypeFilter, c: Credit)
  {
    filter == AllTypes || filter == OfType(c.creditType)
  }

  /** The lower-cased term occurs in the lower-cased name or description. */
  predicate MatchesSearch(term: string, c: Credit)
  {
    Contains(Lower(c.name), Lower(term)) || Contains(Lower(c.description), Lower(term))
  }

  predicate Shown(filter: TypeFilter, term: string, c: Credit)
  {
    MatchesFilter(filter, c) && MatchesSearch(term, c)
  }

  /** `filteredCredits`: the projects shown as cards, in catalogue order. */
  function FilteredCredits(catalogue: seq<Credit>, filter: TypeFilter, term: string): (r: seq<Credit>)
    ensures |r| <= |catalogue|
    ensures forall c :: c in r <==>
      c in catalogue && (filter == AllTypes || c.creditType == filter.t) &&
      (Contains(Lower(c.name), Lower(term)) || Contains(Lower(c.description), Lower(term)))
  {
    Filter(catalogue, c => Shown(filter, term, c))
  }

  /** With "all" selected and an empty search box, every project is shown. */
  lemma NoFilterShowsAll(catalogue: seq<Credit>)
    ensures FilteredCredits(catalogue, AllTypes, "") == catalogue
  {
    forall c | c in catalogue
      ensures Shown(AllTypes, "", c)
    {
      ContainsEmpty(Lower(c.name));
    }
    FilterAll(catalogue, c => Shown(AllTypes, "", c));
  }

  // ---------------------------------------------------------------------------------------
  // The cart

  function Price(c: Credit): real
  {
    c.price
  }

  /** `getTotalPrice`: the sum of the prices of the cart's entries, duplicates included. */
  function TotalPrice(cart: seq<Credit>): real
  {
    Sum(cart, Price)
  }

  /** Appending a credit raises the total by exactly its price. */
  lemma AddRaisesTotal(cart: seq<Credit>, c: Credit)
    ensures TotalPrice(cart + [c]) == TotalPrice(cart) + c.price
  {
    SumConcat(cart, [c], Price);
    assert [c][..0] == [];
  }

  /** Removing an id lowers the total by the price of every entry with that id. */
  lemma RemoveLowersTotal(cart: seq<Credit>, id: string)
    ensures TotalPrice(Delete(cart, IdOf, id)) == TotalPrice(cart) - TotalPrice(WithId(cart, IdOf, id))
    ensures |Delete(cart, IdOf, id)| == |cart| - |WithId(cart, IdOf, id)|
  {
    DeleteSum(cart, IdOf, id, Price);
    DeleteLength(cart, IdOf, id);
  }

  /** Removing works entry by entry, so the remaining entries keep their order. */
  lemma RemoveKeepsOrder(a: seq<Credit>, b: seq<Credit>, id: string)
    ensures Delete(a + b, IdOf, id) == Delete(a, IdOf, id) + Delete(b, IdOf, id)
  {
    DeleteConcat(a, b, IdOf, id);
  }

  /** Removing an id that is not in the cart changes nothing. */
  lemma RemoveMissingId(cart: seq<Credit>, id: string)
    requires forall c :: c in cart ==> c.id != id
    ensures Delete(cart, IdOf, id) == cart
  {
    DeleteMissing(cart, IdOf, id);
  }

  /**
   * Adding a credit and then removing its id drops every copy of it, the earlier ones too: the
   * cart is not restored when it already held that credit.
   */
  lemma AddThenRemove(cart: seq<Credit>, c: Credit)
    ensures Delete(cart + [c], IdOf, c.id) == Delete(cart, IdOf, c.id)
    ensures c in cart ==> |Delete(cart + [c], IdOf, c.id)| < |cart|
  {
    RemoveKeepsOrder(cart, [c], c.id);
    assert [c][..0] == [];
    assert Delete([c], IdOf, c.id) == [];
    if c in cart {
      RemoveLowersTotal(cart, c.id);
      assert c in WithId(cart, IdOf, c.id);
    }
  }

  /** With non-negative prices the total is never negative. */
  lemma TotalNonneg(cart: seq<Credit>)
    requires forall c :: c in cart ==> 0.0 <= c.price
    ensures 0.0 <= TotalPrice(cart)
  {
    SumNonneg(cart, Price);
  }

  /** What the cart sheet shows: the count on the button, and either the empty message or the total. */
  datatype CartView = CartView(count: nat, emptyMessage: bool, total: Option<real>)

  function ViewCart(cart: seq<Credit>): (v: CartView)
    ensures v.count == |cart|
    ensures v.emptyMessage <==> |cart| == 0
    ensures v.total.Some? <==> |cart| > 0
    ensures v.total.Some? ==> v.total.value == TotalPrice(cart)
  {
    CartView(|cart|, |cart| == 0, if |cart| > 0 then Some(TotalPrice(cart)) else None)
  }

  /** The page's state: the cart, the type filter and the search term. */
  class MarketplacePage {
    var cart: seq<Credit>
    var filter: TypeFilter
    var searchTerm: string

    constructor()
      ensures cart == [] && filter == AllTypes && searchTerm == ""
      ensures ViewCart(cart).emptyMessage
    {
      cart := [];
      filter := AllTypes;
      searchTerm := "";
    }

    /** The cards on show. */
    function Shown(): seq<Credit>
      reads this
    {
      FilteredCredits(Catalogue, filter, searchTerm)
    }

    method SetFilter(f: TypeFilter)
      modifies this
      ensures filter == f && cart == old(cart) && searchTerm == old(searchTerm)
    {
      filter := f;
    }

    method SetSearchTerm(term: string)
      modifies this
      ensures searchTerm == term && cart == old(cart) && filter == old(filter)
    {
      searchTerm := term;
    }

    /** `addToCart`: append, duplicates allowed. */
    method AddToCart(c: Credit)
      modifies this
      ensures cart == old(cart) + [c]
      ensures TotalPrice(cart) == old(TotalPrice(cart)) + c.price
      ensures !ViewCart(cart).emptyMessage
      ensures filter == old(filter) && searchTerm == old(searchTerm)
    {
      AddRaisesTotal(cart, c);
      cart := cart + [c];
    }

    /** `removeFromCart`: drop every entry with the id, keep the rest in order. */
    method RemoveFromCart(id: string)
      modifies this
      ensures cart == Delete(old(cart), IdOf, id)
      ensures forall c :: c in cart <==> c in old(cart) && c.id != id
      ensures TotalPrice(cart) == old(TotalPrice(cart)) - old(TotalPrice(WithId(cart, IdOf, id)))
      ensures filter == old(filter) && searchTerm == old(searchTerm)
    {
      RemoveLowersTotal(cart, id);
      cart := Delete(cart, IdOf, id);
    }
  }
}
