/**
 * The backend's `services.list` query (backend/trpc/routes/services/list/route.ts):
 * a fixed catalogue of five services, optionally narrowed to one category.
 */
module ServiceList {
  import opened Common

  datatype ListedService = ListedService(
    id: string, name: string, category: string, price: int, duration: int, description: string)

  /** The query's answer: the services, the fixed category list and the number of services. */
  datatype ListResponse = ListResponse(services: seq<ListedService>, categories: seq<string>, total: nat)

  const MockServices: seq<ListedService> := [
    ListedService("1", "Női hajvágás", Hair, 8000, 60, "Professzionális női hajvágás mosással és szárítással"),
    ListedService("2", "Férfi hajvágás", Hair, 5000, 30, "Modern férfi hajvágás"),
    ListedService("3", "Hajfestés", Hair, 12000, 120, "Teljes hajfestés professzionális termékekkel"),
    ListedService("4", "Manikűr", Nails, 4500, 45, "Klasszikus manikűr kezelés"),
    ListedService("5", "Gél lakk", Nails, 6000, 60, "Tartós gél lakk több száz színből választható")
  ]

  const Hair := "Fodrászat"
  const Nails := "Körmök"
  const Categories: seq<string> := [Hair, Nails, "Kozmetika", "Masszázs"]

  /** `services.filter(s => s.category === category)`. */
  function InCategory(services: seq<ListedService>, category: string): (r: seq<ListedService>)
    ensures |r| <= |services|
  {
    if services == [] then []
    else if services[0].category == category then [services[0]] + InCategory(services[1..], category)
    else InCategory(services[1..], category)
  }

  /** The filter keeps exactly the services of the category. */
  lemma {:induction false} InCategoryMembers(services: seq<ListedService>, category: string)
    ensures forall x :: x in InCategory(services, category) <==> x in services && x.category == category
  {
    if services != [] {
      InCategoryMembers(services[1..], category);
      assert services == [services[0]] + services[1..];
    }
  }

  /** The filter keeps the catalogue's order: it splits over a concatenation. */
  lemma {:induction false} InCategoryAppend(a: seq<ListedService>, b: seq<ListedService>, category: string)
    ensures InCategory(a + b, category) == InCategory(a, category) + InCategory(b, category)
  {
    if a == [] {
      assert a + b == b;
    } else {
      assert (a + b)[1..] == a[1..] + b;
      InCategoryAppend(a[1..], b, category);
    }
  }

  /** The query: with a category given and not empty (`input?.category` truthy) only that category's services. */
  function ListServices(category: Option<string>): (r: ListResponse)
    ensures r.total == |r.services| && r.categories == Categories
  {
    var services := if category.Some? && category.value != "" then InCategory(MockServices, category.value)
                    else MockServices;
    ListResponse(services, Categories, |services|)
  }

  /**
   * Without a category (or with an empty one) the whole catalogue; with one,
   * exactly the catalogue's services of that category.
   */
  lemma ListServicesMeaning(category: Option<string>)
    ensures category.None? || category.value == "" ==> ListServices(category).services == MockServices
    ensures category.Some? && category.value != "" ==>
              forall x :: x in ListServices(category).services <==> x in MockServices && x.category == category.value
  {
    if category.Some? {
      InCategoryMembers(MockServices, category.value);
    }
  }

  /** The catalogue: distinct ids, positive prices and durations, and every category on the fixed list. */
  lemma CatalogueWellFormed()
    ensures forall i, j :: 0 <= i < j < |MockServices| ==> MockServices[i].id != MockServices[j].id
    ensures forall i :: 0 <= i < |MockServices| ==>
              MockServices[i].price > 0 && MockServices[i].duration > 0 && MockServices[i].category in Categories
  {
  }

  /** One step of the filter, as the catalogue's lemmas below unfold it. */
  lemma InCategoryStep(services: seq<ListedService>, category: string)
    requires services != []
    ensures InCategory(services, category)
            == (if services[0].category == category then [services[0]] else []) + InCategory(services[1..], category)
  {
  }

  /** A category no service has filters everything out. */
  lemma {:induction false} NoneInCategory(services: seq<ListedService>, category: string)
    requires forall i :: 0 <= i < |services| ==> services[i].category != category
    ensures InCategory(services, category) == []
  {
    if services != [] {
      assert services[0].category != category;
      forall i | 0 <= i < |services| - 1 ensures services[1..][i].category != category {
        assert services[1..][i] == services[i + 1];
      }
      NoneInCategory(services[1..], category);
    }
  }

  /** The two categories the catalogue uses are different texts. */
  lemma CatalogueCategories()
    ensures MockServices[0].category == MockServices[1].category == MockServices[2].category == Hair
    ensures MockServices[3].category == MockServices[4].category == Nails
    ensures Hair != Nails
  {
    assert Hair[0] != Nails[0];
  }

  /** A block of services all in one category passes the filter whole. */
  lemma {:induction false} AllInCategory(services: seq<ListedService>, category: string)
    requires forall i :: 0 <= i < |services| ==> services[i].category == category
    ensures InCategory(services, category) == services
  {
    if services != [] {
      forall i | 0 <= i < |services| - 1 ensures services[1..][i].category == category {
        assert services[1..][i] == services[i + 1];
      }
      AllInCategory(services[1..], category);
      assert services == [services[0]] + services[1..];
    }
  }

  /** A list made of a block in the category followed by a block outside it filters to the first block. */
  lemma FilterBlocks(services: seq<ListedService>, k: nat, category: string)
    requires k <= |services|
    requires forall i :: 0 <= i < k ==> services[i].category == category
    requires forall i :: k <= i < |services| ==> services[i].category != category
    ensures InCategory(services, category) == services[..k]
  {
    var a, b := services[..k], services[k..];
    forall i | 0 <= i < |a| ensures a[i].category == category {
      assert a[i] == services[i];
    }
    forall i | 0 <= i < |b| ensures b[i].category != category {
      assert b[i] == services[k + i];
    }
    AllInCategory(a, category);
    NoneInCategory(b, category);
    assert a + b == services;
    InCategoryAppend(a, b, category);
    assert InCategory(services, category) == a + [];
  }

  /** A block outside the category followed by a block in it filters to the second block. */
  lemma {:induction false} NoneThenAll(a: seq<ListedService>, b: seq<ListedService>, category: string)
    requires forall i :: 0 <= i < |a| ==> a[i].category != category
    requires forall i :: 0 <= i < |b| ==> b[i].category == category
    ensures InCategory(a + b, category) == b
  {
    NoneInCategory(a, category);
    AllInCategory(b, category);
    InCategoryAppend(a, b, category);
    assert [] + b == b;
  }

  /** The same with the block outside the category first. */
  lemma FilterBlocksAfter(services: seq<ListedService>, k: nat, category: string)
    requires k <= |services|
    requires forall i :: 0 <= i < k ==> services[i].category != category
    requires forall i :: k <= i < |services| ==> services[i].category == category
    ensures InCategory(services, category) == services[k..]
  {
    var a, b := services[..k], services[k..];
    forall i | 0 <= i < |a| ensures a[i].category != category {
      assert a[i] == services[i];
    }
    forall i | 0 <= i < |b| ensures b[i].category == category {
      assert b[i] == services[k + i];
    }
    assert a + b == services;
    NoneThenAll(a, b, category);
  }

  /** The hair category lists the first three services, in catalogue order. */
  lemma HairServices()
    ensures ListServices(Some(Hair)).services == MockServices[..3]
    ensures ListServices(Some(Hair)).total == 3
  {
    CatalogueCategories();
    FilterBlocks(MockServices, 3, Hair);
  }

  /** The nail category lists the last two services, in catalogue order. */
  lemma NailServices()
    ensures ListServices(Some(Nails)).services == MockServices[3..]
    ensures ListServices(Some(Nails)).total == 2
  {
    CatalogueCategories();
    FilterBlocksAfter(MockServices, 3, Nails);
  }

  /** A category outside the catalogue, including the two listed ones no service has, gives an empty list. */
  lemma UnknownCategoryIsEmpty(category: string)
    requires category != "" && forall i :: 0 <= i < |MockServices| ==> MockServices[i].category != category
    ensures ListServices(Some(category)).services == [] && ListServices(Some(category)).total == 0
  {
    NoneInCategory(MockServices, category);
  }

  lemma EmptyListedCategories()
    ensures ListServices(Some("Kozmetika")).services == [] && ListServices(Some("Masszázs")).services == []
  {
    UnknownCategoryIsEmpty("Kozmetika");
    UnknownCategoryIsEmpty("Masszázs");
  }
}
