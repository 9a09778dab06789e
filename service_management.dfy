/**
 * The service catalogue screen (app/service-management.tsx): the category and
 * search filter, grouping into sections, the add/edit forms for services and
 * categories with their checks, the category-rename cascade, the rule that a
 * category still in use cannot be deleted, and the duration label.
 */
module ServiceManagement {
  import opened Common
  import opened Text
  import opened Salon

  /** What the screen shows: the catalogue to an admin, a no-access notice to anyone else. */
  datatype View = NoAccess | Catalogue

  /** The gate in front of the screen. */
  function ViewFor(user: Option<User>): (v: View)
    ensures v == Catalogue <==> user.Some? && user.value.role == Admin
  {
    if IsAdmin(user) then Catalogue else NoAccess
  }

  // ----- the listing -----

  /** The value of the category chips that stands for every category. */
  const AllCategories := "all"

  predicate CategoryMatches(s: Service, selected: string) {
    selected == AllCategories || s.category.id == selected
  }

  /** The name, or the description when there is one, contains the query, ignoring case. */
  predicate SearchMatches(s: Service, query: string) {
    var q := Lower(query);
    Contains(Lower(s.name), q) || (s.description.Some? && Contains(Lower(s.description.value), q))
  }

  predicate Listed(s: Service, selected: string, query: string) {
    CategoryMatches(s, selected) && SearchMatches(s, query)
  }

  /** `filteredServices`: the listed services, in their order. */
  function FilteredServices(services: seq<Service>, selected: string, query: string): (r: seq<Service>)
    ensures |r| <= |services|
    ensures forall x :: x in r <==> x in services && Listed(x, selected, query)
  {
    if services == [] then []
    else if Listed(services[0], selected, query) then [services[0]] + FilteredServices(services[1..], selected, query)
    else FilteredServices(services[1..], selected, query)
  }

  /** The listing filter distributes over concatenation, so it keeps order and repeats as `filter` does. */
  lemma {:induction false} FilteredServicesAppend(a: seq<Service>, b: seq<Service>, selected: string, query: string)
    ensures FilteredServices(a + b, selected, query) == FilteredServices(a, selected, query) + FilteredServices(b, selected, query)
  {
    if a == [] {
      assert a + b == b;
    } else {
      assert (a + b)[1..] == a[1..] + b;
      FilteredServicesAppend(a[1..], b, selected, query);
    }
  }

  /** With every category selected and no search, the whole catalogue is listed in order. */
  lemma {:induction false} UnfilteredListsAll(services: seq<Service>)
    ensures FilteredServices(services, AllCategories, "") == services
  {
    if services != [] {
      assert Lower("") == "";
      ContainsTrivial(Lower(services[0].name));
      UnfilteredListsAll(services[1..]);
      assert services == [services[0]] + services[1..];
    }
  }

  // ----- grouping into sections -----

  /** A section of the list: its heading and its services. */
  datatype Group = Group(title: string, data: seq<Service>)

  /** A section heading: the category's icon, a space, and its name. */
  function Title(c: ServiceCategory): string {
    c.icon + " " + c.name
  }

  /** `categories.find(c => c.id === id)`: the first category with that id. */
  function FindCategory(categories: seq<ServiceCategory>, id: string): (r: Option<ServiceCategory>)
    ensures r.Some? ==> r.value in categories && r.value.id == id
    ensures r.None? ==> forall i :: 0 <= i < |categories| ==> categories[i].id != id
  {
    if categories == [] then None
    else if categories[0].id == id then Some(categories[0])
    else FindCategory(categories[1..], id)
  }

  /** The category ids of `services`, each once, in the order they first occur. */
  function CategoryKeys(services: seq<Service>): seq<string> {
    if services == [] then []
    else
      var keys := CategoryKeys(services[..|services| - 1]);
      var id := services[|services| - 1].category.id;
      if id in keys then keys else keys + [id]
  }

  /** The services of category `id`, in their relative order. */
  function InCategory(services: seq<Service>, id: string): (r: seq<Service>)
    ensures |r| <= |services|
  {
    if services == [] then []
    else
      var rest := InCategory(services[..|services| - 1], id);
      if services[|services| - 1].category.id == id then rest + [services[|services| - 1]] else rest
  }

  /** One section per key whose category exists, in key order. */
  function GroupsFor(keys: seq<string>, services: seq<Service>, categories: seq<ServiceCategory>): seq<Group> {
    if keys == [] then []
    else
      var rest := GroupsFor(keys[..|keys| - 1], services, categories);
      var id := keys[|keys| - 1];
      var c := FindCategory(categories, id);
      if c.Some? then rest + [Group(Title(c.value), InCategory(services, id))] else rest
  }

  /** `groupedServices`: the sections of a listing. */
  function Grouped(services: seq<Service>, categories: seq<ServiceCategory>): seq<Group> {
    GroupsFor(CategoryKeys(services), services, categories)
  }

  /**
   * The two loops of `groupedServices`: the first fills a map from category id
   * to services, remembering the order in which ids were first seen; the second
   * turns each entry whose category exists into a section.
   */
  method GroupServices(filtered: seq<Service>, categories: seq<ServiceCategory>) returns (groups: seq<Group>)
    ensures groups == Grouped(filtered, categories)
  {
    var keys: seq<string> := [];
    var buckets: map<string, seq<Service>> := map[];
    var i := 0;
    while i < |filtered|
      invariant 0 <= i <= |filtered|
      invariant keys == CategoryKeys(filtered[..i])
      invariant forall k :: k in buckets <==> k in keys
      invariant forall k :: k in buckets ==> buckets[k] == InCategory(filtered[..i], k)
      invariant forall k :: k in buckets || InCategory(filtered[..i], k) == []
    {
      var s := filtered[i];
      var id := s.category.id;
      assert filtered[..i + 1][..i] == filtered[..i];
      if id !in buckets {
        keys := keys + [id];
        buckets := buckets[id := []];
      }
      buckets := buckets[id := buckets[id] + [s]];
      i := i + 1;
    }
    assert filtered[..i] == filtered;
    groups := [];
    var j := 0;
    while j < |keys|
      invariant 0 <= j <= |keys|
      invariant groups == GroupsFor(keys[..j], filtered, categories)
    {
      assert keys[..j + 1][..j] == keys[..j];
      var c := FindCategory(categories, keys[j]);
      if c.Some? {
        groups := groups + [Group(Title(c.value), buckets[keys[j]])];
      }
      j := j + 1;
    }
    assert keys[..j] == keys;
  }

  /** No category id is a key twice. */
  lemma {:induction false} CategoryKeysDistinct(services: seq<Service>)
    ensures forall i, j :: 0 <= i < j < |CategoryKeys(services)| ==> CategoryKeys(services)[i] != CategoryKeys(services)[j]
  {
    if services != [] {
      CategoryKeysDistinct(services[..|services| - 1]);
    }
  }

  /** The keys are exactly the category ids of the services. */
  lemma {:induction false} CategoryKeysMember(services: seq<Service>, id: string)
    ensures id in CategoryKeys(services) <==> exists i :: 0 <= i < |services| && services[i].category.id == id
  {
    if services != [] {
      var init := services[..|services| - 1];
      CategoryKeysMember(init, id);
      if exists i :: 0 <= i < |init| && init[i].category.id == id {
        var i :| 0 <= i < |init| && init[i].category.id == id;
        assert services[i] == init[i];
      }
      if exists i :: 0 <= i < |services| && services[i].category.id == id {
        var i :| 0 <= i < |services| && services[i].category.id == id;
        if i < |init| {
          assert init[i] == services[i];
        }
      }
    }
  }

  /** A section holds exactly the listed services of its category. */
  lemma {:induction false} InCategoryMembers(services: seq<Service>, id: string)
    ensures forall x :: x in InCategory(services, id) <==> x in services && x.category.id == id
  {
    if services != [] {
      var init := services[..|services| - 1];
      InCategoryMembers(init, id);
      assert services == init + [services[|services| - 1]];
    }
  }

  /** A section's filter distributes over concatenation, so a section keeps the listing's order. */
  lemma {:induction false} InCategoryAppend(a: seq<Service>, b: seq<Service>, id: string)
    ensures InCategory(a + b, id) == InCategory(a, id) + InCategory(b, id)
  {
    if b != [] {
      var init := b[..|b| - 1];
      assert b == init + [b[|b| - 1]];
      assert a + b == (a + init) + [b[|b| - 1]];
      assert (a + b)[..|a + b| - 1] == a + init;
      InCategoryAppend(a, init, id);
    } else {
      assert a + b == a;
    }
  }

  /** The section a key gives when its category exists. */
  predicate SectionOf(g: Group, k: string, services: seq<Service>, categories: seq<ServiceCategory>) {
    var c := FindCategory(categories, k);
    c.Some? && g == Group(Title(c.value), InCategory(services, k))
  }

  /** The sections for a key list are exactly those of the keys whose category exists. */
  lemma {:induction false} GroupsForMember(keys: seq<string>, services: seq<Service>, categories: seq<ServiceCategory>, g: Group)
    ensures g in GroupsFor(keys, services, categories) <==> exists k :: k in keys && SectionOf(g, k, services, categories)
  {
    if keys != [] {
      var init, last := keys[..|keys| - 1], keys[|keys| - 1];
      GroupsForMember(init, services, categories, g);
      if exists k :: k in init && SectionOf(g, k, services, categories) {
        var k :| k in init && SectionOf(g, k, services, categories);
        assert k in keys;
      }
      if SectionOf(g, last, services, categories) {
        assert last in keys;
      }
      if exists k :: k in keys && SectionOf(g, k, services, categories) {
        var k :| k in keys && SectionOf(g, k, services, categories);
        if k != last {
          var i :| 0 <= i < |keys| && keys[i] == k;
          assert init[i] == k;
        }
      }
    }
  }

  /** A service whose category exists appears in that category's section, under its heading. */
  lemma ServiceInItsGroup(services: seq<Service>, categories: seq<ServiceCategory>, x: Service, c: ServiceCategory)
    requires x in services && FindCategory(categories, x.category.id) == Some(c)
    ensures Group(Title(c), InCategory(services, x.category.id)) in Grouped(services, categories)
    ensures x in InCategory(services, x.category.id)
  {
    var i :| 0 <= i < |services| && services[i] == x;
    CategoryKeysMember(services, x.category.id);
    InCategoryMembers(services, x.category.id);
    var g := Group(Title(c), InCategory(services, x.category.id));
    assert SectionOf(g, x.category.id, services, categories);
    GroupsForMember(CategoryKeys(services), services, categories, g);
  }

  /** A service whose category is not in the category list is in no section. */
  lemma UnknownCategoryHidden(services: seq<Service>, categories: seq<ServiceCategory>, x: Service)
    requires FindCategory(categories, x.category.id).None?
    ensures forall g :: g in Grouped(services, categories) ==> x !in g.data
  {
    forall g | g in Grouped(services, categories) ensures x !in g.data {
      GroupsForMember(CategoryKeys(services), services, categories, g);
      var k :| k in CategoryKeys(services) && SectionOf(g, k, services, categories);
      InCategoryMembers(services, k);
    }
  }

  // ----- the service form -----

  /** The add/edit form's fields, as typed. */
  datatype ServiceForm = ServiceForm(name: string, price: string, duration: string, description: string, categoryId: string)

  /** `resetForm`: empty fields, and the first category preselected. */
  function EmptyServiceForm(categories: seq<ServiceCategory>): ServiceForm {
    ServiceForm("", "", "", "", if categories == [] then "" else categories[0].id)
  }

  /** `openEditModal`: the form filled in from a service, numbers printed in decimal. */
  function ServiceFormOf(s: Service): ServiceForm {
    ServiceForm(s.name, IntToString(s.price), IntToString(s.duration),
                if s.description.Some? then s.description.value else "", s.category.id)
  }

  /** The result of the checks of `handleAddService` and `handleUpdateService`, in the order they are made. */
  datatype ServiceCheck =
    | MissingFields | BadPrice | BadDuration | UnknownCategory
    | Valid(price: int, duration: int, category: ServiceCategory)

  /** Neither `isNaN(n)` nor `n <= 0`. */
  predicate PositiveNumber(s: string) {
    ParseInt(s).Num? && ParseInt(s).value > 0
  }

  predicate FieldsPresent(f: ServiceForm) {
    !IsBlank(f.name) && f.price != "" && f.duration != ""
  }

  /** What a passed check guarantees: positive numbers and a listed category. */
  predicate Acceptable(v: ServiceCheck, categories: seq<ServiceCategory>) {
    v.Valid? && v.price > 0 && v.duration > 0 && v.category in categories
  }

  /** The checks, first failure first. */
  function CheckService(f: ServiceForm, categories: seq<ServiceCategory>): ServiceCheck {
    if !FieldsPresent(f) then MissingFields
    else if !PositiveNumber(f.price) then BadPrice
    else if !PositiveNumber(f.duration) then BadDuration
    else
      var c := FindCategory(categories, f.categoryId);
      if c.None? then UnknownCategory else Valid(ParseInt(f.price).value, ParseInt(f.duration).value, c.value)
  }

  /**
   * A form passes exactly when every check passes; a missing field is reported
   * before anything else; a passed check gives positive numbers and the chosen
   * category from the list.
   */
  lemma CheckServiceMeaning(f: ServiceForm, categories: seq<ServiceCategory>)
    ensures CheckService(f, categories).Valid? <==>
      FieldsPresent(f) && PositiveNumber(f.price) && PositiveNumber(f.duration) && FindCategory(categories, f.categoryId).Some?
    ensures CheckService(f, categories) == MissingFields <==> !FieldsPresent(f)
    ensures CheckService(f, categories).Valid? ==>
      Acceptable(CheckService(f, categories), categories) && CheckService(f, categories).category.id == f.categoryId
  {
  }

  /** A passed check carries the numbers `parseFloat` and `parseInt` read from the form. */
  lemma CheckServiceReads(f: ServiceForm, categories: seq<ServiceCategory>)
    requires CheckService(f, categories).Valid?
    ensures ParseInt(f.price) == Num(CheckService(f, categories).price)
    ensures ParseInt(f.duration) == Num(CheckService(f, categories).duration)
  {
  }

  /** `formData.description.trim() || undefined`. */
  function SavedDescription(f: ServiceForm): (r: Option<string>)
    ensures r.None? <==> Trim(f.description) == []
    ensures r.Some? ==> r.value == Trim(f.description)
  {
    var d := Trim(f.description);
    if d == "" then None else Some(d)
  }

  /** `service-${Date.now()}`. */
  function ServiceIdAt(now: int): string {
    "service-" + IntToString(now)
  }

  /** The service `handleAddService` appends. */
  function NewService(f: ServiceForm, v: ServiceCheck, id: string): Service
    requires v.Valid?
  {
    Service(id, Trim(f.name), v.category, v.price, v.duration, SavedDescription(f))
  }

  /** `{...editingService, name, category, price, duration, description}`. */
  function EditedService(editing: Service, f: ServiceForm, v: ServiceCheck): Service
    requires v.Valid?
  {
    editing.(name := Trim(f.name), category := v.category, price := v.price, duration := v.duration,
             description := SavedDescription(f))
  }

  /** `services.map(s => s.id === id ? updated : s)`. */
  function ReplaceService(services: seq<Service>, id: string, updated: Service): (r: seq<Service>)
    ensures |r| == |services|
    ensures forall i :: 0 <= i < |services| ==> r[i] == if services[i].id == id then updated else services[i]
  {
    if services == [] then []
    else [if services[0].id == id then updated else services[0]] + ReplaceService(services[1..], id, updated)
  }

  /** `services.filter(s => s.id !== id)`; the same filter as `Clients.Deleted`, over services. */
  function RemoveService(services: seq<Service>, id: string): (r: seq<Service>)
    ensures |r| <= |services|
    ensures forall x :: x in r <==> x in services && x.id != id
  {
    if services == [] then []
    else if services[0].id == id then RemoveService(services[1..], id)
    else [services[0]] + RemoveService(services[1..], id)
  }

  /** Removing an id that no service has changes nothing. */
  lemma {:induction false} RemoveUnknownService(services: seq<Service>, id: string)
    requires forall i :: 0 <= i < |services| ==> services[i].id != id
    ensures RemoveService(services, id) == services
  {
    if services != [] {
      RemoveUnknownService(services[1..], id);
      assert services == [services[0]] + services[1..];
    }
  }

  // ----- the category form -----

  datatype CategoryForm = CategoryForm(name: string, icon: string)

  const EmptyCategoryForm := CategoryForm("", "")

  /** The check of `handleAddCategory` and `handleUpdateCategory`. */
  predicate CategoryFormFilled(f: CategoryForm) {
    !IsBlank(f.name) && !IsBlank(f.icon)
  }

  /** `category-${Date.now()}`. */
  function CategoryIdAt(now: int): string {
    "category-" + IntToString(now)
  }

  function NewCategory(f: CategoryForm, id: string): ServiceCategory {
    ServiceCategory(id, Trim(f.name), Trim(f.icon))
  }

  /** `{...editingCategory, name, icon}`: same id, new name and icon. */
  function EditedCategory(editing: ServiceCategory, f: CategoryForm): (c: ServiceCategory)
    ensures c.id == editing.id
  {
    editing.(name := Trim(f.name), icon := Trim(f.icon))
  }

  /** `categories.map(c => c.id === id ? updated : c)`; the same replacement as `ReplaceService`, over categories. */
  function RenameCategory(categories: seq<ServiceCategory>, id: string, updated: ServiceCategory): (r: seq<ServiceCategory>)
    ensures |r| == |categories|
    ensures forall i :: 0 <= i < |categories| ==> r[i] == if categories[i].id == id then updated else categories[i]
  {
    if categories == [] then []
    else [if categories[0].id == id then updated else categories[0]] + RenameCategory(categories[1..], id, updated)
  }

  /** The cascade: every service of category `id` gets the updated category record. */
  function Recategorize(services: seq<Service>, id: string, updated: ServiceCategory): (r: seq<Service>)
    ensures |r| == |services|
    ensures forall i :: 0 <= i < |services| ==>
      r[i] == if services[i].category.id == id then services[i].(category := updated) else services[i]
  {
    if services == [] then []
    else
      [if services[0].category.id == id then services[0].(category := updated) else services[0]]
      + Recategorize(services[1..], id, updated)
  }

  /** `categories.filter(c => c.id !== id)`. */
  function RemoveCategory(categories: seq<ServiceCategory>, id: string): (r: seq<ServiceCategory>)
    ensures |r| <= |categories|
    ensures forall c :: c in r <==> c in categories && c.id != id
  {
    if categories == [] then []
    else if categories[0].id == id then RemoveCategory(categories[1..], id)
    else [categories[0]] + RemoveCategory(categories[1..], id)
  }

  /** `servicesInCategory.length > 0`. */
  predicate CategoryInUse(services: seq<Service>, id: string) {
    |InCategory(services, id)| > 0
  }

  /** A category is in use exactly when some service carries its id. */
  lemma CategoryInUseIff(services: seq<Service>, id: string)
    ensures CategoryInUse(services, id) <==> exists i :: 0 <= i < |services| && services[i].category.id == id
  {
    InCategoryMembers(services, id);
    var r := InCategory(services, id);
    if |r| > 0 {
      assert r[0] in r;
    } else {
      forall i | 0 <= i < |services| ensures services[i].category.id != id {
        assert services[i] !in r;
      }
    }
  }

  // ----- invariants of the catalogue -----

  /** Every service carries a category record that is in the category list. */
  predicate Consistent(services: seq<Service>, categories: seq<ServiceCategory>) {
    forall i :: 0 <= i < |services| ==> services[i].category in categories
  }

  /** Every service has a positive price and a positive duration. */
  predicate Positive(services: seq<Service>) {
    forall i :: 0 <= i < |services| ==> services[i].price > 0 && services[i].duration > 0
  }

  /** A service built from a passed check: positive numbers and a listed category. */
  predicate Admissible(s: Service, categories: seq<ServiceCategory>) {
    s.price > 0 && s.duration > 0 && s.category in categories
  }

  /** Appending an admissible service keeps both invariants. */
  lemma AddServiceKeeps(services: seq<Service>, categories: seq<ServiceCategory>, s: Service)
    requires Consistent(services, categories) && Positive(services) && Admissible(s, categories)
    ensures Consistent(services + [s], categories) && Positive(services + [s])
  {
    var r := services + [s];
    forall i | 0 <= i < |r| ensures r[i].category in categories && r[i].price > 0 && r[i].duration > 0 {
      if i < |services| {
        assert r[i] == services[i];
      }
    }
  }

  /** Replacing a service by an admissible one keeps both invariants. */
  lemma UpdateServiceKeeps(services: seq<Service>, categories: seq<ServiceCategory>, id: string, s: Service)
    requires Consistent(services, categories) && Positive(services) && Admissible(s, categories)
    ensures Consistent(ReplaceService(services, id, s), categories) && Positive(ReplaceService(services, id, s))
  {
  }

  /** The service list after `handleAddService`. */
  function AfterAddService(services: seq<Service>, categories: seq<ServiceCategory>, f: ServiceForm, id: string): seq<Service> {
    var v := CheckService(f, categories);
    if v.Valid? then services + [NewService(f, v, id)] else services
  }

  /** The service list after `handleUpdateService` on `editing`. */
  function AfterUpdateService(services: seq<Service>, categories: seq<ServiceCategory>, editing: Service, f: ServiceForm): seq<Service> {
    var v := CheckService(f, categories);
    if v.Valid? then ReplaceService(services, editing.id, EditedService(editing, f, v)) else services
  }

  /**
   * Add appends exactly one admissible service, carrying the new id and the
   * trimmed name, after the untouched old list; a refused form changes nothing.
   */
  lemma AddServiceAppends(services: seq<Service>, categories: seq<ServiceCategory>, f: ServiceForm, id: string)
    ensures var r := AfterAddService(services, categories, f, id);
      if CheckService(f, categories).Valid? then
        |r| == |services| + 1 && r[..|services|] == services
        && r[|services|].id == id && r[|services|].name == Trim(f.name) && Admissible(r[|services|], categories)
      else r == services
  {
    CheckServiceMeaning(f, categories);
    var r := AfterAddService(services, categories, f, id);
    if CheckService(f, categories).Valid? {
      assert r[..|services|] == services;
    }
  }

  /**
   * Update touches only the services with the edited id, which become the
   * edited service; a refused form changes nothing.
   */
  lemma UpdateServiceOnlyThatId(services: seq<Service>, categories: seq<ServiceCategory>, editing: Service, f: ServiceForm, i: nat)
    requires i < |services|
    ensures |AfterUpdateService(services, categories, editing, f)| == |services|
    ensures services[i].id != editing.id ==> AfterUpdateService(services, categories, editing, f)[i] == services[i]
    ensures services[i].id == editing.id && CheckService(f, categories).Valid? ==>
      var r := AfterUpdateService(services, categories, editing, f)[i];
      r.id == editing.id && r.name == Trim(f.name) && Admissible(r, categories)
  {
    CheckServiceMeaning(f, categories);
  }

  /** `handleAddService` keeps both invariants. */
  lemma AfterAddServiceKeeps(services: seq<Service>, categories: seq<ServiceCategory>, f: ServiceForm, id: string)
    requires Consistent(services, categories) && Positive(services)
    ensures Consistent(AfterAddService(services, categories, f, id), categories)
    ensures Positive(AfterAddService(services, categories, f, id))
  {
    var v := CheckService(f, categories);
    if v.Valid? {
      CheckServiceMeaning(f, categories);
      AddServiceKeeps(services, categories, NewService(f, v, id));
    }
  }

  /** `handleUpdateService` keeps both invariants. */
  lemma AfterUpdateServiceKeeps(services: seq<Service>, categories: seq<ServiceCategory>, editing: Service, f: ServiceForm)
    requires Consistent(services, categories) && Positive(services)
    ensures Consistent(AfterUpdateService(services, categories, editing, f), categories)
    ensures Positive(AfterUpdateService(services, categories, editing, f))
  {
    var v := CheckService(f, categories);
    if v.Valid? {
      CheckServiceMeaning(f, categories);
      UpdateServiceKeeps(services, categories, editing.id, EditedService(editing, f, v));
    }
  }

  /** Deleting a service keeps both invariants. */
  lemma DeleteServiceKeeps(services: seq<Service>, categories: seq<ServiceCategory>, id: string)
    requires Consistent(services, categories) && Positive(services)
    ensures Consistent(RemoveService(services, id), categories) && Positive(RemoveService(services, id))
  {
    var r := RemoveService(services, id);
    forall i | 0 <= i < |r| ensures r[i].category in categories && r[i].price > 0 && r[i].duration > 0 {
      assert r[i] in services;
    }
  }

  /** Adding a category keeps the services consistent. */
  lemma AddCategoryKeeps(services: seq<Service>, categories: seq<ServiceCategory>, c: ServiceCategory)
    requires Consistent(services, categories)
    ensures Consistent(services, categories + [c])
  {
  }

  /** The rename cascade keeps the services consistent with the renamed list, and keeps their prices and durations. */
  lemma UpdateCategoryKeeps(services: seq<Service>, categories: seq<ServiceCategory>, updated: ServiceCategory)
    requires Consistent(services, categories)
    ensures Consistent(Recategorize(services, updated.id, updated), RenameCategory(categories, updated.id, updated))
    ensures Positive(services) ==> Positive(Recategorize(services, updated.id, updated))
  {
    var rs, rc := Recategorize(services, updated.id, updated), RenameCategory(categories, updated.id, updated);
    forall i | 0 <= i < |rs| ensures rs[i].category in rc {
      var k :| 0 <= k < |categories| && categories[k] == services[i].category;
      assert rc[k] == rs[i].category;
    }
  }

  /** Deleting a category that no service uses keeps the services consistent. */
  lemma DeleteCategoryKeeps(services: seq<Service>, categories: seq<ServiceCategory>, id: string)
    requires Consistent(services, categories) && !CategoryInUse(services, id)
    ensures Consistent(services, RemoveCategory(categories, id))
  {
    CategoryInUseIff(services, id);
  }

  /** The catalogue's category records are the ones the update cascade rewrites: only those of that id change. */
  lemma RecategorizeOnlyThatCategory(services: seq<Service>, id: string, updated: ServiceCategory, i: nat)
    requires i < |services|
    ensures Recategorize(services, id, updated)[i].category == if services[i].category.id == id then updated else services[i].category
    ensures Recategorize(services, id, updated)[i].(category := services[i].category) == services[i]
  {
  }

  // ----- saving an unedited service -----

  /** A service the edit form can show without loss: trimmed name, trimmed non-empty description. */
  predicate FormFaithfulService(s: Service) {
    && !IsBlank(s.name) && Trim(s.name) == s.name
    && (s.description.None? || (s.description.value != "" && Trim(s.description.value) == s.description.value))
  }

  /** The printed price and duration of a service read back as themselves. */
  lemma ServiceNumbersParse(s: Service)
    ensures ParseInt(ServiceFormOf(s).price) == Num(s.price)
    ensures ParseInt(ServiceFormOf(s).duration) == Num(s.duration)
    ensures ServiceFormOf(s).price != "" && ServiceFormOf(s).duration != ""
  {
    PrintedNumberParses(s.price);
    PrintedNumberParses(s.duration);
  }

  /** The edit form of a faithful service writes back its own name and description. */
  lemma ServiceTextsSurvive(s: Service)
    requires FormFaithfulService(s)
    ensures Trim(ServiceFormOf(s).name) == s.name && !IsBlank(ServiceFormOf(s).name)
    ensures SavedDescription(ServiceFormOf(s)) == s.description
  {
    if s.description.None? {
      assert ServiceFormOf(s).description == "";
    }
  }

  /** Saving the unedited form of a valid, faithful service whose category is listed first gives the service back. */
  lemma EditResaveUnchanged(s: Service, categories: seq<ServiceCategory>)
    requires FormFaithfulService(s) && s.price > 0 && s.duration > 0
    requires FindCategory(categories, s.category.id) == Some(s.category)
    ensures CheckService(ServiceFormOf(s), categories) == Valid(s.price, s.duration, s.category)
    ensures EditedService(s, ServiceFormOf(s), Valid(s.price, s.duration, s.category)) == s
  {
    ServiceNumbersParse(s);
    ServiceTextsSurvive(s);
  }

  // ----- the duration label -----

  /** `formatDuration`: hours and minutes from an hour on, plain minutes below. */
  function FormatDuration(d: int): string {
    var hours := d / 60;
    var minutes := JsRemainder(d, 60);
    if hours > 0 then IntToString(hours) + "ó " + IntToString(minutes) + "p"
    else IntToString(d) + " perc"
  }

  /** From an hour on the label shows whole hours and the minutes left over; below an hour, all the minutes. */
  lemma FormatDurationSplits(d: int)
    ensures d >= 60 ==> exists h, m :: 0 <= m < 60 && h >= 1 && d == 60 * h + m
                                      && FormatDuration(d) == IntToString(h) + "ó " + IntToString(m) + "p"
    ensures d < 60 ==> FormatDuration(d) == IntToString(d) + " perc"
  {
    if d >= 60 {
      var h, m := d / 60, d % 60;
      assert FormatDuration(d) == IntToString(h) + "ó " + IntToString(m) + "p";
    }
  }

  // ----- the screen -----

  class ServiceManagementScreen {
    var services: seq<Service>
    var categories: seq<ServiceCategory>
    var form: ServiceForm
    var editingService: Option<Service>
    var showAddModal: bool
    var categoryForm: CategoryForm
    var editingCategory: Option<ServiceCategory>
    var showCategoryModal: bool
    var searchQuery: string
    var selectedCategory: string

    /** The catalogue invariants the handlers keep. */
    predicate Valid()
      reads this
    {
      Consistent(services, categories) && Positive(services)
    }

    /** The screen opens on the catalogue's initial data with empty forms and no filter;
      * a catalogue that meets both invariants (as `Catalogue` does) gives a valid screen. */
    constructor(initialServices: seq<Service>, initialCategories: seq<ServiceCategory>)
      requires Consistent(initialServices, initialCategories) && Positive(initialServices)
      ensures Valid()
      ensures services == initialServices && categories == initialCategories
      ensures form == EmptyServiceForm(initialCategories) && editingService == None && !showAddModal
      ensures categoryForm == EmptyCategoryForm && editingCategory == None && !showCategoryModal
      ensures searchQuery == "" && selectedCategory == AllCategories
    {
      services := initialServices;
      categories := initialCategories;
      form := EmptyServiceForm(initialCategories);
      editingService := None;
      showAddModal := false;
      categoryForm := EmptyCategoryForm;
      editingCategory := None;
      showCategoryModal := false;
      searchQuery := "";
      selectedCategory := AllCategories;
    }

    /** The sections the list shows for the current filter. */
    method Sections() returns (groups: seq<Group>)
      ensures groups == Grouped(FilteredServices(services, selectedCategory, searchQuery), categories)
    {
      groups := GroupServices(FilteredServices(services, selectedCategory, searchQuery), categories);
    }

    /** `handleAddService`: on success one service is appended, the modal closes and the form is reset. */
    method HandleAddService(now: int) returns (check: ServiceCheck)
      modifies this`services, this`form, this`showAddModal
      ensures check == CheckService(old(form), old(categories))
      ensures services == AfterAddService(old(services), old(categories), old(form), ServiceIdAt(now))
      ensures check.Valid? ==> !showAddModal && form == EmptyServiceForm(old(categories))
      ensures !check.Valid? ==> form == old(form) && showAddModal == old(showAddModal)
      ensures old(Valid()) ==> Valid()
    {
      var f, before, cs, open := form, services, categories, showAddModal;
      check := CheckService(f, cs);
      var saved := check.Valid?;
      if Consistent(before, cs) && Positive(before) {
        AfterAddServiceKeeps(before, cs, f, ServiceIdAt(now));
      }
      // the three state updates of the handler, applied together as React batches them
      services, showAddModal, form :=
        AfterAddService(before, cs, f, ServiceIdAt(now)), if saved then false else open,
        if saved then EmptyServiceForm(cs) else f;
    }

    /** `handleUpdateService`: nothing without an edited service; on success only that id is replaced. */
    method HandleUpdateService() returns (check: Option<ServiceCheck>)
      modifies this`services, this`form, this`editingService
      ensures old(editingService).None? ==> check == None && services == old(services) && form == old(form)
                                            && editingService == old(editingService)
      ensures old(editingService).Some? ==>
        check == Some(CheckService(old(form), old(categories)))
        && services == AfterUpdateService(old(services), old(categories), old(editingService).value, old(form))
      ensures check.Some? && check.value.Valid? ==> editingService == None && form == EmptyServiceForm(old(categories))
      ensures check.Some? && !check.value.Valid? ==> form == old(form) && editingService == old(editingService)
      ensures old(Valid()) ==> Valid()
    {
      var f, e, before, cs := form, editingService, services, categories;
      if e.None? {
        check := None;
        return;
      }
      var c := CheckService(f, cs);
      check := Some(c);
      var saved := c.Valid?;
      if Consistent(before, cs) && Positive(before) {
        AfterUpdateServiceKeeps(before, cs, e.value, f);
      }
      services, editingService, form :=
        AfterUpdateService(before, cs, e.value, f), if saved then None else e, if saved then EmptyServiceForm(cs) else f;
    }

    /** `handleDeleteService`: once confirmed, every service with that id is removed. */
    method HandleDeleteService(id: string, confirmed: bool)
      modifies this`services
      ensures services == if confirmed then RemoveService(old(services), id) else old(services)
      ensures old(Valid()) ==> Valid()
    {
      if confirmed {
        var before := services;
        if Consistent(before, categories) && Positive(before) {
          DeleteServiceKeeps(before, categories, id);
        }
        services := RemoveService(before, id);
      }
    }

    /** `handleAddCategory`: a filled form appends one category, closes the modal and clears the form. */
    method HandleAddCategory(now: int) returns (ok: bool)
      modifies this`categories, this`categoryForm, this`showCategoryModal
      ensures ok == CategoryFormFilled(old(categoryForm))
      ensures ok ==> categories == old(categories) + [NewCategory(old(categoryForm), CategoryIdAt(now))]
                     && !showCategoryModal && categoryForm == EmptyCategoryForm
      ensures !ok ==> categories == old(categories) && categoryForm == old(categoryForm)
                      && showCategoryModal == old(showCategoryModal)
      ensures old(Valid()) ==> Valid()
    {
      var f, before, open := categoryForm, categories, showCategoryModal;
      ok := CategoryFormFilled(f);
      var c := NewCategory(f, CategoryIdAt(now));
      if Consistent(services, before) {
        AddCategoryKeeps(services, before, c);
      }
      categories, showCategoryModal, categoryForm :=
        if ok then before + [c] else before, open && !ok, if ok then EmptyCategoryForm else f;
    }

    /**
     * `handleUpdateCategory`: nothing without an edited category; with a filled
     * form the category is replaced in the list and in every service that uses it.
     */
    method HandleUpdateCategory() returns (ok: Option<bool>)
      modifies this`categories, this`services, this`categoryForm, this`editingCategory
      ensures old(editingCategory).None? ==> ok == None
      ensures old(editingCategory).Some? ==> ok == Some(CategoryFormFilled(old(categoryForm)))
      ensures ok == Some(true) ==>
        var updated := EditedCategory(old(editingCategory).value, old(categoryForm));
        categories == RenameCategory(old(categories), updated.id, updated)
        && services == Recategorize(old(services), updated.id, updated)
        && editingCategory == None && categoryForm == EmptyCategoryForm
      ensures ok != Some(true) ==>
        categories == old(categories) && services == old(services)
        && categoryForm == old(categoryForm) && editingCategory == old(editingCategory)
      ensures old(Valid()) ==> Valid()
    {
      var f, e, cs, ss := categoryForm, editingCategory, categories, services;
      if e.None? {
        ok := None;
        return;
      }
      var filled := CategoryFormFilled(f);
      ok := Some(filled);
      var updated := EditedCategory(e.value, f);
      if Consistent(ss, cs) {
        UpdateCategoryKeeps(ss, cs, updated);
      }
      categories, services, editingCategory, categoryForm :=
        if filled then RenameCategory(cs, updated.id, updated) else cs,
        if filled then Recategorize(ss, updated.id, updated) else ss,
        if filled then None else e,
        if filled then EmptyCategoryForm else f;
    }

    /** `handleDeleteCategory`: refused while a service uses the category; otherwise removed once confirmed. */
    method HandleDeleteCategory(id: string, confirmed: bool) returns (deleted: bool)
      modifies this`categories
      ensures deleted <==> !CategoryInUse(services, id) && confirmed
      ensures categories == if deleted then RemoveCategory(old(categories), id) else old(categories)
      ensures old(Valid()) ==> Valid()
    {
      deleted := !CategoryInUse(services, id) && confirmed;
      if deleted {
        var before := categories;
        if Consistent(services, before) {
          DeleteCategoryKeeps(services, before, id);
        }
        categories := RemoveCategory(before, id);
      }
    }

    /** `openEditModal`. */
    method OpenEditModal(s: Service)
      modifies this`editingService, this`form
      ensures editingService == Some(s) && form == ServiceFormOf(s)
    {
      editingService := Some(s);
      form := ServiceFormOf(s);
    }

    /** The search box. */
    method SetSearchQuery(q: string)
      modifies this`searchQuery
      ensures searchQuery == q
    {
      searchQuery := q;
    }

    /** The category chips: `all` or one category's id. */
    method SelectCategory(id: string)
      modifies this`selectedCategory
      ensures selectedCategory == id
    {
      selectedCategory := id;
    }

    /** The plus button on the services tab. */
    method OpenAddModal()
      modifies this`showAddModal
      ensures showAddModal
    {
      showAddModal := true;
    }

    /** The plus button on the categories tab. */
    method OpenCategoryModal()
      modifies this`showCategoryModal
      ensures showCategoryModal
    {
      showCategoryModal := true;
    }

    /** The service form's inputs and category chips: each replaces its own field. */
    method EditName(text: string)
      modifies this`form
      ensures form == old(form).(name := text)
    {
      form := form.(name := text);
    }

    method ChooseFormCategory(id: string)
      modifies this`form
      ensures form == old(form).(categoryId := id)
    {
      form := form.(categoryId := id);
    }

    method EditPrice(text: string)
      modifies this`form
      ensures form == old(form).(price := text)
    {
      form := form.(price := text);
    }

    method EditDuration(text: string)
      modifies this`form
      ensures form == old(form).(duration := text)
    {
      form := form.(duration := text);
    }

    method EditDescription(text: string)
      modifies this`form
      ensures form == old(form).(description := text)
    {
      form := form.(description := text);
    }

    /** The category form's inputs. */
    method EditCategoryName(text: string)
      modifies this`categoryForm
      ensures categoryForm == old(categoryForm).(name := text)
    {
      categoryForm := categoryForm.(name := text);
    }

    method EditCategoryIcon(text: string)
      modifies this`categoryForm
      ensures categoryForm == old(categoryForm).(icon := text)
    {
      categoryForm := categoryForm.(icon := text);
    }

    /** The service dialog's close button: both modes off and the form reset. */
    method CloseServiceModal()
      modifies this`showAddModal, this`editingService, this`form
      ensures !showAddModal && editingService.None? && form == EmptyServiceForm(categories)
    {
      showAddModal, editingService, form := false, None, EmptyServiceForm(categories);
    }

    /** The category dialog's close button. */
    method CloseCategoryModal()
      modifies this`showCategoryModal, this`editingCategory, this`categoryForm
      ensures !showCategoryModal && editingCategory.None? && categoryForm == EmptyCategoryForm
    {
      showCategoryModal, editingCategory, categoryForm := false, None, EmptyCategoryForm;
    }

    /** `openEditCategoryModal`. */
    method OpenEditCategoryModal(c: ServiceCategory)
      modifies this`editingCategory, this`categoryForm
      ensures editingCategory == Some(c) && categoryForm == CategoryForm(c.name, c.icon)
    {
      editingCategory := Some(c);
      categoryForm := CategoryForm(c.name, c.icon);
    }
  }
}
