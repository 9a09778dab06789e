/**
 * The clients screen (app/clients.tsx): the list it shows (everyone, a search
 * or the top spenders), the client form and its save rule.
 */
module ClientsScreen {
  import opened Common
  import opened Text
  import opened Sorting
  import opened Salon
  import opened Clients

  /** The form's four text fields. */
  datatype ClientForm = ClientForm(name: string, phone: string, email: string, notes: string)

  const EmptyForm := ClientForm("", "", "", "")
  const TopLimit := 10
  const RequiredMessage := "A név és telefonszám megadása kötelező!"
  const NeverVisited := "Még nem járt itt"

  /** `s || ''` on an optional text. */
  function OrEmpty(s: Option<string>): string {
    if s.Some? then s.value else ""
  }

  /** `handleEditClient`'s form: the client's fields, a missing e-mail or note as empty text. */
  function FormOf(c: Client): ClientForm {
    ClientForm(c.name, c.phone, OrEmpty(c.email), OrEmpty(c.notes))
  }

  /** The form passed to `addClient`: no birth date and no last visit. */
  function DraftOf(f: ClientForm): ClientDraft {
    ClientDraft(f.name, f.phone, Some(f.email), None, Some(f.notes), None)
  }

  /** The form passed to `updateClient` as a partial record: the four fields overwritten, the rest kept. */
  function PatchOf(f: ClientForm): ClientPatch {
    ClientPatch(Keep, Set(f.name), Set(f.phone), Set(Some(f.email)), Keep, Set(Some(f.notes)),
                Keep, Keep, Keep, Keep)
  }

  /** The save guard: the trimmed name or the trimmed phone is empty. */
  predicate FormRejected(f: ClientForm) {
    IsBlank(f.name) || IsBlank(f.phone)
  }

  /** The register after `handleSaveClient`: unchanged when refused, else the edited client updated or a new one appended. */
  function AfterSave(clients: seq<Client>, f: ClientForm, editing: Option<Client>, now: nat): seq<Client> {
    ApplySave(clients, FormRejected(f), f, editing, now)
  }

  /** The save once the guard has been evaluated to `rejected`. */
  function ApplySave(clients: seq<Client>, rejected: bool, f: ClientForm, editing: Option<Client>, now: nat): seq<Client> {
    if rejected then clients
    else if editing.Some? then Updated(clients, editing.value.id, PatchOf(f))
    else clients + [NewClient(DraftOf(f), now)]
  }

  /** `filteredClients`: the top-ten list in top mode (whatever the search says), else the search, else everyone. */
  function Filtered(clients: seq<Client>, showTop: bool, query: string): seq<Client> {
    if showTop then TopClients(clients, TopLimit)
    else if query != "" then Search(clients, query)
    else clients
  }

  /** `formatDate` of the last visit; `localeDate` stands for `toLocaleDateString('hu-HU')`. */
  function LastVisitLabel(lastVisit: Option<int>, localeDate: int -> string): (r: string)
    ensures lastVisit.None? ==> r == NeverVisited
    ensures lastVisit.Some? ==> r == localeDate(lastVisit.value)
  {
    if lastVisit.None? then NeverVisited else localeDate(lastVisit.value)
  }

  /**
   * What the list shows: in top mode at most ten clients, in order of spending,
   * all from the register; with a query exactly the matching clients; with an
   * empty query the whole register.
   */
  lemma FilteredMeaning(clients: seq<Client>, showTop: bool, query: string)
    ensures var r := Filtered(clients, showTop, query);
            && (showTop ==> |r| <= TopLimit && SortedDesc(r, Spent) && multiset(r) <= multiset(clients))
            && (!showTop && query != "" ==> forall x :: x in r <==> x in clients && Matches(x, query))
            && (!showTop && query == "" ==> r == clients)
  {
    if showTop {
      TopClientsSize(clients, TopLimit);
      TopClientsOrdered(clients, TopLimit);
    }
  }

  /** Top mode does not depend on the search text. */
  lemma TopModeIgnoresQuery(clients: seq<Client>, q1: string, q2: string)
    ensures Filtered(clients, true, q1) == Filtered(clients, true, q2)
    ensures Filtered(clients, true, q1) == TopClients(clients, TopLimit)
  {
  }

  /**
   * A new client saved from the form is appended with the form's name and
   * phone, no spending and no visits, and the phone search finds it.
   */
  lemma SaveNewClient(clients: seq<Client>, f: ClientForm, now: nat)
    requires !FormRejected(f)
    ensures var r := AfterSave(clients, f, None, now);
            && |r| == |clients| + 1 && r[..|clients|] == clients
            && r[|clients|].name == f.name && r[|clients|].phone == f.phone
            && r[|clients|].email == Some(f.email) && r[|clients|].notes == Some(f.notes)
            && r[|clients|].totalSpent == 0 && r[|clients|].visitCount == 0
            && r[|clients|] in Search(r, f.phone)
  {
    var r := AfterSave(clients, f, None, now);
    assert r[..|clients|] == clients;
    SearchByPhoneFinds(r, r[|clients|]);
  }

  /**
   * Saving an edit rewrites only the edited client's position, and only its
   * four form fields: the id, creation time, birth date, last visit and the
   * spending history of the current record are kept.
   */
  lemma SaveEditAt(clients: seq<Client>, f: ClientForm, e: Client, k: nat)
    requires UniqueIds(clients) && k < |clients| && clients[k].id == e.id && !FormRejected(f)
    ensures var c := clients[k];
            AfterSave(clients, f, Some(e), 0) == clients[k := Client(c.id, f.name, f.phone, Some(f.email),
              c.birthDate, Some(f.notes), c.createdAt, c.lastVisit, c.totalSpent, c.visitCount)]
  {
    var c := clients[k];
    UpdatedUniqueAt(clients, e.id, PatchOf(f), k, Client(c.id, f.name, f.phone, Some(f.email),
      c.birthDate, Some(f.notes), c.createdAt, c.lastVisit, c.totalSpent, c.visitCount));
  }

  /** Saving an edit of a client that is no longer in the register changes nothing. */
  lemma SaveEditOfDeleted(clients: seq<Client>, f: ClientForm, e: Client, now: nat)
    requires forall i :: 0 <= i < |clients| ==> clients[i].id != e.id
    ensures AfterSave(clients, f, Some(e), now) == clients
  {
    if !FormRejected(f) {
      var r := Updated(clients, e.id, PatchOf(f));
      assert forall i :: 0 <= i < |clients| ==> r[i] == clients[i];
    }
  }

  /**
   * Opening a client and saving the form untouched keeps its name, phone and
   * the rest; a missing e-mail or note becomes empty text, which every search
   * treats as missing.
   */
  lemma UnchangedEditKeepsMatches(c: Client, query: string)
    ensures var d := Merge(c, PatchOf(FormOf(c)));
            && d == c.(email := Some(OrEmpty(c.email)), notes := Some(OrEmpty(c.notes)))
            && (Matches(d, query) <==> Matches(c, query))
  {
  }

  /** Every client has a name and a phone that are not blank. */
  predicate NamedClients(clients: seq<Client>) {
    forall i :: 0 <= i < |clients| ==> !IsBlank(clients[i].name) && !IsBlank(clients[i].phone)
  }

  /** The form never stores a client without a name or a phone. */
  lemma SaveKeepsNamedClients(clients: seq<Client>, f: ClientForm, editing: Option<Client>, now: nat)
    requires NamedClients(clients)
    ensures NamedClients(AfterSave(clients, f, editing, now))
  {
    if FormRejected(f) {
      assert AfterSave(clients, f, editing, now) == clients;
    } else if editing.Some? {
      var id := editing.value.id;
      var r := Updated(clients, id, PatchOf(f));
      assert AfterSave(clients, f, editing, now) == r;
      forall i | 0 <= i < |r| ensures !IsBlank(r[i].name) && !IsBlank(r[i].phone) {
        if clients[i].id == id {
          assert r[i].name == f.name && r[i].phone == f.phone;
        } else {
          assert r[i] == clients[i];
        }
      }
    } else {
      var c := NewClient(DraftOf(f), now);
      var r := clients + [c];
      assert AfterSave(clients, f, editing, now) == r;
      forall i | 0 <= i < |r| ensures !IsBlank(r[i].name) && !IsBlank(r[i].phone) {
        if i < |clients| {
          assert r[i] == clients[i];
        } else {
          assert r[i] == c;
        }
      }
    }
  }

  /** The screen's state over the client register `store`. */
  class ClientsScreen {
    const store: ClientStore
    var searchQuery: string
    var modalVisible: bool
    var editing: Option<Client>
    var showTop: bool
    var form: ClientForm

    constructor (store: ClientStore)
      ensures this.store == store && searchQuery == "" && !modalVisible && editing.None?
      ensures !showTop && form == EmptyForm
    {
      this.store := store;
      searchQuery, modalVisible, editing, showTop, form := "", false, None, false, EmptyForm;
    }

    /** The list on screen. */
    function Shown(): seq<Client>
      reads this, store
    {
      Filtered(store.clients, showTop, searchQuery)
    }

    method SetSearchQuery(q: string)
      modifies this`searchQuery
      ensures searchQuery == q
    {
      searchQuery := q;
    }

    /** The "Összes" and "Top 10" toggles. */
    method SetShowTop(top: bool)
      modifies this`showTop
      ensures showTop == top
    {
      showTop := top;
    }

    /** `handleAddClient`: an empty form for a new client. */
    method HandleAddClient()
      modifies this`editing, this`form, this`modalVisible
      ensures editing.None? && form == EmptyForm && modalVisible
    {
      editing, form, modalVisible := None, EmptyForm, true;
    }

    /** `handleEditClient`: the form filled from the client. */
    method HandleEditClient(c: Client)
      modifies this`editing, this`form, this`modalVisible
      ensures editing == Some(c) && form == FormOf(c) && modalVisible
    {
      editing, form, modalVisible := Some(c), FormOf(c), true;
    }

    /** The form's inputs: each replaces its own field. */
    method EditName(text: string)
      modifies this`form
      ensures form == old(form).(name := text)
    {
      form := form.(name := text);
    }

    method EditPhone(text: string)
      modifies this`form
      ensures form == old(form).(phone := text)
    {
      form := form.(phone := text);
    }

    method EditEmail(text: string)
      modifies this`form
      ensures form == old(form).(email := text)
    {
      form := form.(email := text);
    }

    method EditNotes(text: string)
      modifies this`form
      ensures form == old(form).(notes := text)
    {
      form := form.(notes := text);
    }

    /** The cancel button and the back gesture. */
    method CloseModal()
      modifies this`modalVisible
      ensures !modalVisible
    {
      modalVisible := false;
    }

    /**
     * `handleSaveClient`: refuses a form without name or phone with an alert;
     * otherwise saves, closes the form and empties it. The time stamps a new client.
     */
    method HandleSaveClient(now: nat) returns (alert: Option<string>)
      modifies this`modalVisible, this`form, store
      ensures alert == if FormRejected(old(form)) then Some(RequiredMessage) else None
      ensures store.clients == AfterSave(old(store.clients), old(form), old(editing), now)
      ensures alert.None? ==> !modalVisible && form == EmptyForm
      ensures alert.Some? ==> modalVisible == old(modalVisible) && form == old(form)
    {
      var f, e := form, editing;
      var rejected := FormRejected(f);
      if !rejected {
        if e.Some? {
          store.UpdateClient(e.value.id, PatchOf(f));
        } else {
          var _ := store.AddClient(DraftOf(f), now);
        }
      }
      alert, modalVisible, form := if rejected then Some(RequiredMessage) else None,
                                   rejected && modalVisible, if rejected then f else EmptyForm;
    }

    /** `handleDeleteClient`: deletes the client once the dialog is confirmed. */
    method HandleDeleteClient(c: Client, confirmed: bool)
      modifies store
      ensures store.clients == if confirmed then Deleted(old(store.clients), c.id) else old(store.clients)
      ensures confirmed ==> forall x :: x in store.clients ==> x.id != c.id
    {
      if confirmed {
        store.DeleteClient(c.id);
      }
    }
  }
}
