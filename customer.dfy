/** Customer management: the customer list, its search and city filter, the
    add / edit / delete / favourite handlers and the stats-card counters. */
module Customers {
  import opened Seqs
  import opened Text
  import opened Wrappers

  datatype Customer = Customer(
    id: int, firstName: string, lastName: string, phone: string, email: string,
    address: string, city: string, loyaltyPoints: int, totalSpent: int,
    lastVisit: string, isFavorite: bool)

  /** The add form: a customer without id, loyalty points, spending and last visit. */
  datatype CustomerForm = CustomerForm(
    firstName: string, lastName: string, phone: string, email: string,
    address: string, city: string, isFavorite: bool)

  const EmptyForm: CustomerForm := CustomerForm("", "", "", "", "", "", false)

  function CustomerId(c: Customer): int
  {
    c.id
  }

  // ---------------------------------------------------------------------------
  // Search and city filter

  /** The search test: a case-insensitive match on first name, last name or
      e-mail, or an exact match inside the phone number. */
  predicate MatchesSearch(c: Customer, term: string)
  {
    var t := ToLower(term);
    Contains(ToLower(c.firstName), t) || Contains(ToLower(c.lastName), t) ||
    Contains(c.phone, term) || Contains(ToLower(c.email), t)
  }

  function SearchTest(term: string): Customer -> bool
  {
    (c: Customer) => MatchesSearch(c, term)
  }

  function CityTest(city: string): Customer -> bool
  {
    (c: Customer) => c.city == city
  }

  /** The filter effect: the search applies only to a non-empty term, the city
      test only when the city is not "All". */
  function FilteredCustomers(customers: seq<Customer>, term: string, city: string): seq<Customer>
  {
    FilterWhen(FilterWhen(customers, term != "", SearchTest(term)), city != "All", CityTest(city))
  }

  /** The visible list is the customer list with some entries left out, in the
      same order; a customer is shown iff it passes every active test. */
  lemma FilteredCustomersSpec(customers: seq<Customer>, term: string, city: string)
    ensures IsSubsequence(FilteredCustomers(customers, term, city), customers)
    ensures forall c :: c in FilteredCustomers(customers, term, city) <==>
      c in customers && (term != "" ==> MatchesSearch(c, term)) && (city != "All" ==> c.city == city)
    ensures forall c :: multiset(FilteredCustomers(customers, term, city))[c] ==
              (if (term != "" ==> MatchesSearch(c, term)) && (city != "All" ==> c.city == city)
               then multiset(customers)[c] else 0)
  {
    var bySearch := FilterWhen(customers, term != "", SearchTest(term));
    FilterWhenSpec(customers, term != "", SearchTest(term));
    FilterWhenSpec(bySearch, city != "All", CityTest(city));
    SubsequenceTrans(FilteredCustomers(customers, term, city), bySearch, customers);
  }

  /** With no search term and the city "All" every customer is shown. */
  lemma UnfilteredShowsAll(customers: seq<Customer>)
    ensures FilteredCustomers(customers, "", "All") == customers
  {
  }

  // ---------------------------------------------------------------------------
  // List edits

  /** The required fields of the add form. */
  predicate FormComplete(form: CustomerForm)
  {
    form.firstName != "" && form.lastName != "" && form.phone != ""
  }

  /** The customer `handleAddCustomer` appends: a fresh id, no points, nothing spent. */
  function NewCustomer(customers: seq<Customer>, form: CustomerForm, today: string): Customer
  {
    Customer(NextId(Keys(customers, CustomerId)), form.firstName, form.lastName, form.phone, form.email,
             form.address, form.city, 0, 0, today, form.isFavorite)
  }

  /** The new customer's id is above every existing id, so ids stay distinct. */
  lemma NewCustomerIsFresh(customers: seq<Customer>, form: CustomerForm, today: string)
    requires UniqueBy(customers, CustomerId)
    ensures var c := NewCustomer(customers, form, today);
      && (forall i :: 0 <= i < |customers| ==> customers[i].id < c.id)
      && c.loyaltyPoints == 0 && c.totalSpent == 0
      && UniqueBy(customers + [c], CustomerId)
  {
    var c := NewCustomer(customers, form, today);
    var ids := Keys(customers, CustomerId);
    assert forall i :: 0 <= i < |customers| ==> ids[i] < c.id;
    var all := customers + [c];
    forall i, j | 0 <= i < j < |all| ensures CustomerId(all[i]) != CustomerId(all[j]) {
      if j == |customers| {
        assert all[i] == customers[i];
      } else {
        assert all[i] == customers[i] && all[j] == customers[j];
      }
    }
  }

  /** `handleUpdateCustomer`'s map: the entry with the edited customer's id is replaced. */
  function Replaced(customers: seq<Customer>, edited: Customer): seq<Customer>
  {
    ReplacedBy(customers, CustomerId, edited)
  }

  /** Update replaces exactly the entry with that id, keeps the length and the
      distinct ids, and changes nothing when no entry has that id. */
  lemma ReplacedSpec(customers: seq<Customer>, edited: Customer)
    requires UniqueBy(customers, CustomerId)
    ensures |Replaced(customers, edited)| == |customers|
    ensures UniqueBy(Replaced(customers, edited), CustomerId)
    ensures forall k :: 0 <= k < |customers| && customers[k].id == edited.id ==>
      Replaced(customers, edited) == customers[k := edited]
    ensures (forall i :: 0 <= i < |customers| ==> customers[i].id != edited.id) ==>
      Replaced(customers, edited) == customers
  {
    ReplacedBySpec(customers, CustomerId, edited);
  }

  /** `handleDeleteCustomer`'s filter. */
  function Deleted(customers: seq<Customer>, id: int): seq<Customer>
  {
    Filter(customers, KeyIsNot(CustomerId, id))
  }

  /** Deletion removes exactly the customers with that id and keeps the rest in order. */
  lemma DeletedSpec(customers: seq<Customer>, id: int)
    requires UniqueBy(customers, CustomerId)
    ensures IsSubsequence(Deleted(customers, id), customers)
    ensures forall c :: c in Deleted(customers, id) <==> c in customers && c.id != id
    ensures UniqueBy(Deleted(customers, id), CustomerId)
    ensures forall c :: multiset(Deleted(customers, id))[c] ==
              (if c.id != id then multiset(customers)[c] else 0)
    ensures (forall i :: 0 <= i < |customers| ==> customers[i].id != id) ==>
      Deleted(customers, id) == customers
  {
    var keep := KeyIsNot(CustomerId, id);
    assert forall c :: keep(c) == (c.id != id);
    FilterIsSubsequence(customers, keep);
    FilterKeepsUnique(customers, keep, CustomerId);
    FilterMultiset(customers, keep);
    if forall i :: 0 <= i < |customers| ==> customers[i].id != id {
      FilterKeepsAll(customers, keep);
    }
  }

  function Toggled(c: Customer, id: int): Customer
  {
    if c.id == id then c.(isFavorite := !c.isFavorite) else c
  }

  /** `toggleFavorite`'s map. */
  function FavoriteToggled(customers: seq<Customer>, id: int): (r: seq<Customer>)
    ensures |r| == |customers|
  {
    seq(|customers|, i requires 0 <= i < |customers| => Toggled(customers[i], id))
  }

  /** Toggling flips the flag of the matching customers only, keeps ids, and
      toggling twice restores the list. */
  lemma FavoriteToggledSpec(customers: seq<Customer>, id: int)
    ensures forall i :: 0 <= i < |customers| ==>
      var c, d := customers[i], FavoriteToggled(customers, id)[i];
      d.id == c.id && (c.id == id ==> d.isFavorite == !c.isFavorite) &&
      (c.id != id ==> d == c) && d.(isFavorite := c.isFavorite) == c
    ensures Keys(FavoriteToggled(customers, id), CustomerId) == Keys(customers, CustomerId)
    ensures UniqueBy(customers, CustomerId) ==> UniqueBy(FavoriteToggled(customers, id), CustomerId)
    ensures FavoriteToggled(FavoriteToggled(customers, id), id) == customers
  {
    var once := FavoriteToggled(customers, id);
    if UniqueBy(customers, CustomerId) {
      forall i, j | 0 <= i < j < |once| ensures CustomerId(once[i]) != CustomerId(once[j]) {
        assert CustomerId(once[i]) == CustomerId(customers[i]);
        assert CustomerId(once[j]) == CustomerId(customers[j]);
      }
    }
    var twice := FavoriteToggled(once, id);
    forall i | 0 <= i < |customers| ensures twice[i] == customers[i] {
      assert once[i] == Toggled(customers[i], id);
    }
  }

  // ---------------------------------------------------------------------------
  // Stats cards

  function IsFavorite(c: Customer): bool
  {
    c.isFavorite
  }

  /** "Loyal Customers": the number of favourites. */
  function FavoriteCount(customers: seq<Customer>): (n: int)
    ensures 0 <= n <= |customers|
  {
    |Filter(customers, IsFavorite)|
  }

  /** With distinct ids, toggling one customer moves the favourite count by
      exactly one: down when it was a favourite, up otherwise. */
  lemma FavoriteCountAfterToggle(customers: seq<Customer>, k: int)
    requires UniqueBy(customers, CustomerId) && 0 <= k < |customers|
    ensures FavoriteCount(FavoriteToggled(customers, customers[k].id)) ==
      FavoriteCount(customers) + (if customers[k].isFavorite then -1 else 1)
  {
    var id := customers[k].id;
    var flipped := customers[k].(isFavorite := !customers[k].isFavorite);
    forall i | 0 <= i < |customers| && i != k ensures customers[i].id != id {
      if i < k {
        assert CustomerId(customers[i]) != CustomerId(customers[k]);
      } else {
        assert CustomerId(customers[k]) != CustomerId(customers[i]);
      }
    }
    assert FavoriteToggled(customers, id) == customers[k := flipped];
    FilterCountUpdate(customers, IsFavorite, k, flipped);
  }

  function Cities(customers: seq<Customer>): set<string>
  {
    set c | c in customers :: c.city
  }

  /** "Cities": the number of distinct cities, between one and the number of
      customers for a non-empty list. */
  function CityCount(customers: seq<Customer>): (n: int)
    ensures 0 <= n <= |customers|
    ensures customers != [] ==> n >= 1
  {
    CitiesBound(customers);
    |Cities(customers)|
  }

  lemma {:induction false} CitiesBound(customers: seq<Customer>)
    ensures |Cities(customers)| <= |customers|
    ensures customers != [] ==> |Cities(customers)| >= 1
    decreases |customers|
  {
    if customers != [] {
      var rest := customers[1..];
      CitiesBound(rest);
      CitiesSplit(customers);
      assert customers[0].city in Cities(customers);
    }
  }

  /** The cities of a non-empty list: the first customer's city and those of the rest. */
  lemma CitiesSplit(customers: seq<Customer>)
    requires customers != []
    ensures Cities(customers) == {customers[0].city} + Cities(customers[1..])
  {
    var rest := customers[1..];
    forall x | x in Cities(customers) ensures x == customers[0].city || x in Cities(rest) {
      var c :| c in customers && c.city == x;
      var i :| 0 <= i < |customers| && customers[i] == c;
      if i > 0 {
        assert rest[i - 1] == c;
      }
    }
    forall x | x in Cities(rest) ensures x in Cities(customers) {
      var c :| c in rest && c.city == x;
      var i :| 0 <= i < |rest| && rest[i] == c;
      assert customers[i + 1] == c;
    }
    assert customers[0] in customers;
  }

  /** The customers screen. */
  class CustomerBook {
    var customers: seq<Customer>
    var searchTerm: string
    var cityFilter: string
    var isAdding: bool
    var isEditing: bool
    var currentCustomer: Option<Customer>
    var newCustomer: CustomerForm

    /** Customer ids are distinct. */
    ghost predicate Valid()
      reads this
    {
      UniqueBy(customers, CustomerId)
    }

    constructor (initial: seq<Customer>)
      requires UniqueBy(initial, CustomerId)
      ensures Valid()
      ensures customers == initial && searchTerm == "" && cityFilter == "All"
      ensures !isAdding && !isEditing && currentCustomer == None && newCustomer == EmptyForm
    {
      customers := initial;
      searchTerm := "";
      cityFilter := "All";
      isAdding := false;
      isEditing := false;
      currentCustomer := None;
      newCustomer := EmptyForm;
    }

    /** The list the table shows. */
    function Visible(): seq<Customer>
      reads this
    {
      FilteredCustomers(customers, searchTerm, cityFilter)
    }

    /** `handleAddCustomer`, with today's date given as `today`. An incomplete
        form is refused and nothing changes. */
    method AddCustomer(today: string) returns (added: bool)
      requires Valid()
      modifies this
      ensures Valid()
      ensures added == FormComplete(old(newCustomer))
      ensures !added ==>
        customers == old(customers) && newCustomer == old(newCustomer) && isAdding == old(isAdding)
      ensures added ==>
        && customers == old(customers) + [NewCustomer(old(customers), old(newCustomer), today)]
        && newCustomer == EmptyForm && !isAdding
      ensures isEditing == old(isEditing) && currentCustomer == old(currentCustomer)
      ensures searchTerm == old(searchTerm) && cityFilter == old(cityFilter)
    {
      if !FormComplete(newCustomer) {
        return false;
      }
      var c := NewCustomer(customers, newCustomer, today);
      NewCustomerIsFresh(customers, newCustomer, today);
      customers := customers + [c];
      newCustomer := EmptyForm;
      isAdding := false;
      added := true;
    }

    /** `handleEditCustomer`: open the edit form on a customer. */
    method EditCustomer(c: Customer)
      modifies this
      ensures currentCustomer == Some(c) && isEditing
      ensures customers == old(customers) && isAdding == old(isAdding)
      ensures newCustomer == old(newCustomer)
      ensures searchTerm == old(searchTerm) && cityFilter == old(cityFilter)
    {
      currentCustomer := Some(c);
      isEditing := true;
    }

    /** `handleUpdateCustomer`: with no customer being edited nothing happens. */
    method UpdateCustomer()
      requires Valid()
      modifies this
      ensures Valid()
      ensures old(currentCustomer) == None ==>
        customers == old(customers) && isEditing == old(isEditing) && currentCustomer == None
      ensures old(currentCustomer).Some? ==>
        customers == Replaced(old(customers), old(currentCustomer).value) &&
        !isEditing && currentCustomer == None
      ensures isAdding == old(isAdding) && newCustomer == old(newCustomer)
      ensures searchTerm == old(searchTerm) && cityFilter == old(cityFilter)
    {
      if currentCustomer == None {
        return;
      }
      ReplacedSpec(customers, currentCustomer.value);
      customers := Replaced(customers, currentCustomer.value);
      isEditing := false;
      currentCustomer := None;
    }

    /** `handleDeleteCustomer`, with the confirmation dialog's answer as `confirmed`. */
    method DeleteCustomer(id: int, confirmed: bool)
      requires Valid()
      modifies this
      ensures Valid()
      ensures customers == if confirmed then Deleted(old(customers), id) else old(customers)
      ensures isAdding == old(isAdding) && isEditing == old(isEditing)
      ensures currentCustomer == old(currentCustomer) && newCustomer == old(newCustomer)
      ensures searchTerm == old(searchTerm) && cityFilter == old(cityFilter)
    {
      if !confirmed {
        return;
      }
      DeletedSpec(customers, id);
      customers := Deleted(customers, id);
    }

    method ToggleFavorite(id: int)
      requires Valid()
      modifies this
      ensures Valid()
      ensures customers == FavoriteToggled(old(customers), id)
      ensures isAdding == old(isAdding) && isEditing == old(isEditing)
      ensures currentCustomer == old(currentCustomer) && newCustomer == old(newCustomer)
      ensures searchTerm == old(searchTerm) && cityFilter == old(cityFilter)
    {
      FavoriteToggledSpec(customers, id);
      customers := FavoriteToggled(customers, id);
    }

    /** `resetForm`: close both forms and clear them. */
    method ResetForm()
      modifies this
      ensures !isAdding && !isEditing && currentCustomer == None && newCustomer == EmptyForm
      ensures customers == old(customers)
      ensures searchTerm == old(searchTerm) && cityFilter == old(cityFilter)
    {
      isAdding := false;
      isEditing := false;
      currentCustomer := None;
      newCustomer := EmptyForm;
    }
  }
}
