/** The superadmin customers list: avatar initials, the paging and search
    state and the request it sends, and the active/inactive toggle. */
module CustomersPage {
  import opened Js
  import opened Strings

  /** `words.map(n => n[0]).join('')`: an empty word has no first character and adds nothing. */
  function FirstChars(words: seq<string>): (r: string)
    ensures |r| <= |words|
    decreases |words|
  {
    if words == [] then []
    else (if words[0] == [] then [] else [words[0][0]]) + FirstChars(words[1..])
  }

  /** `getInitials(name)`: 'U' for an empty or missing name, otherwise the
      first letters of the space-separated words, uppercased, at most two. */
  function Initials(name: Option<string>): (r: string)
    ensures !Truthy(name) ==> r == "U"
    ensures |r| <= 2
    ensures forall i :: 0 <= i < |r| ==> !('a' <= r[i] <= 'z')
    ensures Truthy(name) ==> r == Slice(Upper(FirstChars(Split(name.value, ' '))), 0, 2)
  {
    if !Truthy(name) then "U"
    else Slice(Upper(FirstChars(Split(name.value, ' '))), 0, 2)
  }

  /** Two words give both first letters, uppercased. */
  lemma TwoWordInitials(first: string, last: string)
    requires first != [] && last != [] && ' ' !in first && ' ' !in last
    ensures Initials(Some(first + " " + last)) == [UpperChar(first[0]), UpperChar(last[0])]
  {
    var name := first + " " + last;
    SplitNoSeparator(first, ' ');
    SplitNoSeparator(last, ' ');
    SplitConcat(first, last, ' ');
    assert Split(name, ' ') == [first, last];
    assert FirstChars([first, last]) == [first[0], last[0]];
  }

  /** A name of spaces only is truthy but has no word, so it shows no initials at all. */
  lemma BlankNameShowsNothing()
    ensures Initials(Some("  ")) == ""
  {
    assert Split("  ", ' ') == ["", "", ""];
  }

  /** The request parameters: the server counts pages from 1. */
  datatype UsersQuery = UsersQuery(page: nat, limit: nat, search: string)

  datatype Customer = Customer(id: string, name: Option<string>, isActive: Option<bool>)

  datatype UsersResponse = UsersResponse(users: Option<seq<Customer>>, paginationTotal: Option<int>)

  datatype StatusChange = StatusChange(customerId: string, isActive: bool)

  /** `handleToggleStatus(id, current)` sends `{isActive: !current}`; a missing status counts as inactive. */
  function ToggleRequest(customerId: string, current: Option<bool>): (r: StatusChange)
    ensures r.customerId == customerId
    ensures r.isActive <==> current != Some(true)
  {
    StatusChange(customerId, !(current == Some(true)))
  }

  /** Toggling twice from a known status restores it. */
  lemma ToggleTwiceRestores(id: string, current: bool)
    ensures ToggleRequest(id, Some(ToggleRequest(id, Some(current)).isActive)).isActive == current
  {
  }

  const RowsPerPageOptions: seq<nat> := [5, 10, 25, 50]

  class CustomersTable {
    var customers: seq<Customer>
    var totalCustomers: int
    var loading: bool
    var page: nat
    var rowsPerPage: nat
    var searchQuery: string

    constructor ()
      ensures customers == [] && totalCustomers == 0 && loading
      ensures page == 0 && rowsPerPage == 10 && searchQuery == ""
    {
      customers, totalCustomers, loading := [], 0, true;
      page, rowsPerPage, searchQuery := 0, 10, "";
    }

    /** The request `fetchCustomers` sends for the current state. */
    function Query(): (q: UsersQuery)
      reads this
      ensures q.page == page + 1 && q.page >= 1
      ensures q.limit == rowsPerPage && q.search == searchQuery
    {
      UsersQuery(page + 1, rowsPerPage, searchQuery)
    }

    /** `fetchCustomers` once the request has settled: `users || []` and `pagination.total || 0`; a failure keeps the list. */
    method Fetch(response: Result<UsersResponse, string>)
      modifies this`customers, this`totalCustomers, this`loading
      ensures !loading
      ensures response.Ok? ==> customers == (if response.value.users.Some? then response.value.users.value else [])
                               && totalCustomers == OrNum(response.value.paginationTotal, 0)
      ensures response.Err? ==> customers == old(customers) && totalCustomers == old(totalCustomers)
    {
      loading := true;
      if response.Ok? {
        customers := if response.value.users.Some? then response.value.users.value else [];
        totalCustomers := OrNum(response.value.paginationTotal, 0);
      }
      loading := false;
    }

    method ChangePage(newPage: nat)
      modifies this`page
      ensures page == newPage
      ensures Query().page == newPage + 1
    {
      page := newPage;
    }

    /** A new page size goes back to the first page. */
    method ChangeRowsPerPage(n: nat)
      requires n in RowsPerPageOptions
      modifies this`rowsPerPage, this`page
      ensures rowsPerPage == n && page == 0
      ensures Query() == UsersQuery(1, n, searchQuery)
    {
      rowsPerPage := n;
      page := 0;
    }

    /** A new search goes back to the first page. */
    method SearchChange(query: string)
      modifies this`searchQuery, this`page
      ensures searchQuery == query && page == 0
      ensures Query() == UsersQuery(1, rowsPerPage, query)
    {
      searchQuery := query;
      page := 0;
    }
  }
}
