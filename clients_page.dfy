/** The clients list page: search and status filter, status colour, and the delete dialog. */
module ClientsPage {
  import opened Wrappers
  import opened Schema
  import opened Lists
  import opened Text

  /** `field?.toLowerCase().includes(term.toLowerCase())`: a null field never matches. */
  predicate FieldMatches(field: Option<string>, term: string)
  {
    field.Some? && Contains(LowerStr(field.value), LowerStr(term))
  }

  /** `matchesSearch`: name, company or email; the phone is not searched. */
  predicate MatchesSearch(c: ClientRow, term: string)
  {
    Contains(LowerStr(c.name), LowerStr(term)) || FieldMatches(c.company, term) || FieldMatches(c.email, term)
  }

  /** `matchesStatus`. */
  predicate MatchesStatus(c: ClientRow, status: string)
  {
    status == "all" || c.status == status
  }

  /** `filteredClients`: one filter by both predicates. */
  function FilteredClients(clients: seq<ClientRow>, term: string, status: string): (r: seq<ClientRow>)
    ensures IsSublist(r, clients)
    ensures forall c :: c in r <==> c in clients && MatchesSearch(c, term) && MatchesStatus(c, status)
  {
    Filter(clients, (c: ClientRow) => MatchesSearch(c, term) && MatchesStatus(c, status))
  }

  /** The empty search term matches every client, because every name includes the empty string. */
  lemma EmptyTermMatchesAll(c: ClientRow)
    ensures MatchesSearch(c, "")
  {
    ContainsEmpty(LowerStr(c.name));
  }

  /** With an empty term and status "all" the whole list is shown, in order. */
  lemma NoFilterShowsAll(clients: seq<ClientRow>)
    ensures FilteredClients(clients, "", "all") == clients
  {
    forall c: ClientRow { EmptyTermMatchesAll(c); }
    FilterKeepsAll(clients, (c: ClientRow) => MatchesSearch(c, "") && MatchesStatus(c, "all"));
  }

  /** The phone number is not searched: changing it never changes whether a client matches. */
  lemma PhoneIsNotSearched(c: ClientRow, p: Option<string>, term: string)
    ensures MatchesSearch(c.(phone := p), term) == MatchesSearch(c, term)
  {
  }

  /** `getStatusColor`: the four client statuses have colours; anything else is gray. */
  function StatusColor(status: string): (r: string)
    ensures status == "active" <==> r == "bg-green-500"
    ensures status == "prospect" <==> r == "bg-blue-500"
    ensures status == "former" <==> r == "bg-red-500"
    ensures status !in {"active", "prospect", "former"} ==> r == "bg-gray-500"
  {
    match status
    case "active" => "bg-green-500"
    case "inactive" => "bg-gray-500"
    case "prospect" => "bg-blue-500"
    case "former" => "bg-red-500"
    case _ => "bg-gray-500"
  }

  /** The page's delete confirmation and the remote `clients` table. */
  class Page {
    /** The remote `clients` table, keyed by id. */
    var clients: map<string, ClientRow>
    var deleteDialogOpen: bool
    var clientToDelete: Option<string>
    /** How many times `fetchClients` was called after a change. */
    var refetches: nat

    constructor (rows: map<string, ClientRow>)
      ensures clients == rows && !deleteDialogOpen && clientToDelete == None && refetches == 0
    {
      clients := rows;
      deleteDialogOpen := false;
      clientToDelete := None;
      refetches := 0;
    }

    /** The row's delete button: select the client and open the confirmation. */
    method AskDelete(id: string)
      modifies this`clientToDelete, this`deleteDialogOpen
      ensures clientToDelete == Some(id) && deleteDialogOpen
    {
      clientToDelete := Some(id);
      deleteDialogOpen := true;
    }

    /**
     * `handleDelete`, with `reply` the outcome of the delete. Without a
     * selection nothing happens; otherwise the dialog closes and the
     * selection clears on both outcomes, and only success deletes and refetches.
     */
    method HandleDelete(reply: Reply) returns (toast: Option<Toast>)
      modifies this
      ensures !Truthy(old(clientToDelete)) ==>
        clients == old(clients) && deleteDialogOpen == old(deleteDialogOpen)
        && clientToDelete == old(clientToDelete) && refetches == old(refetches) && toast == None
      ensures Truthy(old(clientToDelete)) ==> !deleteDialogOpen && clientToDelete == None
      ensures Truthy(old(clientToDelete)) && reply.Ok? ==>
        clients == old(clients) - {old(clientToDelete).value} && refetches == old(refetches) + 1
        && toast == Some(Success("Client deleted successfully"))
      ensures Truthy(old(clientToDelete)) && reply.Fail? ==>
        clients == old(clients) && refetches == old(refetches)
        && toast == Some(Error("Failed to delete client: " + reply.message))
    {
      if !Truthy(clientToDelete) {
        return None;
      }
      if reply.Ok? {
        clients := clients - {clientToDelete.value};
        toast := Some(Success("Client deleted successfully"));
        refetches := refetches + 1;
      } else {
        toast := Some(Error("Failed to delete client: " + reply.message));
      }
      deleteDialogOpen := false;
      clientToDelete := None;
    }
  }
}
