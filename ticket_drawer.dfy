/** The ticket drawer's list (components/TicketDrawer.tsx): when the drawer
    opens it fetches the tickets and, when a ticket has just been created,
    shows it first with any fetched copy of it removed. */
module TicketDrawer {
  import opened Wrappers
  import opened Seqs
  import opened MockData

  /** `newTicket ? [newTicket, ...data.filter(t => t.id !== newTicket.id)] : data`. */
  function DrawerList(data: seq<Ticket>, newTicket: Option<Ticket>): (r: seq<Ticket>)
    ensures newTicket.None? ==> r == data
    ensures newTicket.Some? ==> |r| >= 1 && r[0] == newTicket.value
    ensures newTicket.Some? ==> forall i :: 1 <= i < |r| ==> r[i].id != newTicket.value.id && r[i] in data
    ensures newTicket.Some? ==>
      forall i :: 0 <= i < |data| && data[i].id != newTicket.value.id ==> data[i] in r
  {
    match newTicket
    case None => data
    case Some(t) => [t] + Filter(data, (x: Ticket) => x.id != t.id)
  }

  /** The fetched tickets that stay keep their relative order, and there is one
      of them for every fetched ticket with a different id. */
  lemma DrawerListRest(data: seq<Ticket>, t: Ticket)
    ensures Subsequence(DrawerList(data, Some(t))[1..], data)
    ensures |DrawerList(data, Some(t))| == 1 + Count(data, (x: Ticket) => x.id != t.id)
  {
    var p := (x: Ticket) => x.id != t.id;
    assert DrawerList(data, Some(t))[1..] == Filter(data, p);
    FilterSubsequence(data, p);
    FilterCount(data, p);
  }

  /** Inserting the same new ticket into the drawer's own list changes nothing. */
  lemma DrawerListIdempotent(data: seq<Ticket>, t: Ticket)
    ensures DrawerList(DrawerList(data, Some(t)), Some(t)) == DrawerList(data, Some(t))
  {
    var p := (x: Ticket) => x.id != t.id;
    var rest := Filter(data, p);
    var r := [t] + rest;
    assert r[0] == t && r[1..] == rest;
    assert Filter(r, p) == Filter(r[1..], p);
    FilterAll(rest, p);
  }

  class Drawer {
    var tickets: seq<Ticket>
    var loading: bool

    constructor ()
      ensures tickets == [] && !loading
    {
      tickets := [];
      loading := false;
    }

    /** The open effect starting its fetch. */
    method Open()
      modifies this
      ensures loading && tickets == old(tickets)
    {
      loading := true;
    }

    /** The fetch resolving with `data`. */
    method Fetched(data: seq<Ticket>, newTicket: Option<Ticket>)
      modifies this
      ensures !loading && tickets == DrawerList(data, newTicket)
    {
      tickets := DrawerList(data, newTicket);
      loading := false;
    }
  }
}
