/** The frontend's in-memory mock backend (services/mockApi.ts): module-level
    tables that the API functions reassign, the preferences object they merge
    into, and the registry of realtime subscribers. Network latency is not
    modelled: each call is the state change its timer callback makes. */
module MockApi {
  import opened Wrappers
  import opened Seqs
  import opened MockData
  import opened Preferences

  /** The tables of the store, as one value for "nothing else changes" clauses. */
  datatype Tables = Tables(
    tickets: seq<Ticket>,
    alerts: seq<MaintenanceAlert>,
    invoices: seq<Invoice>,
    sessions: seq<Session>,
    notifications: seq<Notification>,
    payouts: seq<Transaction>,
    ledger: seq<LedgerRecord>,
    preferences: map<string, Node>,
    subscribers: seq<nat>)

  class MockStore {
    var tickets: seq<Ticket>
    var alerts: seq<MaintenanceAlert>
    var invoices: seq<Invoice>
    var sessions: seq<Session>
    var notifications: seq<Notification>
    var payouts: seq<Transaction>
    var ledger: seq<LedgerRecord>
    var preferences: map<string, Node>
    /** Realtime callbacks, identified by a handle (JavaScript compares them by reference). */
    var subscribers: seq<nat>

    function Snapshot(): Tables
      reads this
    {
      Tables(tickets, alerts, invoices, sessions, notifications, payouts, ledger, preferences, subscribers)
    }

    /** The store as the module initialises it. */
    constructor ()
      ensures tickets == SeedTickets() && alerts == SeedAlerts() && invoices == SeedInvoices()
      ensures sessions == SeedSessions() && notifications == SeedNotifications()
      ensures payouts == SeedPayouts() && ledger == SeedLedger()
      ensures Branch(preferences) == SeedPreferences() && subscribers == []
    {
      tickets := SeedTickets();
      alerts := SeedAlerts();
      invoices := SeedInvoices();
      sessions := SeedSessions();
      notifications := SeedNotifications();
      payouts := SeedPayouts();
      ledger := SeedLedger();
      preferences := SeedPreferences().children;
      subscribers := [];
    }

    /** `createTicket(draft)`: `rejected` is the outcome of the 5% random draw.
        On rejection nothing changes; otherwise exactly one new ticket is put in
        front of the unchanged list and returned. */
    method CreateTicket(draft: TicketDraft, now: nat, createdAt: string, rejected: bool)
      returns (r: Result<Ticket, string>)
      modifies this
      ensures rejected ==> r == Failure("Network Error") && Snapshot() == old(Snapshot())
      ensures !rejected ==> r == Success(NewTicket(draft, now, createdAt))
      ensures !rejected ==> Snapshot() == old(Snapshot()).(tickets := [r.value] + old(tickets))
    {
      if rejected {
        return Failure("Network Error");
      }
      var t := NewTicket(draft, now, createdAt);
      tickets := [t] + tickets;
      return Success(t);
    }

    /** `acknowledgeAlert(id)`: resolves true after marking the alerts with that id. */
    method AcknowledgeAlert(id: string) returns (ok: bool)
      modifies this
      ensures ok
      ensures Snapshot() == old(Snapshot()).(alerts := Acknowledged(old(alerts), id))
    {
      alerts := Acknowledged(alerts, id);
      ok := true;
    }

    /** `adminSettleInvoice(id)`: resolves true after marking the invoices with that id paid. */
    method AdminSettleInvoice(id: string) returns (ok: bool)
      modifies this
      ensures ok
      ensures Snapshot() == old(Snapshot()).(invoices := Settled(old(invoices), id))
    {
      invoices := Settled(invoices, id);
      ok := true;
    }

    /** `deleteUserSession(id)`. */
    method DeleteUserSession(id: string)
      modifies this
      ensures Snapshot() == old(Snapshot()).(sessions := WithoutSession(old(sessions), id))
    {
      sessions := WithoutSession(sessions, id);
    }

    /** `markNotificationsRead()`. */
    method MarkNotificationsRead()
      modifies this
      ensures Snapshot() == old(Snapshot()).(notifications := MarkedRead(old(notifications)))
    {
      notifications := MarkedRead(notifications);
    }

    /** `updateUserPreferences(partial)`: deep-merges the partial object into the
        stored preferences and resolves with the result. When the merge throws,
        it does so inside the timer callback, so the promise never settles
        (`None`) and the stored preferences stay as they were. */
    method UpdateUserPreferences(partial: Node) returns (r: Option<Node>)
      requires partial.Branch?
      modifies this
      ensures r.Some? <==> Compatible(old(preferences), partial)
      ensures r.Some? ==> Merge(old(preferences), partial) == Some(preferences) && r == Some(Branch(preferences))
      ensures r.None? ==> preferences == old(preferences)
      ensures Snapshot() == old(Snapshot()).(preferences := preferences)
    {
      MergeDefined(preferences, partial);
      match Merge(preferences, partial)
      case Some(m) =>
        preferences := m;
        r := Some(Branch(m));
      case None =>
        r := None;
    }

    /** `subscribeToRealtime(cb)`: registers the callback. */
    method Subscribe(cb: nat)
      modifies this
      ensures Snapshot() == old(Snapshot()).(subscribers := old(subscribers) + [cb])
    {
      subscribers := subscribers + [cb];
    }

    /** The unsubscribe function `subscribeToRealtime` returns: splices out the
        first occurrence of the callback, if any. */
    method Unsubscribe(cb: nat)
      modifies this
      ensures Snapshot() == old(Snapshot()).(subscribers := RemoveFirst(old(subscribers), cb))
      ensures cb !in old(subscribers) ==> subscribers == old(subscribers)
      ensures cb in old(subscribers) ==> multiset(subscribers) == multiset(old(subscribers)) - multiset{cb}
    {
      var index := IndexOf(subscribers, cb);
      if index > -1 {
        subscribers := subscribers[..index] + subscribers[index + 1..];
      }
    }
  }

  /** Subscribing and then calling the returned unsubscribe function, when the
      callback was not registered before, restores the registry; calling it a
      second time changes nothing. */
  /** A subscribe followed by its unsubscribe keeps the same callbacks registered,
      the same number of times each, even when the callback was already registered
      (then it is the earlier registration that the splice removes). */
  method SubscribeThenUnsubscribe(store: MockStore, cb: nat)
    modifies store
    ensures multiset(store.subscribers) == multiset(old(store.subscribers))
    ensures store.Snapshot() == old(store.Snapshot()).(subscribers := store.subscribers)
  {
    store.Subscribe(cb);
    store.Unsubscribe(cb);
    RemoveFirstAfterAppendMultiset(old(store.subscribers), cb);
  }

  method SubscribeThenUnsubscribeTwice(store: MockStore, cb: nat)
    requires cb !in store.subscribers
    modifies store
    ensures store.Snapshot() == old(store.Snapshot())
  {
    store.Subscribe(cb);
    store.Unsubscribe(cb);
    RemoveFirstAfterAppend(old(store.subscribers), cb);
    store.Unsubscribe(cb);
  }
}
