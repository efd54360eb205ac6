/** The records of the frontend's in-memory mock store (services/mockApi.ts) and
    the pure reads and table rewrites its API functions perform on them. Only the
    fields these operations read or write, or that the records carry through
    unchanged, are kept. */
module MockData {
  import opened Wrappers
  import opened Text
  import opened Seqs

  datatype Ticket = Ticket(
    id: string,
    title: string,
    status: string,
    priority: string,
    category: string,
    createdAt: string,
    description: Option<string>,
    assignedTo: Option<string>,
    linkedTransactionId: Option<string>,
    linkedInvoiceId: Option<string>,
    attachments: Option<seq<string>>)

  /** The fields of the `Partial<Ticket>` that `createTicket` reads. */
  datatype TicketDraft = TicketDraft(
    title: Option<string>,
    priority: Option<string>,
    category: Option<string>,
    description: Option<string>,
    linkedTransactionId: Option<string>,
    linkedInvoiceId: Option<string>,
    attachments: Option<seq<string>>)

  datatype MaintenanceAlert = MaintenanceAlert(
    id: string, component: string, issue: string,
    probability: int, daysToFailure: int, trend: seq<int>, acknowledged: bool)

  datatype Invoice = Invoice(
    id: string, customerId: string, siteId: string,
    periodFrom: string, periodTo: string, status: string, createdAt: string, pdfUrl: string)

  datatype Session = Session(id: string, device: string, ip: string, lastActive: string, current: bool)

  datatype Notification = Notification(
    id: string, title: string, message: string, read: bool, timestamp: string, kind: string)

  datatype Transaction = Transaction(
    id: string, date: string, siteName: string, txHash: string, status: string, invoiceId: Option<string>)

  datatype LedgerRecord = LedgerRecord(
    txId: string, invoiceId: Option<string>, verified: bool,
    confirmations: int, blockHeight: int, status: string)

  /** The reply of `verifyLedger`. */
  datatype LedgerCheck = LedgerCheck(verified: bool, details: string, confirmations: int, blockHeight: int)

  // ---------------------------------------------------------------------------
  // createTicket

  /** `x || fallback` for an optional string: both `undefined` and "" are falsy. */
  function OrDefault(x: Option<string>, fallback: string): (r: string)
    ensures x.Some? && x.value != "" ==> r == x.value
    ensures x.None? || x.value == "" ==> r == fallback
  {
    if x.Some? && x.value != "" then x.value else fallback
  }

  /** The ticket `createTicket` builds from a draft, the clock reading `now`
      (`Date.now()`) and its ISO rendering `createdAt`. Title, priority and
      category are the draft's when non-empty and otherwise 'Untitled Ticket',
      'Medium' and 'General'; the id is 't' followed by the digits of `now`;
      the ticket is open and assigned to the support team; the optional fields
      are carried over from the draft. */
  function NewTicket(draft: TicketDraft, now: nat, createdAt: string): (t: Ticket)
    ensures t.title != "" && t.priority != "" && t.category != ""
    ensures draft.title.Some? && draft.title.value != "" ==> t.title == draft.title.value
    ensures draft.title.None? || draft.title.value == "" ==> t.title == "Untitled Ticket"
    ensures draft.priority.Some? && draft.priority.value != "" ==> t.priority == draft.priority.value
    ensures draft.priority.None? || draft.priority.value == "" ==> t.priority == "Medium"
    ensures draft.category.Some? && draft.category.value != "" ==> t.category == draft.category.value
    ensures draft.category.None? || draft.category.value == "" ==> t.category == "General"
    ensures t.createdAt == createdAt
    ensures |t.id| >= 2 && t.id[0] == 't'
    ensures forall i :: 1 <= i < |t.id| ==> IsDigit(t.id[i])
    ensures t.id[1..] == Decimal(now) && DecimalValue(t.id[1..]) == now
    ensures t.status == "Open" && t.assignedTo == Some("Support Team")
    ensures t.description == draft.description && t.attachments == draft.attachments
    ensures t.linkedTransactionId == draft.linkedTransactionId && t.linkedInvoiceId == draft.linkedInvoiceId
  {
    var id := "t" + Decimal(now);
    assert id[1..] == Decimal(now);
    Ticket(
      id := id,
      title := OrDefault(draft.title, "Untitled Ticket"),
      status := "Open",
      priority := OrDefault(draft.priority, "Medium"),
      category := OrDefault(draft.category, "General"),
      createdAt := createdAt,
      description := draft.description,
      assignedTo := Some("Support Team"),
      linkedTransactionId := draft.linkedTransactionId,
      linkedInvoiceId := draft.linkedInvoiceId,
      attachments := draft.attachments)
  }

  // ---------------------------------------------------------------------------
  // acknowledgeAlert, adminSettleInvoice, markNotificationsRead: `map` rewrites

  /** `alerts.map(m => m.id === id ? {...m, acknowledged: true} : m)`: the list
      keeps its length and order, only the `acknowledged` field can change, and it
      is set exactly on the alerts with that id. */
  function Acknowledged(alerts: seq<MaintenanceAlert>, id: string): (r: seq<MaintenanceAlert>)
    ensures |r| == |alerts|
    ensures forall i :: 0 <= i < |r| ==> r[i] == alerts[i].(acknowledged := r[i].acknowledged)
    ensures forall i :: 0 <= i < |r| ==> r[i].acknowledged == (alerts[i].acknowledged || alerts[i].id == id)
  {
    seq(|alerts|, i requires 0 <= i < |alerts| =>
      if alerts[i].id == id then alerts[i].(acknowledged := true) else alerts[i])
  }

  /** `invoices.map(inv => inv.id === id ? {...inv, status: 'Paid'} : inv)`:
      only the status of the invoices with that id changes, and it becomes 'Paid'. */
  function Settled(invoices: seq<Invoice>, id: string): (r: seq<Invoice>)
    ensures |r| == |invoices|
    ensures forall i :: 0 <= i < |r| && invoices[i].id != id ==> r[i] == invoices[i]
    ensures forall i :: 0 <= i < |r| && invoices[i].id == id ==> r[i] == invoices[i].(status := "Paid")
  {
    seq(|invoices|, i requires 0 <= i < |invoices| =>
      if invoices[i].id == id then invoices[i].(status := "Paid") else invoices[i])
  }

  /** `NOTIFICATIONS.map(n => ({...n, read: true}))`. */
  function MarkedRead(ns: seq<Notification>): (r: seq<Notification>)
    ensures |r| == |ns|
    ensures forall i :: 0 <= i < |r| ==> r[i].read && r[i] == ns[i].(read := true)
  {
    seq(|ns|, i requires 0 <= i < |ns| => ns[i].(read := true))
  }

  /** Acknowledging twice is acknowledging once. */
  lemma AcknowledgedIdempotent(alerts: seq<MaintenanceAlert>, id: string)
    ensures Acknowledged(Acknowledged(alerts, id), id) == Acknowledged(alerts, id)
  {
  }

  /** Settling twice is settling once. */
  lemma SettledIdempotent(invoices: seq<Invoice>, id: string)
    ensures Settled(Settled(invoices, id), id) == Settled(invoices, id)
  {
  }

  // ---------------------------------------------------------------------------
  // deleteUserSession: `filter`

  /** `SESSIONS.filter(s => s.id !== id)`: no session with that id is left, every
      other session stays, and nothing new appears. */
  function WithoutSession(sessions: seq<Session>, id: string): (r: seq<Session>)
    ensures forall i :: 0 <= i < |r| ==> r[i].id != id && r[i] in sessions
    ensures forall i :: 0 <= i < |sessions| && sessions[i].id != id ==> sessions[i] in r
  {
    Filter(sessions, (s: Session) => s.id != id)
  }

  /** Deleting an id no session has leaves the list as it was. */
  lemma WithoutSessionAbsent(sessions: seq<Session>, id: string)
    requires forall i :: 0 <= i < |sessions| ==> sessions[i].id != id
    ensures WithoutSession(sessions, id) == sessions
  {
    FilterAll(sessions, (s: Session) => s.id != id);
  }

  /** The remaining sessions keep their order: removal works piecewise. */
  lemma WithoutSessionAppend(a: seq<Session>, b: seq<Session>, id: string)
    ensures WithoutSession(a + b, id) == WithoutSession(a, id) + WithoutSession(b, id)
  {
    FilterAppend(a, b, (s: Session) => s.id != id);
  }

  /** Deleting a session twice is deleting it once. */
  lemma WithoutSessionIdempotent(sessions: seq<Session>, id: string)
    ensures WithoutSession(WithoutSession(sessions, id), id) == WithoutSession(sessions, id)
  {
    WithoutSessionAbsent(WithoutSession(sessions, id), id);
  }

  // ---------------------------------------------------------------------------
  // fetchTransactions, fetchInvoices, fetchSettlement, verifyLedger: reads

  /** The mock's site filter: 'S-B' selects Sector B, every other site id Sector A. */
  function SiteNameFor(siteId: string): (r: string)
    ensures r == "Sector B" <==> siteId == "S-B"
    ensures r == "Sector A" <==> siteId != "S-B"
  {
    if siteId == "S-B" then "Sector B" else "Sector A"
  }

  /** `fetchTransactions(page, filter, siteId)`: a missing or empty site id
      (falsy) returns every payout; otherwise exactly the payouts of the site's
      sector. The page number and the text filter have no effect. */
  function TransactionsForSite(payouts: seq<Transaction>, siteId: Option<string>): (r: seq<Transaction>)
    ensures siteId.None? || siteId.value == "" ==> r == payouts
    ensures siteId.Some? && siteId.value != "" ==>
      (forall i :: 0 <= i < |r| ==> r[i] in payouts && r[i].siteName == SiteNameFor(siteId.value))
    ensures siteId.Some? && siteId.value != "" ==>
      (forall i :: 0 <= i < |payouts| && payouts[i].siteName == SiteNameFor(siteId.value) ==> payouts[i] in r)
  {
    if siteId.None? || siteId.value == "" then payouts
    else
      var name := SiteNameFor(siteId.value);
      Filter(payouts, (t: Transaction) => t.siteName == name)
  }

  /** `fetchInvoices(siteId)`: all invoices for a falsy site id, else exactly those of that site. */
  function InvoicesForSite(invoices: seq<Invoice>, siteId: Option<string>): (r: seq<Invoice>)
    ensures siteId.None? || siteId.value == "" ==> r == invoices
    ensures siteId.Some? && siteId.value != "" ==>
      (forall i :: 0 <= i < |r| ==> r[i] in invoices && r[i].siteId == siteId.value)
    ensures siteId.Some? && siteId.value != "" ==>
      (forall i :: 0 <= i < |invoices| && invoices[i].siteId == siteId.value ==> invoices[i] in r)
  {
    if siteId.None? || siteId.value == "" then invoices
    else Filter(invoices, (inv: Invoice) => inv.siteId == siteId.value)
  }

  /** `fetchSettlement(id)`: the first payout with that id, falling back to the
      first payout; `None` (undefined) only when there is no payout at all. */
  function Settlement(payouts: seq<Transaction>, id: string): (r: Option<Transaction>)
    ensures r.None? <==> payouts == []
    ensures forall i ::
      (0 <= i < |payouts| && payouts[i].id == id && (forall j :: 0 <= j < i ==> payouts[j].id != id))
      ==> r == Some(payouts[i])
    ensures (forall i :: 0 <= i < |payouts| ==> payouts[i].id != id) && payouts != [] ==> r == Some(payouts[0])
  {
    match Find(payouts, (t: Transaction) => t.id == id)
    case Some(t) => Some(t)
    case None => if payouts == [] then None else Some(payouts[0])
  }

  /** `n || fallback` for a number. */
  function OrNumber(n: int, fallback: int): int
  {
    if n != 0 then n else fallback
  }

  /** `verifyLedger(txId)`: verified exactly when the first ledger record with
      that transaction id exists and is verified; its confirmations and block
      height are then reported (a zero replaced by 10 and 180000), and in every
      other case both are 0. */
  function VerifyLedger(ledger: seq<LedgerRecord>, txId: string): (r: LedgerCheck)
    ensures r.verified <==>
      (exists i :: 0 <= i < |ledger| && ledger[i].txId == txId && ledger[i].verified
        && (forall j :: 0 <= j < i ==> ledger[j].txId != txId))
    ensures r.verified ==> r.confirmations != 0 && r.blockHeight != 0
    ensures r.verified ==>
      exists i :: 0 <= i < |ledger| && ledger[i].txId == txId
        && (forall j :: 0 <= j < i ==> ledger[j].txId != txId)
        && r.confirmations == OrNumber(ledger[i].confirmations, 10)
        && r.blockHeight == OrNumber(ledger[i].blockHeight, 180000)
    ensures !r.verified ==> r.confirmations == 0 && r.blockHeight == 0
  {
    match FindIndex(ledger, (l: LedgerRecord) => l.txId == txId)
    case Some(i) =>
      var rec := ledger[i];
      if rec.verified then
        LedgerCheck(true, "Cryptographic signature matched. Merkle root valid.",
          OrNumber(rec.confirmations, 10), OrNumber(rec.blockHeight, 180000))
      else
        LedgerCheck(false, "Hash mismatch or transaction pending.", 0, 0)
    case None =>
      LedgerCheck(false, "Hash mismatch or transaction pending.", 0, 0)
  }

  // ---------------------------------------------------------------------------
  // Seed data

  function SeedTickets(): seq<Ticket>
  {
    [ Ticket("t1", "Inverter #4 Connectivity", "In Progress", "Critical", "Hardware", "2023-10-24T10:00:00Z", None, Some("Tech. Mike"), None, None, None),
      Ticket("t2", "Low Voltage Sector B", "Open", "Medium", "Performance", "2023-10-23T14:30:00Z", None, Some("Unassigned"), None, None, None),
      Ticket("t3", "Billing Inquiry Oct", "Resolved", "Low", "Billing", "2023-10-20T09:15:00Z", None, None, None, None, None),
      Ticket("t4", "Panel Cleaning Request", "Open", "Low", "Maintenance", "2023-10-18T11:00:00Z", None, None, None, None, None) ]
  }

  function SeedAlerts(): seq<MaintenanceAlert>
  {
    [ MaintenanceAlert("m1", "Inverter #2 Cooling Fan", "RPM fluctuation", 78, 14, [20, 25, 30, 45, 60, 78], false),
      MaintenanceAlert("m2", "String B Connector", "Thermal hotspot", 45, 30, [10, 12, 15, 18, 25, 45], false) ]
  }

  function SeedSessions(): seq<Session>
  {
    [ Session("s1", "Chrome on MacOS", "192.168.1.42", "Just now", true),
      Session("s2", "Safari on iPhone 14", "10.0.0.5", "2 days ago", false),
      Session("s3", "Firefox on Windows", "172.16.0.2", "1 week ago", false) ]
  }

  function SeedNotifications(): seq<Notification>
  {
    [ Notification("n1", "Payment Received", "$540.00 credited to wallet", false, "10m ago", "success"),
      Notification("n2", "System Alert", "Inverter #4 communication lost", false, "1h ago", "alert") ]
  }

  function SeedPayouts(): seq<Transaction>
  {
    [ Transaction("t1", "2023-10-24", "Sector A", "0x8f2a...3a21", "Completed", Some("INV-2023-001")),
      Transaction("t2", "2023-09-24", "Sector B", "0x7b9c...99c2", "Completed", Some("INV-2023-002")),
      Transaction("t3", "2023-08-24", "Sector A", "0x1c4d...ff41", "Completed", Some("INV-2023-002")),
      Transaction("t4", "2023-11-01", "Sector A", "Pending", "Pending", None) ]
  }

  function SeedInvoices(): seq<Invoice>
  {
    [ Invoice("INV-2023-001", "C-8821", "S-A", "2023-10-01", "2023-10-31", "Paid", "2023-11-01", "#"),
      Invoice("INV-2023-002", "C-8821", "S-B", "2023-09-01", "2023-09-30", "Paid", "2023-10-01", "#"),
      Invoice("INV-2023-003", "C-8821", "S-A", "2023-11-01", "2023-11-07", "Draft", "2023-11-08", "#") ]
  }

  function SeedLedger(): seq<LedgerRecord>
  {
    [ LedgerRecord("0x8f2a...3a21", Some("INV-2023-001"), true, 128, 18452301, "Verified"),
      LedgerRecord("0x7b9c...99c2", Some("INV-2023-002"), true, 4500, 18345100, "Verified"),
      LedgerRecord("0x1c4d...ff41", Some("INV-2023-002"), true, 8900, 18230999, "Verified"),
      LedgerRecord("0x9d8e...aa12", None, false, 0, 18500100, "Pending") ]
  }

  /** On the seed ledger, a confirmed transaction reports its own figures and the
      pending one is reported unverified with zeros. */
  lemma SeedLedgerChecks()
    ensures VerifyLedger(SeedLedger(), "0x8f2a...3a21") == LedgerCheck(true, "Cryptographic signature matched. Merkle root valid.", 128, 18452301)
    ensures VerifyLedger(SeedLedger(), "0x9d8e...aa12").verified == false
    ensures VerifyLedger(SeedLedger(), "0xunknown").verified == false
  {
    var l := SeedLedger();
    assert l[0].txId == "0x8f2a...3a21";
    assert l[3].txId == "0x9d8e...aa12" && !l[3].verified;
    assert forall j :: 0 <= j < 3 ==> l[j].txId != "0x9d8e...aa12";
    assert forall j :: 0 <= j < 4 ==> l[j].txId != "0xunknown";
  }
}
