/** The payment routes of the backend (suncube-backend/src/routes/payments.ts):
    drafting an invoice for a payment, fetching its download URL, and requesting
    a payout. The `payments` table is a map from payment id to record, and the
    `audit_logs` table and the invoice job queue are append-only sequences. */
module Payments {
  import opened Wrappers
  import opened Text

  datatype Payment = Payment(id: string, customerId: string, status: string, draftId: Option<string>, invoicePath: Option<string>)

  /** The `meta` object of an audit row. */
  datatype AuditMeta = DraftMeta(draftId: string) | PayoutMeta(amount: real, notes: Option<string>)

  datatype AuditEntry = AuditEntry(userId: string, action: string, resourceType: string, resourceId: string, meta: AuditMeta)

  /** `invoiceQueue.add(name, data)`. */
  datatype Job = Job(name: string, paymentId: string)

  datatype Reply =
    | NotFound(error: string)
    | Forbidden(error: string)
    | DraftCreated(draftId: string, invoicePath: string, message: string)
    | DownloadUrl(url: string)
    | PayoutQueued(customerId: string, message: string)

  /** `DRAFT-${Date.now()}`: the prefix followed by the digits of the clock reading. */
  function DraftIdFor(now: nat): (r: string)
    ensures |r| > 6 && r[..6] == "DRAFT-"
    ensures forall i :: 6 <= i < |r| ==> IsDigit(r[i])
    ensures DecimalValue(r[6..]) == now
  {
    var r := "DRAFT-" + Decimal(now);
    assert r[6..] == Decimal(now);
    r
  }

  /** `invoices/${customer_id}/${draftId}.pdf`. */
  function InvoicePathFor(customerId: string, draftId: string): string
  {
    "invoices/" + customerId + "/" + draftId + ".pdf"
  }

  /** For a customer id without '/', the invoice path splits into the folder,
      the customer id and the draft's file name. */
  lemma InvoicePathParts(customerId: string, now: nat)
    requires '/' !in customerId
    ensures Split(InvoicePathFor(customerId, DraftIdFor(now)), '/') == ["invoices", customerId, DraftIdFor(now) + ".pdf"]
  {
    var file := DraftIdFor(now) + ".pdf";
    var parts := ["invoices", customerId, file];
    assert '/' !in file by {
      forall i | 0 <= i < |file|
        ensures file[i] != '/'
      {
        if i < |DraftIdFor(now)| {
          assert file[i] == DraftIdFor(now)[i];
          if i >= 6 { assert IsDigit(DraftIdFor(now)[i]); }
        }
      }
    }
    assert Join(parts, '/') == InvoicePathFor(customerId, DraftIdFor(now)) by {
      assert parts[1..] == [customerId, file] && parts[1..][1..] == [file];
      assert Join([file], '/') == file;
      assert Join([customerId, file], '/') == customerId + ['/'] + file;
      assert "invoices" + ['/'] == "invoices/";
      assert Join(parts, '/') == "invoices" + ['/'] + (customerId + ['/'] + file);
    }
    SplitJoin(parts, '/');
  }

  /** The roles allowed to request a payout. */
  predicate MayRequestPayout(role: string)
  {
    role == "admin" || role == "customer"
  }

  class PaymentsService {
    var payments: map<string, Payment>
    var audit: seq<AuditEntry>
    var queue: seq<Job>

    constructor (payments: map<string, Payment>)
      ensures this.payments == payments && audit == [] && queue == []
    {
      this.payments := payments;
      audit := [];
      queue := [];
    }

    /** Whether the record of a payment has an invoice path (`!payment.invoice_path` is false). */
    predicate HasInvoice(paymentId: string)
      reads this
    {
      paymentId in payments && payments[paymentId].invoicePath.Some? && payments[paymentId].invoicePath.value != ""
    }

    /** `POST /generate-invoice` by user `userId` at clock reading `now`. An
        unknown payment is a 404 and changes nothing. Otherwise only that payment
        changes (its draft id, invoice path and status 'Draft'), one audit row
        and one job carrying the payment id are appended, and the reply repeats
        the draft id and path that were written. */
    method GenerateInvoice(userId: string, paymentId: string, now: nat) returns (r: Reply)
      modifies this
      ensures paymentId !in old(payments) ==>
        r == NotFound("Payment record not found")
        && payments == old(payments) && audit == old(audit) && queue == old(queue)
      ensures paymentId in old(payments) ==>
        var draftId := DraftIdFor(now);
        var path := InvoicePathFor(old(payments)[paymentId].customerId, draftId);
        && r == DraftCreated(draftId, path, "Invoice draft generated and rendering queued.")
        && payments == old(payments)[paymentId :=
             old(payments)[paymentId].(draftId := Some(draftId), invoicePath := Some(path), status := "Draft")]
        && audit == old(audit) + [AuditEntry(userId, "GENERATE_INVOICE_DRAFT", "payments", paymentId, DraftMeta(draftId))]
        && queue == old(queue) + [Job("generate_pdf", paymentId)]
      ensures paymentId in old(payments) ==> HasInvoice(paymentId)
    {
      if paymentId !in payments {
        return NotFound("Payment record not found");
      }
      var payment := payments[paymentId];
      var draftId := DraftIdFor(now);
      var invoicePath := InvoicePathFor(payment.customerId, draftId);
      payments := payments[paymentId := payment.(draftId := Some(draftId), invoicePath := Some(invoicePath), status := "Draft")];
      audit := audit + [AuditEntry(userId, "GENERATE_INVOICE_DRAFT", "payments", paymentId, DraftMeta(draftId))];
      queue := queue + [Job("generate_pdf", paymentId)];
      r := DraftCreated(draftId, invoicePath, "Invoice draft generated and rendering queued.");
    }

    /** `GET /:paymentId/invoice-url`; `sign` is the storage's download-URL signer. */
    method InvoiceUrl(paymentId: string, sign: string -> string) returns (r: Reply)
      ensures r.NotFound? <==> !HasInvoice(paymentId)
      ensures r.NotFound? ==> r == NotFound("Invoice not generated yet")
      ensures !r.NotFound? ==> r == DownloadUrl(sign(payments[paymentId].invoicePath.value))
    {
      if paymentId !in payments || payments[paymentId].invoicePath.None? || payments[paymentId].invoicePath.value == "" {
        return NotFound("Invoice not generated yet");
      }
      r := DownloadUrl(sign(payments[paymentId].invoicePath.value));
    }

    /** `POST /:customerId/request-payout` by user `userId` with role `role`:
        403 with no audit row unless the role is admin or customer; otherwise one
        REQUEST_PAYOUT row is appended and the request is reported queued. */
    method RequestPayout(userId: string, role: string, customerId: string, amount: real, notes: Option<string>)
      returns (r: Reply)
      modifies this
      ensures payments == old(payments) && queue == old(queue)
      ensures !MayRequestPayout(role) ==> r == Forbidden("Unauthorized") && audit == old(audit)
      ensures MayRequestPayout(role) ==>
        r == PayoutQueued(customerId, "Payout request received and queued for processing.")
        && audit == old(audit) + [AuditEntry(userId, "REQUEST_PAYOUT", "customers", customerId, PayoutMeta(amount, notes))]
    {
      if role != "admin" && role != "customer" {
        return Forbidden("Unauthorized");
      }
      audit := audit + [AuditEntry(userId, "REQUEST_PAYOUT", "customers", customerId, PayoutMeta(amount, notes))];
      r := PayoutQueued(customerId, "Payout request received and queued for processing.");
    }
  }

  /** Once a draft has been generated, the invoice URL of that payment is served. */
  method GenerateThenFetch(svc: PaymentsService, userId: string, paymentId: string, now: nat, sign: string -> string)
    returns (url: Reply)
    requires paymentId in svc.payments
    modifies svc
    ensures url == DownloadUrl(sign(InvoicePathFor(old(svc.payments)[paymentId].customerId, DraftIdFor(now))))
  {
    var draft := svc.GenerateInvoice(userId, paymentId, now);
    url := svc.InvoiceUrl(paymentId, sign);
  }

  /** Generating twice for the same payment queues two jobs and keeps only the
      second draft: there is no deduplication. */
  method GenerateTwice(svc: PaymentsService, userId: string, paymentId: string, t1: nat, t2: nat)
    requires paymentId in svc.payments
    modifies svc
    ensures svc.queue == old(svc.queue) + [Job("generate_pdf", paymentId), Job("generate_pdf", paymentId)]
    ensures |svc.audit| == |old(svc.audit)| + 2
    ensures paymentId in svc.payments && svc.payments[paymentId].draftId == Some(DraftIdFor(t2))
  {
    var first := svc.GenerateInvoice(userId, paymentId, t1);
    var second := svc.GenerateInvoice(userId, paymentId, t2);
  }
}
