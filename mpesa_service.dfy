/** `MpesaService`: starting an STK push for an invoice, and reconciling the
    provider's asynchronous callback. The OAuth token fetch and the push POST
    are inputs to the model: `None` stands for a request that failed. */
module MpesaService {
  import opened Common
  import opened Store
  import opened MpesaDto
  import opened MpesaFormat
  import opened Patterns
  import RentInvoicesService

  const GatewayUnavailable: Error := Internal("Payment gateway unavailable")
  const InitiateFailed: Error := Internal("Failed to initiate M-Pesa payment")

  /** `MPESA_SHORTCODE`, `MPESA_PASSKEY`, `MPESA_CALLBACK_URL`. */
  datatype MpesaConfig = MpesaConfig(shortcode: string, passkey: string, callbackUrl: string)

  /** The body of the push request. The password is kept as the text it is
      the base64 encoding of. */
  datatype StkPushRequest = StkPushRequest(
    businessShortCode: string,
    passwordSource: string,
    timestamp: string,
    transactionType: string,
    amount: int,
    partyA: string,
    partyB: string,
    phoneNumber: string,
    callBackUrl: string,
    accountReference: string,
    transactionDesc: string)

  /** The outbound calls one initiation makes, in order. */
  datatype GatewayCall = TokenRequest | StkPush(request: StkPushRequest)

  function PushRequest(config: MpesaConfig, dto: InitiateStkPushDto, invoiceId: Id, iso: string): StkPushRequest {
    var timestamp := GatewayTimestamp(iso);
    var phone := GatewayPhone(dto.phone);
    StkPushRequest(config.shortcode, PasswordSource(config.shortcode, config.passkey, timestamp), timestamp,
                   "CustomerPayBillOnline", dto.amount, phone, config.shortcode, phone, config.callbackUrl,
                   AccountReference(invoiceId), "Rent Payment")
  }

  /** For a validated request, an instant in ISO form and the invoice it names,
      the push carries a 14-digit timestamp that also ends the password text,
      the same twelve-digit `254...` number as payer and phone, the shortcode
      as receiver, and a twelve-character account reference. */
  lemma PushRequestWellFormed(config: MpesaConfig, dto: InitiateStkPushDto, iso: string)
    requires Valid(dto) && IsIsoInstant(iso)
    ensures var req := PushRequest(config, dto, dto.rentInvoiceId, iso);
      && |req.timestamp| == 14 && (forall i :: 0 <= i < 14 ==> IsDigit(req.timestamp[i]))
      && req.passwordSource == config.shortcode + config.passkey + req.timestamp
      && req.partyA == req.phoneNumber == dto.phone[1..]
      && |req.partyA| == 12 && req.partyA[..3] == "254"
      && req.partyB == req.businessShortCode == config.shortcode
      && req.amount == dto.amount >= 1
      && |req.accountReference| == 12 && req.accountReference == dto.rentInvoiceId[..12]
  {
    ValidMeaning(dto);
    IsoTimestamp(iso);
    GatewayPhoneOfValidPhone(dto.phone);
    AccountReferenceOfUuid(dto.rentInvoiceId);
  }

  /** Recording a PENDING payment for an invoice of its own tenant, under an
      unused checkout id, keeps the tables consistent and touches only that
      tenant's rows. */
  lemma RecordPaymentKeepsConsistent(db: Tables, p: Payment)
    requires Consistent(db) && p.id !in db.payments
    requires p.rentInvoiceId.Some? && p.rentInvoiceId.value in db.invoices
    requires db.invoices[p.rentInvoiceId.value].tenantId == p.tenantId
    requires forall k :: k in db.payments ==> db.payments[k].checkoutRequestId != p.checkoutRequestId
    ensures Consistent(db.(payments := db.payments[p.id := p]))
    ensures Confined(db, db.(payments := db.payments[p.id := p]), p.tenantId)
  {
    RecordPaymentConfined(db, p);
    var db' := db.(payments := db.payments[p.id := p]);
    assert Keyed(db');
    assert PaymentsLinked(db');
    assert CheckoutIdsUnique(db');
  }

  lemma RecordPaymentConfined(db: Tables, p: Payment)
    requires p.id !in db.payments
    ensures Confined(db, db.(payments := db.payments[p.id := p]), p.tenantId)
  {
    assert PaymentsUntouched(db.payments, db.payments[p.id := p], p.tenantId);
  }

  // ----- callback reconciliation, on the tables -----

  /** `ResultCode === 0 && CallbackMetadata`: the branch that settles. */
  predicate Succeeded(cb: StkCallback) {
    cb.resultCode == 0 && cb.callbackMetadata.Some?
  }

  /** The receipt item holds a number: writing it to the text column makes the
      database reject the transaction. */
  predicate ReceiptRejected(cb: StkCallback) {
    Succeeded(cb) && ReceiptItem(cb.callbackMetadata.value).Some?
    && ReceiptItem(cb.callbackMetadata.value).value.value.Number?
  }

  /** `payment.rentInvoiceId` taken as a condition: set and non-empty. */
  predicate HasInvoice(p: Payment) {
    p.rentInvoiceId.Some? && p.rentInvoiceId.value != ""
  }

  /** The receipt written by the settling update: the text of the first
      `MpesaReceiptNumber` item; with no such item the field is `undefined` and
      the stored value stays. */
  function ReceiptAfter(p: Payment, cb: StkCallback): Option<string>
    requires Succeeded(cb)
  {
    var item := ReceiptItem(cb.callbackMetadata.value);
    if item.Some? && item.value.value.Text? then Some(item.value.value.text) else p.mpesaReceipt
  }

  /** Item `i` is the first one named `MpesaReceiptNumber`. */
  predicate FirstReceiptAt(items: seq<CallbackItem>, i: int) {
    && 0 <= i < |items| && items[i].name == ReceiptItemName
    && forall j :: 0 <= j < i ==> items[j].name != ReceiptItemName
  }

  /** `find` returns the first item with the receipt's name. */
  lemma ReceiptItemIsFirst(items: seq<CallbackItem>)
    ensures forall i :: FirstReceiptAt(items, i) ==> ReceiptItem(items) == Some(items[i])
  {
    forall i | FirstReceiptAt(items, i)
      ensures ReceiptItem(items) == Some(items[i])
    {
      var r := ReceiptItem(items);
      assert r.Some?;
      var k :| 0 <= k < |items| && items[k] == r.value
               && forall j :: 0 <= j < k ==> items[j].name != ReceiptItemName;
      assert items[k].name == ReceiptItemName;
      assert k == i;
    }
  }

  /** The settling update of the payment row: COMPLETED, the raw payload kept,
      the receipt taken from the first `MpesaReceiptNumber` item when that item
      holds text and left as stored when there is no such item; every other
      column (owner, agreement, invoice, amount, channel, checkout id) as it was. */
  function Completed(p: Payment, payload: MpesaCallbackDto): (q: Payment)
    requires Succeeded(payload.stkCallback)
    ensures q == p.(status := COMPLETED, mpesaReceipt := q.mpesaReceipt, rawResponse := Some(payload))
    ensures var items := payload.stkCallback.callbackMetadata.value;
      forall i :: FirstReceiptAt(items, i) && items[i].value.Text? ==> q.mpesaReceipt == Some(items[i].value.text)
    ensures var items := payload.stkCallback.callbackMetadata.value;
      (forall i :: 0 <= i < |items| ==> items[i].name != ReceiptItemName) ==> q.mpesaReceipt == p.mpesaReceipt
  {
    ReceiptItemIsFirst(payload.stkCallback.callbackMetadata.value);
    p.(status := COMPLETED, mpesaReceipt := ReceiptAfter(p, payload.stkCallback), rawResponse := Some(payload))
  }

  /** `rentInvoice.update({ where: { id }, data: { isPaid: true } })`. */
  function MarkPaid(invoices: map<Id, RentInvoice>, iid: Id): (r: map<Id, RentInvoice>)
    requires iid in invoices
    ensures r.Keys == invoices.Keys && r[iid].isPaid
    ensures r[iid] == invoices[iid].(isPaid := r[iid].isPaid)
    ensures forall k :: k in invoices ==> r[k].id == invoices[k].id && r[k].tenantId == invoices[k].tenantId
    ensures forall k :: k in invoices && k != iid ==> r[k] == invoices[k]
  {
    invoices[iid := invoices[iid].(isPaid := true)]
  }

  /** The settling transaction: payment COMPLETED with receipt and raw payload,
      then its invoice marked paid. */
  function Settle(db: Tables, pid: Id, payload: MpesaCallbackDto): Tables
    requires pid in db.payments && Succeeded(payload.stkCallback)
    requires HasInvoice(db.payments[pid]) ==> db.payments[pid].rentInvoiceId.value in db.invoices
  {
    var p := db.payments[pid];
    db.(payments := db.payments[pid := Completed(p, payload)],
        invoices := if HasInvoice(p) then MarkPaid(db.invoices, p.rentInvoiceId.value) else db.invoices)
  }

  /** The failing update: payment FAILED with the raw payload; invoices untouched. */
  function Fail(db: Tables, pid: Id, payload: MpesaCallbackDto): Tables
    requires pid in db.payments
  {
    var p := db.payments[pid];
    db.(payments := db.payments[pid := p.(status := FAILED, rawResponse := Some(payload))])
  }

  /** The invoice a payment names is stored and belongs to the same tenant. */
  lemma InvoiceOfPayment(db: Tables, pid: Id)
    requires PaymentsLinked(db) && pid in db.payments
    ensures HasInvoice(db.payments[pid]) ==>
      var iid := db.payments[pid].rentInvoiceId.value;
      iid in db.invoices && db.invoices[iid].tenantId == db.payments[pid].tenantId
  {
  }

  /** Rewriting payments and invoices without touching their keys, owners,
      invoice links or correlation ids keeps the tables consistent. */
  lemma BookkeepingKeepsConsistent(db: Tables, db': Tables)
    requires Consistent(db)
    requires db'.tenants == db.tenants && db'.users == db.users && db'.properties == db.properties
    requires db'.units == db.units && db'.renters == db.renters && db'.agreements == db.agreements
    requires db'.payments.Keys == db.payments.Keys && db'.invoices.Keys == db.invoices.Keys
    requires forall k :: k in db.payments ==>
      && db'.payments[k].id == db.payments[k].id
      && db'.payments[k].tenantId == db.payments[k].tenantId
      && db'.payments[k].rentInvoiceId == db.payments[k].rentInvoiceId
      && db'.payments[k].checkoutRequestId == db.payments[k].checkoutRequestId
    requires forall k :: k in db.invoices ==>
      db'.invoices[k].id == db.invoices[k].id && db'.invoices[k].tenantId == db.invoices[k].tenantId
    ensures Consistent(db')
  {
    assert Keyed(db');
    assert PaymentsLinked(db');
    assert CheckoutIdsUnique(db');
  }

  /** Settling rewrites status, receipt, payload and `isPaid` only. */
  lemma SettleKeepsKeys(db: Tables, pid: Id, payload: MpesaCallbackDto)
    requires pid in db.payments && Succeeded(payload.stkCallback)
    requires HasInvoice(db.payments[pid]) ==> db.payments[pid].rentInvoiceId.value in db.invoices
    ensures var db' := Settle(db, pid, payload);
      && db'.tenants == db.tenants && db'.users == db.users && db'.properties == db.properties
      && db'.units == db.units && db'.renters == db.renters && db'.agreements == db.agreements
      && db'.payments.Keys == db.payments.Keys && db'.invoices.Keys == db.invoices.Keys
      && (forall k :: k in db.payments ==>
            && db'.payments[k].id == db.payments[k].id
            && db'.payments[k].tenantId == db.payments[k].tenantId
            && db'.payments[k].rentInvoiceId == db.payments[k].rentInvoiceId
            && db'.payments[k].checkoutRequestId == db.payments[k].checkoutRequestId)
      && (forall k :: k in db.invoices ==>
            db'.invoices[k].id == db.invoices[k].id && db'.invoices[k].tenantId == db.invoices[k].tenantId)
  {
  }

  lemma SettleKeepsConsistent(db: Tables, pid: Id, payload: MpesaCallbackDto)
    requires Consistent(db) && pid in db.payments && Succeeded(payload.stkCallback)
    ensures HasInvoice(db.payments[pid]) ==> db.payments[pid].rentInvoiceId.value in db.invoices
    ensures Consistent(Settle(db, pid, payload))
  {
    InvoiceOfPayment(db, pid);
    SettleKeepsKeys(db, pid, payload);
    BookkeepingKeepsConsistent(db, Settle(db, pid, payload));
  }

  /** Settling touches only rows of the payment's own tenant, though the
      payment was found without any tenant filter. */
  lemma SettleConfined(db: Tables, pid: Id, payload: MpesaCallbackDto)
    requires pid in db.payments && Succeeded(payload.stkCallback)
    requires HasInvoice(db.payments[pid]) ==>
      var iid := db.payments[pid].rentInvoiceId.value;
      iid in db.invoices && db.invoices[iid].tenantId == db.payments[pid].tenantId
    ensures Confined(db, Settle(db, pid, payload), db.payments[pid].tenantId)
  {
    var t := db.payments[pid].tenantId;
    var db' := Settle(db, pid, payload);
    assert PaymentsUntouched(db.payments, db'.payments, t);
    assert InvoicesUntouched(db.invoices, db'.invoices, t);
  }

  lemma FailKeepsConsistent(db: Tables, pid: Id, payload: MpesaCallbackDto)
    requires Consistent(db) && pid in db.payments
    ensures Consistent(Fail(db, pid, payload))
  {
    BookkeepingKeepsConsistent(db, Fail(db, pid, payload));
  }

  lemma FailConfined(db: Tables, pid: Id, payload: MpesaCallbackDto)
    requires pid in db.payments
    ensures Confined(db, Fail(db, pid, payload), db.payments[pid].tenantId)
  {
    assert PaymentsUntouched(db.payments, Fail(db, pid, payload).payments, db.payments[pid].tenantId);
  }

  /** A success callback delivered twice has the effect of one delivery. */
  lemma SettleIdempotent(db: Tables, pid: Id, payload: MpesaCallbackDto)
    requires pid in db.payments && Succeeded(payload.stkCallback)
    requires HasInvoice(db.payments[pid]) ==> db.payments[pid].rentInvoiceId.value in db.invoices
    ensures Settle(Settle(db, pid, payload), pid, payload) == Settle(db, pid, payload)
  {
    var p := db.payments[pid];
    var once := Settle(db, pid, payload);
    var q := once.payments[pid];
    assert q == Completed(p, payload);
    assert ReceiptAfter(q, payload.stkCallback) == q.mpesaReceipt;
    assert Completed(q, payload) == q;
    assert Settle(once, pid, payload).payments == once.payments;
    if HasInvoice(p) {
      var iid := p.rentInvoiceId.value;
      assert once.invoices[iid].isPaid;
      assert MarkPaid(once.invoices, iid) == once.invoices;
    }
  }

  /** The payment the provider's correlation id names. */
  predicate Names(payments: map<Id, Payment>, pid: Id, checkoutRequestId: string) {
    pid in payments && payments[pid].checkoutRequestId == Some(checkoutRequestId)
  }

  /** With unique checkout ids, a correlation id names at most one payment. */
  lemma OnlyMatch(db: Tables, pid: Id, cid: string)
    requires CheckoutIdsUnique(db) && Names(db.payments, pid, cid)
    ensures forall k :: Names(db.payments, k, cid) ==> k == pid
  {
  }

  /** The payment a correlation id names, if any: the unscoped
      `payment.update({ where: { checkoutRequestId } })` looks in every tenant. */
  ghost function Matched(payments: map<Id, Payment>, cid: string): (r: Option<Id>)
    ensures r.None? <==> forall k :: k in payments ==> !Names(payments, k, cid)
    ensures r.Some? ==> Names(payments, r.value, cid)
  {
    if exists k :: k in payments && Names(payments, k, cid) then
      var k :| k in payments && Names(payments, k, cid); Some(k)
    else None
  }

  /** The tables after one callback: unchanged when no payment matches or the
      settling transaction is rejected; settled on success; failed otherwise. */
  ghost function CallbackOutcome(db: Tables, payload: MpesaCallbackDto): Tables
    requires Consistent(db)
  {
    var cb := payload.stkCallback;
    match Matched(db.payments, cb.checkoutRequestId)
    case None => db
    case Some(pid) =>
      if !Succeeded(cb) then Fail(db, pid, payload)
      else if ReceiptRejected(cb) then db
      else InvoiceOfPayment(db, pid); Settle(db, pid, payload)
  }

  /** The outcome for the payment the correlation id names. */
  lemma CallbackOutcomeOf(db: Tables, payload: MpesaCallbackDto, pid: Id)
    requires Consistent(db) && Names(db.payments, pid, payload.stkCallback.checkoutRequestId)
    ensures HasInvoice(db.payments[pid]) ==> db.payments[pid].rentInvoiceId.value in db.invoices
    ensures var cb := payload.stkCallback;
      CallbackOutcome(db, payload) ==
        if !Succeeded(cb) then Fail(db, pid, payload)
        else if ReceiptRejected(cb) then db
        else Settle(db, pid, payload)
  {
    OnlyMatch(db, pid, payload.stkCallback.checkoutRequestId);
    InvoiceOfPayment(db, pid);
  }

  /** The callback keeps the tables consistent. */
  lemma CallbackKeepsConsistent(db: Tables, payload: MpesaCallbackDto)
    requires Consistent(db)
    ensures Consistent(CallbackOutcome(db, payload))
  {
    var cb := payload.stkCallback;
    match Matched(db.payments, cb.checkoutRequestId)
    case None =>
    case Some(pid) =>
      CallbackOutcomeOf(db, payload, pid);
      if !Succeeded(cb) {
        FailKeepsConsistent(db, pid, payload);
      } else if !ReceiptRejected(cb) {
        SettleKeepsConsistent(db, pid, payload);
      }
  }

  /** The callback touches only the rows of the matched payment's tenant, though
      it looked the payment up in every tenant. */
  lemma CallbackConfined(db: Tables, payload: MpesaCallbackDto, pid: Id)
    requires Consistent(db) && Names(db.payments, pid, payload.stkCallback.checkoutRequestId)
    ensures Confined(db, CallbackOutcome(db, payload), db.payments[pid].tenantId)
  {
    var cb := payload.stkCallback;
    CallbackOutcomeOf(db, payload, pid);
    InvoiceOfPayment(db, pid);
    if !Succeeded(cb) {
      FailConfined(db, pid, payload);
    } else if !ReceiptRejected(cb) {
      SettleConfined(db, pid, payload);
    }
  }

  /** What a callback does, case by case. */
  lemma CallbackMeaning(db: Tables, payload: MpesaCallbackDto)
    requires Consistent(db)
    ensures var cb := payload.stkCallback;
      (forall k :: k in db.payments ==> !Names(db.payments, k, cb.checkoutRequestId)) ==>
        CallbackOutcome(db, payload) == db
    ensures var cb := payload.stkCallback;
      forall pid :: Names(db.payments, pid, cb.checkoutRequestId) ==>
        && (ReceiptRejected(cb) ==> CallbackOutcome(db, payload) == db)
        && (!Succeeded(cb) ==> CallbackOutcome(db, payload) == Fail(db, pid, payload))
        && (Succeeded(cb) && !ReceiptRejected(cb) ==>
              (HasInvoice(db.payments[pid]) ==> db.payments[pid].rentInvoiceId.value in db.invoices)
              && CallbackOutcome(db, payload) == Settle(db, pid, payload))
  {
    forall pid | Names(db.payments, pid, payload.stkCallback.checkoutRequestId) {
      CallbackOutcomeOf(db, payload, pid);
    }
  }

  class MpesaService {
    const prisma: Store

    constructor(prisma: Store)
      ensures this.prisma == prisma
    {
      this.prisma := prisma;
    }

    /** `initiateStkPush`: invoice lookup under the tenant, token, push, and a
        PENDING payment keyed by the returned `CheckoutRequestID`. `token` and
        `pushed` are what the two HTTP calls yield; `iso` is the current instant
        as `toISOString()` prints it. */
    method InitiateStkPush(t: Id, dto: InitiateStkPushDto, config: MpesaConfig, iso: string,
                           token: Option<string>, pushed: Option<string>, newId: Id)
      returns (r: Result<Payment>, calls: seq<GatewayCall>)
      requires t != "" && Valid(dto)
      requires prisma.Valid() && newId !in prisma.payments
      modifies prisma
      ensures !RentInvoicesService.Owned(old(prisma.invoices), dto.rentInvoiceId, t) ==>
        r == Err(RentInvoicesService.InvoiceNotFound) && calls == [] && prisma.State() == old(prisma.State())
      ensures RentInvoicesService.Owned(old(prisma.invoices), dto.rentInvoiceId, t) && token.None? ==>
        r == Err(GatewayUnavailable) && calls == [TokenRequest] && prisma.State() == old(prisma.State())
      ensures RentInvoicesService.Owned(old(prisma.invoices), dto.rentInvoiceId, t) && token.Some? ==>
        calls == [TokenRequest, StkPush(PushRequest(config, dto, dto.rentInvoiceId, iso))]
      ensures RentInvoicesService.Owned(old(prisma.invoices), dto.rentInvoiceId, t) && token.Some? && pushed.None? ==>
        r == Err(InitiateFailed) && prisma.State() == old(prisma.State())
      ensures r.Ok? ==>
        && pushed.Some? && dto.rentInvoiceId in old(prisma.invoices)
        && r.value == Payment(newId, t, old(prisma.invoices[dto.rentInvoiceId].rentalAgreementId),
                              Some(dto.rentInvoiceId), dto.amount, "MPESA", pushed, PENDING, None, None)
        && prisma.State() == old(prisma.State()).(payments := old(prisma.payments)[newId := r.value])
      ensures r.Err? ==> prisma.State() == old(prisma.State())
      ensures RentInvoicesService.Owned(old(prisma.invoices), dto.rentInvoiceId, t) && token.Some? && pushed.Some? ==>
        (r.Ok? <==> forall k :: k in old(prisma.payments) ==> old(prisma.payments[k].checkoutRequestId) != pushed)
      ensures r.Err? && pushed.Some? && token.Some? && RentInvoicesService.Owned(old(prisma.invoices), dto.rentInvoiceId, t) ==>
        r == Err(UncaughtDatabaseError)
      ensures prisma.Valid()
      ensures Confined(old(prisma.State()), prisma.State(), t)
    {
      calls := [];
      if !RentInvoicesService.Owned(prisma.invoices, dto.rentInvoiceId, t) {
        return Err(RentInvoicesService.InvoiceNotFound), calls;
      }
      var invoice := prisma.invoices[dto.rentInvoiceId];
      calls := calls + [TokenRequest];
      if token.None? {
        return Err(GatewayUnavailable), calls;
      }
      var request := PushRequest(config, dto, invoice.id, iso);
      calls := calls + [StkPush(request)];
      if pushed.None? {
        return Err(InitiateFailed), calls;
      }
      // The insert's promise is returned from inside `try` without being
      // awaited there, so a database rejection escapes the `catch`.
      if exists k :: k in prisma.payments && prisma.payments[k].checkoutRequestId == pushed {
        return Err(UncaughtDatabaseError), calls;
      }
      var payment := Payment(newId, t, invoice.rentalAgreementId, Some(invoice.id), dto.amount, "MPESA",
                             pushed, PENDING, None, None);
      RecordPaymentKeepsConsistent(prisma.State(), payment);
      prisma.payments := prisma.payments[newId := payment];
      r := Ok(payment);
    }

    /** `handleCallbackEvent`: matched by `CheckoutRequestID` across all tenants;
        every failure (no such payment, a rejected receipt) is logged and
        swallowed, leaving the tables as they were. */
    method HandleCallbackEvent(payload: MpesaCallbackDto)
      requires prisma.Valid()
      modifies prisma
      ensures prisma.State() == CallbackOutcome(old(prisma.State()), payload)
      ensures prisma.Valid()
    {
      var cb := payload.stkCallback;
      var cid := cb.checkoutRequestId;
      var db := prisma.State();
      CallbackKeepsConsistent(db, payload);
      if !exists k :: k in db.payments && Names(db.payments, k, cid) {
        return;
      }
      var pid :| pid in db.payments && Names(db.payments, pid, cid);
      CallbackOutcomeOf(db, payload, pid);
      // Both writes of the success branch run in one transaction: the
      // database moves from `db` to `committed` in one step, or not at all.
      var committed: Tables;
      if !Succeeded(cb) {
        committed := Fail(db, pid, payload);
      } else if ReceiptRejected(cb) {
        return;
      } else {
        committed := Settle(db, pid, payload);
      }
      prisma.payments := committed.payments;
      prisma.invoices := committed.invoices;
    }
  }

  /** The settled payment is COMPLETED with the payload kept, and its invoice,
      when it has one, is paid; no other payment or invoice changes. */
  lemma SettleMeaning(db: Tables, pid: Id, payload: MpesaCallbackDto)
    requires Consistent(db) && pid in db.payments && Succeeded(payload.stkCallback)
    ensures HasInvoice(db.payments[pid]) ==> db.payments[pid].rentInvoiceId.value in db.invoices
    ensures var db' := Settle(db, pid, payload);
      var p := db.payments[pid];
      var items := payload.stkCallback.callbackMetadata.value;
      && db'.payments[pid] == p.(status := COMPLETED, mpesaReceipt := db'.payments[pid].mpesaReceipt, rawResponse := Some(payload))
      && (forall i :: FirstReceiptAt(items, i) && items[i].value.Text? ==>
            db'.payments[pid].mpesaReceipt == Some(items[i].value.text))
      && ((forall i :: 0 <= i < |items| ==> items[i].name != ReceiptItemName) ==>
            db'.payments[pid].mpesaReceipt == p.mpesaReceipt)
      && (HasInvoice(p) ==>
            db'.invoices[p.rentInvoiceId.value] == db.invoices[p.rentInvoiceId.value].(isPaid := true))
      && (forall k :: k in db.payments && k != pid ==> k in db'.payments && db'.payments[k] == db.payments[k])
      && (forall k :: k in db.invoices && (!HasInvoice(db.payments[pid]) || k != db.payments[pid].rentInvoiceId.value)
            ==> k in db'.invoices && db'.invoices[k] == db.invoices[k])
      && db'.units == db.units && db'.agreements == db.agreements
  {
    InvoiceOfPayment(db, pid);
  }

  /** A failed or cancelled payment leaves every invoice as it was; the
      payment is FAILED with the payload kept, all its other columns and every
      other payment unchanged. */
  lemma FailLeavesInvoices(db: Tables, pid: Id, payload: MpesaCallbackDto)
    requires pid in db.payments
    ensures Fail(db, pid, payload).invoices == db.invoices
    ensures Fail(db, pid, payload).payments[pid].status == FAILED
    ensures Fail(db, pid, payload).payments ==
      db.payments[pid := db.payments[pid].(status := FAILED, rawResponse := Some(payload))]
  {
  }
}
