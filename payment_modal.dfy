/** The payment dialog of the sales screen: a three-step machine (choose a
    method, cash payment, special-sale authorisation) whose handlers submit
    a sale only when their guard passes.  `onProcessSale` is the caller's
    and is represented by the submission a handler returns; the handler's
    `setIsProcessing(false)` after the await is the separate `Settle`. */
module PaymentModal {
  import opened Common
  import opened Decimal
  import ServerState

  datatype Step = Selection | CashPayment | SpecialSaleAuth

  /** The arguments of one `onProcessSale` call; absent details are `None`
      and "". */
  datatype Submission = Submission(paymentMethod: string, amountPaid: Option<int>, adminRut: string, adminPassword: string)

  /** `parseFloat(amountPaid)`, integer part only; `None` is NaN. */
  function AmountPaid(amountPaid: string): Option<int>
  {
    ParseInt(amountPaid)
  }

  /** The guard and the call of `handleProcessCash`: a sale is submitted
      only when the amount typed is a number at least the total. */
  function CashSubmission(amountPaid: string, total: int): (r: Option<Submission>)
    ensures r.Some? <==> AmountPaid(amountPaid).Some? && AmountPaid(amountPaid).value >= total
    ensures r.Some? ==> r.value == Submission(ServerState.Cash, AmountPaid(amountPaid), "", "")
  {
    var paid := AmountPaid(amountPaid);
    if paid.None? || paid.value < total then None
    else Some(Submission(ServerState.Cash, paid, "", ""))
  }

  /** The guard and the call of `handleProcessSpecialSale`. */
  function SpecialSubmission(adminRut: string, adminPassword: string): (r: Option<Submission>)
    ensures r.Some? <==> adminRut != "" && adminPassword != ""
    ensures r.Some? ==> r.value.paymentMethod == ServerState.Special
                        && r.value.adminRut == adminRut && r.value.adminPassword == adminPassword
  {
    if adminRut == "" || adminPassword == "" then None
    else Some(Submission(ServerState.Special, None, adminRut, adminPassword))
  }

  /** `change`; `None` is NaN. */
  function Change(amountPaid: string, total: int): (r: Option<int>)
    ensures r.None? <==> AmountPaid(amountPaid).None?
  {
    match AmountPaid(amountPaid)
    case None => None
    case Some(paid) => Some(paid - total)
  }

  /** `change >= 0`: whether the change box is shown (NaN compares false). */
  predicate ChangeShown(amountPaid: string, total: int)
  {
    Change(amountPaid, total).Some? && Change(amountPaid, total).value >= 0
  }

  /** The change box appears exactly when the cash payment would be
      accepted, and then shows the amount paid minus the total. */
  lemma ChangeShownIffCashAccepted(amountPaid: string, total: int)
    ensures ChangeShown(amountPaid, total) <==> CashSubmission(amountPaid, total).Some?
    ensures ChangeShown(amountPaid, total) ==>
              Change(amountPaid, total).value == CashSubmission(amountPaid, total).value.amountPaid.value - total >= 0
  {
  }

  /** An amount typed as a whole number of pesos at least the total is
      accepted and the exact change is shown. */
  lemma TypedAmountAccepted(paid: int, total: int)
    requires paid >= total
    ensures CashSubmission(ToDecimal(paid), total) == Some(Submission(ServerState.Cash, Some(paid), "", ""))
    ensures Change(ToDecimal(paid), total) == Some(paid - total)
  {
    ParseIntOfToDecimal(paid);
  }

  /** A special sale submitted by the dialog always carries both admin
      fields, so the backend never refuses it for missing credentials: it
      goes straight to the admin check, whose admin the sale is booked to. */
  lemma SpecialSubmissionReachesAdminCheck(db: ServerState.Db, verify: ServerState.Verifier, caller: string,
                                           items: seq<ServerState.SaleLine>, total: int,
                                           adminRut: string, adminPassword: string)
    requires SpecialSubmission(adminRut, adminPassword).Some?
    ensures var s := SpecialSubmission(adminRut, adminPassword).value;
            var req := ServerState.SaleRequest(items, total, s.paymentMethod, s.adminRut, s.adminPassword);
            ServerState.SaleEmployee(db, verify, caller, req)
            == match ServerState.AuthorizeAdmin(db, verify, adminRut, adminPassword)
               case Success(admin) => Success(admin.id)
               case Failure(e) => Failure(e)
  {
  }

  class PaymentDialog {
    var step: Step
    var amountPaid: string
    var adminRut: string
    var adminPassword: string
    var isProcessing: bool

    /** The `useState` initial values. */
    constructor ()
      ensures step == Selection && amountPaid == "" && adminRut == "" && adminPassword == "" && !isProcessing
    {
      step, amountPaid, adminRut, adminPassword, isProcessing := Selection, "", "", "", false;
    }

    /** The effect run when the dialog opens: back to the first step with
        every field cleared. */
    method Open()
      modifies this
      ensures step == Selection && amountPaid == "" && adminRut == "" && adminPassword == "" && !isProcessing
    {
      step := Selection;
      amountPaid := "";
      adminRut := "";
      adminPassword := "";
      isProcessing := false;
    }

    /** The "Efectivo", "Venta Especial" and "Volver" buttons. */
    method GoTo(next: Step)
      modifies this
      ensures step == next
      ensures amountPaid == old(amountPaid) && adminRut == old(adminRut)
      ensures adminPassword == old(adminPassword) && isProcessing == old(isProcessing)
    {
      step := next;
    }

    /** Typing into the three inputs. */
    method Type(amount: string, rut: string, password: string)
      modifies this
      ensures amountPaid == amount && adminRut == rut && adminPassword == password
      ensures step == old(step) && isProcessing == old(isProcessing)
    {
      amountPaid, adminRut, adminPassword := amount, rut, password;
    }

    /** `handleProcessCard`, up to the await: always submits a card sale
        without details. */
    method ProcessCard() returns (s: Submission)
      modifies this
      ensures s == Submission(ServerState.Card, None, "", "")
      ensures isProcessing
      ensures step == old(step) && amountPaid == old(amountPaid)
      ensures adminRut == old(adminRut) && adminPassword == old(adminPassword)
    {
      isProcessing := true;
      s := Submission(ServerState.Card, None, "", "");
    }

    /** `handleProcessCash`, up to the await. */
    method ProcessCash(total: int) returns (s: Option<Submission>)
      modifies this
      ensures s == CashSubmission(old(amountPaid), total)
      ensures isProcessing == (s.Some? || old(isProcessing))
      ensures step == old(step) && amountPaid == old(amountPaid)
      ensures adminRut == old(adminRut) && adminPassword == old(adminPassword)
    {
      var paid := AmountPaid(amountPaid);
      if paid.None? || paid.value < total {
        return None;
      }
      isProcessing := true;
      s := Some(Submission(ServerState.Cash, paid, "", ""));
    }

    /** `handleProcessSpecialSale`, up to the await. */
    method ProcessSpecialSale() returns (s: Option<Submission>)
      modifies this
      ensures s == SpecialSubmission(old(adminRut), old(adminPassword))
      ensures isProcessing == (s.Some? || old(isProcessing))
      ensures step == old(step) && amountPaid == old(amountPaid)
      ensures adminRut == old(adminRut) && adminPassword == old(adminPassword)
    {
      if adminRut == "" || adminPassword == "" {
        return None;
      }
      isProcessing := true;
      s := Some(Submission(ServerState.Special, None, adminRut, adminPassword));
    }

    /** The `setIsProcessing(false)` once `onProcessSale` has settled. */
    method Settle()
      modifies this
      ensures !isProcessing
      ensures step == old(step) && amountPaid == old(amountPaid)
      ensures adminRut == old(adminRut) && adminPassword == old(adminPassword)
    {
      isProcessing := false;
    }
  }
}
