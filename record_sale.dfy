/** The record-sale form: the drug list, the selected drug, the quantity text
    and a `loading` flag. A submit is checked in two steps (a drug, then a
    quantity that is not at most zero) before one sale request is sent, and a
    recorded sale resets the form. Alerts are kept as a log. */
module RecordSale {
  import opened Common
  import opened NumberText

  /** The body of the sale request. */
  datatype SaleRequest = SaleRequest(pharmacyItem: string, quantitySold: Num)

  /** The reply to a recorded sale: the `sale.itemName` it carries, if any. */
  datatype SaleReply = SaleReply(itemName: Option<string>)

  /** What the pharmacy-items call resolves to. */
  datatype DrugsResponse = DrugArray(items: seq<Json>) | NotArray

  /** The outcome of the two checks. */
  datatype Submission = Refused(alert: string) | Accepted(request: SaleRequest)

  const NoDrugAlert: string := "Please select a drug."
  const QuantityAlert: string := "Quantity must be greater than 0."

  /** The checks in the order the form makes them: the drug first, then the
      quantity read with `Number`. A quantity that is not a number passes,
      because `NaN <= 0` is false. */
  function CheckSubmission(selectedDrug: string, quantity: string): (r: Submission)
    ensures selectedDrug == "" ==> r == Refused(NoDrugAlert)
    ensures selectedDrug != "" && NumberOf(quantity).IsAtMostZero() ==> r == Refused(QuantityAlert)
    ensures r.Accepted? <==> selectedDrug != "" && !NumberOf(quantity).IsAtMostZero()
    ensures r.Accepted? ==> r.request == SaleRequest(selectedDrug, NumberOf(quantity))
    ensures r.Accepted? ==> r.request.quantitySold.IsPositive() || r.request.quantitySold == NaN
  {
    if selectedDrug == "" then Refused(NoDrugAlert)
    else if NumberOf(quantity).IsAtMostZero() then Refused(QuantityAlert)
    else Accepted(SaleRequest(selectedDrug, NumberOf(quantity)))
  }

  /** The form as reset after a recorded sale submits quantity 1 once a drug is chosen. */
  lemma ResetQuantityIsAccepted(drug: string)
    requires drug != ""
    ensures CheckSubmission(drug, "1") == Accepted(SaleRequest(drug, Finite(1)))
  {
    NumberOfRoundTrip(1);
    assert NumText(Finite(1)) == "1";
  }

  /** An empty quantity reads as 0 and is refused; text that is not a number is sent as NaN. */
  lemma QuantityEdgeCases(drug: string)
    requires drug != ""
    ensures CheckSubmission(drug, "") == Refused(QuantityAlert)
    ensures CheckSubmission(drug, "abc") == Accepted(SaleRequest(drug, NaN))
  {
    assert !IsDigit("abc"[0]);
    assert !AllDigits(Unsigned("abc"));
  }

  /** The alert after a recorded sale. */
  function SuccessAlert(reply: SaleReply): (t: string)
    ensures reply.itemName.Some? && reply.itemName.value != "" ==> t == "Sale recorded successfully: " + reply.itemName.value
    ensures reply.itemName.None? || reply.itemName.value == "" ==> t == "Sale recorded successfully: Unknown"
  {
    "Sale recorded successfully: " + (if reply.itemName.Some? && reply.itemName.value != "" then reply.itemName.value else "Unknown")
  }

  /** The alert after a failed sale: the server's message, else a fixed text. */
  function FailureAlert(message: string): (t: string)
    ensures t != ""
    ensures message != "" ==> t == message
  {
    if message != "" then message else "Failed to record sale."
  }

  class RecordSalePage {
    var drugs: seq<Json>
    var selectedDrug: string
    var quantity: string
    var loading: bool
    var alerts: seq<string>

    constructor ()
      ensures drugs == [] && selectedDrug == "" && quantity == "1" && !loading && alerts == []
    {
      drugs, selectedDrug, quantity, loading, alerts := [], "", "1", false, [];
    }

    /** `loadDrugs`: an array reply becomes the list, any other reply an empty
        list; a failure keeps the list and raises an alert. */
    method FinishLoadDrugs(reply: Reply<DrugsResponse>)
      modifies this
      ensures reply.Ok? && reply.value.DrugArray? ==> drugs == reply.value.items && alerts == old(alerts)
      ensures reply.Ok? && reply.value.NotArray? ==> drugs == [] && alerts == old(alerts)
      ensures reply.Err? ==> drugs == old(drugs) && alerts == old(alerts) + ["Failed to load pharmacy items."]
      ensures selectedDrug == old(selectedDrug) && quantity == old(quantity) && loading == old(loading)
    {
      if reply.Err? {
        alerts := alerts + ["Failed to load pharmacy items."];
        return;
      }
      if reply.value.DrugArray? {
        drugs := reply.value.items;
      } else {
        drugs := [];
      }
    }

    method SelectDrug(value: string)
      modifies this
      ensures selectedDrug == value
      ensures drugs == old(drugs) && quantity == old(quantity) && loading == old(loading) && alerts == old(alerts)
    {
      selectedDrug := value;
    }

    method SetQuantity(value: string)
      modifies this
      ensures quantity == value
      ensures drugs == old(drugs) && selectedDrug == old(selectedDrug) && loading == old(loading) && alerts == old(alerts)
    {
      quantity := value;
    }

    /** `handleSubmit` up to the request: a refused submit raises its alert and
        sends nothing; an accepted one sets `loading` and sends one request. */
    method BeginSubmit() returns (request: Option<SaleRequest>)
      modifies this
      ensures drugs == old(drugs) && selectedDrug == old(selectedDrug) && quantity == old(quantity)
      ensures match CheckSubmission(selectedDrug, quantity)
        case Refused(alert) => request == None && alerts == old(alerts) + [alert] && loading == old(loading)
        case Accepted(r) => request == Some(r) && alerts == old(alerts) && loading
    {
      var qty := NumberOf(quantity);
      if selectedDrug == "" {
        alerts := alerts + [NoDrugAlert];
        return None;
      }
      if qty.IsAtMostZero() {
        alerts := alerts + [QuantityAlert];
        return None;
      }
      loading := true;
      request := Some(SaleRequest(selectedDrug, qty));
    }

    /** `handleSubmit` after the request: a recorded sale resets the drug and the
        quantity, a failure keeps them; `loading` is cleared either way. */
    method FinishSubmit(reply: Reply<SaleReply>)
      modifies this
      ensures !loading && drugs == old(drugs)
      ensures reply.Ok? ==> selectedDrug == "" && quantity == "1" && alerts == old(alerts) + [SuccessAlert(reply.value)]
      ensures reply.Err? ==>
        && selectedDrug == old(selectedDrug) && quantity == old(quantity)
        && alerts == old(alerts) + [FailureAlert(reply.message)]
    {
      if reply.Ok? {
        alerts := alerts + [SuccessAlert(reply.value)];
        selectedDrug := "";
        quantity := "1";
      } else {
        alerts := alerts + [FailureAlert(reply.message)];
      }
      loading := false;
    }
  }

  /** A whole submit with a drug chosen and the default quantity: exactly one
      request for one unit of that drug, and the form back to its initial
      values once the sale is recorded. */
  method SubmitDefaultQuantity(drug: string, reply: SaleReply) returns (sent: Option<SaleRequest>, page: RecordSalePage)
    requires drug != ""
    ensures sent == Some(SaleRequest(drug, Finite(1)))
    ensures page.selectedDrug == "" && page.quantity == "1" && !page.loading
  {
    page := new RecordSalePage();
    page.SelectDrug(drug);
    ResetQuantityIsAccepted(drug);
    sent := page.BeginSubmit();
    page.FinishSubmit(Ok(reply));
  }
}
