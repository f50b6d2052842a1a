/** The dashboard view of consumption.js as a stateful object: the
    module-level subscription handle, the displayed fields that the snapshot
    callbacks overwrite, the connection-status indicator and the payment
    flow with its button and the store's payment log. */
module Dashboard {

  import opened Session
  import opened Readings

  /** A displayed numeric field: the `--` placeholder, a value, or the
      "Error" mark that displayError writes into the consumption field. */
  datatype Cell = Dashes | Value(x: real) | ErrorMark

  /** The "Last Updated" field: `--`, "No data available", or a clock
      reading (the clock itself is not modelled). */
  datatype Updated = NotYet | NoDataAvailable | ClockTime

  /** Everything the consumption and bill cards show. */
  datatype Display = Display(consumption: Cell, rate: Cell, today: Cell, month: Cell,
                             updated: Updated, bill: Bill)

  /** The cards as the page template creates them. */
  const TemplateDisplay: Display := Display(Dashes, Dashes, Dashes, Dashes, NotYet, ZeroBill)

  /** The cards after a reading (consumption c, rate r) was displayed and billed. */
  function ReadingDisplay(c: real, r: real): (v: Display)
    ensures v.bill.amount == c * r && v.bill.energyCharge == c * r
    ensures v.bill.serviceFee == 0.0 && v.bill.tax == 0.0
    ensures v.today == Value(c * 0.8) && v.month == Value(c * 25.0)
  {
    Display(Value(c), Value(r), Value(TodayUsage(c)), Value(MonthUsage(c)), ClockTime, RawBill(c, r))
  }

  /** The cards after setDefaultBill, written out with the figures it shows. */
  const DefaultDisplay: Display :=
    Display(Value(45.5), Value(12.5), Value(36.4), Value(1137.5), ClockTime, Bill(568.75, 568.75, 0.0, 0.0))

  /** The demo bill is exactly what a reading of 45.5 kWh at the default
      rate would show. */
  lemma DefaultIsDemoReading()
    ensures DefaultDisplay == ReadingDisplay(DefaultConsumption, DefaultRate)
  {
    DemoDefaults();
  }

  /** Why a payment was refused, in the order the checks run. */
  datatype PayError = InvalidAmount | Cancelled | NotAuthenticated | StoreFailed(message: string)

  /** The error's message, with the generic text for a store failure that
      carries an empty one. */
  function PayErrorText(e: PayError): (t: string)
    ensures t != ""
    ensures e == InvalidAmount ==> t == "No amount to pay or invalid amount"
    ensures e == Cancelled ==> t == "Payment cancelled by user"
    ensures e == NotAuthenticated ==> t == "User not authenticated. Please sign in again."
    ensures e.StoreFailed? && e.message != "" ==> t == e.message
    ensures e.StoreFailed? && e.message == "" ==> t == "Payment failed. Please try again."
  {
    match e
    case InvalidAmount => "No amount to pay or invalid amount"
    case Cancelled => "Payment cancelled by user"
    case NotAuthenticated => "User not authenticated. Please sign in again."
    case StoreFailed(m) => if m == "" then "Payment failed. Please try again." else m
  }

  /** The payment message under the pay button. `Neutral` has no tone class;
      `Failed` carries the "error" class. */
  datatype PaymentMessage = NoMessage | Paid(amount: real, transactionId: string) | Neutral(text: string) | Failed(text: string)

  /** The message shown for a refused payment. The catch block tests the
      error's text, not its origin: the cancellation text is shown neutral
      (also when a store failure carries exactly that text), everything
      else as an error. */
  function RefusalMessage(e: PayError): (m: PaymentMessage)
    ensures m.Neutral? <==> e == Cancelled || e == StoreFailed("Payment cancelled by user")
    ensures m.Failed? <==> !m.Neutral?
    ensures m.Neutral? ==> m == Neutral("Payment cancelled")
    ensures m.Failed? ==> m == Failed(PayErrorText(e))
    ensures e == InvalidAmount ==> m == Failed("No amount to pay or invalid amount")
    ensures e == NotAuthenticated ==> m == Failed("User not authenticated. Please sign in again.")
  {
    var text := PayErrorText(e);
    if text == "Payment cancelled by user" then Neutral("Payment cancelled") else Failed(text)
  }

  /** The checks made when the pay button is clicked, before the simulated
      delay: the amount first, then the confirmation. */
  function CheckBeforeDelay(amount: real, confirmed: bool): (r: Option<PayError>)
    ensures r == None <==> amount > 0.0 && confirmed
    ensures r.Some? ==> r.value == InvalidAmount || r.value == Cancelled
    ensures amount <= 0.0 ==> r == Some(InvalidAmount)
    ensures amount > 0.0 && !confirmed ==> r == Some(Cancelled)
  {
    if amount <= 0.0 then Some(InvalidAmount)
    else if !confirmed then Some(Cancelled)
    else None
  }

  /** The outcome of a whole payment attempt. */
  datatype PayDecision = Approved(payer: User) | Refused(error: PayError)

  /** All three checks in their order: amount, confirmation, session user.
      A store failure is not part of it. */
  function PaymentCheck(amount: real, confirmed: bool, user: Option<User>): (r: PayDecision)
    ensures r.Approved? <==> amount > 0.0 && confirmed && user.Some?
    ensures r.Approved? ==> r.payer == user.value
    ensures amount <= 0.0 ==> r == Refused(InvalidAmount)
    ensures amount > 0.0 && !confirmed ==> r == Refused(Cancelled)
    ensures amount > 0.0 && confirmed && user.None? ==> r == Refused(NotAuthenticated)
  {
    match CheckBeforeDelay(amount, confirmed)
    case Some(e) => Refused(e)
    case None => if user.None? then Refused(NotAuthenticated) else Approved(user.value)
  }

  /** A record appended to the payer's log, `payments/<uid>` (clock fields
      are not modelled; the transaction id is an opaque input). */
  datatype PaymentRecord = PaymentRecord(path: string, userId: string, userEmail: string, amount: real,
                                         currency: string, status: string, paymentMethod: string,
                                         transactionId: string, description: string)

  function RecordFor(u: User, amount: real, transactionId: string): (p: PaymentRecord)
    ensures p.path == "payments/" + u.uid && p.userId == u.uid && p.amount == amount
    ensures p.currency == "PHP" && p.status == "completed" && p.paymentMethod == "credit_card"
  {
    PaymentRecord("payments/" + u.uid, u.uid, u.email, amount, "PHP", "completed", "credit_card",
                  transactionId, "Electricity bill payment (Raw Amount)")
  }

  /** The set of subscriptions a handle keeps track of. */
  function Tracked(h: Option<nat>): (s: set<nat>)
    ensures |s| <= 1
    ensures h.Some? <==> s != {}
  {
    if h.Some? then {h.value} else {}
  }

  /** What the dashboard shows and the pay flow's state: everything but the
      subscriptions and the payment log. */
  datatype ViewState = ViewState(display: Display, status: Status, payDisabled: bool, payMessage: PaymentMessage,
                                 inFlight: Option<real>, resetsPending: nat, bannerShown: bool)

  class DashboardView {
    /** The module-level `consumptionListener`. */
    var listener: Option<nat>
    /** Subscriptions open at the data store, named by handle. */
    var live: set<nat>
    /** The handle the next subscription gets. */
    var nextId: nat

    var status: Status
    var consumptionCell: Cell
    var rateCell: Cell
    var todayCell: Cell
    var monthCell: Cell
    var updated: Updated
    var bill: Bill

    var payDisabled: bool
    var payMessage: PaymentMessage
    /** The amount of the payment waiting for its simulated delay. */
    var inFlight: Option<real>
    /** The "Bill has been reset" banner. */
    var bannerShown: bool
    /** The data store's payment records, in the order they were appended. */
    var payments: seq<PaymentRecord>
    /** Bill-reset timers scheduled by successful payments and not yet fired. */
    var resetsPending: nat

    function Shown(): Display
      reads this
    {
      Display(consumptionCell, rateCell, todayCell, monthCell, updated, bill)
    }

    function State(): ViewState
      reads this
    {
      ViewState(Shown(), status, payDisabled, payMessage, inFlight, resetsPending, bannerShown)
    }

    ghost predicate Valid()
      reads this
    {
      && (listener.Some? ==> listener.value in live)
      && (forall id :: id in live ==> id < nextId)
      && (payDisabled <==> inFlight.Some?)
      && (inFlight.Some? ==> inFlight.value > 0.0)
    }

    /** The view before the dashboard was ever rendered. */
    constructor ()
      ensures Valid()
      ensures listener == None && live == {} && status == Connecting
      ensures Shown() == TemplateDisplay && payments == [] && payMessage == NoMessage
      ensures !payDisabled && !bannerShown && resetsPending == 0
    {
      listener, live, nextId := None, {}, 0;
      status := Connecting;
      consumptionCell, rateCell, todayCell, monthCell := Dashes, Dashes, Dashes, Dashes;
      updated, bill := NotYet, ZeroBill;
      payDisabled, payMessage, inFlight, bannerShown := false, NoMessage, None, false;
      payments, resetsPending := [], 0;
    }

    /** updateConnectionStatus: the last call decides the indicator. */
    method UpdateConnectionStatus(s: Status)
      modifies this`status
      ensures status == s
    {
      status := s;
    }

    /** renderConsumptionDashboard: the template, then loadConsumptionData. */
    method Render()
      requires Valid()
      modifies this`consumptionCell, this`rateCell, this`todayCell, this`monthCell, this`updated, this`bill,
        this`payDisabled, this`payMessage, this`inFlight, this`status, this`listener, this`live, this`nextId
      ensures Valid()
      ensures Shown() == TemplateDisplay && status == Connecting
      ensures payMessage == NoMessage && !payDisabled
      ensures listener == Some(old(nextId)) && live == old(live) + {old(nextId)}
      ensures payments == old(payments) && bannerShown == old(bannerShown)
      ensures resetsPending == old(resetsPending)
    {
      ShowTemplate();
      LoadConsumptionData();
    }

    /** The dashboard template written into the container: placeholders,
        the zero bill, an enabled pay button and no payment message. */
    method ShowTemplate()
      modifies this`consumptionCell, this`rateCell, this`todayCell, this`monthCell, this`updated, this`bill,
        this`payDisabled, this`payMessage, this`inFlight
      ensures Shown() == TemplateDisplay
      ensures payMessage == NoMessage && !payDisabled && inFlight == None
    {
      consumptionCell, rateCell, todayCell, monthCell := Dashes, Dashes, Dashes, Dashes;
      updated, bill := NotYet, ZeroBill;
      payDisabled, payMessage, inFlight := false, NoMessage, None;
    }

    /** loadConsumptionData: status "connecting", a new subscription, and the
        handle overwritten with it (an older live one is not cancelled). */
    method LoadConsumptionData()
      requires Valid()
      modifies this`status, this`listener, this`live, this`nextId
      ensures Valid()
      ensures status == Connecting
      ensures listener == Some(old(nextId)) && live == old(live) + {old(nextId)}
      ensures old(nextId) !in old(live)
    {
      UpdateConnectionStatus(Connecting);
      live := live + {nextId};
      listener := Some(nextId);
      nextId := nextId + 1;
    }

    /** cleanupConsumptionListener: cancels the tracked subscription, if
        any, and clears the handle. */
    method CleanupConsumptionListener() returns (cancelled: Option<nat>)
      requires Valid()
      modifies this`listener, this`live
      ensures Valid()
      ensures cancelled == old(listener) && listener == None
      ensures live == old(live) - Tracked(old(listener))
    {
      cancelled := listener;
      if listener.Some? {
        live := live - {listener.value};
        listener := None;
      }
    }

    /** displayConsumptionData. It fails (`toFixed` throws) as soon as the
        chosen consumption, then the chosen rate, is not a number; fields
        written before that stay written. */
    method DisplayConsumptionData(d: Reading) returns (ok: bool)
      modifies this`consumptionCell, this`rateCell, this`todayCell, this`monthCell, this`updated
      ensures ok <==> DisplayPair(d).Some?
      ensures ok ==> var (c, r) := DisplayPair(d).value;
        consumptionCell == Value(c) && rateCell == Value(r) && todayCell == Value(TodayUsage(c))
        && monthCell == Value(MonthUsage(c)) && updated == ClockTime
      ensures !ok ==> (rateCell == old(rateCell) && todayCell == old(todayCell)
        && monthCell == old(monthCell) && updated == old(updated))
    {
      var consumption, rate;
      if d.Obj? {
        consumption := ConsumptionProp(d.kwh, d.consumption, d.value);
        rate := RateProp(d.price, d.rate);
      } else if d.Num? {
        consumption, rate := PNum(d.n), PNum(DefaultRate);
      } else {
        consumption, rate := PNum(0.0), PNum(DefaultRate);
      }
      if !consumption.PNum? {
        return false;
      }
      consumptionCell := Value(consumption.x);
      if !rate.PNum? {
        return false;
      }
      rateCell := Value(rate.x);
      todayCell := Value(TodayUsage(consumption.x));
      monthCell := Value(MonthUsage(consumption.x));
      updated := ClockTime;
      ok := true;
    }

    /** calculateBill, on a reading it can turn into two numbers. */
    method CalculateBill(d: Reading)
      requires BillPair(d).Some?
      modifies this`bill
      ensures bill == RawBill(BillPair(d).value.0, BillPair(d).value.1)
    {
      var (consumption, rate) := BillPair(d).value;
      bill := RawBill(consumption, rate);
    }

    /** setDefaultBill: the demo reading 45.5 kWh at 12.50. */
    method SetDefaultBill()
      modifies this`consumptionCell, this`rateCell, this`todayCell, this`monthCell, this`updated, this`bill
      ensures Shown() == DefaultDisplay
    {
      var defaultConsumption, defaultRate := DefaultConsumption, DefaultRate;
      consumptionCell := Value(defaultConsumption);
      rateCell := Value(defaultRate);
      var rawAmount := defaultConsumption * defaultRate;
      bill := Bill(rawAmount, rawAmount, 0.0, 0.0);
      todayCell := Value(TodayUsage(defaultConsumption));
      monthCell := Value(MonthUsage(defaultConsumption));
      updated := ClockTime;
    }

    /** displayNoData: the placeholders back. */
    method DisplayNoData()
      modifies this`consumptionCell, this`rateCell, this`todayCell, this`monthCell, this`updated
      ensures consumptionCell == Dashes && rateCell == Dashes && todayCell == Dashes && monthCell == Dashes
      ensures updated == NoDataAvailable
    {
      consumptionCell, rateCell, todayCell, monthCell := Dashes, Dashes, Dashes, Dashes;
      updated := NoDataAvailable;
    }

    /** displayError: only the consumption field changes. */
    method DisplayError()
      modifies this`consumptionCell
      ensures consumptionCell == ErrorMark
    {
      consumptionCell := ErrorMark;
    }

    /** The value callback of the subscription `id`. A cancelled
        subscription delivers nothing. */
    method OnSnapshot(id: nat, d: Reading)
      requires Valid()
      modifies this
      ensures Valid()
      ensures id !in old(live) ==> status == old(status) && Shown() == old(Shown())
      ensures id in old(live) && (d.Null? || d.Undefined?) ==> status == NoData && Shown() == DefaultDisplay
      ensures id in old(live) && !(d.Null? || d.Undefined?) && DisplayPair(d).Some? ==>
        status == Connected && Shown() == ReadingDisplay(DisplayPair(d).value.0, DisplayPair(d).value.1)
      ensures id in old(live) && !(d.Null? || d.Undefined?) && DisplayPair(d).None? ==>
        status == Error && Shown() == old(Shown()).(consumption := ErrorMark)
      ensures listener == old(listener) && live == old(live) && nextId == old(nextId)
      ensures payments == old(payments) && payMessage == old(payMessage)
      ensures payDisabled == old(payDisabled) && inFlight == old(inFlight) && bannerShown == old(bannerShown)
      ensures resetsPending == old(resetsPending)
    {
      if id !in live {
        return;
      }
      if !d.Null? && !d.Undefined? {
        UpdateConnectionStatus(Connected);
        var ok := DisplayConsumptionData(d);
        if ok {
          CalculateBill(d);
        } else {
          UpdateConnectionStatus(Error);
          DisplayError();
        }
      } else {
        UpdateConnectionStatus(NoData);
        DisplayNoData();
        SetDefaultBill();
      }
    }

    /** The error callback of the subscription `id`: status "error" and the
        demo bill. */
    method OnSubscriptionError(id: nat)
      requires Valid()
      modifies this
      ensures Valid()
      ensures id !in old(live) ==> status == old(status) && Shown() == old(Shown())
      ensures id in old(live) ==> status == Error && Shown() == DefaultDisplay
      ensures listener == old(listener) && live == old(live) && nextId == old(nextId)
      ensures payments == old(payments) && payMessage == old(payMessage)
      ensures payDisabled == old(payDisabled) && inFlight == old(inFlight) && bannerShown == old(bannerShown)
      ensures resetsPending == old(resetsPending)
    {
      if id !in live {
        return;
      }
      UpdateConnectionStatus(Error);
      DisplayError();
      SetDefaultBill();
    }

    /** A click on the pay button. A disabled button takes no click. The
        button is disabled, then the amount and the confirmation are checked;
        a refusal re-enables it at once, otherwise the payment waits for its
        delay with the button still disabled. */
    method ClickPay(confirmed: bool) returns (refusal: Option<PayError>)
      requires Valid()
      modifies this`payDisabled, this`payMessage, this`inFlight
      ensures Valid()
      ensures old(payDisabled) ==> (refusal == None && payDisabled && payMessage == old(payMessage)
        && inFlight == old(inFlight))
      ensures !old(payDisabled) ==> refusal == CheckBeforeDelay(bill.amount, confirmed)
      ensures !old(payDisabled) && refusal.Some? ==> !payDisabled && payMessage == RefusalMessage(refusal.value)
      ensures !old(payDisabled) && refusal.None? ==> (payDisabled && payMessage == NoMessage
        && inFlight == Some(bill.amount))
    {
      if payDisabled {
        return None;
      }
      payDisabled := true;
      payMessage := NoMessage;
      refusal := CheckBeforeDelay(bill.amount, confirmed);
      if refusal.Some? {
        payMessage := RefusalMessage(refusal.value);
        payDisabled := false;
      } else {
        inFlight := Some(bill.amount);
      }
    }

    /** The end of the simulated delay: the session user is checked and the
        record appended to the store; whatever the outcome, the button is
        enabled again at once. A success schedules the bill reset, which
        fires later (ResetBill). `storeError` is a failure of the append. */
    method CompletePayment(sessionUser: Option<User>, transactionId: string, storeError: Option<string>)
      returns (decision: Option<PayDecision>)
      requires Valid()
      modifies this`payDisabled, this`payMessage, this`inFlight, this`payments, this`resetsPending
      ensures Valid() && !payDisabled && inFlight == None
      ensures old(inFlight).None? ==> (decision == None && payments == old(payments)
        && payMessage == old(payMessage) && resetsPending == old(resetsPending))
      ensures old(inFlight).Some? ==> decision.Some?
      ensures old(inFlight).Some? && sessionUser.None? ==> (decision == Some(Refused(NotAuthenticated))
        && payments == old(payments) && payMessage == RefusalMessage(NotAuthenticated)
        && resetsPending == old(resetsPending))
      ensures old(inFlight).Some? && sessionUser.Some? && storeError.Some? ==>
        decision == Some(Refused(StoreFailed(storeError.value)))
        && payments == old(payments) && payMessage == RefusalMessage(StoreFailed(storeError.value))
        && resetsPending == old(resetsPending)
      ensures old(inFlight).Some? && sessionUser.Some? && storeError.None? ==>
        decision == Some(Approved(sessionUser.value))
        && payments == old(payments) + [RecordFor(sessionUser.value, old(inFlight).value, transactionId)]
        && payMessage == Paid(old(inFlight).value, transactionId) && resetsPending == old(resetsPending) + 1
    {
      if inFlight.None? {
        payDisabled := false;
        return None;
      }
      var amount := inFlight.value;
      if sessionUser.None? {
        decision := Some(Refused(NotAuthenticated));
        payMessage := RefusalMessage(NotAuthenticated);
      } else if storeError.Some? {
        decision := Some(Refused(StoreFailed(storeError.value)));
        payMessage := RefusalMessage(StoreFailed(storeError.value));
      } else {
        decision := Some(Approved(sessionUser.value));
        payments := payments + [RecordFor(sessionUser.value, amount, transactionId)];
        payMessage := Paid(amount, transactionId);
        resetsPending := resetsPending + 1;
      }
      inFlight := None;
      payDisabled := false;
    }

    /** A scheduled bill reset fires: the bill card shows zero and the
        confirmation banner appears. */
    method ResetBill()
      requires resetsPending > 0
      modifies this`bill, this`bannerShown, this`resetsPending
      ensures bill == ZeroBill && bannerShown && resetsPending == old(resetsPending) - 1
    {
      bill := ZeroBill;
      bannerShown := true;
      resetsPending := resetsPending - 1;
    }

    /** The completion with the bill reset before the button is enabled
        again, so that no click can see the bill just paid. */
    method CompletePaymentIntended(sessionUser: Option<User>, transactionId: string, storeError: Option<string>)
      returns (decision: Option<PayDecision>)
      requires Valid()
      modifies this`payDisabled, this`payMessage, this`inFlight, this`payments, this`resetsPending,
        this`bill, this`bannerShown
      ensures Valid() && !payDisabled && inFlight == None && resetsPending == old(resetsPending)
      ensures old(inFlight).None? ==> decision == None
      ensures old(inFlight).Some? ==>
        decision == Some(if sessionUser.None? then Refused(NotAuthenticated)
                         else if storeError.Some? then Refused(StoreFailed(storeError.value))
                         else Approved(sessionUser.value))
      ensures decision.Some? && decision.value.Approved? ==>
        (payments == old(payments) + [RecordFor(sessionUser.value, old(inFlight).value, transactionId)]
         && payMessage == Paid(old(inFlight).value, transactionId) && bill == ZeroBill && bannerShown)
      ensures decision.Some? && decision.value.Refused? ==>
        (payments == old(payments) && payMessage == RefusalMessage(decision.value.error) && bill == old(bill))
      ensures decision.None? ==> payments == old(payments) && payMessage == old(payMessage) && bill == old(bill)
    {
      decision := CompletePayment(sessionUser, transactionId, storeError);
      if decision.Some? && decision.value.Approved? {
        ResetBill();
      }
    }

    /** A whole payment with no other event during its delay and the bill
        reset firing before the next click. The outcome is PaymentCheck's,
        unless the store rejects an approved payment; a record is appended
        exactly on approval. `storeError` is the store's rejection. */
    method ProcessPayment(confirmed: bool, sessionUser: Option<User>, transactionId: string,
                          storeError: Option<string>)
      returns (decision: PayDecision)
      requires Valid() && !payDisabled
      modifies this`payDisabled, this`payMessage, this`inFlight, this`payments, this`bill, this`bannerShown,
        this`resetsPending
      ensures Valid() && !payDisabled && resetsPending == old(resetsPending)
      ensures decision ==
        (if PaymentCheck(old(bill.amount), confirmed, sessionUser).Approved? && storeError.Some?
         then Refused(StoreFailed(storeError.value))
         else PaymentCheck(old(bill.amount), confirmed, sessionUser))
      ensures decision.Approved? ==> (payments == old(payments) + [RecordFor(decision.payer, old(bill.amount), transactionId)]
        && bill == ZeroBill && payMessage == Paid(old(bill.amount), transactionId))
      ensures decision.Refused? ==> (payments == old(payments) && bill == old(bill)
        && payMessage == RefusalMessage(decision.error))
    {
      var refusal := ClickPay(confirmed);
      if refusal.Some? {
        return Refused(refusal.value);
      }
      var outcome := CompletePaymentIntended(sessionUser, transactionId, storeError);
      decision := outcome.value;
    }
  }

  /** As written, the pay button is enabled again a second before the bill
      reset fires. A second confirmed click in that second pays the bill
      just paid once more: two records of the demo bill. */
  method DoublePaymentAsWritten(u: User) returns (records: seq<PaymentRecord>)
    ensures records == [RecordFor(u, 568.75, "T1"), RecordFor(u, 568.75, "T2")]
  {
    var v := new DashboardView();
    v.Render();
    v.OnSubscriptionError(v.listener.value);
    var refusal := v.ClickPay(true);
    var first := v.CompletePayment(Some(u), "T1", None);
    refusal := v.ClickPay(true);
    var second := v.CompletePayment(Some(u), "T2", None);
    records := v.payments;
  }

  /** With the reset before the button is enabled again, the same two
      clicks pay once: the second is refused on the amount. */
  method NoDoublePaymentIntended(u: User) returns (records: seq<PaymentRecord>, secondRefusal: Option<PayError>)
    ensures records == [RecordFor(u, 568.75, "T1")]
    ensures secondRefusal == Some(InvalidAmount)
  {
    var v := new DashboardView();
    v.Render();
    v.OnSubscriptionError(v.listener.value);
    var refusal := v.ClickPay(true);
    var first := v.CompletePaymentIntended(Some(u), "T1", None);
    secondRefusal := v.ClickPay(true);
    var second := v.CompletePaymentIntended(Some(u), "T2", None);
    records := v.payments;
  }

  /** After a successful payment the bill is zero, so paying again is
      refused on the amount, whatever the confirmation and the session. */
  lemma PaidBillCannotBePaidAgain(confirmed: bool, user: Option<User>)
    ensures PaymentCheck(ZeroBill.amount, confirmed, user) == Refused(InvalidAmount)
  {
  }
}
