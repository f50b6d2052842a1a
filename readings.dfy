/** The pure derivations of the dashboard (consumption.js): how a stored
    reading is normalised into a (consumption, rate) pair, the bill and usage
    formulas, the demo default, and the connection-status indicator. */
module Readings {

  import opened Session

  /** The rate used whenever a reading supplies none (PHP per kWh). */
  const DefaultRate: real := 12.5
  /** The demo consumption shown when the store has no reading (kWh). */
  const DefaultConsumption: real := 45.5

  /** The value of one property of a stored reading object, as far as the
      dashboard looks at it. Missing is `undefined`. */
  datatype Prop = Missing | PNull | PNum(x: real) | PNaN | PText(s: string) | PBool(b: bool)

  /** A snapshot value from the store. `Obj` is any value whose `typeof` is
      "object" other than null (its five looked-up properties are kept);
      `Other` is any other non-number value such as a string or a boolean. */
  datatype Reading =
    | Null
    | Undefined
    | Num(n: real)
    | Obj(kwh: Prop, consumption: Prop, value: Prop, price: Prop, rate: Prop)
    | Other

  /** JavaScript truthiness of a property value. */
  predicate Truthy(p: Prop)
  {
    match p
    case PNum(x) => x != 0.0
    case PText(s) => s != ""
    case PBool(b) => b
    case _ => false
  }

  /** Reference definition of a chain `a || b || ... || default`: the first
      truthy operand, otherwise the last one. */
  function FirstTruthy(ps: seq<Prop>, default: Prop): Prop
  {
    if ps == [] then default
    else if Truthy(ps[0]) then ps[0]
    else FirstTruthy(ps[1..], default)
  }

  /** One step of the chain: the head decides, or the rest does. */
  lemma FirstTruthyCons(p: Prop, ps: seq<Prop>, default: Prop)
    ensures FirstTruthy([p] + ps, default) == if Truthy(p) then p else FirstTruthy(ps, default)
  {
    assert ([p] + ps)[1..] == ps;
  }

  /** `data.kwh || data.consumption || data.value || 0` */
  function ConsumptionProp(kwh: Prop, consumption: Prop, value: Prop): (p: Prop)
    ensures p == FirstTruthy([kwh, consumption, value], PNum(0.0))
    ensures p.PNum? && p.x == 0.0 ==> !Truthy(kwh) && !Truthy(consumption) && !Truthy(value)
  {
    FirstTruthyCons(kwh, [consumption, value], PNum(0.0));
    FirstTruthyCons(consumption, [value], PNum(0.0));
    FirstTruthyCons(value, [], PNum(0.0));
    assert [kwh] + [consumption, value] == [kwh, consumption, value];
    assert [consumption] + [value] == [consumption, value];
    if Truthy(kwh) then kwh
    else if Truthy(consumption) then consumption
    else if Truthy(value) then value
    else PNum(0.0)
  }

  /** `data.price || data.rate || 12.50` */
  function RateProp(price: Prop, rate: Prop): (p: Prop)
    ensures p == FirstTruthy([price, rate], PNum(DefaultRate))
    ensures p.PNum? ==> p.x != 0.0
  {
    FirstTruthyCons(price, [rate], PNum(DefaultRate));
    FirstTruthyCons(rate, [], PNum(DefaultRate));
    assert [price] + [rate] == [price, rate];
    if Truthy(price) then price
    else if Truthy(rate) then rate
    else PNum(DefaultRate)
  }

  /** The pair displayConsumptionData derives from a reading. None when the
      chosen consumption or rate is not a number: `toFixed` then throws, and
      the snapshot handler takes its error path. */
  function DisplayPair(d: Reading): (r: Option<(real, real)>)
    ensures r.Some? ==> r.value.1 != 0.0
    ensures d.Obj? ==> (r.Some? <==> (ConsumptionProp(d.kwh, d.consumption, d.value).PNum?
                                      && RateProp(d.price, d.rate).PNum?))
    ensures d.Obj? && r.Some? ==>
      r.value == (ConsumptionProp(d.kwh, d.consumption, d.value).x, RateProp(d.price, d.rate).x)
    ensures d.Num? ==> r == Some((d.n, DefaultRate))
    ensures d.Null? || d.Undefined? || d.Other? ==> r == Some((0.0, DefaultRate))
  {
    match d
    case Obj(kwh, consumption, value, price, rate) =>
      var c := ConsumptionProp(kwh, consumption, value);
      var p := RateProp(price, rate);
      if c.PNum? && p.PNum? then Some((c.x, p.x)) else None
    case Num(n) => Some((n, DefaultRate))
    case _ => Some((0.0, DefaultRate))
  }

  /** The pair calculateBill derives from a reading with its own expressions.
      It is only ever applied to a reading that displayConsumptionData
      accepted; there it agrees with DisplayPair. None stands for a
      reading it does not turn into two numbers (a null reading throws). */
  function BillPair(d: Reading): (r: Option<(real, real)>)
    ensures !d.Null? && DisplayPair(d).Some? ==> r == DisplayPair(d)
  {
    match d
    case Null => None
    case Obj(kwh, consumption, value, price, rate) =>
      var c := ConsumptionProp(kwh, consumption, value);
      var p := RateProp(price, rate);
      if c.PNum? && p.PNum? then Some((c.x, p.x)) else None
    case Num(n) => Some((n, DefaultRate))
    case _ => Some((0.0, DefaultRate))
  }

  /** The bill card: raw amount, energy charge, service fee and tax. */
  datatype Bill = Bill(amount: real, energyCharge: real, serviceFee: real, tax: real)

  /** The raw bill for a consumption and a rate; no fees, no tax. */
  function RawBill(consumption: real, rate: real): (b: Bill)
    ensures b.amount == consumption * rate && b.energyCharge == consumption * rate
    ensures b.serviceFee == 0.0 && b.tax == 0.0
    ensures consumption >= 0.0 && rate >= 0.0 ==> b.amount >= 0.0
    ensures b.amount == 0.0 <==> consumption == 0.0 || rate == 0.0
  {
    var raw := consumption * rate;
    Bill(raw, raw, 0.0, 0.0)
  }

  /** The bill card as the page template and a successful payment leave it. */
  const ZeroBill: Bill := Bill(0.0, 0.0, 0.0, 0.0)

  /** The simulated usage estimates. */
  function TodayUsage(consumption: real): real { consumption * 0.8 }
  function MonthUsage(consumption: real): real { consumption * 25.0 }

  /** The demo default is 45.5 kWh at 12.50, so 568.75, 36.4 and 1137.5. */
  lemma DemoDefaults()
    ensures RawBill(DefaultConsumption, DefaultRate) == Bill(568.75, 568.75, 0.0, 0.0)
    ensures TodayUsage(DefaultConsumption) == 36.4
    ensures MonthUsage(DefaultConsumption) == 1137.5
  {
  }

  /** For every object reading: it displays exactly when the first truthy
      of kwh, consumption and value (else 0) and the first truthy of price
      and rate (else 12.50) are both numbers, and then with those numbers;
      the rate is never 0. */
  lemma ObjectReadingPair(d: Reading)
    requires d.Obj?
    ensures var c, p := FirstTruthy([d.kwh, d.consumption, d.value], PNum(0.0)),
                        FirstTruthy([d.price, d.rate], PNum(DefaultRate));
            DisplayPair(d) == if c.PNum? && p.PNum? then Some((c.x, p.x)) else None
    ensures DisplayPair(d).Some? ==> DisplayPair(d).value.1 != 0.0
  {
  }

  /** A zero price falls back to the default rate. */
  lemma ZeroPriceFallsBack(kwh: real)
    requires kwh != 0.0
    ensures DisplayPair(Obj(PNum(kwh), Missing, Missing, PNum(0.0), Missing)) == Some((kwh, DefaultRate))
  {
  }

  /** The shape of a string property makes `toFixed` throw. */
  lemma TextConsumptionIsRejected(s: string)
    requires s != ""
    ensures DisplayPair(Obj(PText(s), Missing, Missing, PNum(12.5), Missing)) == None
  {
  }

  /** The connection-status indicator. */
  datatype Status = Connecting | Connected | NoData | Error

  /** The status name, used as the indicator's second class. */
  function StatusName(s: Status): string
  {
    match s
    case Connecting => "connecting"
    case Connected => "connected"
    case NoData => "no-data"
    case Error => "error"
  }

  /** The indicator's text for a status. */
  function StatusText(s: Status): (t: string)
    ensures s == Connecting <==> t == "Connecting..."
    ensures s == Connected <==> t == "Live"
    ensures s == NoData <==> t == "No Data"
    ensures s == Error <==> t == "Error"
  {
    match s
    case Connecting => "Connecting..."
    case Connected => "Live"
    case NoData => "No Data"
    case Error => "Error"
  }

  /** The indicator's class attribute. */
  function StatusClass(s: Status): (c: string)
    ensures |c| > 17 && c[..17] == "status-indicator "
    ensures c[17..] == StatusName(s)
  {
    "status-indicator " + StatusName(s)
  }

  /** Distinct statuses give distinct classes, so the indicator always tells
      which outcome was recorded last. */
  lemma StatusClassInjective(s: Status, t: Status)
    requires StatusClass(s) == StatusClass(t)
    ensures s == t
  {
    assert StatusClass(s)[17..] == StatusName(s);
    assert StatusClass(t)[17..] == StatusName(t);
  }
}
