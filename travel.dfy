/** The Travel page: car mileage, public transport and flights. */
module Travel {
  import opened Forms

  /** The nested `flightsPerYear` record: flight counts by distance. */
  datatype Flights = Flights(short: Num, medium: Num, long: Num)

  /** The page's form state. `carType` keeps the chosen option text. */
  datatype Form = Form(
    carType: string,
    mileagePerYear: Num,
    publicTransport: Num,
    flightsPerYear: Flights)

  /** A gasoline car and every numeric field empty. */
  const DefaultForm := Form("gasoline", None, None, Flights(None, None, None))

  /** The key of one flight count inside `flightsPerYear`. */
  datatype Leg = Short | Medium | Long

  /** The `name` attribute of each input: a top-level key, or `flightsPerYear.<leg>`. */
  datatype Field = CarType | MileagePerYear | PublicTransport | FlightsPerYear(leg: Leg)

  /** One change event: the field it comes from and the value it carries. */
  datatype Change =
    | SetCarType(carType: string)
    | SetMileagePerYear(miles: Num)
    | SetPublicTransport(hours: Num)
    | SetFlights(leg: Leg, count: Num)
  {
    /** The name contains a dot: it addresses a field of the nested record. */
    predicate IsDotted()
    {
      SetFlights?
    }

    function FieldName(): Field
    {
      match this
      case SetCarType(_) => CarType
      case SetMileagePerYear(_) => MileagePerYear
      case SetPublicTransport(_) => PublicTransport
      case SetFlights(leg, _) => FlightsPerYear(leg)
    }

    function NewValue(): Value
    {
      match this
      case SetCarType(s) => Choice(s)
      case SetMileagePerYear(n) => Amount(n)
      case SetPublicTransport(n) => Amount(n)
      case SetFlights(_, n) => Amount(n)
    }
  }

  /** One flight count of the nested record. */
  function FlightCount(fl: Flights, leg: Leg): Num
  {
    match leg
    case Short => fl.short
    case Medium => fl.medium
    case Long => fl.long
  }

  /** The value a field of the form holds, nested keys included. */
  function Get(f: Form, k: Field): Value
  {
    match k
    case CarType => Choice(f.carType)
    case MileagePerYear => Amount(f.mileagePerYear)
    case PublicTransport => Amount(f.publicTransport)
    case FlightsPerYear(leg) => Amount(FlightCount(f.flightsPerYear, leg))
  }

  /** A form is determined by the values of its fields. */
  lemma {:induction false} FieldsDetermineForm(f: Form, g: Form)
    requires forall k :: Get(f, k) == Get(g, k)
    ensures f == g
  {
    assert Get(f, CarType) == Get(g, CarType);
    assert Get(f, MileagePerYear) == Get(g, MileagePerYear);
    assert Get(f, PublicTransport) == Get(g, PublicTransport);
    assert Get(f, FlightsPerYear(Short)) == Get(g, FlightsPerYear(Short));
    assert Get(f, FlightsPerYear(Medium)) == Get(g, FlightsPerYear(Medium));
    assert Get(f, FlightsPerYear(Long)) == Get(g, FlightsPerYear(Long));
  }

  /** The inner spread `{ ...prev.flightsPerYear, [child]: value }`: one flight count
      replaced, the other two kept. */
  function SetLeg(fl: Flights, leg: Leg, n: Num): (r: Flights)
    ensures FlightCount(r, leg) == n
    ensures forall other :: other != leg ==> FlightCount(r, other) == FlightCount(fl, other)
  {
    match leg
    case Short => fl.(short := n)
    case Medium => fl.(medium := n)
    case Long => fl.(long := n)
  }

  /** The record `handleChange` stores. A dotted name rebuilds `flightsPerYear` with
      one count replaced; any other name replaces that top-level field. Either way the
      named field takes the event's value and every other field keeps its old value. */
  function Update(f: Form, c: Change): (g: Form)
    ensures Get(g, c.FieldName()) == c.NewValue()
    ensures forall k :: k != c.FieldName() ==> Get(g, k) == Get(f, k)
  {
    if c.IsDotted() then
      f.(flightsPerYear := SetLeg(f.flightsPerYear, c.leg, c.count))
    else
      match c
      case SetCarType(s) => f.(carType := s)
      case SetMileagePerYear(n) => f.(mileagePerYear := n)
      case SetPublicTransport(n) => f.(publicTransport := n)
  }

  /** Update is pinned down by its two promises. */
  lemma UpdateIsExact(f: Form, c: Change, g: Form)
    requires Get(g, c.FieldName()) == c.NewValue()
    requires forall k :: k != c.FieldName() ==> Get(g, k) == Get(f, k)
    ensures g == Update(f, c)
  {
    var u := Update(f, c);
    forall k
      ensures Get(g, k) == Get(u, k)
    {
    }
    FieldsDetermineForm(g, u);
  }

  /** A dotted update leaves every top-level field alone, and an undotted one leaves
      the whole nested record intact. */
  lemma UpdateKeepsOtherLevel(f: Form, c: Change)
    ensures c.IsDotted() ==>
      var g := Update(f, c);
      g.carType == f.carType && g.mileagePerYear == f.mileagePerYear && g.publicTransport == f.publicTransport
    ensures !c.IsDotted() ==> Update(f, c).flightsPerYear == f.flightsPerYear
  {
  }

  /** The car types the page knows a coefficient for. */
  const CarTypesWithCoefficient: set<string> := {"gasoline", "diesel", "hybrid", "electric"}

  /** `carImpact`: gasoline 2, diesel 2.2, hybrid 1.2, electric 0.5, and 0 for any
      other value, `none` included. Never negative. */
  function CarCoefficient(carType: string): (r: real)
    ensures carType == "gasoline" ==> r == 2.0
    ensures carType == "diesel" ==> r == 2.2
    ensures carType == "hybrid" ==> r == 1.2
    ensures carType == "electric" ==> r == 0.5
    ensures r == 0.0 <==> carType !in CarTypesWithCoefficient
    ensures 0.0 <= r <= 2.2
  {
    if carType == "gasoline" then 2.0
    else if carType == "diesel" then 2.2
    else if carType == "hybrid" then 1.2
    else if carType == "electric" then 0.5
    else 0.0
  }

  /** The flight part: half a unit per short flight, 1.5 per medium, 3 per long.
      Not negative when no count is, and 0 when every count is empty. */
  function FlightImpact(fl: Flights): (r: real)
    ensures NonNegative(fl.short) && NonNegative(fl.medium) && NonNegative(fl.long) ==> r >= 0.0
    ensures fl == Flights(None, None, None) ==> r == 0.0
    ensures NonNegative(fl.short) && NonNegative(fl.medium) && NonNegative(fl.long) ==>
      r <= 3.0 * (NumberOrZero(fl.short) + NumberOrZero(fl.medium) + NumberOrZero(fl.long))
  {
    NumberOrZero(fl.short) * 0.5 + NumberOrZero(fl.medium) * 1.5 + NumberOrZero(fl.long) * 3.0
  }

  /** Every numeric field is empty or not negative. */
  predicate NonNegativeInputs(f: Form)
  {
    && NonNegative(f.mileagePerYear)
    && NonNegative(f.publicTransport)
    && NonNegative(f.flightsPerYear.short)
    && NonNegative(f.flightsPerYear.medium)
    && NonNegative(f.flightsPerYear.long)
  }

  /** `calculateFootprint`: mileage times the car coefficient times 0.2, plus 0.3 per
      hour of public transport, plus the flight part. It is not negative when the
      entries are not, and a car without a coefficient adds nothing for its mileage. */
  function Footprint(f: Form): (r: real)
    ensures NonNegativeInputs(f) ==> r >= 0.0
    ensures f.carType !in CarTypesWithCoefficient ==>
      r == NumberOrZero(f.publicTransport) * 0.3 + FlightImpact(f.flightsPerYear)
  {
    var mileageImpact := NumberOrZero(f.mileagePerYear) * CarCoefficient(f.carType) * 0.2;
    var publicTransportImpact := NumberOrZero(f.publicTransport) * 0.3;
    mileageImpact + publicTransportImpact + FlightImpact(f.flightsPerYear)
  }

  /** Raising any numeric entry, with the car unchanged, never lowers the footprint. */
  lemma Monotone(f: Form, g: Form)
    requires f.carType == g.carType
    requires NumberOrZero(f.mileagePerYear) <= NumberOrZero(g.mileagePerYear)
    requires NumberOrZero(f.publicTransport) <= NumberOrZero(g.publicTransport)
    requires NumberOrZero(f.flightsPerYear.short) <= NumberOrZero(g.flightsPerYear.short)
    requires NumberOrZero(f.flightsPerYear.medium) <= NumberOrZero(g.flightsPerYear.medium)
    requires NumberOrZero(f.flightsPerYear.long) <= NumberOrZero(g.flightsPerYear.long)
    ensures Footprint(f) <= Footprint(g)
  {
  }

  /** An empty field and a field holding 0 give the same footprint, whichever field it is. */
  lemma EmptyIsZero(f: Form, k: Field)
    requires k != CarType
    ensures
      var empty := Update(f, ChangeOf(k, None));
      var zero := Update(f, ChangeOf(k, Some(0.0)));
      Footprint(empty) == Footprint(zero)
  {
  }

  /** The change event that writes a numeric value into numeric field `k`. */
  function ChangeOf(k: Field, n: Num): (c: Change)
    requires k != CarType
    ensures c.FieldName() == k && c.NewValue() == Amount(n)
  {
    match k
    case MileagePerYear => SetMileagePerYear(n)
    case PublicTransport => SetPublicTransport(n)
    case FlightsPerYear(leg) => SetFlights(leg, n)
  }

  /** With no car, the mileage entry has no effect. */
  lemma NoCarIgnoresMileage(f: Form, miles: Num)
    requires f.carType == "none"
    ensures Footprint(f.(mileagePerYear := miles)) == Footprint(f)
  {
  }

  /** The untouched form computes 0. */
  lemma DefaultFootprint()
    ensures Footprint(DefaultForm) == 0.0
  {
  }

  /** An electric car driven 10000 miles, nothing else entered: 10000 * 0.5 * 0.2 = 1000. */
  lemma ElectricExample()
    ensures Footprint(Form("electric", Some(10000.0), None, Flights(None, None, None))) == 1000.0
  {
  }

  /** The Travel page's state: the form record and the footprint it shows. */
  class Page {
    var formData: Form
    var carbonFootprint: real

    /** The shown footprint is the one the current form computes. */
    ghost predicate Synced()
      reads this
    {
      carbonFootprint == Footprint(formData)
    }

    /** Mounting the page: the default form, a footprint state of 0, then the effect. */
    constructor ()
      ensures formData == DefaultForm && Synced()
      ensures carbonFootprint == 0.0
    {
      formData := DefaultForm;
      carbonFootprint := 0.0;
      new;
      Recompute();
      DefaultFootprint();
    }

    /** `handleChange`: store the form with the addressed field replaced, nested or
        top-level. The shown footprint is stale until the effect runs. */
    method HandleChange(c: Change)
      modifies this`formData
      ensures formData == Update(old(formData), c)
      ensures carbonFootprint == old(carbonFootprint)
    {
      if c.IsDotted() {
        var nested := SetLeg(formData.flightsPerYear, c.leg, c.count);
        formData := formData.(flightsPerYear := nested);
      } else {
        formData := Update(formData, c);
      }
    }

    /** The effect that runs whenever `formData` changes. */
    method Recompute()
      modifies this`carbonFootprint
      ensures carbonFootprint == Footprint(formData)
      ensures formData == old(formData)
    {
      carbonFootprint := Footprint(formData);
    }

    /** One input event as the reader sees it: the change, then the effect. */
    method Input(c: Change)
      modifies this
      ensures formData == Update(old(formData), c)
      ensures Synced()
    {
      HandleChange(c);
      Recompute();
    }
  }

  /** Entering the worked example on a fresh page: switch to an electric car and
      type 10000 miles; the page then shows 1000. */
  method ElectricSession() returns (shown: real)
    ensures shown == 1000.0
  {
    var page := new Page();
    page.Input(SetCarType("electric"));
    page.Input(SetMileagePerYear(Some(10000.0)));
    ElectricExample();
    shown := page.carbonFootprint;
  }
}
