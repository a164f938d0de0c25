/** The Energy page: electricity and gas use, with offsets for renewable supply and
    household efficiency. The result is not clamped and can be negative. */
module Energy {
  import opened Forms

  /** The page's form state. Select fields keep the chosen option text. */
  datatype Form = Form(
    energySource: string,
    electricityUsage: Num,
    gasUsage: Num,
    renewableUsage: string,
    energyEfficiency: string)

  /** Electricity as the source, no renewables, average efficiency, both usages empty. */
  const DefaultForm := Form("electricity", None, None, "no", "average")

  /** The `name` attribute of each input and select on the page. */
  datatype Field = EnergySource | ElectricityUsage | GasUsage | RenewableUsage | EnergyEfficiency

  /** One change event: the field it comes from and the value it carries. */
  datatype Change =
    | SetEnergySource(source: string)
    | SetElectricityUsage(kilowattHours: Num)
    | SetGasUsage(cubicMetres: Num)
    | SetRenewableUsage(renewable: string)
    | SetEnergyEfficiency(efficiency: string)
  {
    function FieldName(): Field
    {
      match this
      case SetEnergySource(_) => EnergySource
      case SetElectricityUsage(_) => ElectricityUsage
      case SetGasUsage(_) => GasUsage
      case SetRenewableUsage(_) => RenewableUsage
      case SetEnergyEfficiency(_) => EnergyEfficiency
    }

    function NewValue(): Value
    {
      match this
      case SetEnergySource(s) => Choice(s)
      case SetElectricityUsage(n) => Amount(n)
      case SetGasUsage(n) => Amount(n)
      case SetRenewableUsage(s) => Choice(s)
      case SetEnergyEfficiency(s) => Choice(s)
    }
  }

  /** `formData[name]`: the value a field of the form holds. */
  function Get(f: Form, k: Field): Value
  {
    match k
    case EnergySource => Choice(f.energySource)
    case ElectricityUsage => Amount(f.electricityUsage)
    case GasUsage => Amount(f.gasUsage)
    case RenewableUsage => Choice(f.renewableUsage)
    case EnergyEfficiency => Choice(f.energyEfficiency)
  }

  /** A form is determined by the values of its fields. */
  lemma {:induction false} FieldsDetermineForm(f: Form, g: Form)
    requires forall k :: Get(f, k) == Get(g, k)
    ensures f == g
  {
    assert Get(f, EnergySource) == Get(g, EnergySource);
    assert Get(f, ElectricityUsage) == Get(g, ElectricityUsage);
    assert Get(f, GasUsage) == Get(g, GasUsage);
    assert Get(f, RenewableUsage) == Get(g, RenewableUsage);
    assert Get(f, EnergyEfficiency) == Get(g, EnergyEfficiency);
  }

  /** The record `handleChange` stores: the named field takes the event's value and
      every other field keeps its old value. */
  function Update(f: Form, c: Change): (g: Form)
    ensures Get(g, c.FieldName()) == c.NewValue()
    ensures forall k :: k != c.FieldName() ==> Get(g, k) == Get(f, k)
  {
    match c
    case SetEnergySource(s) => f.(energySource := s)
    case SetElectricityUsage(n) => f.(electricityUsage := n)
    case SetGasUsage(n) => f.(gasUsage := n)
    case SetRenewableUsage(s) => f.(renewableUsage := s)
    case SetEnergyEfficiency(s) => f.(energyEfficiency := s)
  }

  /** Update is pinned down by its two promises. */
  lemma UpdateIsExact(f: Form, c: Change, g: Form)
    requires Get(g, c.FieldName()) == c.NewValue()
    requires forall k :: k != c.FieldName() ==> Get(g, k) == Get(f, k)
    ensures g == Update(f, c)
  {
    var u := Update(f, c);
    forall k
      ensures Get(g, k) == Get(u, k)
    {
    }
    FieldsDetermineForm(g, u);
  }

  /** `renewableImpact`: fully -0.5, partially -0.2, anything else (no) 0. */
  function RenewableImpact(renewableUsage: string): (r: real)
    ensures renewableUsage == "fully" ==> r == -0.5
    ensures renewableUsage == "partially" ==> r == -0.2
    ensures r == 0.0 <==> renewableUsage != "fully" && renewableUsage != "partially"
    ensures -0.5 <= r <= 0.0
  {
    if renewableUsage == "fully" then -0.5 else if renewableUsage == "partially" then -0.2 else 0.0
  }

  /** `efficiencyImpact`: excellent -0.3, good -0.2, poor +0.3, anything else
      (average) 0. */
  function EfficiencyImpact(energyEfficiency: string): (r: real)
    ensures energyEfficiency == "excellent" ==> r == -0.3
    ensures energyEfficiency == "good" ==> r == -0.2
    ensures energyEfficiency == "poor" ==> r == 0.3
    ensures r == 0.0 <==> energyEfficiency !in {"excellent", "good", "poor"}
    ensures -0.3 <= r <= 0.3
  {
    if energyEfficiency == "excellent" then -0.3
    else if energyEfficiency == "good" then -0.2
    else if energyEfficiency == "poor" then 0.3
    else 0.0
  }

  /** The part of the footprint that comes from metered use: 0.4 per kWh, 2.3 per m³. */
  function UsageImpact(f: Form): real
  {
    NumberOrZero(f.electricityUsage) * 0.4 + NumberOrZero(f.gasUsage) * 2.3
  }

  /** `calculateFootprint`: the usage part plus the two offsets. The offsets together
      lie in [-0.8, 0.3], so the result is within that band around the usage part;
      nothing clamps it at 0. */
  function Footprint(f: Form): (r: real)
    ensures UsageImpact(f) - 0.8 <= r <= UsageImpact(f) + 0.3
    ensures NonNegative(f.electricityUsage) && NonNegative(f.gasUsage) ==> r >= -0.8
  {
    var electricityImpact := NumberOrZero(f.electricityUsage) * 0.4;
    var gasImpact := NumberOrZero(f.gasUsage) * 2.3;
    electricityImpact + gasImpact + RenewableImpact(f.renewableUsage) + EfficiencyImpact(f.energyEfficiency)
  }

  /** The lower bound is reached: no usage, fully renewable and excellent efficiency
      give -0.8, a negative footprint. */
  lemma NegativeFootprint(f: Form)
    requires NumberOrZero(f.electricityUsage) == 0.0 && NumberOrZero(f.gasUsage) == 0.0
    requires f.renewableUsage == "fully" && f.energyEfficiency == "excellent"
    ensures Footprint(f) == -0.8
    ensures Footprint(f) < 0.0
  {
  }

  /** The chosen energy source never affects the footprint. */
  lemma SourceIgnored(f: Form, source: string)
    ensures Footprint(f.(energySource := source)) == Footprint(f)
  {
  }

  /** An empty usage field and one holding 0 give the same footprint. */
  lemma EmptyIsZero(f: Form)
    ensures Footprint(f.(electricityUsage := None)) == Footprint(f.(electricityUsage := Some(0.0)))
    ensures Footprint(f.(gasUsage := None)) == Footprint(f.(gasUsage := Some(0.0)))
  {
  }

  /** More electricity or gas, everything else unchanged, never lowers the footprint. */
  lemma Monotone(f: Form, g: Form)
    requires f.renewableUsage == g.renewableUsage && f.energyEfficiency == g.energyEfficiency
    requires NumberOrZero(f.electricityUsage) <= NumberOrZero(g.electricityUsage)
    requires NumberOrZero(f.gasUsage) <= NumberOrZero(g.gasUsage)
    ensures Footprint(f) <= Footprint(g)
  {
  }

  /** The untouched form computes 0. */
  lemma DefaultFootprint()
    ensures Footprint(DefaultForm) == 0.0
  {
  }

  /** The Energy page's state: the form record and the footprint it shows. */
  class Page {
    var formData: Form
    var carbonFootprint: real

    /** The shown footprint is the one the current form computes. */
    ghost predicate Synced()
      reads this
    {
      carbonFootprint == Footprint(formData)
    }

    /** Mounting the page: the default form, a footprint state of 0, then the effect. */
    constructor ()
      ensures formData == DefaultForm && Synced()
      ensures carbonFootprint == 0.0
    {
      formData := DefaultForm;
      carbonFootprint := 0.0;
      new;
      Recompute();
      DefaultFootprint();
    }

    /** `handleChange`: store the form with the one field replaced. The shown
        footprint is stale until the effect runs. */
    method HandleChange(c: Change)
      modifies this`formData
      ensures formData == Update(old(formData), c)
      ensures carbonFootprint == old(carbonFootprint)
    {
      formData := Update(formData, c);
    }

    /** The effect that runs whenever `formData` changes. */
    method Recompute()
      modifies this`carbonFootprint
      ensures carbonFootprint == Footprint(formData)
      ensures formData == old(formData)
    {
      carbonFootprint := Footprint(formData);
    }

    /** One input event as the reader sees it: the change, then the effect. */
    method Input(c: Change)
      modifies this
      ensures formData == Update(old(formData), c)
      ensures Synced()
    {
      HandleChange(c);
      Recompute();
    }
  }

  /** On a fresh page, choosing full renewables and excellent efficiency without
      entering any usage shows -0.8. */
  method GreenestSession() returns (shown: real)
    ensures shown == -0.8
  {
    var page := new Page();
    page.Input(SetRenewableUsage("fully"));
    page.Input(SetEnergyEfficiency("excellent"));
    NegativeFootprint(page.formData);
    shown := page.carbonFootprint;
  }
}
