/** The Waste page: household waste, plastic and food waste, with credits for
    recycling and composting; the only calculator clamped at 0. */
module Waste {
  import opened Forms

  /** The page's form state. Select fields keep the chosen option text. */
  datatype Form = Form(
    recycling: string,
    compost: string,
    wasteProduction: Num,
    plasticConsumption: string,
    foodWaste: Num)

  /** Recycling sometimes, no compost, moderate plastic, both amounts empty. */
  const DefaultForm := Form("sometimes", "no", None, "moderate", None)

  /** The `name` attribute of each input and select on the page. */
  datatype Field = Recycling | Compost | WasteProduction | PlasticConsumption | FoodWaste

  /** One change event: the field it comes from and the value it carries. */
  datatype Change =
    | SetRecycling(recycling: string)
    | SetCompost(compost: string)
    | SetWasteProduction(gallons: Num)
    | SetPlasticConsumption(plastic: string)
    | SetFoodWaste(pounds: Num)
  {
    function FieldName(): Field
    {
      match this
      case SetRecycling(_) => Recycling
      case SetCompost(_) => Compost
      case SetWasteProduction(_) => WasteProduction
      case SetPlasticConsumption(_) => PlasticConsumption
      case SetFoodWaste(_) => FoodWaste
    }

    function NewValue(): Value
    {
      match this
      case SetRecycling(s) => Choice(s)
      case SetCompost(s) => Choice(s)
      case SetWasteProduction(n) => Amount(n)
      case SetPlasticConsumption(s) => Choice(s)
      case SetFoodWaste(n) => Amount(n)
    }
  }

  /** `formData[name]`: the value a field of the form holds. */
  function Get(f: Form, k: Field): Value
  {
    match k
    case Recycling => Choice(f.recycling)
    case Compost => Choice(f.compost)
    case WasteProduction => Amount(f.wasteProduction)
    case PlasticConsumption => Choice(f.plasticConsumption)
    case FoodWaste => Amount(f.foodWaste)
  }

  /** A form is determined by the values of its fields. */
  lemma {:induction false} FieldsDetermineForm(f: Form, g: Form)
    requires forall k :: Get(f, k) == Get(g, k)
    ensures f == g
  {
    assert Get(f, Recycling) == Get(g, Recycling);
    assert Get(f, Compost) == Get(g, Compost);
    assert Get(f, WasteProduction) == Get(g, WasteProduction);
    assert Get(f, PlasticConsumption) == Get(g, PlasticConsumption);
    assert Get(f, FoodWaste) == Get(g, FoodWaste);
  }

  /** `{ ...formData, [name]: value }`: the named field takes the event's value and
      every other field keeps its old value. */
  function Update(f: Form, c: Change): (g: Form)
    ensures Get(g, c.FieldName()) == c.NewValue()
    ensures forall k :: k != c.FieldName() ==> Get(g, k) == Get(f, k)
  {
    match c
    case SetRecycling(s) => f.(recycling := s)
    case SetCompost(s) => f.(compost := s)
    case SetWasteProduction(n) => f.(wasteProduction := n)
    case SetPlasticConsumption(s) => f.(plasticConsumption := s)
    case SetFoodWaste(n) => f.(foodWaste := n)
  }

  /** Update is pinned down by its two promises. */
  lemma UpdateIsExact(f: Form, c: Change, g: Form)
    requires Get(g, c.FieldName()) == c.NewValue()
    requires forall k :: k != c.FieldName() ==> Get(g, k) == Get(f, k)
    ensures g == Update(f, c)
  {
    var u := Update(f, c);
    forall k
      ensures Get(g, k) == Get(u, k)
    {
    }
    FieldsDetermineForm(g, u);
  }

  /** `recyclingImpact`: always -5, sometimes -2, anything else (never) 0. */
  function RecyclingImpact(recycling: string): (r: real)
    ensures recycling == "always" ==> r == -5.0
    ensures recycling == "sometimes" ==> r == -2.0
    ensures r == 0.0 <==> recycling != "always" && recycling != "sometimes"
    ensures -5.0 <= r <= 0.0
  {
    if recycling == "always" then -5.0 else if recycling == "sometimes" then -2.0 else 0.0
  }

  /** `compostImpact`: yes -4, sometimes -2, anything else (no) 0. */
  function CompostImpact(compost: string): (r: real)
    ensures compost == "yes" ==> r == -4.0
    ensures compost == "sometimes" ==> r == -2.0
    ensures r == 0.0 <==> compost != "yes" && compost != "sometimes"
    ensures -4.0 <= r <= 0.0
  {
    if compost == "yes" then -4.0 else if compost == "sometimes" then -2.0 else 0.0
  }

  /** `plasticImpact`: high 10, moderate 5, anything else (minimal) 2. */
  function PlasticImpact(plasticConsumption: string): (r: real)
    ensures plasticConsumption == "high" ==> r == 10.0
    ensures plasticConsumption == "moderate" ==> r == 5.0
    ensures plasticConsumption != "high" && plasticConsumption != "moderate" ==> r == 2.0
    ensures 2.0 <= r <= 10.0
  {
    if plasticConsumption == "high" then 10.0 else if plasticConsumption == "moderate" then 5.0 else 2.0
  }

  /** `totalImpact`, before the clamp: 2 per gallon of waste, the plastic impact, 3 per
      pound of food waste, and the two credits. The three choices together add
      between -7 (-5 - 4 + 2) and 10 to the two amounts. */
  function TotalImpact(data: Form): (r: real)
    ensures -7.0 <= r - (NumberOrZero(data.wasteProduction) * 2.0 + NumberOrZero(data.foodWaste) * 3.0) <= 10.0
  {
    var wasteProductionImpact := NumberOrZero(data.wasteProduction) * 2.0;
    var foodWasteImpact := NumberOrZero(data.foodWaste) * 3.0;
    wasteProductionImpact + PlasticImpact(data.plasticConsumption) + foodWasteImpact
      + RecyclingImpact(data.recycling) + CompostImpact(data.compost)
  }

  /** `Math.max(totalImpact, 0)`: never negative, whatever the inputs; the total
      itself when that is not negative, and 0 when it is. */
  function Footprint(data: Form): (r: real)
    ensures r >= 0.0
    ensures r >= TotalImpact(data)
    ensures r == TotalImpact(data) || r == 0.0
  {
    var totalImpact := TotalImpact(data);
    if totalImpact > 0.0 then totalImpact else 0.0
  }

  /** The clamp only matters when the credits outweigh the rest: it is inactive once
      both amounts are non-negative and the credits are at most the plastic impact. */
  lemma ClampInactive(data: Form)
    requires NonNegative(data.wasteProduction) && NonNegative(data.foodWaste)
    requires -(RecyclingImpact(data.recycling) + CompostImpact(data.compost)) <= PlasticImpact(data.plasticConsumption)
    ensures Footprint(data) == TotalImpact(data)
  {
  }

  /** The clamp does bite: always recycling and composting with minimal plastic and
      nothing else entered totals -7 and shows 0. */
  lemma ClampActive()
    ensures TotalImpact(Form("always", "yes", None, "minimal", None)) == -7.0
    ensures Footprint(Form("always", "yes", None, "minimal", None)) == 0.0
  {
  }

  /** The default form would compute 3: moderate plastic 5 less the sometimes-recycling 2. */
  lemma DefaultFootprint()
    ensures Footprint(DefaultForm) == 3.0
  {
  }

  /** An empty amount and one holding 0 give the same footprint. */
  lemma EmptyIsZero(f: Form)
    ensures Footprint(f.(wasteProduction := None)) == Footprint(f.(wasteProduction := Some(0.0)))
    ensures Footprint(f.(foodWaste := None)) == Footprint(f.(foodWaste := Some(0.0)))
  {
  }

  /** More waste, with the choices unchanged, never lowers the footprint. */
  lemma Monotone(f: Form, g: Form)
    requires f.recycling == g.recycling && f.compost == g.compost && f.plasticConsumption == g.plasticConsumption
    requires NumberOrZero(f.wasteProduction) <= NumberOrZero(g.wasteProduction)
    requires NumberOrZero(f.foodWaste) <= NumberOrZero(g.foodWaste)
    ensures Footprint(f) <= Footprint(g)
  {
  }

  /** The progress bar's width in percent, `min(footprint * 5, 100)`: never above 100,
      proportional to the footprint up to 20, full from there on. */
  function ProgressWidth(wasteFootprint: real): (w: real)
    ensures w <= 100.0
    ensures w == wasteFootprint * 5.0 <==> wasteFootprint <= 20.0
    ensures wasteFootprint >= 20.0 ==> w == 100.0
    ensures wasteFootprint >= 0.0 ==> w >= 0.0
  {
    if wasteFootprint * 5.0 < 100.0 then wasteFootprint * 5.0 else 100.0
  }

  /** The Waste page's state: the form record and the footprint it shows. This page
      has no effect; the footprint is recomputed inside the change handler. */
  class Page {
    var formData: Form
    var wasteFootprint: real

    /** The shown footprint is never negative. */
    ghost predicate Valid()
      reads this
    {
      wasteFootprint >= 0.0
    }

    /** Mounting the page: the default form and a footprint of 0. Nothing recomputes
        it, so the page shows 0 although the default form would compute 3. */
    constructor ()
      ensures formData == DefaultForm
      ensures wasteFootprint == 0.0
      ensures wasteFootprint != Footprint(formData)
      ensures Valid()
    {
      formData := DefaultForm;
      wasteFootprint := 0.0;
      DefaultFootprint();
    }

    /** `calculateFootprint(data)`: store the clamped footprint of the given record. */
    method CalculateFootprint(data: Form)
      modifies this`wasteFootprint
      ensures wasteFootprint == Footprint(data)
      ensures formData == old(formData)
    {
      var totalImpact := TotalImpact(data);
      wasteFootprint := if totalImpact > 0.0 then totalImpact else 0.0;
    }

    /** `handleChange`: build the new record, store it, and compute the footprint from
        that new record (not from the old state). */
    method HandleChange(c: Change)
      modifies this
      ensures formData == Update(old(formData), c)
      ensures wasteFootprint == Footprint(formData)
      ensures Valid()
    {
      var newFormData := Update(formData, c);
      formData := newFormData;
      CalculateFootprint(newFormData);
    }

    /** The width of the progress bar under the estimate. */
    function BarWidth(): (w: real)
      reads this
      requires Valid()
      ensures 0.0 <= w <= 100.0
    {
      ProgressWidth(wasteFootprint)
    }
  }

  /** A fresh page shows 0; moving the plastic answer to high brings it to 8, the
      footprint of the new record (10 - 2). */
  method FirstChangeSession() returns (before: real, after: real, width: real)
    ensures before == 0.0
    ensures after == 8.0
    ensures width == 40.0
  {
    var page := new Page();
    before := page.wasteFootprint;
    page.HandleChange(SetPlasticConsumption("high"));
    assert page.formData == Form("sometimes", "no", None, "high", None);
    after := page.wasteFootprint;
    width := page.BarWidth();
  }
}
