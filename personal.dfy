/** The Personal page: household, home, diet and shopping habits, combined additively. */
module Personal {
  import opened Forms

  /** The page's form state. Select fields keep the chosen option text. */
  datatype Form = Form(
    householdSize: Num,
    homeType: string,
    homeSize: Num,
    dietType: string,
    shoppingHabits: string)

  /** The form every visit starts from: an apartment, an omnivore diet, moderate shopping, both sizes empty. */
  const DefaultForm := Form(None, "apartment", None, "omnivore", "moderate")

  /** The `name` attribute of each input and select on the page. */
  datatype Field = HouseholdSize | HomeType | HomeSize | DietType | ShoppingHabits

  /** One change event: the field it comes from and the value it carries. */
  datatype Change =
    | SetHouseholdSize(size: Num)
    | SetHomeType(homeType: string)
    | SetHomeSize(squareFeet: Num)
    | SetDietType(diet: string)
    | SetShoppingHabits(habits: string)
  {
    function FieldName(): Field
    {
      match this
      case SetHouseholdSize(_) => HouseholdSize
      case SetHomeType(_) => HomeType
      case SetHomeSize(_) => HomeSize
      case SetDietType(_) => DietType
      case SetShoppingHabits(_) => ShoppingHabits
    }

    function NewValue(): Value
    {
      match this
      case SetHouseholdSize(n) => Amount(n)
      case SetHomeType(s) => Choice(s)
      case SetHomeSize(n) => Amount(n)
      case SetDietType(s) => Choice(s)
      case SetShoppingHabits(s) => Choice(s)
    }
  }

  /** `formData[name]`: the value a field of the form holds. */
  function Get(f: Form, k: Field): Value
  {
    match k
    case HouseholdSize => Amount(f.householdSize)
    case HomeType => Choice(f.homeType)
    case HomeSize => Amount(f.homeSize)
    case DietType => Choice(f.dietType)
    case ShoppingHabits => Choice(f.shoppingHabits)
  }

  /** A form is determined by the values of its fields. */
  lemma {:induction false} FieldsDetermineForm(f: Form, g: Form)
    requires forall k :: Get(f, k) == Get(g, k)
    ensures f == g
  {
    assert Get(f, HouseholdSize) == Get(g, HouseholdSize);
    assert Get(f, HomeType) == Get(g, HomeType);
    assert Get(f, HomeSize) == Get(g, HomeSize);
    assert Get(f, DietType) == Get(g, DietType);
    assert Get(f, ShoppingHabits) == Get(g, ShoppingHabits);
  }

  /** The record `handleChange` stores: the named field takes the event's value and
      every other field keeps its old value. */
  function Update(f: Form, c: Change): (g: Form)
    ensures Get(g, c.FieldName()) == c.NewValue()
    ensures forall k :: k != c.FieldName() ==> Get(g, k) == Get(f, k)
  {
    match c
    case SetHouseholdSize(n) => f.(householdSize := n)
    case SetHomeType(s) => f.(homeType := s)
    case SetHomeSize(n) => f.(homeSize := n)
    case SetDietType(s) => f.(dietType := s)
    case SetShoppingHabits(s) => f.(shoppingHabits := s)
  }

  /** Update is pinned down by its two promises: any record that has the new value in
      the named field and the old values elsewhere is the one Update builds. */
  lemma UpdateIsExact(f: Form, c: Change, g: Form)
    requires Get(g, c.FieldName()) == c.NewValue()
    requires forall k :: k != c.FieldName() ==> Get(g, k) == Get(f, k)
    ensures g == Update(f, c)
  {
    var u := Update(f, c);
    forall k
      ensures Get(g, k) == Get(u, k)
    {
    }
    FieldsDetermineForm(g, u);
  }

  /** Home impact: a house 2, an apartment 1, anything else (a townhouse) 1.5. */
  function HomeImpact(homeType: string): (r: real)
    ensures homeType == "house" ==> r == 2.0
    ensures homeType == "apartment" ==> r == 1.0
    ensures homeType != "house" && homeType != "apartment" ==> r == 1.5
    ensures 1.0 <= r <= 2.0
  {
    if homeType == "house" then 2.0 else if homeType == "apartment" then 1.0 else 1.5
  }

  /** Diet impact: omnivore 2, vegetarian 1.5, anything else (vegan) 1. */
  function DietImpact(dietType: string): (r: real)
    ensures dietType == "omnivore" ==> r == 2.0
    ensures dietType == "vegetarian" ==> r == 1.5
    ensures dietType != "omnivore" && dietType != "vegetarian" ==> r == 1.0
    ensures 1.0 <= r <= 2.0
  {
    if dietType == "omnivore" then 2.0 else if dietType == "vegetarian" then 1.5 else 1.0
  }

  /** Shopping impact: frequent 2, moderate 1.5, anything else (minimal) 1. */
  function ShoppingImpact(shoppingHabits: string): (r: real)
    ensures shoppingHabits == "frequent" ==> r == 2.0
    ensures shoppingHabits == "moderate" ==> r == 1.5
    ensures shoppingHabits != "frequent" && shoppingHabits != "moderate" ==> r == 1.0
    ensures 1.0 <= r <= 2.0
  {
    if shoppingHabits == "frequent" then 2.0 else if shoppingHabits == "moderate" then 1.5 else 1.0
  }

  /** The part of the footprint that grows with the two numeric fields. */
  function SizeImpact(f: Form): real
  {
    NumberOrZero(f.householdSize) * 1.5 + NumberOrZero(f.homeSize) / 1000.0
  }

  /** `calculateFootprint`: 1.5 per household member, the home impact, one per
      thousand square feet, the diet impact and the shopping impact, added up.
      The three choices together contribute between 3 and 6. */
  function Footprint(f: Form): (r: real)
    ensures 3.0 <= r - SizeImpact(f) <= 6.0
  {
    NumberOrZero(f.householdSize) * 1.5
      + HomeImpact(f.homeType)
      + NumberOrZero(f.homeSize) / 1000.0
      + DietImpact(f.dietType)
      + ShoppingImpact(f.shoppingHabits)
  }

  /** With both numeric fields at 0 (or empty) the footprint lies in [3, 6], and both
      ends are reached. */
  lemma ZeroSizesRange(f: Form)
    requires NumberOrZero(f.householdSize) == 0.0 && NumberOrZero(f.homeSize) == 0.0
    ensures 3.0 <= Footprint(f) <= 6.0
    ensures Footprint(f.(homeType := "apartment", dietType := "vegan", shoppingHabits := "minimal")) == 3.0
    ensures Footprint(f.(homeType := "house", dietType := "omnivore", shoppingHabits := "frequent")) == 6.0
  {
  }

  /** The untouched form computes 4.5. */
  lemma DefaultFootprint()
    ensures Footprint(DefaultForm) == 4.5
  {
  }

  /** Four people in a 2000 square-foot house, vegan, shopping minimally:
      6 + 2 + 2 + 1 + 1 = 12. */
  lemma HouseholdExample()
    ensures Footprint(Form(Some(4.0), "house", Some(2000.0), "vegan", "minimal")) == 12.0
  {
  }

  /** More people or more floor space never lowers the footprint. */
  lemma MonotoneInSizes(f: Form, g: Form)
    requires f.homeType == g.homeType && f.dietType == g.dietType && f.shoppingHabits == g.shoppingHabits
    requires NumberOrZero(f.householdSize) <= NumberOrZero(g.householdSize)
    requires NumberOrZero(f.homeSize) <= NumberOrZero(g.homeSize)
    ensures Footprint(f) <= Footprint(g)
  {
  }

  const ReduceAdvice := "Consider using energy-efficient appliances and reducing shopping frequency."
  const PraiseAdvice := "Great job! Keep maintaining sustainable habits."

  /** `suggestions`: the advice to cut down exactly when the footprint is above 10,
      the praise otherwise. */
  function Suggestion(carbonFootprint: real): (r: string)
    ensures r == ReduceAdvice <==> carbonFootprint > 10.0
    ensures r == PraiseAdvice <==> carbonFootprint <= 10.0
  {
    assert |ReduceAdvice| != |PraiseAdvice|;
    if carbonFootprint > 10.0 then ReduceAdvice else PraiseAdvice
  }

  /** The Personal page's state: the form record and the footprint it shows. */
  class Page {
    var formData: Form
    var carbonFootprint: real

    /** The shown footprint is the one the current form computes. */
    ghost predicate Synced()
      reads this
    {
      carbonFootprint == Footprint(formData)
    }

    /** Mounting the page: the default form, a footprint state of 0, and then the
        effect, which runs once on mount. */
    constructor ()
      ensures formData == DefaultForm && Synced()
      ensures carbonFootprint == 4.5
    {
      formData := DefaultForm;
      carbonFootprint := 0.0;
      new;
      Recompute();
      DefaultFootprint();
    }

    /** `handleChange`: store the form with the one field replaced. The shown
        footprint is stale until the effect runs. */
    method HandleChange(c: Change)
      modifies this`formData
      ensures formData == Update(old(formData), c)
      ensures carbonFootprint == old(carbonFootprint)
    {
      formData := Update(formData, c);
    }

    /** The effect that runs whenever `formData` changes. */
    method Recompute()
      modifies this`carbonFootprint
      ensures carbonFootprint == Footprint(formData)
      ensures formData == old(formData)
    {
      carbonFootprint := Footprint(formData);
    }

    /** One input event as the reader sees it: the change, then the effect. */
    method Input(c: Change)
      modifies this
      ensures formData == Update(old(formData), c)
      ensures Synced()
    {
      HandleChange(c);
      Recompute();
    }

    /** The suggestion text under the progress bar. */
    function Suggestions(): (r: string)
      reads this
      ensures r == ReduceAdvice <==> carbonFootprint > 10.0
      ensures r == PraiseAdvice <==> carbonFootprint <= 10.0
    {
      Suggestion(carbonFootprint)
    }
  }

  /** Filling in the worked example field by field: the page ends showing 12 and the
      advice to cut down. */
  method HouseholdSession() returns (shown: real, advice: string)
    ensures shown == 12.0
    ensures advice == ReduceAdvice
  {
    var page := new Page();
    page.Input(SetHouseholdSize(Some(4.0)));
    page.Input(SetHomeType("house"));
    page.Input(SetHomeSize(Some(2000.0)));
    page.Input(SetDietType("vegan"));
    page.Input(SetShoppingHabits("minimal"));
    assert page.formData == Form(Some(4.0), "house", Some(2000.0), "vegan", "minimal");
    HouseholdExample();
    shown := page.carbonFootprint;
    advice := page.Suggestions();
  }
}
