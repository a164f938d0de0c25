/** The Dashboard page: four category values, their total, and the bar and pie chart
    series built from them. */
module Dashboard {

  /** The per-category values the dashboard shows, in the order the record declares them. */
  datatype CarbonData = CarbonData(personal: real, travel: real, energy: real, waste: real)

  /** The sample values the page ships with. */
  const SampleData := CarbonData(2.5, 4.2, 3.1, 1.8)

  /** One `[key, value]` pair of `Object.entries`. */
  datatype Entry = Entry(key: string, value: real)

  /** `Object.entries(carbonData)`: one pair per category, in declaration order. */
  function Entries(d: CarbonData): (es: seq<Entry>)
    ensures |es| == 4
    ensures es[0] == Entry("personal", d.personal) && es[1] == Entry("travel", d.travel)
    ensures es[2] == Entry("energy", d.energy) && es[3] == Entry("waste", d.waste)
  {
    [Entry("personal", d.personal), Entry("travel", d.travel), Entry("energy", d.energy), Entry("waste", d.waste)]
  }

  /** `Object.values(carbonData)`: the values of the entries, in the same order. */
  function Values(d: CarbonData): (vs: seq<real>)
    ensures |vs| == |Entries(d)|
    ensures forall i :: 0 <= i < |vs| ==> vs[i] == Entries(d)[i].value
  {
    [d.personal, d.travel, d.energy, d.waste]
  }

  /** `xs.reduce((a, b) => a + b, acc)`: add the values one by one onto the
      accumulator, left to right. */
  function FoldSum(acc: real, xs: seq<real>): (r: real)
    ensures (forall i :: 0 <= i < |xs| ==> xs[i] >= 0.0) ==> r >= acc
    ensures xs == [] ==> r == acc
    decreases |xs|
  {
    if xs == [] then acc else FoldSum(acc + xs[0], xs[1..])
  }

  /** The sum of a sequence, as a reference definition independent of the fold. */
  function Sum(xs: seq<real>): real
    decreases |xs|
  {
    if xs == [] then 0.0 else xs[0] + Sum(xs[1..])
  }

  /** Folding from any starting value adds that value to the sum. */
  lemma {:induction false} FoldSumIsSum(acc: real, xs: seq<real>)
    ensures FoldSum(acc, xs) == acc + Sum(xs)
    decreases |xs|
  {
    if xs != [] {
      FoldSumIsSum(acc + xs[0], xs[1..]);
    }
  }

  /** `totalFootprint`: the four category values added up. */
  function TotalFootprint(d: CarbonData): (total: real)
    ensures total == d.personal + d.travel + d.energy + d.waste
  {
    var vs := Values(d);
    FoldSumIsSum(0.0, vs);
    assert vs[1..] == [d.travel, d.energy, d.waste];
    assert vs[1..][1..] == [d.energy, d.waste];
    assert vs[1..][1..][1..] == [d.waste];
    assert vs[1..][1..][1..][1..] == [];
    assert Sum(vs[1..][1..][1..]) == d.waste;
    assert Sum(vs[1..][1..]) == d.energy + d.waste;
    assert Sum(vs[1..]) == d.travel + d.energy + d.waste;
    FoldSum(0.0, vs)
  }

  /** With the sample values the total is 11.6. */
  lemma SampleTotal()
    ensures TotalFootprint(SampleData) == 11.6
  {
  }

  /** `toUpperCase` on one character, for the letters a to z. */
  function UpperCase(ch: char): (r: char)
    ensures 'a' <= ch <= 'z' ==> 'A' <= r <= 'Z' && r as int - ch as int == 'A' as int - 'a' as int
    ensures !('a' <= ch <= 'z') ==> r == ch
  {
    if 'a' <= ch <= 'z' then (ch as int - 'a' as int + 'A' as int) as char else ch
  }

  /** `key.charAt(0).toUpperCase() + key.slice(1)`: the first character upper-cased
      and the rest kept, so the label is as long as the key and has the same tail. */
  function Capitalize(key: string): (capitalized: string)
    ensures |capitalized| == |key|
    ensures |key| > 0 ==> capitalized[0] == UpperCase(key[0]) && capitalized[1..] == key[1..]
    ensures key == [] ==> capitalized == []
  {
    if key == [] then [] else [UpperCase(key[0])] + key[1..]
  }

  /** Capitalising a label again changes nothing. */
  lemma CapitalizeIdempotent(key: string)
    ensures Capitalize(Capitalize(key)) == Capitalize(key)
  {
  }

  /** One bar of the bar chart. */
  datatype BarPoint = BarPoint(category: string, value: real)

  /** One slice of the pie chart. */
  datatype PieSlice = PieSlice(name: string, value: real)

  /** `barChartData`: one bar per entry, in the same order, labelled with the
      capitalised key and carrying the entry's value. */
  function BarChartData(es: seq<Entry>): (bars: seq<BarPoint>)
    ensures |bars| == |es|
    ensures forall i :: 0 <= i < |es| ==> bars[i] == BarPoint(Capitalize(es[i].key), es[i].value)
  {
    seq(|es|, i requires 0 <= i < |es| => BarPoint(Capitalize(es[i].key), es[i].value))
  }

  /** `pieChartData`: one slice per entry, in the same order, named with the
      capitalised key and carrying the entry's value. */
  function PieChartData(es: seq<Entry>): (slices: seq<PieSlice>)
    ensures |slices| == |es|
    ensures forall i :: 0 <= i < |es| ==> slices[i] == PieSlice(Capitalize(es[i].key), es[i].value)
  {
    seq(|es|, i requires 0 <= i < |es| => PieSlice(Capitalize(es[i].key), es[i].value))
  }

  /** The values of the bars, in order. */
  function BarValues(bars: seq<BarPoint>): (vs: seq<real>)
    ensures |vs| == |bars|
    ensures forall i :: 0 <= i < |bars| ==> vs[i] == bars[i].value
  {
    seq(|bars|, i requires 0 <= i < |bars| => bars[i].value)
  }

  /** Both charts show the same labels with the same values, bar for slice. */
  lemma ChartsAgree(es: seq<Entry>, i: nat)
    requires i < |es|
    ensures BarChartData(es)[i].category == PieChartData(es)[i].name
    ensures BarChartData(es)[i].value == PieChartData(es)[i].value
  {
  }

  /** The bars of the dashboard add up to the total it shows. */
  lemma BarsAddUpToTotal(d: CarbonData)
    ensures Sum(BarValues(BarChartData(Entries(d)))) == TotalFootprint(d)
  {
    var vs := BarValues(BarChartData(Entries(d)));
    assert vs == Values(d);
    FoldSumIsSum(0.0, vs);
  }

  /** With the sample values the charts are labelled Personal, Travel, Energy, Waste. */
  lemma SampleLabels()
    ensures BarChartData(Entries(SampleData))[0].category == "Personal"
    ensures BarChartData(Entries(SampleData))[1].category == "Travel"
    ensures BarChartData(Entries(SampleData))[2].category == "Energy"
    ensures BarChartData(Entries(SampleData))[3].category == "Waste"
  {
  }

  /** The pie chart's palette. */
  const Colors: seq<string> := ["#34D399", "#60A5FA", "#FBBF24", "#F87171"]

  /** `COLORS[index % COLORS.length]`: always one of the palette's colours, the
      palette in order for the first four slices, and repeating after that. */
  function CellColor(index: nat): (color: string)
    ensures color in Colors
    ensures index < |Colors| ==> color == Colors[index]
  {
    Colors[index % |Colors|]
  }

  /** Cells four apart share a colour. */
  lemma CellColorRepeats(index: nat)
    ensures CellColor(index + |Colors|) == CellColor(index)
  {
  }

  /** The four slices of the dashboard's pie get four different colours. */
  lemma DistinctSliceColors(i: nat, j: nat)
    requires i < |Entries(SampleData)| && j < |Entries(SampleData)| && i != j
    ensures CellColor(i) != CellColor(j)
  {
  }
}
