/** The bar chart of the latest seven measurements of a record category. */
module BarChart {
  import opened Outcomes
  import opened ChartWindow

  const Colors: seq<string> := [
    "rgba(255, 99, 132, 1)",
    "rgba(54, 162, 235, 1)",
    "rgba(255, 206, 86, 1)",
    "rgba(75, 192, 192, 1)",
    "rgba(153, 102, 255, 1)",
    "rgba(255, 159, 64, 1)",
    "rgba(75, 192, 192, 1)"]

  /** One bar; the label is absent when there are fewer labels than values. */
  datatype BarItem = BarItem(value: real, labelText: Option<string>, frontColor: string)

  /** `recentDataValues.map((value, index) => ({value, label: recentLabels[index], frontColor: COLORS[index % COLORS.length]}))` */
  function ChartData(labels: seq<string>, dataValues: seq<real>): (bars: seq<BarItem>)
    ensures |bars| == |Recent(dataValues)| <= MaxVisibleData
    ensures forall i :: 0 <= i < |bars| ==>
      && bars[i].value == Recent(dataValues)[i]
      && bars[i].labelText == (if i < |Recent(labels)| then Some(Recent(labels)[i]) else None)
      && bars[i].frontColor == Colors[i % |Colors|]
  {
    var recentLabels := Recent(labels);
    var recentDataValues := Recent(dataValues);
    seq(|recentDataValues|, i requires 0 <= i < |recentDataValues| =>
      BarItem(recentDataValues[i],
              if i < |recentLabels| then Some(recentLabels[i]) else None,
              Colors[i % |Colors|]))
  }

  /** The window never exceeds the palette, so bar `i` takes colour `i` and no colour index wraps. */
  lemma ColorsNeverWrap(labels: seq<string>, dataValues: seq<real>)
    ensures forall i :: 0 <= i < |ChartData(labels, dataValues)| ==>
      ChartData(labels, dataValues)[i].frontColor == Colors[i]
  {
    var bars := ChartData(labels, dataValues);
    assert |Colors| == 7;
    forall i | 0 <= i < |bars|
      ensures bars[i].frontColor == Colors[i]
    {
      SmallRemainder(i);
    }
  }

  /** Below the palette size the colour index `i % 7` is `i` itself. */
  lemma SmallRemainder(i: nat)
    requires i < 7
    ensures i % 7 == i
  {
  }

  /** With as many labels as values, each bar pairs a value with the label recorded beside it. */
  lemma BarsPairLabelsWithValues(labels: seq<string>, dataValues: seq<real>)
    requires |labels| == |dataValues|
    ensures var bars, k := ChartData(labels, dataValues), |dataValues| - |ChartData(labels, dataValues)|;
      forall i :: 0 <= i < |bars| ==> bars[i].value == dataValues[k + i] && bars[i].labelText == Some(labels[k + i])
  {
    var bars := ChartData(labels, dataValues);
    forall i | 0 <= i < |bars|
      ensures bars[i].value == dataValues[|dataValues| - |bars| + i] && bars[i].labelText == Some(labels[|dataValues| - |bars| + i])
    {
      WindowsAlign(labels, dataValues, i);
    }
  }
}
