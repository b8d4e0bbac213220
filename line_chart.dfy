/** The line chart of the latest seven measurements of a record category. */
module LineChart {
  import opened Outcomes
  import opened ChartWindow

  /** One point; the label is absent when there are fewer labels than values. */
  datatype LinePoint = LinePoint(value: real, labelText: Option<string>)

  /** `recentDataValues.map((value, index) => ({value, label: recentLabels[index]}))` */
  function ChartData(labels: seq<string>, dataValues: seq<real>): (points: seq<LinePoint>)
    ensures |points| == |Recent(dataValues)| <= MaxVisibleData
    ensures forall i :: 0 <= i < |points| ==>
      && points[i].value == Recent(dataValues)[i]
      && points[i].labelText == (if i < |Recent(labels)| then Some(Recent(labels)[i]) else None)
  {
    var recentLabels := Recent(labels);
    var recentDataValues := Recent(dataValues);
    seq(|recentDataValues|, i requires 0 <= i < |recentDataValues| =>
      LinePoint(recentDataValues[i], if i < |recentLabels| then Some(recentLabels[i]) else None))
  }

  /** With as many labels as values, each point pairs a value with the label recorded beside it. */
  lemma PointsPairLabelsWithValues(labels: seq<string>, dataValues: seq<real>)
    requires |labels| == |dataValues|
    ensures var points, k := ChartData(labels, dataValues), |dataValues| - |ChartData(labels, dataValues)|;
      forall i :: 0 <= i < |points| ==> points[i].value == dataValues[k + i] && points[i].labelText == Some(labels[k + i])
  {
    var points := ChartData(labels, dataValues);
    forall i | 0 <= i < |points|
      ensures points[i].value == dataValues[|dataValues| - |points| + i] && points[i].labelText == Some(labels[|dataValues| - |points| + i])
    {
      WindowsAlign(labels, dataValues, i);
    }
  }
}
