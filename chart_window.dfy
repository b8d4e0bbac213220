/** What the bar and line charts share: the last-seven window and the axis maximum. */
module ChartWindow {
  import opened Outcomes

  const MaxVisibleData: nat := 7

  /** `s.slice(-7)`: the latest seven entries, or all of them when there are fewer. */
  function Recent<T>(s: seq<T>): (r: seq<T>)
    ensures |r| == if |s| < MaxVisibleData then |s| else MaxVisibleData
    ensures r == s[|s| - |r|..]
  {
    if |s| <= MaxVisibleData then s else s[|s| - MaxVisibleData..]
  }

  /** The largest value of a non-empty list. */
  function Max(values: seq<real>): (m: real)
    requires values != []
    ensures forall i :: 0 <= i < |values| ==> values[i] <= m
    ensures exists i :: 0 <= i < |values| && values[i] == m
  {
    if |values| == 1 then values[0]
    else
      var rest := Max(values[1..]);
      assert forall i :: 1 <= i < |values| ==> values[i] == values[1..][i - 1];
      if values[0] >= rest then values[0] else rest
  }

  /**
   * `Math.max(...recentDataValues) + 5`; for an empty window `Math.max()` is `-Infinity`,
   * written here as `None`.
   */
  function AxisMax(recent: seq<real>): (r: Option<real>)
    ensures r.Some? <==> recent != []
    ensures r.Some? ==> (forall i :: 0 <= i < |recent| ==> recent[i] + 5.0 <= r.value)
                        && (exists i :: 0 <= i < |recent| && recent[i] + 5.0 == r.value)
  {
    if recent == [] then None else Some(Max(recent) + 5.0)
  }

  /** The chart's `maxValue` for all of `dataValues`: five above the largest of the latest seven; `-Infinity` (`None`) when there are none. */
  function MaxValue(dataValues: seq<real>): (r: Option<real>)
    ensures r.Some? <==> dataValues != []
    ensures r.Some? ==> forall i :: |dataValues| - |Recent(dataValues)| <= i < |dataValues| ==> dataValues[i] + 5.0 <= r.value
    ensures r.Some? ==> exists i :: |dataValues| - |Recent(dataValues)| <= i < |dataValues| && dataValues[i] + 5.0 == r.value
  {
    AxisMax(Recent(dataValues))
  }

  /**
   * When labels and values are equally long, position `i` of both windows comes from the
   * same original position.
   */
  lemma WindowsAlign<T, U>(labels: seq<T>, values: seq<U>, i: nat)
    requires |labels| == |values| && i < |values| && i < MaxVisibleData
    ensures |Recent(labels)| == |Recent(values)|
    ensures Recent(labels)[i] == labels[|labels| - |Recent(labels)| + i]
    ensures Recent(values)[i] == values[|values| - |Recent(values)| + i]
  {
  }
}
