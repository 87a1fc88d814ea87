/** The economic gate between ranking and policy. */
module EconomicGate {
  import opened Domain

  datatype Reason = WaitSelected | EconomicallyUnjustified | BelowMinimumValue | AtMinimumValue | AboveMinimumValue

  datatype GateResult = GateResult(action: ActionType, nerv: int, threshold: int, allow: bool, reason: Reason)

  function Evaluate(action: ActionType, nerv: int, threshold: int): (r: GateResult)
    ensures r.allow <==> action == Wait || (nerv >= 0 && nerv >= threshold)
    ensures r.reason.WaitSelected? <==> action == Wait
    ensures r.reason.EconomicallyUnjustified? <==> action != Wait && nerv < 0
    ensures r.reason.BelowMinimumValue? <==> action != Wait && 0 <= nerv < threshold
    ensures r.reason.AtMinimumValue? <==> action != Wait && 0 <= nerv == threshold
    ensures r.reason.AboveMinimumValue? <==> action != Wait && nerv >= 0 && nerv > threshold
    ensures r.action == action && r.nerv == nerv && r.threshold == threshold
  {
    if action == Wait then GateResult(action, nerv, threshold, true, WaitSelected)
    else if nerv < 0 then GateResult(action, nerv, threshold, false, EconomicallyUnjustified)
    else if nerv < threshold then GateResult(action, nerv, threshold, false, BelowMinimumValue)
    else if nerv == threshold then GateResult(action, nerv, threshold, true, AtMinimumValue)
    else GateResult(action, nerv, threshold, true, AboveMinimumValue)
  }
}
