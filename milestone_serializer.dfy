/** The back end's milestone validation of `percent_complete`. */
module MilestoneSerializer {
  import opened Wrappers

  const PercentMessage := "percent_complete must be between 0 and 100."

  /**
   * `validate_percent_complete`: a value outside 0..100 is rejected, any
   * other is returned as given. The bounds are inclusive (0 and 100 pass),
   * and an accepted value passes again unchanged.
   */
  function ValidatePercentComplete(value: int): (r: Result<int, string>)
    ensures r.Ok? <==> 0 <= value <= 100
    ensures r.Ok? ==> r.value == value
    ensures r.Err? ==> r.error == PercentMessage
  {
    if value < 0 || value > 100 then Err(PercentMessage) else Ok(value)
  }
}
