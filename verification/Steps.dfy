/** What one step of a protocol may meet: it is done, it reports an error, or the process
    dies. Each protocol counts the errors and the crashes it met. */
module Steps {
  datatype Step = Done | Failed | Crashed

  method AnyStep() returns (r: Step)
  {
    var choice: int := *;
    r := if choice == 0 then Failed else if choice == 1 then Crashed else Done;
  }

  /** One if `met`, else nothing: what a step adds to a count. */
  function Tick(met: bool): (n: nat)
    ensures n == 1 <==> met
    ensures n == 0 <==> !met
  {
    if met then 1 else 0
  }
}
