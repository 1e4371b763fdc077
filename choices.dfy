/** The status of an outbox or inbox record, with the integers the table stores. */
module Choices {
  import opened Wrappers

  datatype Status = Failed | Schedule | Succeeded

  function Code(s: Status): int {
    match s
    case Failed => -1
    case Schedule => 1
    case Succeeded => 2
  }

  /** Reads a stored integer back; only the three codes are statuses. */
  function FromCode(c: int): (r: Option<Status>)
    ensures r.Some? <==> c in {-1, 1, 2}
    ensures r.Some? ==> Code(r.value) == c
  {
    if c == -1 then Some(Failed)
    else if c == 1 then Some(Schedule)
    else if c == 2 then Some(Succeeded)
    else None
  }

  lemma CodeRoundTrip(s: Status)
    ensures FromCode(Code(s)) == Some(s)
  {
  }
}
