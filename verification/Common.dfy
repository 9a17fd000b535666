/** Types shared by every part of the model. */
module Common {
  datatype Option<+T> = None | Some(value: T)

  /** How a request handler ends: normally, or by throwing. */
  datatype Reply =
    | Done
    | NotFound           // NotFoundException
    | BadRequest         // BadRequestException
    | Conflict           // ConflictException
    | RemoteFailure      // an external service call rejected
    | Rejected           // the database rejected a write
    | TooEarly           // the renew job refused to run
    | TypeError          // a property of null or undefined was read

  ghost predicate IsLargest(s: set<nat>, x: nat) {
    x in s && forall y :: y in s ==> y <= x
  }

  lemma LargestExists(s: set<nat>) returns (x: nat)
    requires s != {}
    ensures IsLargest(s, x)
  {
    var first :| first in s;
    var rest := s - {first};
    if rest == {} {
      assert s == {first};
      x := first;
    } else {
      var best := LargestExists(rest);
      x := if first < best then best else first;
      assert forall y :: y in s ==> y == first || y in rest;
    }
  }

  lemma LargestExistsIn(s: set<nat>)
    requires s != {}
    ensures exists x :: IsLargest(s, x)
  {
    var x := LargestExists(s);
  }
}
