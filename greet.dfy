/** `GreetHandler`: both `first` and `last` query parameters are required; the
    greeting is "Hello, <first> <last>". */
module Greet {
  import opened Wrappers
  import opened Http
  import opened GoStrings

  const Salutation: string := "Hello, "

  /** The `{"message": ...}` body. */
  datatype Greeting = Greeting(message: string)

  /** `first` and `last` are the query values ("" when missing). */
  function Greet(first: string, last: string): (r: Reply<Greeting>)
    ensures r.status == StatusOK <==> first != "" && last != ""
    ensures r.status != StatusOK ==> r == Fail(StatusBadRequest, "Missing first or last name")
    ensures r.status == StatusOK ==>
              r.body.Json? && |r.body.value.message| == |Salutation| + |first| + 1 + |last| &&
              r.body.value.message[..|Salutation|] == Salutation &&
              r.body.value.message[|Salutation|..|Salutation| + |first|] == first &&
              r.body.value.message[|Salutation| + |first|] == ' ' &&
              r.body.value.message[|Salutation| + |first| + 1..] == last
  {
    if first == "" || last == "" then Fail(StatusBadRequest, "Missing first or last name")
    else Reply(StatusOK, Json(Greeting(Salutation + first + " " + last)))
  }

  /** Reads the names back out of a greeting: the first name ends at the first
      space after the salutation. */
  function GreetedNames(message: string): (names: Option<(string, string)>)
  {
    if |message| < |Salutation| || message[..|Salutation|] != Salutation then None
    else
      var parts := SplitFirstSpace(message[|Salutation|..]);
      if |parts| != 2 then None else Some((parts[0], parts[1]))
  }

  /** A first name without spaces and any last name can be read back from the
      greeting. */
  lemma GreetingNamesRecovered(first: string, last: string)
    requires first != "" && last != "" && ' ' !in first
    ensures Greet(first, last).body.Json?
    ensures GreetedNames(Greet(first, last).body.value.message) == Some((first, last))
  {
    var m := Salutation + first + " " + last;
    assert m[..|Salutation|] == Salutation;
    assert m[|Salutation|..] == first + " " + last;
    SplitJoin(first, last);
  }
}
