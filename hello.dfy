/** `HelloHandler`: "Hello, <name>!", with "World" when `name` is missing. */
module Hello {
  import opened Http

  const DefaultName: string := "World"

  /** The `{"message": ...}` body. */
  datatype Greeting = Greeting(message: string)

  /** `name` is the query value ("" when missing). */
  function Hello(name: string): (r: Reply<Greeting>)
    ensures r.status == StatusOK && r.body.Json?
    ensures var m := r.body.value.message;
            |m| >= 9 && m[..7] == "Hello, " && m[|m| - 1] == '!' &&
            m[7..|m| - 1] == (if name == "" then DefaultName else name)
  {
    var who := if name == "" then DefaultName else name;
    var m := "Hello, " + who + "!";
    assert m[7..|m| - 1] == who;
    Reply(StatusOK, Json(Greeting(m)))
  }

  /** Distinct names get distinct greetings, except that "" and "World" share one. */
  lemma GreetingDeterminesName(a: string, b: string)
    requires Hello(a) == Hello(b)
    ensures a == b || {a, b} == {"", DefaultName}
  {
    var ma, mb := Hello(a).body.value.message, Hello(b).body.value.message;
    assert ma[7..|ma| - 1] == mb[7..|mb| - 1];
  }
}
