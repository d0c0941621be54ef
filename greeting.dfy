/** SayHello: a greeting for an optional name. */
module Greeting {
  import opened Wrappers

  const Salutation: string := "Hello, "

  /** Greets `name`, or the world when no name is given. */
  function SayHello(name: Option<string>): (greeting: string)
    ensures |greeting| >= |Salutation| + 1
    ensures greeting[..|Salutation|] == Salutation && greeting[|greeting| - 1] == '!'
  {
    var s := if name.None? then "World" else name.value;
    Salutation + s + "!"
  }

  /** Reads the name back out of a greeting, if it has the greeting's shape. */
  function GreetedName(greeting: string): Option<string> {
    if |greeting| >= |Salutation| + 1 && greeting[..|Salutation|] == Salutation && greeting[|greeting| - 1] == '!'
    then Some(greeting[|Salutation|..|greeting| - 1])
    else None
  }

  /** The greeting names exactly the given name, or "World" when there is none. */
  lemma GreetingNamesName(name: Option<string>)
    ensures GreetedName(SayHello(name)) == Some(if name.Some? then name.value else "World")
  {
    var s := if name.None? then "World" else name.value;
    assert SayHello(name)[|Salutation|..|SayHello(name)| - 1] == s;
  }

  /** Different names give different greetings; no name and "World" give the same one. */
  lemma SayHelloDistinguishesNames(a: Option<string>, b: Option<string>)
    ensures SayHello(a) == SayHello(b) <==>
      (if a.Some? then a.value else "World") == (if b.Some? then b.value else "World")
  {
    GreetingNamesName(a);
    GreetingNamesName(b);
  }
}
