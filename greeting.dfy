/** The greeting service: its `greeting` and `echo` tools, and what it
    registers besides them. */
module Greeting {
  import opened Envelope
  import Calculator
  import Info

  /** The salutation; an omitted `formal` defaults to false. */
  function Salutation(formal: Option<bool>): (r: string)
    ensures r == "Good day" <==> formal == Some(true)
    ensures r != "Good day" ==> r == "Hello"
  {
    var isFormal := if formal.Some? then formal.value else false;
    if isFormal then "Good day" else "Hello"
  }

  /** The `greeting` handler. */
  function Greet(name: string, formal: Option<bool>): (e: Envelope)
    ensures !e.isError && |e.content| == 1
    ensures formal == Some(true) ==> Texts(e) == ["Good day, " + name + "!"]
    ensures formal != Some(true) ==> Texts(e) == ["Hello, " + name + "!"]
  {
    assert "Good day" + ", " == "Good day, " && "Hello" + ", " == "Hello, ";
    Success([Salutation(formal) + ", " + name + "!"])
  }

  /** A greeting tells whether it was formal and whom it greets. */
  lemma GreetingDeterminesArguments(n1: string, f1: Option<bool>, n2: string, f2: Option<bool>)
    requires Greet(n1, f1) == Greet(n2, f2)
    ensures n1 == n2
    ensures f1 == Some(true) <==> f2 == Some(true)
  {
    var t1, t2 := Texts(Greet(n1, f1))[0], Texts(Greet(n2, f2))[0];
    assert t1 == t2;
    assert (f1 == Some(true)) == (t1[0] == 'G');
    assert (f2 == Some(true)) == (t2[0] == 'G');
    var k := |Salutation(f1)| + 2;
    assert t1[k..|t1| - 1] == n1;
    assert t2[k..|t2| - 1] == n2;
  }

  /** The `echo` handler. */
  function Echo(message: string): (e: Envelope)
    ensures !e.isError && |e.content| == 1
    ensures Texts(e) == ["Echo: " + message]
  {
    Success(["Echo: " + message])
  }

  /** The echoed text gives back the message unchanged. */
  lemma EchoDeterminesMessage(m1: string, m2: string)
    requires Echo(m1) == Echo(m2)
    ensures m1 == m2
  {
    var t := Texts(Echo(m1))[0];
    assert t[6..] == m1;
    assert Texts(Echo(m2))[0][6..] == m2;
  }

  /** The tool names the service registers. */
  function ToolNames(): seq<string>
  {
    ["greeting", "echo", Calculator.ToolName]
  }

  /** The resource names the service registers. */
  function ResourceNames(): seq<string>
  {
    [Info.SystemInfoName, Info.UserInfoName]
  }

  /** No tool name and no resource name is registered twice. */
  lemma RegisteredNamesDistinct()
    ensures forall i, j :: 0 <= i < j < |ToolNames()| ==> ToolNames()[i] != ToolNames()[j]
    ensures forall i, j :: 0 <= i < j < |ResourceNames()| ==> ResourceNames()[i] != ResourceNames()[j]
  {
  }
}
