/** The fixed tool table: the two registered tool names and the dispatch rule
    that turns a requested tool call into the result the workflow records. */
module Tools {
  import opened Base

  const GetWeatherName: string := "getWeather"
  const ConvertToCelsiusName: string := "convertTocelsius"

  /** The names the tool schema registry offers to the model. */
  const Registry: set<string> := {GetWeatherName, ConvertToCelsiusName}

  /** A requested tool name, resolved against the registry. */
  datatype ToolKind = GetWeather | ConvertToCelsius | Unsupported(name: string)

  function Classify(name: string): (k: ToolKind)
    ensures k.Unsupported? <==> name !in Registry
    ensures k.Unsupported? ==> k.name == name
    ensures k == GetWeather <==> name == GetWeatherName
    ensures k == ConvertToCelsius <==> name == ConvertToCelsiusName
  {
    if name == GetWeatherName then GetWeather
    else if name == ConvertToCelsiusName then ConvertToCelsius
    else Unsupported(name)
  }

  /** The error object recorded for a name outside the registry. */
  function UnknownToolResult(name: string): Json
  {
    JObj([("error", JStr("Unknown tool: " + name))])
  }

  /** A run of one of the two tool activities, with the input passed to it. */
  datatype Invocation = RunGetWeather(input: Json) | RunConvertToCelsius(input: Json)

  /** The activity the tool switch runs for a requested call: the weather activity
      for `getWeather`, the conversion activity for `convertTocelsius`, each given the
      call's own input, and none for any other name. */
  function Invoke(name: string, input: Json): (a: Option<Invocation>)
    ensures a == Some(RunGetWeather(input)) <==> name == GetWeatherName
    ensures a == Some(RunConvertToCelsius(input)) <==> name == ConvertToCelsiusName
    ensures a.None? <==> name !in Registry
  {
    match Classify(name)
    case GetWeather => Some(RunGetWeather(input))
    case ConvertToCelsius => Some(RunConvertToCelsius(input))
    case Unsupported(_) => None
  }

  /** The result recorded for one tool call, given what each activity run returns
      (`run`): the output of the activity the switch invokes, or the error object
      when the name selects none. */
  function Dispatch(name: string, input: Json, run: Invocation -> Json): (r: Json)
    ensures name == GetWeatherName ==> r == run(RunGetWeather(input))
    ensures name == ConvertToCelsiusName ==> r == run(RunConvertToCelsius(input))
    ensures name !in Registry ==> r == UnknownToolResult(name)
    ensures name !in Registry ==> r.JObj? && |r.fields| == 1 && r.fields[0].0 == "error"
  {
    match Invoke(name, input)
    case Some(a) => run(a)
    case None => UnknownToolResult(name)
  }

  /** The error object names the offending tool: distinct names give distinct errors. */
  lemma UnknownToolResultNamesTool(a: string, b: string)
    requires UnknownToolResult(a) == UnknownToolResult(b)
    ensures a == b
  {
    var p := "Unknown tool: ";
    assert JStr(p + a) == JStr(p + b);
    assert a == (p + a)[|p|..];
  }
}
