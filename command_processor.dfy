// The command dispatcher the serial controllers call: a table from command
// names to handlers, and ProcessCommand, which normalises the command and
// the parameter it is handed (both are changed in place, so they are part of
// the result), looks the command up and builds the response text.  In the
// compiled firmware every handler body, HelpCommand's included, is switched
// off and only returns false, appending nothing to the response.
module CommandProcessor {
  import opened ArduinoString

  datatype CmdHandler =
    | AudioMode | Frequency | Gpio19 | Gpio23 | Gpio33 | Mute | PiCode | RdsTimePeriod
    | ProgramServiceName | PtyCode | RfCarrier | RadioText | Start | Stop | HelpCommand

  /** ListOfCommands. */
  const ListOfCommands: map<string, CmdHandler> := map[
    "aud" := AudioMode, "freq" := Frequency, "gpio19" := Gpio19, "gpio23" := Gpio23,
    "gpio33" := Gpio33, "mute" := Mute, "pic" := PiCode, "rtper" := RdsTimePeriod,
    "psn" := ProgramServiceName, "pty" := PtyCode, "rfc" := RfCarrier, "rtm" := RadioText,
    "start" := Start, "stop" := Stop, "?" := HelpCommand, "h" := HelpCommand, "help" := HelpCommand]

  /** The table's names, grouped by length. */
  const ShortNames: set<string> := {"?", "h"}
  const ThreeLetterNames: set<string> := {"aud", "pic", "psn", "pty", "rfc", "rtm"}
  const FourLetterNames: set<string> := {"freq", "mute", "stop", "help"}
  const LongNames: set<string> := {"rtper", "start", "gpio19", "gpio23", "gpio33"}

  /** The table holds 17 names. */
  lemma ListOfCommandsSize()
    ensures |ListOfCommands| == 17
  {
    NameGroupSizes();
    NameGroupLengths();
    ListOfCommandsKeys();
    var a := ShortNames + ThreeLetterNames;
    UnionOfDisjointSize(ShortNames, ThreeLetterNames, 3);
    var b := a + FourLetterNames;
    UnionOfDisjointSize(a, FourLetterNames, 4);
    UnionOfDisjointSize(b, LongNames, 5);
  }

  /** Two sets of strings split by a length bound are disjoint, so their
      union is as large as both together. */
  lemma UnionOfDisjointSize(a: set<string>, b: set<string>, n: nat)
    requires forall x <- a :: |x| < n
    requires forall y <- b :: |y| >= n
    ensures |a + b| == |a| + |b|
  {
    assert a * b == {};
  }

  lemma NameGroupLengths()
    ensures forall x <- ShortNames :: |x| == 1
    ensures forall x <- ThreeLetterNames :: |x| == 3
    ensures forall x <- FourLetterNames :: |x| == 4
    ensures forall x <- LongNames :: |x| >= 5
  {
  }

  lemma NameGroupSizes()
    ensures |ShortNames| == 2 && |ThreeLetterNames| == 6 && |FourLetterNames| == 4 && |LongNames| == 5
  {
  }

  lemma ListOfCommandsKeys()
    ensures ListOfCommands.Keys == ShortNames + ThreeLetterNames + FourLetterNames + LongNames
  {
  }

  /** "?", "h" and "help" are the names that reach HelpCommand, and no other
      does. */
  lemma HelpAliases(name: string)
    ensures name in ListOfCommands && ListOfCommands[name] == HelpCommand
            <==> name == "?" || name == "h" || name == "help"
  {
  }

  /** What one handler call leaves behind: its result and the response. */
  datatype HandlerResult = HandlerResult(ok: bool, response: string)

  /** A handler of the compiled firmware: it leaves the response as it is and
      returns false. */
  function Invoke(h: CmdHandler, payloadStr: string, ControllerName: string, Response: string): (r: HandlerResult)
    ensures !r.ok && r.response == Response
  {
    HandlerResult(false, Response)
  }

  /** What ProcessCommand leaves in its in/out arguments, and its result. */
  datatype Processed = Processed(command: string, parameter: string, response: string, ok: bool)

  const UNKNOWN_PREFIX: string := "->ERROR: Unknown Command: '"

  /** ProcessCommand(Command, Parameter, ControllerName, Response): the
      command is trimmed and lowercased, the parameter trimmed, then the
      command is looked up. */
  function ProcessCommand(Command: string, Parameter: string, ControllerName: string, Response: string): (r: Processed)
    ensures r.command == ToLower(Trim(Command)) && r.parameter == Trim(Parameter)
    ensures !r.ok
  {
    Dispatch(ToLower(Trim(Command)), Trim(Parameter), ControllerName, Response)
  }

  /** The lookup and the handler call, on the normalised command. */
  function Dispatch(command: string, parameter: string, ControllerName: string, Response: string): (r: Processed)
    ensures r.command == command && r.parameter == parameter && !r.ok
  {
    if command !in ListOfCommands then
      var response := UNKNOWN_PREFIX + command + "'\n";
      var help := Invoke(HelpCommand, parameter, ControllerName, response);
      Processed(command, parameter, help.response, false)
    else
      var response := Response + "->" + ControllerName;
      var handled := Invoke(ListOfCommands[command], parameter, ControllerName, response);
      Processed(command, parameter, handled.response, false)
  }

  /** An unknown command replaces the response with the error line naming the
      normalised command (the help text it is followed by is empty in the
      compiled firmware); a known one appends "->" and the controller name to
      the response it was given. */
  lemma ProcessCommandResponse(Command: string, Parameter: string, ControllerName: string, Response: string)
    ensures var r := ProcessCommand(Command, Parameter, ControllerName, Response);
      && (r.command !in ListOfCommands ==> r.response == UNKNOWN_PREFIX + r.command + "'\n")
      && (r.command in ListOfCommands ==> r.response == Response + "->" + ControllerName)
  {
  }

  /** The raw-command entry point hands ProcessCommand two fresh, empty
      strings, so the command is "" whatever RawCommand holds: it is always
      unknown and the result is false. */
  function ProcessRawCommand(RawCommand: string, ControllerName: string, Response: string): (r: Processed)
    ensures r.command == "" && r.response == UNKNOWN_PREFIX + "'\n" && !r.ok
  {
    assert Trim("") == "" && ToLower("") == "";
    assert "" !in ListOfCommands;
    assert UNKNOWN_PREFIX + "" == UNKNOWN_PREFIX;
    ProcessCommand("", "", ControllerName, Response)
  }

  /** The lookup ignores surrounding white space and ASCII case: handing
      ProcessCommand an already normalised command gives the same outcome. */
  lemma {:induction false} ProcessCommandNormalised(Command: string, Parameter: string, ControllerName: string, Response: string)
    ensures ProcessCommand(ToLower(Trim(Command)), Parameter, ControllerName, Response)
         == ProcessCommand(Command, Parameter, ControllerName, Response)
  {
    NormaliseIdempotent(Command);
  }

  /** Trimming and lowercasing a second time changes nothing. */
  lemma {:induction false} NormaliseIdempotent(s: string)
    ensures ToLower(Trim(ToLower(Trim(s)))) == ToLower(Trim(s))
  {
    var t := ToLower(Trim(s));
    TrimmedEnds(s);
    TrimOfTrimmed(t);
    ToLowerIdempotent(Trim(s));
  }

  /** A trimmed string neither starts nor ends with white space, and
      lowercasing keeps it so. */
  lemma TrimmedEnds(s: string)
    ensures var t := ToLower(Trim(s)); t == [] || (!IsSpace(t[0]) && !IsSpace(t[|t| - 1]))
  {
    var u := TrimStart(s);
    var t := TrimEnd(u);
    if |t| > 0 {
      assert t[0] == u[0];
    }
  }

  lemma TrimOfTrimmed(t: string)
    requires t == [] || (!IsSpace(t[0]) && !IsSpace(t[|t| - 1]))
    ensures Trim(t) == t
  {
  }

  lemma ToLowerIdempotent(s: string)
    ensures ToLower(ToLower(s)) == ToLower(s)
  {
  }
}
