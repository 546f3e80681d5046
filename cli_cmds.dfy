/** Shared helpers of the command-line client (mullvad-cli `cmds`): the
    two-label boolean option and the yes/no confirmation prompt. */
module CliCmds {
  import opened Wrappers
  import opened Text

  /** A boolean parsed from, and displayed as, one of two labels. */
  datatype BooleanOption = BooleanOption(state: bool, onLabel: string, offLabel: string)
  {
    /** `Deref`: the state. */
    function Deref(): bool { state }

    /** `Display`: the label of the current state. */
    function Display(): (s: string)
      ensures state ==> s == onLabel
      ensures !state ==> s == offLabel
    {
      if state then onLabel else offLabel
    }
  }

  /** An option in the given state with the given labels; it displays
      the label of its state. */
  function WithLabels(state: bool, onLabel: string, offLabel: string): (b: BooleanOption)
    ensures b.Deref() == state
    ensures b.Display() == if state then onLabel else offLabel
  {
    BooleanOption(state, onLabel, offLabel)
  }

  /** `From<bool>`: the state, with the labels "on" and "off". */
  function FromBool(state: bool): (b: BooleanOption)
    ensures b.Deref() == state
    ensures b.onLabel == "on" && b.offLabel == "off"
    ensures b.Display() == if state then "on" else "off"
  {
    WithLabels(state, "on", "off")
  }

  /** The value a parser refused. */
  datatype ParseError = InvalidValue(value: string)

  /** The parser `custom_parser(on_label, off_label)` builds: only the two
      labels are accepted, and the state is whether the value is the on
      label. The labels must differ (the source asserts it). */
  function CustomParse(onLabel: string, offLabel: string, value: string): (r: Result<BooleanOption, ParseError>)
    requires onLabel != offLabel
    ensures r.Ok? <==> value == onLabel || value == offLabel
    ensures r.Err? ==> r.error == InvalidValue(value)
    ensures r.Ok? ==> r.value == WithLabels(value == onLabel, onLabel, offLabel)
  {
    if value == onLabel || value == offLabel then Ok(WithLabels(value == onLabel, onLabel, offLabel))
    else Err(InvalidValue(value))
  }

  /** The parser of `value_parser`: "on" and "off". */
  function ValueParse(value: string): (r: Result<BooleanOption, ParseError>)
    ensures r.Ok? <==> value == "on" || value == "off"
    ensures r.Ok? ==> r.value == FromBool(value == "on")
    ensures r.Err? ==> r.error == InvalidValue(value)
  {
    CustomParse("on", "off", value)
  }

  /** Parsing then displaying gives back the label that was parsed, and
      displaying then parsing gives back the option; with equal labels the
      second would fail, which is why the labels must differ. */
  lemma ParseDisplayRoundTrip(onLabel: string, offLabel: string, value: string, state: bool)
    requires onLabel != offLabel
    ensures CustomParse(onLabel, offLabel, value).Ok? ==> CustomParse(onLabel, offLabel, value).value.Display() == value
    ensures var b := WithLabels(state, onLabel, offLabel);
      CustomParse(onLabel, offLabel, b.Display()) == Ok(b)
  {
  }

  /** With the default labels, parsing and display agree with `From<bool>`. */
  lemma ValueParseIsFromBool(state: bool)
    ensures ValueParse(FromBool(state).Display()) == Ok(FromBool(state))
    ensures ValueParse("on") == Ok(FromBool(true)) && ValueParse("off") == Ok(FromBool(false))
  {
  }

  // ---------------------------------------------------------------------
  // receive_confirmation

  /** The hint printed after the question; the capital letter is the
      default. */
  function HelperStr(default: bool): (s: string)
    ensures default ==> s == "[Y/n]"
    ensures !default ==> s == "[y/N]"
  {
    if default then "[Y/n]" else "[y/N]"
  }

  datatype Answer = DefaultAnswer | Yes | No | Unrecognised

  /** How one line of input is read, after trimming and ASCII-lowercasing. */
  function ClassifyAnswer(line: string): (a: Answer)
    ensures a == DefaultAnswer <==> Trim(line) == []
    ensures a == Yes ==> 0 < |Trim(line)| <= 3 && ToAsciiLower(Trim(line)[0]) == 'y'
    ensures a == No ==> 0 < |Trim(line)| <= 2 && ToAsciiLower(Trim(line)[0]) == 'n'
  {
    var normalised := LowerString(Trim(line));
    if normalised == "" then DefaultAnswer
    else if normalised == "y" || normalised == "ye" || normalised == "yes" then Yes
    else if normalised == "n" || normalised == "no" then No
    else Unrecognised
  }

  /** "yes" or "no" typed in full or abbreviated, in any letter case. */
  predicate AbbreviatesIgnoringCase(t: string, word: string)
  {
    0 < |t| <= |word| && EqIgnoreAsciiCase(t, word[..|t|])
  }

  /** The yes answers: "y", "ye" and "yes" in any letter case. */
  lemma ClassifyYes(t: string)
    ensures (LowerString(t) == "y" || LowerString(t) == "ye" || LowerString(t) == "yes") <==> AbbreviatesIgnoringCase(t, "yes")
  {
    var k := |t|;
    if k <= 3 {
      EqIgnoreAsciiCaseIsLowerEquality(t, "yes"[..k]);
      assert LowerString("yes"[..k]) == "yes"[..k];
    }
    if (LowerString(t) == "y" || LowerString(t) == "ye" || LowerString(t) == "yes") {
      assert k <= 3 && LowerString(t) == "yes"[..k];
    }
  }

  /** The no answers: "n" and "no" in any letter case. */
  lemma ClassifyNo(t: string)
    ensures (LowerString(t) == "n" || LowerString(t) == "no") <==> AbbreviatesIgnoringCase(t, "no")
  {
    var k := |t|;
    if k <= 2 {
      EqIgnoreAsciiCaseIsLowerEquality(t, "no"[..k]);
      assert LowerString("no"[..k]) == "no"[..k];
    }
    if (LowerString(t) == "n" || LowerString(t) == "no") {
      assert k <= 2 && LowerString(t) == "no"[..k];
    }
  }

  /** A blank line takes the default; a yes is "yes" or an abbreviation
      of it, and a no is "no" or "n", in any letter case and with any
      surrounding whitespace. */
  lemma ClassifyAnswerMeaning(line: string)
    ensures ClassifyAnswer(line) == DefaultAnswer <==> forall k | 0 <= k < |line| :: IsWhitespace(line[k])
    ensures ClassifyAnswer(line) == Yes <==> AbbreviatesIgnoringCase(Trim(line), "yes")
    ensures ClassifyAnswer(line) == No <==> AbbreviatesIgnoringCase(Trim(line), "no")
  {
    ClassifyYes(Trim(line));
    ClassifyNo(Trim(line));
  }

  /** Reading a line of standard input failed. */
  datatype ReadError = ReadError

  /** A line that ends the prompt: a read error or a recognised answer. */
  predicate Settles(line: Result<string, ReadError>)
  {
    line.Err? || ClassifyAnswer(line.value) != Unrecognised
  }

  /** The answer a settling line gives. */
  function Verdict(line: Result<string, ReadError>, default: bool): bool
  {
    match line
    case Err(_) => false
    case Ok(text) =>
      match ClassifyAnswer(text)
      case DefaultAnswer => default
      case Yes => true
      case No => false
      case Unrecognised => false
  }

  /** The prompt loop of `receive_confirmation`, reading successive lines
      from `lines`; once they run out, standard input is at its end, where
      a read gives the empty line and so the default. `consumed` is the
      number of lines read. */
  method ReceiveConfirmation(default: bool, lines: seq<Result<string, ReadError>>)
    returns (answer: bool, consumed: nat)
    ensures consumed <= |lines|
    ensures forall k | 0 <= k && k + 1 < consumed :: !Settles(lines[k])
    ensures consumed > 0 && Settles(lines[consumed - 1]) ==> answer == Verdict(lines[consumed - 1], default)
    ensures consumed == 0 || !Settles(lines[consumed - 1]) ==> consumed == |lines| && answer == default
  {
    consumed := 0;
    while consumed < |lines|
      invariant consumed <= |lines|
      invariant forall k | 0 <= k < consumed :: !Settles(lines[k])
    {
      var line := lines[consumed];
      consumed := consumed + 1;
      if line.Err? {
        return false, consumed;
      }
      match ClassifyAnswer(line.value) {
        case DefaultAnswer => return default, consumed;
        case Yes => return true, consumed;
        case No => return false, consumed;
        case Unrecognised =>
      }
    }
    answer := default;
  }
}
