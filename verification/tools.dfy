/**
 * The two server-side tools (src/server/tools.ts): an FAQ lookup by keyword
 * and a Celsius-to-Fahrenheit conversion, behind one dispatcher that turns
 * every failure into an unsuccessful result instead of an exception.
 */
module Tools {

  import opened Wrappers
  import opened Json
  import Text

  /** The outcome of a tool call (src/common/types.ts:162-166). */
  datatype ToolResult = ToolResult(success: bool, result: string, error: Option<string>)

  const FaqTool: string := "faq_lookup_tool"
  const TemperatureTool: string := "convert_temperature_tool"

  const BaggageAnswer: string := "Можно взять одну сумку весом до 23 килограммов и размером 56 на 36 на 23 сантиметра."
  const SeatsAnswer: string := "В самолёте 120 мест: 22 бизнес и 98 эконом. Аварийные выходы — в рядах 4 и 16."
  const FoodAnswer: string := "На борту подают горячее питание на рейсах более 3 часов. Напитки доступны всегда."
  const UnknownAnswer: string := "Извините, я не знаю ответа на этот вопрос."

  /** A successful tool result. */
  function Ok(text: string): ToolResult {
    ToolResult(true, text, None)
  }

  /** An unsuccessful tool result with the given message. */
  function Fail(message: string): ToolResult {
    ToolResult(false, "", Some(message))
  }

  /** The message of the TypeError `v.prop` throws when `v` is `null` or `undefined`. */
  function NullishReadMessage(v: Option<Value>, prop: string): string
    requires v.None? || v.value.Null?
  {
    "Cannot read properties of " + (if v.None? then "undefined" else "null") + " (reading '" + prop + "')"
  }

  /** The keyword groups, in the order they are tried. */
  predicate AsksBaggage(q: string) {
    Text.Contains(q, "багаж") || Text.Contains(q, "сумк")
  }

  predicate AsksSeats(q: string) {
    Text.Contains(q, "мест") || Text.Contains(q, "самолет")
  }

  predicate AsksFood(q: string) {
    Text.Contains(q, "еда") || Text.Contains(q, "питание") || Text.Contains(q, "меню")
  }

  /** The canned answer for a question, matched case-insensitively. */
  function FaqAnswer(question: string): (answer: string)
    ensures answer in {BaggageAnswer, SeatsAnswer, FoodAnswer, UnknownAnswer}
  {
    var q := Text.ToLower(question);
    if AsksBaggage(q) then BaggageAnswer
    else if AsksSeats(q) then SeatsAnswer
    else if AsksFood(q) then FoodAnswer
    else UnknownAnswer
  }

  /**
   * Each answer is given exactly when its keywords occur in the lower-cased
   * question and no earlier group's keywords do.
   */
  lemma FaqAnswerPriority(question: string)
    ensures var q := Text.ToLower(question);
      && (FaqAnswer(question) == BaggageAnswer <==> AsksBaggage(q))
      && (FaqAnswer(question) == SeatsAnswer <==> !AsksBaggage(q) && AsksSeats(q))
      && (FaqAnswer(question) == FoodAnswer <==> !AsksBaggage(q) && !AsksSeats(q) && AsksFood(q))
      && (FaqAnswer(question) == UnknownAnswer <==> !AsksBaggage(q) && !AsksSeats(q) && !AsksFood(q))
  {
    assert BaggageAnswer != SeatsAnswer && BaggageAnswer != FoodAnswer && BaggageAnswer != UnknownAnswer;
    assert SeatsAnswer != FoodAnswer && SeatsAnswer != UnknownAnswer && FoodAnswer != UnknownAnswer;
  }

  /** Letter case does not change the answer. */
  lemma FaqAnswerIgnoresCase(question: string)
    ensures FaqAnswer(Text.ToLower(question)) == FaqAnswer(question)
  {
    Text.ToLowerIdempotent(question);
  }

  /** A question that mentions baggage anywhere gets the baggage answer. */
  lemma FaqBaggageAnywhere(before: string, after: string)
    ensures FaqAnswer(before + "багаж" + after) == BaggageAnswer
  {
    var s := before + "багаж" + after;
    var q := Text.ToLower(s);
    assert q == Text.ToLower(before) + "багаж" + Text.ToLower(after);
    Text.ContainsMiddle(Text.ToLower(before), "багаж", Text.ToLower(after));
  }

  /** `faqLookupTool(question)`: `question.toLowerCase()` throws unless the question is a string. */
  function FaqLookup(question: Option<Value>): (r: ToolResult)
    ensures r.success <==> question.Some? && question.value.Str?
    ensures r.success ==> r == Ok(FaqAnswer(question.value.s))
  {
    match question
    case Some(Str(s)) => Ok(FaqAnswer(s))
    case None => Fail(NullishReadMessage(question, "toLowerCase"))
    case Some(Null) => Fail(NullishReadMessage(question, "toLowerCase"))
    case Some(_) => Fail("question.toLowerCase is not a function")
  }

  /**
   * A temperature in tenths of a degree as `toFixed(1)` prints it: the sign,
   * the whole degrees and exactly one decimal digit.
   */
  function FormatTenths(t: int): string {
    var a := if t < 0 then -t else t;
    (if t < 0 then "-" else "") + Text.NatToString(a / 10) + "." + [Text.DigitChar(a % 10)]
  }

  /** Reads back a `toFixed(1)` text as tenths; `None` for any other text. */
  function ParseTenths(s: string): Option<int> {
    if |s| >= 3 && s[|s| - 2] == '.' && Text.IsDigit(s[|s| - 1]) then
      var head := s[..|s| - 2];
      var d := s[|s| - 1] as int - '0' as int;
      var negative := head[0] == '-';
      var whole := if negative then head[1..] else head;
      if |whole| > 0 && forall i :: 0 <= i < |whole| ==> Text.IsDigit(whole[i]) then
        var v: int := Text.DigitsValue(whole) * 10 + d;
        Some(if negative then -v else v)
      else None
    else None
  }

  /** Reading back a formatted temperature gives the same number of tenths. */
  lemma FormatTenthsRoundTrip(t: int)
    ensures ParseTenths(FormatTenths(t)) == Some(t)
  {
    var a := if t < 0 then -t else t;
    var digits := Text.NatToString(a / 10);
    var sign := if t < 0 then "-" else "";
    var s := FormatTenths(t);
    assert s == sign + digits + "." + [Text.DigitChar(a % 10)];
    assert s[..|s| - 2] == sign + digits;
    assert s[|s| - 2] == '.';
    Text.NatToStringRoundTrip(a / 10);
    assert Text.IsDigit(digits[0]);
    assert s[|s| - 1] as int - '0' as int == a % 10;
    assert Text.DigitsValue(digits) * 10 + a % 10 == a;
    if t < 0 {
      assert (sign + digits)[0] == '-';
      assert (sign + digits)[1..] == digits;
    } else {
      assert sign + digits == digits;
      assert digits[0] != '-';
    }
  }

  /** `value * 9 / 5 + 32` in tenths of a degree Fahrenheit, for a Celsius number. */
  function FahrenheitTenths(celsius: int): (t: int)
    ensures 5 * (t - 320) == 90 * celsius
  {
    18 * celsius + 320
  }

  /** The conversion text: the Celsius value as given, then Fahrenheit to one decimal. */
  function TemperatureText(value: Option<Value>): string {
    var f := match ToNumber(value)
      case NaN => "NaN"
      case Int(c) => FormatTenths(FahrenheitTenths(c));
    ToStr(value) + "°C = " + f + "°F"
  }

  /** `convertTemperatureTool(value)`: never fails, whatever the value. */
  function ConvertTemperature(value: Option<Value>): (r: ToolResult)
    ensures r.success && r.error.None?
  {
    Ok(TemperatureText(value))
  }

  /**
   * The Fahrenheit figure in the conversion text of a number converts back to
   * that number of degrees Celsius.
   */
  lemma TemperatureInverse(c: int)
    ensures exists t ::
      && ParseTenths(FormatTenths(t)) == Some(t)
      && 5 * (t - 320) == 90 * c
      && TemperatureText(Some(Num(c))) == Text.IntToString(c) + "°C = " + FormatTenths(t) + "°F"
  {
    var t := FahrenheitTenths(c);
    FormatTenthsRoundTrip(t);
  }

  /** Twelve degrees Celsius reads as 53.6 degrees Fahrenheit. */
  lemma TwelveCelsius()
    ensures ConvertTemperature(Some(Num(12))).result == "12°C = 53.6°F"
  {
    assert Text.NatToString(12) == "12";
    assert Text.NatToString(53) == "53";
  }

  /** The parameter the tool reads, or the TypeError of reading it off `null`/`undefined`. */
  function Param(params: Option<Value>, key: string): Result<Option<Value>, string> {
    if params.None? || params.value.Null? then Failure(NullishReadMessage(params, key))
    else Success(Get(params.value, key))
  }

  /**
   * `executeTool(name, parameters)`: dispatch by name; an unknown name or a
   * thrown error gives an unsuccessful result with an empty `result`.
   */
  function ExecuteTool(name: Option<Value>, params: Option<Value>): (r: ToolResult)
    ensures r.success <==> r.error.None?
    ensures !r.success ==> r.result == ""
    ensures r.success ==> IsString(name, FaqTool) || IsString(name, TemperatureTool)
    ensures !IsString(name, FaqTool) && !IsString(name, TemperatureTool) ==> r == Fail("Unknown tool: " + ToStr(name))
  {
    if IsString(name, FaqTool) then
      match Param(params, "question")
      case Failure(e) => Fail(e)
      case Success(q) => FaqLookup(q)
    else if IsString(name, TemperatureTool) then
      match Param(params, "value_celsius")
      case Failure(e) => Fail(e)
      case Success(v) => ConvertTemperature(v)
    else Fail("Unknown tool: " + ToStr(name))
  }

  /** The FAQ tool answers exactly when it is given an object whose question is a string. */
  lemma FaqToolSucceedsIff(params: Option<Value>)
    ensures ExecuteTool(Some(Str(FaqTool)), params).success <==>
      params.Some? && !params.value.Null? && Get(params.value, "question").Some? && Get(params.value, "question").value.Str?
  {
  }

  /** The temperature tool fails only when there are no parameters to read. */
  lemma TemperatureToolSucceedsIff(params: Option<Value>)
    ensures ExecuteTool(Some(Str(TemperatureTool)), params).success <==> params.Some? && !params.value.Null?
  {
  }
}
