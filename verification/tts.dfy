/**
 * Speech synthesis requests and the spoken greeting (src/server/yandex-tts.ts).
 * The HTTP exchange is a parameter: the model builds the request and
 * interprets whatever response, or network failure, it is given.
 */
module Tts {

  import opened Wrappers
  import Text
  import Profiles

  type byte = x: int | 0 <= x < 256

  const SynthesisUrl: string := "https://tts.api.cloud.yandex.net/speech/v1/tts:synthesize"

  /**
   * Synthesis options. Absent and falsy options behave alike, so an absent
   * `format`, `emotion` or `sampleRateHertz` is written as its falsy value.
   * `speed` is in hundredths (`1.2` is 120) and absent when it is `None` or 0.
   */
  datatype TtsOptions = TtsOptions(
    text: string,
    voice: string,
    emotion: string,
    speedHundredths: int,
    format: string,
    sampleRateHertz: int)

  datatype Param = Param(key: string, value: string)

  /** The POST the synthesiser sends: URL, `Api-Key` authorisation, form body. */
  datatype Request = Request(url: string, authorization: string, body: seq<Param>)

  /** What the HTTP exchange answered, with the body read as text and as bytes. */
  datatype Response = Response(status: int, statusText: string, bodyText: string, bodyBytes: seq<byte>)

  /** `n.toString()` for a number given in hundredths: no trailing zeros, no point when whole. */
  function HundredthsText(h: int): (s: string)
    ensures h % 100 == 0 && h >= 0 ==> s == Text.NatToString(h / 100)
  {
    var a := if h < 0 then -h else h;
    var whole := (if h < 0 then "-" else "") + Text.NatToString(a / 100);
    var frac := a % 100;
    if frac == 0 then whole
    else if frac % 10 == 0 then whole + "." + [Text.DigitChar(frac / 10)]
    else whole + "." + [Text.DigitChar(frac / 10), Text.DigitChar(frac % 10)]
  }

  /** The first parameter named `key`. */
  function ParamValue(ps: seq<Param>, key: string): (r: Option<string>)
    ensures r.Some? <==> exists i :: 0 <= i < |ps| && ps[i].key == key
  {
    if |ps| == 0 then None
    else if ps[0].key == key then Some(ps[0].value)
    else ParamValue(ps[1..], key)
  }

  /** The first parameter of `a + b` named `key` is `a`'s when `a` has one, and `b`'s otherwise. */
  lemma {:induction false} ParamValueConcat(a: seq<Param>, b: seq<Param>, key: string)
    ensures ParamValue(a + b, key) == if ParamValue(a, key).Some? then ParamValue(a, key) else ParamValue(b, key)
    decreases |a|
  {
    if |a| > 0 {
      assert (a + b)[0] == a[0];
      assert (a + b)[1..] == a[1..] + b;
      ParamValueConcat(a[1..], b, key);
    } else {
      assert a + b == b;
    }
  }

  /** The parameters every request carries. */
  function FixedParams(o: TtsOptions, folderId: string): seq<Param> {
    [ Param("text", o.text),
      Param("voice", o.voice),
      Param("format", if o.format != "" then o.format else "lpcm"),
      Param("sampleRateHertz", Text.IntToString(if o.sampleRateHertz != 0 then o.sampleRateHertz else 16000)),
      Param("folderId", folderId)
    ]
  }

  /** The parameters appended only for a truthy emotion and a truthy speed. */
  function OptionalParams(o: TtsOptions): seq<Param> {
    (if o.emotion != "" then [Param("emotion", o.emotion)] else [])
    + (if o.speedHundredths != 0 then [Param("speed", HundredthsText(o.speedHundredths))] else [])
  }

  /**
   * The form body: text, voice, format (default `lpcm`), sample rate (default
   * 16000), folder, then the emotion and the speed when they are truthy.
   */
  function SynthesisParams(o: TtsOptions, folderId: string): (ps: seq<Param>)
    ensures 5 <= |ps| <= 7
  {
    FixedParams(o, folderId) + OptionalParams(o)
  }

  lemma FixedParamsMeaning(o: TtsOptions, folderId: string)
    ensures var ps := FixedParams(o, folderId);
      && ParamValue(ps, "text") == Some(o.text)
      && ParamValue(ps, "voice") == Some(o.voice)
      && ParamValue(ps, "format") == Some(if o.format == "" then "lpcm" else o.format)
      && ParamValue(ps, "sampleRateHertz") == Some(Text.IntToString(if o.sampleRateHertz == 0 then 16000 else o.sampleRateHertz))
      && ParamValue(ps, "folderId") == Some(folderId)
      && ParamValue(ps, "emotion") == None
      && ParamValue(ps, "speed") == None
  {
    FixedParamsLeading(o, folderId);
    FixedParamsTrailing(o, folderId);
    FixedParamsNoOptional(o, folderId);
  }

  /** The parameter at `k` is the first with its key when no earlier one shares it. */
  lemma {:induction false} ParamValueAt(ps: seq<Param>, k: nat)
    requires k < |ps|
    requires forall i :: 0 <= i < k ==> ps[i].key != ps[k].key
    ensures ParamValue(ps, ps[k].key) == Some(ps[k].value)
    decreases k
  {
    if k > 0 {
      assert ps[1..][k - 1] == ps[k];
      ParamValueAt(ps[1..], k - 1);
    }
  }

  lemma FixedParamsLeading(o: TtsOptions, folderId: string)
    ensures var ps := FixedParams(o, folderId);
      && ParamValue(ps, "text") == Some(o.text)
      && ParamValue(ps, "voice") == Some(o.voice)
      && ParamValue(ps, "format") == Some(if o.format == "" then "lpcm" else o.format)
  {
    var ps := FixedParams(o, folderId);
    assert ps[1].key[0] != ps[0].key[0];
    ParamValueAt(ps, 1);
    assert ps[2].key[0] != ps[0].key[0] && ps[2].key[0] != ps[1].key[0];
    ParamValueAt(ps, 2);
  }

  lemma FixedParamsTrailing(o: TtsOptions, folderId: string)
    ensures var ps := FixedParams(o, folderId);
      && ParamValue(ps, "sampleRateHertz") == Some(Text.IntToString(if o.sampleRateHertz == 0 then 16000 else o.sampleRateHertz))
      && ParamValue(ps, "folderId") == Some(folderId)
  {
    var ps := FixedParams(o, folderId);
    assert forall i :: 0 <= i < 3 ==> ps[i].key[0] != ps[3].key[0];
    ParamValueAt(ps, 3);
    assert ps[4].key[0] != ps[0].key[0] && ps[4].key[0] != ps[1].key[0];
    assert ps[4].key[2] != ps[2].key[2] && ps[4].key[0] != ps[3].key[0];
    ParamValueAt(ps, 4);
  }

  lemma FixedParamsNoOptional(o: TtsOptions, folderId: string)
    ensures var ps := FixedParams(o, folderId);
      && ParamValue(ps, "emotion") == None
      && ParamValue(ps, "speed") == None
  {
    var ps := FixedParams(o, folderId);
    var emotion, speed := "emotion", "speed";
    assert forall i :: 0 <= i < |ps| ==> ps[i].key[0] != emotion[0];
    assert ps[0].key[0] != speed[0] && ps[1].key[0] != speed[0] && ps[2].key[0] != speed[0];
    assert ps[3].key[1] != speed[1] && ps[4].key[0] != speed[0];
    assert forall i :: 0 <= i < |ps| ==> ps[i].key != emotion && ps[i].key != speed;
  }

  lemma OptionalParamsMeaning(o: TtsOptions)
    ensures var ps := OptionalParams(o);
      && ParamValue(ps, "emotion") == (if o.emotion != "" then Some(o.emotion) else None)
      && ParamValue(ps, "speed") == (if o.speedHundredths != 0 then Some(HundredthsText(o.speedHundredths)) else None)
  {
  }

  /** What each parameter of the form body says about the options. */
  lemma SynthesisParamsMeaning(o: TtsOptions, folderId: string)
    ensures var ps := SynthesisParams(o, folderId);
      && ParamValue(ps, "text") == Some(o.text)
      && ParamValue(ps, "voice") == Some(o.voice)
      && ParamValue(ps, "format") == Some(if o.format == "" then "lpcm" else o.format)
      && ParamValue(ps, "sampleRateHertz") == Some(Text.IntToString(if o.sampleRateHertz == 0 then 16000 else o.sampleRateHertz))
      && ParamValue(ps, "folderId") == Some(folderId)
      && ParamValue(ps, "emotion") == (if o.emotion != "" then Some(o.emotion) else None)
      && ParamValue(ps, "speed") == (if o.speedHundredths != 0 then Some(HundredthsText(o.speedHundredths)) else None)
  {
    var f, opt := FixedParams(o, folderId), OptionalParams(o);
    FixedParamsMeaning(o, folderId);
    OptionalParamsMeaning(o);
    ParamValueConcat(f, opt, "text");
    ParamValueConcat(f, opt, "voice");
    ParamValueConcat(f, opt, "format");
    ParamValueConcat(f, opt, "sampleRateHertz");
    ParamValueConcat(f, opt, "folderId");
    ParamValueConcat(f, opt, "emotion");
    ParamValueConcat(f, opt, "speed");
  }

  /** The request `synthesizeSpeech` sends. */
  function SynthesisRequest(o: TtsOptions, apiKey: string, folderId: string): (r: Request)
    ensures r.url == SynthesisUrl && r.body == SynthesisParams(o, folderId)
  {
    Request(SynthesisUrl, "Api-Key " + apiKey, SynthesisParams(o, folderId))
  }

  /** `response.ok`. */
  predicate IsOk(r: Response) {
    200 <= r.status <= 299
  }

  /**
   * The outcome of `synthesizeSpeech` for one HTTP exchange: the audio bytes
   * of a successful response, the API error of any other, and a network
   * failure passed on unchanged.
   */
  function SynthesisOutcome(exchange: Result<Response, string>): (r: Result<seq<byte>, string>)
    ensures r.Success? <==> exchange.Success? && IsOk(exchange.value)
    ensures r.Success? ==> r.value == exchange.value.bodyBytes
    ensures exchange.Failure? ==> r == Failure(exchange.error)
  {
    match exchange
    case Failure(e) => Failure(e)
    case Success(resp) =>
      if IsOk(resp) then Success(resp.bodyBytes)
      else Failure("TTS API error: " + Text.IntToString(resp.status) + " " + resp.statusText + " - " + resp.bodyText)
  }

  /** The three greeting templates, for one display name. */
  function Greetings(displayName: string): (gs: seq<string>)
    ensures |gs| == 3
  {
    [ "Привет! Я " + displayName + ". Чем могу помочь?",
      "Здравствуйте! " + displayName + " к вашим услугам.",
      "Привет! " + displayName + " на связи. Готов помочь!" ]
  }

  /** Every greeting mentions the assistant's display name. */
  lemma GreetingsMentionName(displayName: string, i: nat)
    requires i < 3
    ensures Text.Contains(Greetings(displayName)[i], displayName)
  {
    var gs := Greetings(displayName);
    if i == 0 {
      assert gs[0] == "Привет! Я " + displayName + ". Чем могу помочь?";
      Text.ContainsMiddle("Привет! Я ", displayName, ". Чем могу помочь?");
    } else if i == 1 {
      assert gs[1] == "Здравствуйте! " + displayName + " к вашим услугам.";
      Text.ContainsMiddle("Здравствуйте! ", displayName, " к вашим услугам.");
    } else {
      assert gs[2] == "Привет! " + displayName + " на связи. Готов помочь!";
      Text.ContainsMiddle("Привет! ", displayName, " на связи. Готов помочь!");
    }
  }

  const GreetingSampleRate: int := 16000

  /** The greeting text `createGreeting` picks for a draw of `Math.random()`. */
  function GreetingText(profile: Profiles.Profile, draw: real): (text: string)
    requires Profiles.IsDraw(draw)
    ensures text in Greetings(profile.displayName)
    ensures Text.Contains(text, profile.displayName)
  {
    var i := Profiles.RandomIndex(draw, 3);
    GreetingsMentionName(profile.displayName, i);
    Greetings(profile.displayName)[i]
  }

  /** The synthesis options of a greeting: the profile's voice, cheerful, normal speed, raw PCM at 16 kHz. */
  function GreetingOptions(profile: Profiles.Profile, text: string): (o: TtsOptions)
    ensures o.text == text && o.voice == profile.name && o.emotion == "good"
    ensures o.speedHundredths == 100 && o.format == "lpcm" && o.sampleRateHertz == GreetingSampleRate
  {
    TtsOptions(text, profile.name, "good", 100, "lpcm", GreetingSampleRate)
  }

  datatype Greeting = Greeting(text: string, audio: seq<byte>, sampleRate: int)

  /**
   * `createGreeting(profile)`: the spoken greeting, or the synthesis error.
   * The text that is synthesised is the text that is returned.
   */
  function CreateGreeting(profile: Profiles.Profile, draw: real, exchange: Result<Response, string>): (r: Result<Greeting, string>)
    requires Profiles.IsDraw(draw)
    ensures r.Success? <==> SynthesisOutcome(exchange).Success?
    ensures r.Success? ==> r.value.text == GreetingText(profile, draw) && r.value.sampleRate == GreetingSampleRate
    ensures r.Success? ==> Text.Contains(r.value.text, profile.displayName)
    ensures r.Success? ==> exchange.Success? && r.value.audio == exchange.value.bodyBytes
    ensures r.Failure? ==> r.error == SynthesisOutcome(exchange).error
  {
    var text := GreetingText(profile, draw);
    match SynthesisOutcome(exchange)
    case Success(audio) => Success(Greeting(text, audio, GreetingSampleRate))
    case Failure(e) => Failure(e)
  }

  /** The request a greeting sends asks for the profile's voice and the greeting's own text. */
  lemma GreetingRequest(profile: Profiles.Profile, draw: real, apiKey: string, folderId: string)
    requires Profiles.IsDraw(draw)
    ensures var body := SynthesisRequest(GreetingOptions(profile, GreetingText(profile, draw)), apiKey, folderId).body;
      && ParamValue(body, "voice") == Some(profile.name)
      && ParamValue(body, "text") == Some(GreetingText(profile, draw))
      && ParamValue(body, "emotion") == Some("good")
      && ParamValue(body, "speed") == Some("1")
      && ParamValue(body, "sampleRateHertz") == Some("16000")
  {
    var o := GreetingOptions(profile, GreetingText(profile, draw));
    SynthesisParamsMeaning(o, folderId);
    NormalSpeedText();
    GreetingRateText();
  }

  lemma NormalSpeedText()
    ensures HundredthsText(100) == "1"
  {
    assert Text.NatToString(1) == "1";
  }

  lemma GreetingRateText()
    ensures Text.IntToString(GreetingSampleRate) == "16000"
  {
    assert Text.NatToString(1) == "1";
    assert Text.NatToString(16) == "16";
    assert Text.NatToString(160) == "160";
    assert Text.NatToString(1600) == "1600";
  }
}
