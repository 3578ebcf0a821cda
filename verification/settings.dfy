/** The value logic of the settings controller: canvas scaling, the digit
    filter on numeric text fields, the broker address and OS scaling as they
    are written into the form and read back from it, and what a save does
    with the configuration it builds. */
module Settings {
  import opened JavaLang
  import opened Config

  // ------------------------------------------------------ scaleResolution

  /** `scaleResolution`: `(numberToScale * 100) / scaleRatio` in Java `int`
      arithmetic, so the product wraps around and the quotient is truncated.
      With a ratio of at least 100% a non-negative size never grows, even
      when the product overflows, and it stays non-negative as long as the
      product fits. */
  function ScaleResolution(numberToScale: Int32, scaleRatio: Int32): (r: Int32)
    requires scaleRatio != 0
    ensures 0 <= numberToScale && 100 <= scaleRatio ==> r <= numberToScale
    ensures 0 <= numberToScale <= MaxUnscaled && 100 <= scaleRatio ==> 0 <= r
  {
    ScaledBound(numberToScale, scaleRatio);
    JavaDiv(Wrap32(numberToScale * 100), scaleRatio)
  }

  /** The largest magnitude whose product with 100 does not overflow. */
  const MaxUnscaled: int := 21474836

  lemma ScaledBound(n: Int32, scaleRatio: Int32)
    ensures 0 <= n && 100 <= scaleRatio ==> JavaDiv(Wrap32(n * 100), scaleRatio) <= n
    ensures 0 <= n <= MaxUnscaled && 100 <= scaleRatio ==> 0 <= JavaDiv(Wrap32(n * 100), scaleRatio)
  {
    var w := Wrap32(n * 100);
    if 0 <= n && 100 <= scaleRatio && w >= 0 {
      var q := Quot(w, scaleRatio);
      assert JavaDiv(w, scaleRatio) == q;
      MulMonotone(q, 100, scaleRatio);
      if n <= MaxUnscaled {
        assert w == n * 100;
        assert q * 100 <= n * 100;
      } else {
        assert q * 100 <= MaxInt;
      }
    }
  }

  /** At 100% the canvas keeps the size it is given. */
  lemma ScaleResolutionIdentity(n: Int32)
    requires -MaxUnscaled <= n <= MaxUnscaled
    ensures ScaleResolution(n, 100) == n
  {
    var q := Quot(Abs(n * 100), 100);
    assert q == Abs(n) by {
      assert Abs(n * 100) == Abs(n) * 100;
      assert q * 100 <= Abs(n) * 100 < (q + 1) * 100;
    }
  }

  /** Past `MaxUnscaled` the product wraps: 21474837 at 100% comes out negative. */
  lemma ScaleResolutionOverflows()
    ensures ScaleResolution(MaxUnscaled + 1, 100) == -21474835
  {
    assert Wrap32((MaxUnscaled + 1) * 100) == -2147483596;
    assert Quot(2147483596, 100) == 21474835;
  }

  /** The OS scaling choices offered by the form. */
  const ScalingPercents: seq<Int32> := [100, 125, 150, 175, 200, 225, 250, 300, 350]

  /** Every offered scaling shrinks the canvas and reads back as itself. */
  lemma ScalingOptionsShrink(k: Int32, n: Int32)
    requires k in ScalingPercents && 0 <= n <= MaxUnscaled
    ensures 0 <= ScaleResolution(n, k) <= n
    ensures ParseScaling(FormatScaling(k)) == Some(k as int)
  {
    ScalingRoundTrip(k);
  }

  // ---------------------------------------------------------- digit filter

  /** `replaceAll("[^\\d]", "")`: the digits of `s`, in order. */
  function KeepDigits(s: string): (r: string)
    ensures AllDigits(r)
    ensures AllDigits(s) ==> r == s
    ensures |r| <= |s|
  {
    if s == [] then []
    else
      var init := s[..|s| - 1];
      assert s == init + [s[|s| - 1]];
      KeepDigits(init) + (if IsDigit(s[|s| - 1]) then [s[|s| - 1]] else [])
  }

  /** The indices of the digits of `s`, in increasing order. */
  function DigitIndices(s: string): (ix: seq<nat>)
    ensures forall k :: 0 <= k < |ix| ==> ix[k] < |s| && IsDigit(s[ix[k]])
  {
    if s == [] then []
    else DigitIndices(s[..|s| - 1]) + (if IsDigit(s[|s| - 1]) then [|s| - 1] else [])
  }

  /** The filtered text is exactly the subsequence of `s` at its digit
      positions: it picks them in increasing order and misses none. */
  lemma {:induction false} KeepDigitsIsDigitSubsequence(s: string)
    ensures |KeepDigits(s)| == |DigitIndices(s)|
    ensures forall k :: 0 <= k < |DigitIndices(s)| ==> KeepDigits(s)[k] == s[DigitIndices(s)[k]]
    ensures forall j, k :: 0 <= j < k < |DigitIndices(s)| ==> DigitIndices(s)[j] < DigitIndices(s)[k]
    ensures forall i :: 0 <= i < |s| && IsDigit(s[i]) ==> i in DigitIndices(s)
  {
    if s != [] {
      var init := s[..|s| - 1];
      KeepDigitsIsDigitSubsequence(init);
      assert forall i :: 0 <= i < |init| ==> init[i] == s[i];
    }
  }

  /** The text-field listener: text matching `\d*` is kept, anything else
      is replaced by its digits. */
  function Sanitize(newValue: string): (r: string)
    ensures AllDigits(r) && |r| <= |newValue|
    ensures AllDigits(newValue) ==> r == newValue
  {
    if AllDigits(newValue) then newValue else KeepDigits(newValue)
  }

  /** Whatever is typed, the field ends up holding only digits, and typing
      the result again changes nothing. */
  lemma SanitizeIdempotent(newValue: string)
    ensures AllDigits(Sanitize(newValue))
    ensures Sanitize(Sanitize(newValue)) == Sanitize(newValue)
    ensures AllDigits(newValue) ==> Sanitize(newValue) == newValue
    ensures !AllDigits(newValue) ==> |Sanitize(newValue)| < |newValue|
  {
    if !AllDigits(newValue) {
      KeepDigitsDropsSomething(newValue);
    }
  }

  lemma {:induction false} KeepDigitsDropsSomething(s: string)
    requires !AllDigits(s)
    ensures |KeepDigits(s)| < |s|
  {
    var init := s[..|s| - 1];
    assert s == init + [s[|s| - 1]];
    if IsDigit(s[|s| - 1]) {
      assert !AllDigits(init) by {
        var i :| 0 <= i < |s| && !IsDigit(s[i]);
        assert i < |init| && init[i] == s[i];
      }
      KeepDigitsDropsSomething(init);
    }
  }

  /** A numeric text field of the form. The digit listener is attached by
      `addTextFieldListener` only after the form has been filled in, so
      `listening` starts out false. */
  class NumericTextField {
    var text: string
    var listening: bool

    constructor (initial: string)
      ensures text == initial && !listening
    {
      text := initial;
      listening := false;
    }

    /** `addTextFieldListener(textField)`. */
    method AddTextFieldListener()
      modifies this
      ensures listening && text == old(text)
    {
      listening := true;
    }

    /** `textField.setText(newValue)`: stores the value and, when it differs
        from the old one, notifies the listener, which may call back into
        `SetText` with the digits. Once the field holds only digits, it
        keeps holding only digits. */
    method SetText(newValue: string)
      modifies this
      ensures listening == old(listening)
      ensures text == if listening && newValue != old(text) then Sanitize(newValue) else newValue
      ensures listening && AllDigits(old(text)) ==> AllDigits(text)
      decreases if AllDigits(newValue) then 0 else 1, 1
    {
      var changed := newValue != text;
      text := newValue;
      if listening && changed {
        TextChanged(newValue);
      }
    }

    /** The listener body: returns on `\d*`, otherwise sets the digits. */
    method TextChanged(newValue: string)
      requires listening && text == newValue
      modifies this
      ensures listening
      ensures text == Sanitize(newValue)
      decreases if AllDigits(newValue) then 0 else 1, 0
    {
      if AllDigits(newValue) {
        return;
      }
      SetText(KeepDigits(newValue));
    }
  }

  // ------------------------------------------------------- broker address

  /** `mqttHost.getText() + ":" + mqttPort.getText()` on save: when the port
      has no `:`, the separator is the last `:` of the address. */
  function JoinServer(host: string, port: string): (server: string)
    ensures ':' in server
    ensures ':' !in port ==> LastIndexOf(server, ':') == |host|
  {
    var server := host + ":" + port;
    assert server[|host|] == ':';
    assert forall j :: |host| < j < |server| ==> server[j] == port[j - |host| - 1];
    server
  }

  /** On load, the host is the text before the last `:` and the port the
      text after it; with no `:` at all `substring(0, -1)` throws, which is
      `None` here. */
  function SplitServer(server: string): (r: Option<(string, string)>)
    ensures r.Some? <==> ':' in server
  {
    var i := LastIndexOf(server, ':');
    if i < 0 then None else Some((server[..i], server[i + 1..]))
  }

  /** Loading what was saved gives back host and port, also when the host
      itself contains `:`, provided the port does not. */
  lemma SplitAfterJoin(host: string, port: string)
    requires ':' !in port
    ensures SplitServer(JoinServer(host, port)) == Some((host, port))
  {
    var s := JoinServer(host, port);
    assert s[..|host|] == host && s[|host| + 1..] == port;
  }

  /** The port field is digit-filtered, so it never holds `:`. */
  lemma SplitAfterJoinDigits(host: string, port: string)
    requires AllDigits(port)
    ensures SplitServer(JoinServer(host, port)) == Some((host, port))
  {
    assert forall i :: 0 <= i < |port| ==> port[i] != ':';
    SplitAfterJoin(host, port);
  }

  /** Saving a loaded address writes back the same string. */
  lemma JoinAfterSplit(server: string)
    requires ':' in server
    ensures SplitServer(server).Some?
    ensures JoinServer(SplitServer(server).value.0, SplitServer(server).value.1) == server
  {
    var i := LastIndexOf(server, ':');
    assert server == server[..i] + [server[i]] + server[i + 1..];
  }

  // ------------------------------------------------------------ OS scaling

  /** `Constants.PERCENT`, the suffix of the scaling choices. */
  const Percent: char := '%'

  /** `osScaling + Constants.PERCENT` on load: the number's text with the
      percent sign after it, and removing the sign leaves the number's text. */
  function FormatScaling(osScaling: int): (v: string)
    ensures |v| >= 2 && v[|v| - 1] == Percent
    ensures RemoveChar(v, Percent) == StringOf(osScaling)
  {
    var s := StringOf(osScaling);
    assert forall i :: 0 < i < |s| ==> IsDigit(s[i]) by {
      if osScaling < 0 {
        assert forall i :: 0 < i < |s| ==> s[i] == s[1..][i - 1];
      }
    }
    assert (s + [Percent])[..|s|] == s;
    s + [Percent]
  }

  /** `Integer.parseInt(value.replace(Constants.PERCENT, ""))` on save: an
      `int`, read from the value with every percent sign removed. */
  function ParseScaling(value: string): (r: Option<int>)
    ensures r.Some? ==> InInt32(r.value)
    ensures Percent !in value ==> r == ParseInt(value)
  {
    ParseInt(RemoveChar(value, Percent))
  }

  lemma ScalingRoundTrip(osScaling: int)
    requires InInt32(osScaling)
    ensures ParseScaling(FormatScaling(osScaling)) == Some(osScaling)
  {
    ParseIntOfStringOf(osScaling);
  }

  // ------------------------------------------------------- the whole form

  /** The form controls that `initValuesFromSettingsFile` fills in and
      `save` reads back, as the text or flag each one holds. */
  datatype Form = Form(
    screenWidth: string,
    screenHeight: string,
    scaling: string,
    serialPort: string,
    numberOfThreads: string,
    aspectRatio: string,
    mqttHost: string,
    mqttPort: string,
    mqttTopic: string,
    mqttUser: string,
    mqttPwd: string,
    mqttEnable: bool,
    mqttStream: bool,
    orientation: string,
    topLed: string,
    leftLed: string,
    rightLed: string,
    bottomLeftLed: string,
    bottomRightLed: string)

  /** `initValuesFromSettingsFile`: `None` when the stored broker address
      has no `:`. */
  function LoadForm(c: Configuration): (r: Option<Form>)
    ensures r.Some? <==> ':' in c.mqttServer
  {
    match SplitServer(c.mqttServer)
    case None => None
    case Some((host, port)) =>
      Some(Form(
        screenWidth := StringOf(c.screenResX),
        screenHeight := StringOf(c.screenResY),
        scaling := FormatScaling(c.osScaling),
        serialPort := c.serialPort,
        numberOfThreads := StringOf(c.numberOfCPUThreads),
        aspectRatio := c.defaultLedMatrix,
        mqttHost := host,
        mqttPort := port,
        mqttTopic := c.mqttTopic,
        mqttUser := c.mqttUsername,
        mqttPwd := c.mqttPwd,
        mqttEnable := c.mqttEnable,
        mqttStream := c.mqttStream,
        orientation := c.orientation,
        topLed := StringOf(c.topLed),
        leftLed := StringOf(c.leftLed),
        rightLed := StringOf(c.rightLed),
        bottomLeftLed := StringOf(c.bottomLeftLed),
        bottomRightLed := StringOf(c.bottomRightLed)))
  }

  /** The configuration `save` builds from the form; `None` when one of its
      `Integer.parseInt` calls throws. */
  function SaveConfiguration(f: Form): (r: Option<Configuration>)
    ensures r.Some? ==> r.value.mqttServer == JoinServer(f.mqttHost, f.mqttPort)
    ensures r.Some? ==> |f.screenWidth| >= 1 && |f.screenHeight| >= 1 && |f.numberOfThreads| >= 1
    ensures r.Some? ==> |f.topLed| >= 1 && |f.leftLed| >= 1 && |f.rightLed| >= 1
    ensures r.Some? ==> |f.bottomLeftLed| >= 1 && |f.bottomRightLed| >= 1
  {
    var width := ParseInt(f.screenWidth);
    var height := ParseInt(f.screenHeight);
    var threads := ParseInt(f.numberOfThreads);
    var scaling := ParseScaling(f.scaling);
    var top := ParseInt(f.topLed);
    var left := ParseInt(f.leftLed);
    var right := ParseInt(f.rightLed);
    var bottomLeft := ParseInt(f.bottomLeftLed);
    var bottomRight := ParseInt(f.bottomRightLed);
    if width.None? || height.None? || threads.None? || scaling.None? || top.None?
       || left.None? || right.None? || bottomLeft.None? || bottomRight.None?
    then None
    else
      Some(Configuration(
        numberOfCPUThreads := threads.value,
        serialPort := f.serialPort,
        screenResX := width.value,
        screenResY := height.value,
        osScaling := scaling.value,
        defaultLedMatrix := f.aspectRatio,
        mqttServer := JoinServer(f.mqttHost, f.mqttPort),
        mqttTopic := f.mqttTopic,
        mqttUsername := f.mqttUser,
        mqttPwd := f.mqttPwd,
        mqttEnable := f.mqttEnable,
        mqttStream := f.mqttStream,
        topLed := top.value,
        leftLed := left.value,
        rightLed := right.value,
        bottomLeftLed := bottomLeft.value,
        bottomRightLed := bottomRight.value,
        orientation := f.orientation))
  }

  /** Opening the settings and saving without edits stores the same
      configuration, for every configuration whose address has a `:`. */
  lemma SaveAfterLoad(c: Configuration)
    requires ':' in c.mqttServer
    ensures LoadForm(c).Some?
    ensures SaveConfiguration(LoadForm(c).value) == Some(c)
  {
    ParseIntOfStringOf(c.screenResX);
    ParseIntOfStringOf(c.screenResY);
    ParseIntOfStringOf(c.numberOfCPUThreads);
    ParseIntOfStringOf(c.topLed);
    ParseIntOfStringOf(c.leftLed);
    ParseIntOfStringOf(c.rightLed);
    ParseIntOfStringOf(c.bottomLeftLed);
    ParseIntOfStringOf(c.bottomRightLed);
    ScalingRoundTrip(c.osScaling);
    JoinAfterSplit(c.mqttServer);
  }

  /** Reopening the settings after a save shows the host and port that were
      typed, the port being a digit-filtered field. */
  lemma LoadAfterSaveBroker(f: Form)
    requires SaveConfiguration(f).Some?
    requires AllDigits(f.mqttPort)
    ensures LoadForm(SaveConfiguration(f).value).Some?
    ensures LoadForm(SaveConfiguration(f).value).value.mqttHost == f.mqttHost
    ensures LoadForm(SaveConfiguration(f).value).value.mqttPort == f.mqttPort
  {
    SplitAfterJoinDigits(f.mqttHost, f.mqttPort);
  }

  /** What the settings window does after a save. */
  datatype AfterSave = ExitApp | HideWindow | StayOpen

  /** The tail of `save`: `writeOk` is whether `StorageManager.writeConfig`
      returned normally. On success the new configuration becomes the
      global one and the window closes (first start-up) or the application
      exits; on an IOException nothing changes. */
  method CommitSave(app: AppGlobals, built: Configuration, writeOk: bool) returns (after: AfterSave)
    modifies app
    ensures app.communicationError == old(app.communicationError)
    ensures writeOk ==> app.config == Some(built)
    ensures writeOk ==> after == if old(app.config).None? then HideWindow else ExitApp
    ensures !writeOk ==> app.config == old(app.config) && after == StayOpen
  {
    if !writeOk {
      return StayOpen;
    }
    var firstStartup := app.config.None?;
    app.config := Some(built);
    if !firstStartup {
      after := ExitApp;
    } else {
      after := HideWindow;
    }
  }
}
