/** The status report of the AC Companion: the reply to
    `get_model_and_state`, a list whose item 0 is the air conditioner's
    model, item 1 its state string and item 2 the power load, e.g.
    `['010507950000257301', '011001160100002573', '807']`. Each accessor
    reads fixed character positions of the state string. */
module AirConditioningCompanionStatus {
  import opened Py
  import opened PyInt
  import AC = AirConditioningCompanion

  /** `int(data[1][lo:hi], base)`: IndexError without a state item,
      TypeError when it cannot be sliced or the slice is a list, ValueError
      when the characters are not a number. */
  function StateField(data: seq<Value>, lo: nat, hi: nat, base: nat): (r: Result<int>)
    requires IsBase(base)
    ensures |data| < 2 ==> r == Raise(IndexError)
    ensures |data| >= 2 && !data[1].Str? ==> r == Raise(TypeError)
    ensures |data| >= 2 && data[1].Str? ==> r == ParseStr(Slice(data[1].s, lo, hi), base)
  {
    match Index(data, 1)
    case Raise(e) => Raise(e)
    case Ok(v) =>
      match SliceOf(v, lo, hi)
      case Raise(e) => Raise(e)
      case Ok(w) => if base == 10 then IntOf(w) else IntOfHex(w)
  }

  /** `int(data[1][i:i+1])`: the digit at position `i` of the state string. */
  function StateDigit(data: seq<Value>, i: nat): (r: Result<int>)
    ensures |data| < 2 ==> r == Raise(IndexError)
    ensures |data| >= 2 && !data[1].Str? ==> r == Raise(TypeError)
    ensures |data| >= 2 && data[1].Str? ==>
      var s := data[1].s;
      if i < |s| && '0' <= s[i] <= '9' then r == Ok(s[i] as int - '0' as int)
      else r == Raise(ValueError)
  {
    if |data| >= 2 && data[1].Str? then
      var s := data[1].s;
      if i < |s| then
        assert Slice(s, i, i + 1) == [s[i]];
        ParseOneChar(s[i]);
        StateField(data, i, i + 1, 10)
      else
        assert Slice(s, i, i + 1) == [];
        assert ParseInt([], 10) == None;
        StateField(data, i, i + 1, 10)
    else
      StateField(data, i, i + 1, 10)
  }

  /** Two hex digits at offsets 6 and 7 parse as the number they spell. */
  lemma HexPair(s: string)
    requires 8 <= |s| && IsDigit(s[6], 16) && IsDigit(s[7], 16)
    ensures ParseStr(Slice(s, 6, 8), 16) == Ok(16 * DigitValue(s[6]) + DigitValue(s[7]))
  {
    var t := Slice(s, 6, 8);
    assert t == [s[6], s[7]];
    ParseDigitString(t, 16);
    assert t[..1] == [s[6]] && [s[6]][..0] == [];
    assert ValueOfDigits([s[6]], 16) == DigitValue(s[6]);
    assert ValueOfDigits(t, 16) == 16 * DigitValue(s[6]) + DigitValue(s[7]);
  }

  /** Whatever the characters at offsets 6 and 7 hold, `int(..., 16)` of
      them is at most two hex digits with an optional sign: -15..255, and
      nothing at all parses. */
  lemma HexFieldBound(s: string)
    ensures var r := ParseStr(Slice(s, 6, 8), 16);
      (r.Ok? ==> -15 <= r.value <= 255) && (|s| <= 6 ==> r == Raise(ValueError))
  {
    var t := Slice(s, 6, 8);
    if ParseInt(t, 16).Some? {
      ParseIntBound(t, 16);
      assert Pow(16, 1) == 16 && Pow(16, 2) == 256;
      PowMonotone(16, |t|, 2);
    }
  }

  /** `try: ... except TypeError: return None`: only a TypeError becomes
      None; every other exception propagates. */
  function ExceptTypeError<T>(r: Result<T>): (o: Result<Option<T>>)
    ensures r.Ok? ==> o == Ok(Some(r.value))
    ensures r == Raise(TypeError) ==> o == Ok(None)
    ensures r.Raise? && r.error != TypeError ==> o == Raise(r.error)
  {
    match r
    case Ok(x) => Ok(Some(x))
    case Raise(TypeError) => Ok(None)
    case Raise(e) => Raise(e)
  }

  /** `str(v)` for the values whose text is modelled: None for a float or a
      list, whose rendering is not part of this model. */
  function StrOf(v: Value): (r: Option<string>)
    ensures v.Str? ==> r == Some(v.s)
    ensures v.Int? ==> r == Some(FormatInt(v.i, 10))
    ensures v.Bool? ==> r == Some(if v.b then "True" else "False")
    ensures v.Null? ==> r == Some("None")
    ensures r.None? <==> v.Float? || v.List?
  {
    match v
    case Str(s) => Some(s)
    case Int(i) => Some(FormatInt(i, 10))
    case Bool(b) => Some(if b then "True" else "False")
    case Null => Some("None")
    case _ => None
  }

  /** The digit character that stands for a small wire value. */
  function Code(n: nat): (c: char)
    requires n < 10
    ensures '0' <= c <= '9' && c as int - '0' as int == n
  {
    DigitChar(n)
  }

  datatype Status = Status(data: seq<Value>) {

    /** `int(data[2])`. */
    function LoadPower(): (r: Result<int>)
      ensures |data| < 3 ==> r == Raise(IndexError)
      ensures |data| >= 3 ==> r == IntOf(data[2])
    {
      match Index(data, 2)
      case Raise(e) => Raise(e)
      case Ok(v) => IntOf(v)
    }

    /** `str(data[0])`; Ok(None) stands for a float or list whose text is
        not modelled. */
    function AirConditionModel(): (r: Result<Option<string>>)
      ensures |data| < 1 ==> r == Raise(IndexError)
      ensures |data| >= 1 ==> r == Ok(StrOf(data[0]))
      ensures |data| >= 1 && data[0].Int? ==> r.Ok? && r.value.Some? && IntOf(Str(r.value.value)) == Ok(data[0].i)
    {
      match Index(data, 0)
      case Raise(e) => Raise(e)
      case Ok(v) =>
        if v.Int? then FormatIntParses(v.i, 10); Ok(StrOf(v)) else Ok(StrOf(v))
    }

    /** `'on'` exactly when character 2 is `1`, `'off'` for any other digit;
        anything else there raises. */
    function Power(): (r: Result<string>)
      ensures |data| < 2 ==> r == Raise(IndexError)
      ensures |data| >= 2 && !data[1].Str? ==> r == Raise(TypeError)
      ensures |data| >= 2 && data[1].Str? ==>
        var s := data[1].s;
        (r == Ok("on") <==> 2 < |s| && s[2] == Code(AC.Power.On.Value())) &&
        (r == Ok("off") <==> 2 < |s| && '0' <= s[2] <= '9' && s[2] != Code(AC.Power.On.Value())) &&
        (r == Raise(ValueError) <==> !(2 < |s| && '0' <= s[2] <= '9'))
    {
      match StateDigit(data, 2)
      case Raise(e) => Raise(e)
      case Ok(n) => Ok(if n == AC.Power.On.Value() then "on" else "off")
    }

    /** As written: the parsed digit (an int) is compared with the string
        `'0'`, which is never equal, so a readable LED state is always
        `'off'`. */
    function Led(): (r: Result<string>)
      ensures |data| < 2 ==> r == Raise(IndexError)
      ensures |data| >= 2 && !data[1].Str? ==> r == Raise(TypeError)
      ensures |data| >= 2 && data[1].Str? ==>
        var s := data[1].s;
        (r == Ok("off") <==> 8 < |s| && '0' <= s[8] <= '9') &&
        (r == Raise(ValueError) <==> !(8 < |s| && '0' <= s[8] <= '9'))
    {
      match StateDigit(data, 8)
      case Raise(e) => Raise(e)
      case Ok(n) => Ok(if Int(n) == Str([AC.Led.On.Value()]) then "on" else "off")
    }

    /** The LED accessor as evidently intended: character 8 compared with
        the LED's wire value `'0'` as text. */
    function LedFixed(): (r: Result<string>)
      ensures |data| < 2 ==> r == Raise(IndexError)
      ensures |data| >= 2 && !(data[1].Str? || data[1].List?) ==> r == Raise(TypeError)
      ensures |data| >= 2 && data[1].Str? ==>
        (r == Ok("on") <==> 8 < |data[1].s| && data[1].s[8] == AC.Led.On.Value())
      ensures |data| >= 2 && data[1].Str? ==>
        (r == Ok("off") <==> !(8 < |data[1].s| && data[1].s[8] == AC.Led.On.Value()))
      ensures |data| >= 2 && (data[1].Str? || data[1].List?) ==> r.Ok? && r.value in {"on", "off"}
    {
      match Index(data, 1)
      case Raise(e) => Raise(e)
      case Ok(v) =>
        match SliceOf(v, 8, 9)
        case Raise(e) => Raise(e)
        case Ok(w) =>
          assert v.Str? && 8 < |v.s| ==> Slice(v.s, 8, 9) == [v.s[8]];
          Ok(if w == Str([AC.Led.On.Value()]) then "on" else "off")
    }

    /** `power == 'on'`. */
    function IsOn(): (r: Result<bool>)
      ensures r.Ok? <==> Power().Ok?
      ensures r.Ok? ==> (r.value <==> Power().value == "on")
      ensures r.Raise? ==> r.error == Power().error
    {
      match Power()
      case Raise(e) => Raise(e)
      case Ok(p) => Ok(p == "on")
    }

    /** `int(data[1][6:8], 16)`, None when the state is not a string (a
        list slices, but `int` of a list raises TypeError too). Two
        characters give at most 255 and at least -15. */
    function TargetTemperature(): (r: Result<Option<int>>)
      ensures |data| < 2 ==> r == Raise(IndexError)
      ensures |data| >= 2 && !data[1].Str? ==> r == Ok(None)
      ensures |data| >= 2 && data[1].Str? ==>
        var s := data[1].s;
        (8 <= |s| && IsDigit(s[6], 16) && IsDigit(s[7], 16) ==>
           r == Ok(Some(16 * DigitValue(s[6]) + DigitValue(s[7])))) &&
        (|s| <= 6 ==> r == Raise(ValueError))
      ensures |data| >= 2 && data[1].Str? ==>
        var p := ParseInt(Slice(data[1].s, 6, 8), 16);
        (r.Raise? <==> p.None?) && (r.Raise? ==> r.error == ValueError) &&
        (p.Some? ==> r == Ok(Some(p.value)))
      ensures r.Ok? && r.value.Some? ==> -15 <= r.value.value <= 255
    {
      var f := StateField(data, 6, 8, 16);
      if |data| >= 2 && data[1].Str? then
        var s := data[1].s;
        if 8 <= |s| && IsDigit(s[6], 16) && IsDigit(s[7], 16) then
          HexPair(s);
          ExceptTypeError(f)
        else
          HexFieldBound(s);
          ExceptTypeError(f)
      else
        ExceptTypeError(f)
    }

    /** `SwingMode(int(data[1][5:6]))`: character 5 is `0` (On) or `1`
        (Off); another character raises ValueError. */
    function SwingMode(): (r: Result<Option<AC.SwingMode>>)
      ensures |data| < 2 ==> r == Raise(IndexError)
      ensures |data| >= 2 && !data[1].Str? ==> r == Ok(None)
      ensures |data| >= 2 && data[1].Str? ==>
        var s := data[1].s;
        (forall m: AC.SwingMode :: r == Ok(Some(m)) <==> 5 < |s| && s[5] == Code(m.Value())) &&
        (r == Raise(ValueError) <==> !(5 < |s| && '0' <= s[5] <= '1'))
    {
      ExceptTypeError(match StateDigit(data, 5)
        case Raise(e) => Raise(e)
        case Ok(n) => match AC.SwingModeOf(n) case Some(m) => Ok(m) case None => Raise(ValueError))
    }

    /** `FanSpeed(int(data[1][4:5]))`: character 4 is `0`..`3`. */
    function FanSpeed(): (r: Result<Option<AC.FanSpeed>>)
      ensures |data| < 2 ==> r == Raise(IndexError)
      ensures |data| >= 2 && !data[1].Str? ==> r == Ok(None)
      ensures |data| >= 2 && data[1].Str? ==>
        var s := data[1].s;
        (forall f: AC.FanSpeed :: r == Ok(Some(f)) <==> 4 < |s| && s[4] == Code(f.Value())) &&
        (r == Raise(ValueError) <==> !(4 < |s| && '0' <= s[4] <= '3'))
    {
      ExceptTypeError(match StateDigit(data, 4)
        case Raise(e) => Raise(e)
        case Ok(n) => match AC.FanSpeedOf(n) case Some(f) => Ok(f) case None => Raise(ValueError))
    }

    /** `OperationMode(int(data[1][3:4]))`: character 3 is `0`..`4`. */
    function Mode(): (r: Result<Option<AC.OperationMode>>)
      ensures |data| < 2 ==> r == Raise(IndexError)
      ensures |data| >= 2 && !data[1].Str? ==> r == Ok(None)
      ensures |data| >= 2 && data[1].Str? ==>
        var s := data[1].s;
        (forall m: AC.OperationMode :: r == Ok(Some(m)) <==> 3 < |s| && s[3] == Code(m.Value())) &&
        (r == Raise(ValueError) <==> !(3 < |s| && '0' <= s[3] <= '4'))
    {
      ExceptTypeError(match StateDigit(data, 3)
        case Raise(e) => Raise(e)
        case Ok(n) => match AC.OperationModeOf(n) case Some(m) => Ok(m) case None => Raise(ValueError))
    }
  }

  /** What the companion reports in its state string. */
  datatype Reading = Reading(
    power: AC.Power,
    mode: AC.OperationMode,
    fan: AC.FanSpeed,
    swing: AC.SwingMode,
    temperature: nat,
    led: AC.Led)

  /** A state string laid out as the decoder reads it: two leading
      characters, then power, mode, fan speed and swing as one digit each,
      the temperature as two hex digits, the LED character, and any tail. */
  function StateString(head: string, rd: Reading, tail: string): (s: string)
    requires |head| == 2 && rd.temperature < 256
    ensures |s| == 9 + |tail|
  {
    head + [Code(rd.power.Value()), Code(rd.mode.Value()), Code(rd.fan.Value()),
            Code(rd.swing.Value()), DigitChar(rd.temperature / 16),
            DigitChar(rd.temperature % 16), rd.led.Value()] + tail
  }

  /** Decoding a state string laid out from a reading gives the reading
      back, and item 2 written by `str` gives the load back. The LED is
      read back only by the corrected accessor: as written, a lit LED reads
      `'off'` and a dark one raises ValueError. */
  lemma StatusRoundTrip(model: Value, head: string, rd: Reading, tail: string, load: int)
    requires |head| == 2 && rd.temperature < 256
    ensures var st := Status([model, Str(StateString(head, rd, tail)), Str(FormatInt(load, 10))]);
      && st.Power() == Ok(if rd.power == AC.Power.On then "on" else "off")
      && st.IsOn() == Ok(rd.power == AC.Power.On)
      && st.Mode() == Ok(Some(rd.mode))
      && st.FanSpeed() == Ok(Some(rd.fan))
      && st.SwingMode() == Ok(Some(rd.swing))
      && st.TargetTemperature() == Ok(Some(rd.temperature))
      && st.LoadPower() == Ok(load)
      && st.LedFixed() == Ok(if rd.led == AC.Led.On then "on" else "off")
      && st.Led() == (if rd.led == AC.Led.On then Ok("off") else Raise(ValueError))
  {
    var st := Status([model, Str(StateString(head, rd, tail)), Str(FormatInt(load, 10))]);
    RoundTripSettings(st, head, rd, tail);
    RoundTripTemperature(st, head, rd, tail);
    RoundTripLed(st, head, rd, tail);
    FormatIntParses(load, 10);
  }

  /** The characters of a laid-out state string at the decoded positions. */
  lemma StateStringChars(head: string, rd: Reading, tail: string)
    requires |head| == 2 && rd.temperature < 256
    ensures var s := StateString(head, rd, tail);
      && s[2] == Code(rd.power.Value()) && s[3] == Code(rd.mode.Value())
      && s[4] == Code(rd.fan.Value()) && s[5] == Code(rd.swing.Value())
      && s[6] == DigitChar(rd.temperature / 16) && s[7] == DigitChar(rd.temperature % 16)
      && s[8] == rd.led.Value()
  {
  }

  lemma RoundTripSettings(st: Status, head: string, rd: Reading, tail: string)
    requires |head| == 2 && rd.temperature < 256
    requires |st.data| >= 2 && st.data[1] == Str(StateString(head, rd, tail))
    ensures st.Power() == Ok(if rd.power == AC.Power.On then "on" else "off")
    ensures st.IsOn() == Ok(rd.power == AC.Power.On)
    ensures st.Mode() == Ok(Some(rd.mode))
    ensures st.FanSpeed() == Ok(Some(rd.fan))
    ensures st.SwingMode() == Ok(Some(rd.swing))
  {
    StateStringChars(head, rd, tail);
  }

  lemma RoundTripTemperature(st: Status, head: string, rd: Reading, tail: string)
    requires |head| == 2 && rd.temperature < 256
    requires |st.data| >= 2 && st.data[1] == Str(StateString(head, rd, tail))
    ensures st.TargetTemperature() == Ok(Some(rd.temperature))
  {
    var hi, lo := rd.temperature / 16, rd.temperature % 16;
    assert 16 * hi + lo == rd.temperature;
    var s := StateString(head, rd, tail);
    assert s[6] == DigitChar(hi) && s[7] == DigitChar(lo);
    TemperatureDigits(st, hi, lo);
  }

  /** Two hex digits at offsets 6 and 7 read as the number they spell. */
  lemma TemperatureDigits(st: Status, hi: nat, lo: nat)
    requires hi < 16 && lo < 16
    requires |st.data| >= 2 && st.data[1].Str? && |st.data[1].s| >= 8
    requires st.data[1].s[6] == DigitChar(hi) && st.data[1].s[7] == DigitChar(lo)
    ensures st.TargetTemperature() == Ok(Some(16 * hi + lo))
  {
    var s := st.data[1].s;
    assert IsDigit(s[6], 16) && IsDigit(s[7], 16);
  }

  lemma RoundTripLed(st: Status, head: string, rd: Reading, tail: string)
    requires |head| == 2 && rd.temperature < 256
    requires |st.data| >= 2 && st.data[1] == Str(StateString(head, rd, tail))
    ensures st.LedFixed() == Ok(if rd.led == AC.Led.On then "on" else "off")
    ensures st.Led() == (if rd.led == AC.Led.On then Ok("off") else Raise(ValueError))
  {
    StateStringChars(head, rd, tail);
  }

  /** The LED accessor as written never reports `'on'`. */
  lemma LedNeverOn(st: Status)
    ensures st.Led() != Ok("on")
  {
  }

  /** The status sample from a companion switched on by `set_power`. */
  lemma SampleStatus()
    ensures var st := Status([Str("010507950000257301"), Str("011001160100002573"), Str("807")]);
      && st.Power() == Ok("on")
      && st.IsOn() == Ok(true)
      && st.Mode() == Ok(Some(AC.Heat))
      && st.FanSpeed() == Ok(Some(AC.Low))
      && st.SwingMode() == Ok(Some(AC.SwingMode.Off))
      && st.TargetTemperature() == Ok(Some(22))
      && st.LoadPower() == Ok(807)
      && st.AirConditionModel() == Ok(Some("010507950000257301"))
      && st.Led() == Ok("off")
      && st.LedFixed() == Ok("on")
  {
    var rd := Reading(AC.Power.On, AC.Heat, AC.Low, AC.SwingMode.Off, 22, AC.Led.On);
    assert StateString("01", rd, "100002573") == "011001160100002573";
    assert FormatInt(807, 10) == "807" by {
      assert DigitsOf(807, 10) == DigitsOf(80, 10) + ['7'];
      assert DigitsOf(80, 10) == DigitsOf(8, 10) + ['0'];
    }
    StatusRoundTrip(Str("010507950000257301"), "01", rd, "100002573", 807);
  }
}
