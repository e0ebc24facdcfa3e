/** The Xiaomi air purifier: its status, read from a property list in which
    a missing field is a lookup failure, and the parameters of its LED and
    buzzer setters. */
module AirPurifier {
  import opened Py
  import opened PyDict

  /** The properties `status` asks for, in the order of the reply. */
  const Properties: seq<string> := ["power", "aqi", "humidity", "temp_dec",
    "mode", "led", "led_b", "buzzer", "child_lock", "limit_hum", "trans_level",
    "bright", "favorite_level", "filter1_life", "act_det", "f1_hour_used",
    "use_time", "motor1_speed"]

  /** The number a value stands for when Python compares it with a number:
      a bool is 0 or 1; strings, None and lists are not numbers. */
  function Numeric(v: Value): (x: Option<real>)
    ensures x.Some? <==> v.Int? || v.Bool? || v.Float?
    ensures v.Int? ==> x == Some(v.i as real)
    ensures v == Bool(true) ==> x == Some(1.0)
    ensures v == Bool(false) ==> x == Some(0.0)
    ensures v.Float? ==> x == Some(v.x)
  {
    match v
    case Int(i) => Some(i as real)
    case Bool(b) => Some(if b then 1.0 else 0.0)
    case Float(x) => Some(x)
    case _ => None
  }

  /** A status report: the received properties by name. */
  datatype Status = Status(data: map<string, Value>) {

    /** `data[name]` on a plain dictionary: KeyError when absent. */
    function Get(name: string): (r: Result<Value>)
      ensures r.Ok? <==> name in data
      ensures r.Ok? ==> r.value == data[name]
      ensures r.Raise? ==> r.error == KeyError(Str(name))
    {
      if name in data then Ok(data[name]) else Raise(KeyError(Str(name)))
    }

    /** `data[name] == "on"`. */
    function Flag(name: string): (r: Result<bool>)
      ensures r.Ok? <==> name in data
      ensures r.Ok? ==> (r.value <==> data[name] == Str("on"))
      ensures r.Raise? ==> r.error == KeyError(Str(name))
    {
      match Get(name)
      case Ok(v) => Ok(v == Str("on"))
      case Raise(e) => Raise(e)
    }

    function Power(): (r: Result<Value>)
      ensures "power" in data ==> r == Ok(data["power"])
      ensures "power" !in data ==> r == Raise(KeyError(Str("power")))
    {
      Get("power")
    }

    function IsOn(): (r: Result<bool>)
      ensures r.Ok? <==> "power" in data
      ensures r.Ok? ==> (r.value <==> data["power"] == Str("on"))
      ensures r.Raise? ==> r.error == KeyError(Str("power"))
    {
      match Power()
      case Ok(v) => Ok(v == Str("on"))
      case Raise(e) => Raise(e)
    }

    function Aqi(): (r: Result<Value>)
      ensures "aqi" in data ==> r == Ok(data["aqi"])
      ensures "aqi" !in data ==> r == Raise(KeyError(Str("aqi")))
    {
      Get("aqi")
    }

    function Humidity(): (r: Result<Value>)
      ensures "humidity" in data ==> r == Ok(data["humidity"])
      ensures "humidity" !in data ==> r == Raise(KeyError(Str("humidity")))
    {
      Get("humidity")
    }

    /** `temp_dec / 10.0`: a tenth of the stored number, computed exactly
        (floating-point rounding is not modelled); TypeError for a value
        that is not a number. */
    function Temperature(): (r: Result<Value>)
      ensures "temp_dec" !in data ==> r == Raise(KeyError(Str("temp_dec")))
      ensures "temp_dec" in data ==>
        (Numeric(data["temp_dec"]).Some? <==> r.Ok?) &&
        (r.Ok? ==> r.value.Float? && r.value.x * 10.0 == Numeric(data["temp_dec"]).value) &&
        (r.Raise? ==> r.error == TypeError)
    {
      match Get("temp_dec")
      case Raise(e) => Raise(e)
      case Ok(v) =>
        match Numeric(v)
        case Some(x) => Ok(Float(x / 10.0))
        case None => Raise(TypeError)
    }

    function Mode(): (r: Result<Value>)
      ensures "mode" in data ==> r == Ok(data["mode"])
      ensures "mode" !in data ==> r == Raise(KeyError(Str("mode")))
    {
      Get("mode")
    }

    function Led(): (r: Result<bool>)
      ensures r.Ok? <==> "led" in data
      ensures r.Ok? ==> (r.value <==> data["led"] == Str("on"))
      ensures r.Raise? ==> r.error == KeyError(Str("led"))
    {
      Flag("led")
    }

    /** The brightness code looked up in `{0: "bright", 1: "dim", 2: "off"}`:
        a number equal to a key finds it (so `True` finds `"dim"`), any
        other hashable value is a KeyError, and a list cannot be hashed. */
    function LedB(): (r: Result<string>)
      ensures "led_b" !in data ==> r == Raise(KeyError(Str("led_b")))
      ensures "led_b" in data ==>
        var v := data["led_b"];
        (r == Ok("bright") <==> Numeric(v) == Some(0.0)) &&
        (r == Ok("dim") <==> Numeric(v) == Some(1.0)) &&
        (r == Ok("off") <==> Numeric(v) == Some(2.0)) &&
        (r == Raise(TypeError) <==> v.List?) &&
        (r == Raise(KeyError(v)) <==> !v.List? && Numeric(v) !in {Some(0.0), Some(1.0), Some(2.0)})
    {
      match Get("led_b")
      case Raise(e) => Raise(e)
      case Ok(v) =>
        if v.List? then Raise(TypeError)
        else if Numeric(v) == Some(0.0) then Ok("bright")
        else if Numeric(v) == Some(1.0) then Ok("dim")
        else if Numeric(v) == Some(2.0) then Ok("off")
        else Raise(KeyError(v))
    }

    function Buzzer(): (r: Result<bool>)
      ensures r.Ok? <==> "buzzer" in data
      ensures r.Ok? ==> (r.value <==> data["buzzer"] == Str("on"))
      ensures r.Raise? ==> r.error == KeyError(Str("buzzer"))
    {
      Flag("buzzer")
    }

    function ChildLock(): (r: Result<Value>)
      ensures "child_lock" in data ==> r == Ok(data["child_lock"])
      ensures "child_lock" !in data ==> r == Raise(KeyError(Str("child_lock")))
    {
      Get("child_lock")
    }

    function LimitHum(): (r: Result<Value>)
      ensures "limit_hum" in data ==> r == Ok(data["limit_hum"])
      ensures "limit_hum" !in data ==> r == Raise(KeyError(Str("limit_hum")))
    {
      Get("limit_hum")
    }

    function TransLevel(): (r: Result<Value>)
      ensures "trans_level" in data ==> r == Ok(data["trans_level"])
      ensures "trans_level" !in data ==> r == Raise(KeyError(Str("trans_level")))
    {
      Get("trans_level")
    }

    function Bright(): (r: Result<Value>)
      ensures "bright" in data ==> r == Ok(data["bright"])
      ensures "bright" !in data ==> r == Raise(KeyError(Str("bright")))
    {
      Get("bright")
    }

    function FavoriteLevel(): (r: Result<Value>)
      ensures "favorite_level" in data ==> r == Ok(data["favorite_level"])
      ensures "favorite_level" !in data ==> r == Raise(KeyError(Str("favorite_level")))
    {
      Get("favorite_level")
    }

    /** The `filter1_life` property. */
    function FilterLifeRemaining(): (r: Result<Value>)
      ensures "filter1_life" in data ==> r == Ok(data["filter1_life"])
      ensures "filter1_life" !in data ==> r == Raise(KeyError(Str("filter1_life")))
    {
      Get("filter1_life")
    }

    function ActDet(): (r: Result<bool>)
      ensures r.Ok? <==> "act_det" in data
      ensures r.Ok? ==> (r.value <==> data["act_det"] == Str("on"))
      ensures r.Raise? ==> r.error == KeyError(Str("act_det"))
    {
      Flag("act_det")
    }

    /** The `f1_hour_used` property. */
    function FilterHoursUsed(): (r: Result<Value>)
      ensures "f1_hour_used" in data ==> r == Ok(data["f1_hour_used"])
      ensures "f1_hour_used" !in data ==> r == Raise(KeyError(Str("f1_hour_used")))
    {
      Get("f1_hour_used")
    }

    function UseTime(): (r: Result<Value>)
      ensures "use_time" in data ==> r == Ok(data["use_time"])
      ensures "use_time" !in data ==> r == Raise(KeyError(Str("use_time")))
    {
      Get("use_time")
    }

    /** The `motor1_speed` property. */
    function MotorSpeed(): (r: Result<Value>)
      ensures "motor1_speed" in data ==> r == Ok(data["motor1_speed"])
      ensures "motor1_speed" !in data ==> r == Raise(KeyError(Str("motor1_speed")))
    {
      Get("motor1_speed")
    }
  }

  /** The status built from the values received for `Properties`: the i-th
      name gets the i-th value, up to the shorter list. */
  function StatusOf(values: seq<Value>): (st: Status)
    ensures forall k :: k in st.data ==> k in Properties
    ensures |values| >= |Properties| ==> forall k :: k in Properties ==> k in st.data
  {
    Status(Zip(Properties, values))
  }

  /** The position of a requested property. */
  function Position(name: string): int
  {
    if name == "power" then 0
    else if name == "aqi" then 1
    else if name == "humidity" then 2
    else if name == "temp_dec" then 3
    else if name == "mode" then 4
    else if name == "led" then 5
    else if name == "led_b" then 6
    else if name == "buzzer" then 7
    else if name == "child_lock" then 8
    else if name == "limit_hum" then 9
    else if name == "trans_level" then 10
    else if name == "bright" then 11
    else if name == "favorite_level" then 12
    else if name == "filter1_life" then 13
    else if name == "act_det" then 14
    else if name == "f1_hour_used" then 15
    else if name == "use_time" then 16
    else if name == "motor1_speed" then 17
    else -1
  }

  lemma PropertiesDistinct()
    ensures Distinct(Properties)
  {
    forall i | 0 <= i < |Properties|
      ensures Position(Properties[i]) == i
    {
    }
  }

  /** Every requested property reads the value in its slot of the reply;
      one the reply does not reach is a KeyError. */
  lemma StatusSlots(values: seq<Value>)
    ensures forall i :: 0 <= i < |Properties| ==>
      StatusOf(values).Get(Properties[i]) ==
        if i < |values| then Ok(values[i]) else Raise(KeyError(Str(Properties[i])))
  {
    PropertiesDistinct();
    ZipDistinct(Properties, values);
  }

  /** What reading the `i`-th requested property gives: its value in the
      reply, or KeyError when the reply stops short of it. */
  function Slot(values: seq<Value>, i: nat): (r: Result<Value>)
    requires i < |Properties|
    ensures r.Ok? <==> i < |values|
  {
    if i < |values| then Ok(values[i]) else Raise(KeyError(Str(Properties[i])))
  }

  /** The property named `name`, requested `i`-th, reads the `i`-th value. */
  lemma ReadSlot(values: seq<Value>, i: nat, name: string)
    requires i < |Properties| && Properties[i] == name
    ensures StatusOf(values).Get(name) == Slot(values, i)
  {
    StatusSlots(values);
  }

  /** The first readings each come from their own position of the reply. */
  lemma ReadingsReadReply(values: seq<Value>)
    ensures var st := StatusOf(values);
      && st.Aqi() == Slot(values, 1)
      && st.Humidity() == Slot(values, 2) && st.Mode() == Slot(values, 4)
      && st.ChildLock() == Slot(values, 8) && st.LimitHum() == Slot(values, 9)
  {
    var st := StatusOf(values);
    assert st.Aqi() == Slot(values, 1) by { ReadSlot(values, 1, "aqi"); }
    assert st.Humidity() == Slot(values, 2) by { ReadSlot(values, 2, "humidity"); }
    assert st.Mode() == Slot(values, 4) by { ReadSlot(values, 4, "mode"); }
    assert st.ChildLock() == Slot(values, 8) by { ReadSlot(values, 8, "child_lock"); }
    assert st.LimitHum() == Slot(values, 9) by { ReadSlot(values, 9, "limit_hum"); }
  }

  /** The levels and counters, renamed ones included, each come from their
      own position of the reply. */
  lemma LevelsReadReply(values: seq<Value>)
    ensures var st := StatusOf(values);
      && st.TransLevel() == Slot(values, 10) && st.Bright() == Slot(values, 11)
      && st.FavoriteLevel() == Slot(values, 12) && st.FilterLifeRemaining() == Slot(values, 13)
      && st.FilterHoursUsed() == Slot(values, 15) && st.UseTime() == Slot(values, 16)
      && st.MotorSpeed() == Slot(values, 17)
  {
    var st := StatusOf(values);
    assert st.TransLevel() == Slot(values, 10) by { ReadSlot(values, 10, "trans_level"); }
    assert st.Bright() == Slot(values, 11) by { ReadSlot(values, 11, "bright"); }
    assert st.FavoriteLevel() == Slot(values, 12) by { ReadSlot(values, 12, "favorite_level"); }
    assert st.FilterLifeRemaining() == Slot(values, 13) by { ReadSlot(values, 13, "filter1_life"); }
    assert st.FilterHoursUsed() == Slot(values, 15) by { ReadSlot(values, 15, "f1_hour_used"); }
    assert st.UseTime() == Slot(values, 16) by { ReadSlot(values, 16, "use_time"); }
    assert st.MotorSpeed() == Slot(values, 17) by { ReadSlot(values, 17, "motor1_speed"); }
  }

  /** The power state comes from the first position of the reply, and
      `is_on` reads whether it is `"on"`. */
  lemma PowerReadsReply(values: seq<Value>)
    ensures var st := StatusOf(values);
      && st.Power() == Slot(values, 0)
      && st.IsOn() == (if 0 < |values| then Ok(values[0] == Str("on")) else Raise(KeyError(Str("power"))))
  {
    ReadSlot(values, 0, "power");
  }

  /** The on/off flags read whether their position of the reply is `"on"`. */
  lemma FlagsReadReply(values: seq<Value>)
    ensures var st := StatusOf(values);
      && st.Led() == (if 5 < |values| then Ok(values[5] == Str("on")) else Raise(KeyError(Str("led"))))
      && st.Buzzer() == (if 7 < |values| then Ok(values[7] == Str("on")) else Raise(KeyError(Str("buzzer"))))
      && st.ActDet() == (if 14 < |values| then Ok(values[14] == Str("on")) else Raise(KeyError(Str("act_det"))))
  {
    var st := StatusOf(values);
    assert st.Led() == (if 5 < |values| then Ok(values[5] == Str("on")) else Raise(KeyError(Str("led")))) by { ReadSlot(values, 5, "led"); }
    assert st.Buzzer() == (if 7 < |values| then Ok(values[7] == Str("on")) else Raise(KeyError(Str("buzzer")))) by { ReadSlot(values, 7, "buzzer"); }
    assert st.ActDet() == (if 14 < |values| then Ok(values[14] == Str("on")) else Raise(KeyError(Str("act_det")))) by { ReadSlot(values, 14, "act_det"); }
  }

  /** The temperature is a tenth of the number at the fourth position of
      the reply: TypeError when that is not a number, KeyError when the
      reply stops short of it. */
  lemma TemperatureReadsReply(values: seq<Value>)
    ensures var t := StatusOf(values).Temperature();
      && (3 >= |values| ==> t == Raise(KeyError(Str("temp_dec"))))
      && (3 < |values| ==>
            (t.Ok? <==> Numeric(values[3]).Some?) &&
            (t.Ok? ==> t.value.Float? && t.value.x * 10.0 == Numeric(values[3]).value) &&
            (t.Raise? ==> t.error == TypeError))
  {
    ReadSlot(values, 3, "temp_dec");
  }

  /** The LED brightness is looked up from the seventh position of the
      reply: 0 is bright, 1 (or True) dim and 2 off. */
  lemma LedBReadsReply(values: seq<Value>)
    ensures var b := StatusOf(values).LedB();
      && (6 >= |values| ==> b == Raise(KeyError(Str("led_b"))))
      && (6 < |values| ==>
            (b == Ok("bright") <==> Numeric(values[6]) == Some(0.0)) &&
            (b == Ok("dim") <==> Numeric(values[6]) == Some(1.0)) &&
            (b == Ok("off") <==> Numeric(values[6]) == Some(2.0)) &&
            (b == Raise(TypeError) <==> values[6].List?) &&
            (b == Raise(KeyError(values[6])) <==>
               !values[6].List? && Numeric(values[6]) !in {Some(0.0), Some(1.0), Some(2.0)}))
  {
    ReadSlot(values, 6, "led_b");
  }

  /** A reply with only the power state: the purifier is on, and reading
      the LED fails with KeyError. */
  lemma ShortReply()
    ensures StatusOf([Str("on")]).IsOn() == Ok(true)
    ensures StatusOf([Str("on")]).Led() == Raise(KeyError(Str("led")))
  {
    StatusSlots([Str("on")]);
    assert Properties[0] == "power" && Properties[5] == "led";
  }

  /** `set_mode(mode)`, kept only to show what `set_buzzer` sends. */
  function SetMode(mode: string): (call: Call)
    ensures call.name == "set_mode" && call.params == [Str(mode)]
  {
    Call("set_mode", [Str(mode)])
  }

  /** `set_led(led)`: `"on"` or `"off"`. */
  function SetLed(led: bool): (call: Call)
    ensures call.name == "set_led" && |call.params| == 1
    ensures call.params[0] in {Str("on"), Str("off")}
    ensures call.params[0] == Str("on") <==> led
  {
    Call("set_led", [Str(if led then "on" else "off")])
  }

  /** `set_buzzer(buzzer)` as written: `"on"` or `"off"` sent with the
      `set_mode` method. */
  function SetBuzzer(buzzer: bool): (call: Call)
    ensures call.name == "set_mode" && |call.params| == 1
    ensures call.params[0] in {Str("on"), Str("off")}
    ensures call.params[0] == Str("on") <==> buzzer
  {
    Call("set_mode", [Str(if buzzer then "on" else "off")])
  }

  /** The buzzer setter as evidently intended: the `set_buzzer` method. */
  function SetBuzzerFixed(buzzer: bool): (call: Call)
    ensures call.name == "set_buzzer" && |call.params| == 1
    ensures call.params[0] in {Str("on"), Str("off")}
    ensures call.params[0] == Str("on") <==> buzzer
  {
    Call("set_buzzer", [Str(if buzzer then "on" else "off")])
  }

  /** As written, setting the buzzer is the same request as switching to a
      fan mode named `"on"` or `"off"`; the corrected call is never a mode
      change. */
  lemma BuzzerIsModeChange(buzzer: bool, mode: string)
    ensures SetBuzzer(buzzer) == SetMode(if buzzer then "on" else "off")
    ensures SetBuzzerFixed(buzzer) != SetMode(mode)
  {
  }

  /** What the LED and buzzer setters send reads back through the status
      flag of the same name. */
  lemma SettersReadBack(led: bool, buzzer: bool)
    ensures Status(map["led" := SetLed(led).params[0]]).Led() == Ok(led)
    ensures Status(map["buzzer" := SetBuzzerFixed(buzzer).params[0]]).Buzzer() == Ok(buzzer)
  {
  }
}
