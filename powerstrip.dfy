/** The Xiaomi power strip (qmi.powerstrip.v1, zimi.powerstrip.v2): its
    status, read from a property list whose missing fields read as None, and
    the parameters its setters send. */
module PowerStrip {
  import opened Py
  import opened PyDict

  datatype PowerMode = Eco | Normal {
    function Value(): string
    {
      match this
      case Eco => "green"
      case Normal => "normal"
    }
  }

  /** `PowerMode(v)`: the member whose value equals `v`, None where Python
      raises ValueError. */
  function PowerModeOf(v: Value): (r: Option<PowerMode>)
    ensures r.Some? <==> v == Str("green") || v == Str("normal")
    ensures r.Some? ==> Str(r.value.Value()) == v
  {
    if v == Str("green") then Some(Eco)
    else if v == Str("normal") then Some(Normal)
    else None
  }

  /** The properties `status` asks for, in the order of the reply. */
  const Properties: seq<string> := ["power", "temperature", "current", "mode",
    "power_consume_rate", "wifi_led", "power_price", "voltage", "power_factor",
    "elec_leakage"]

  /** A status report: the received properties by name. A name without a
      value reads as None. */
  datatype Status = Status(data: map<string, Value>) {

    /** `data[name]` on the default dictionary. */
    function Get(name: string): (v: Value)
      ensures name in data ==> v == data[name]
      ensures name !in data ==> v == Null
    {
      if name in data then data[name] else Null
    }

    /** The stored power state, unchanged; None when it is missing. */
    function Power(): (v: Value)
      ensures "power" in data ==> v == data["power"]
      ensures "power" !in data ==> v == Null
    {
      Get("power")
    }

    /** True exactly when the power state is the string `"on"`. */
    function IsOn(): (b: bool)
      ensures b <==> "power" in data && data["power"] == Str("on")
    {
      Power() == Str("on")
    }

    function Temperature(): (v: Value)
      ensures "temperature" in data ==> v == data["temperature"]
      ensures "temperature" !in data ==> v == Null
    {
      Get("temperature")
    }

    function Current(): (v: Value)
      ensures "current" in data ==> v == data["current"]
      ensures "current" !in data ==> v == Null
    {
      if Get("current") != Null then Get("current") else Null
    }

    /** The `power_consume_rate` property. */
    function LoadPower(): (v: Value)
      ensures "power_consume_rate" in data ==> v == data["power_consume_rate"]
      ensures "power_consume_rate" !in data ==> v == Null
    {
      if Get("power_consume_rate") != Null then Get("power_consume_rate") else Null
    }

    /** None when the mode is missing or None; otherwise the mode it names,
        and ValueError for any other value. */
    function Mode(): (r: Result<Option<PowerMode>>)
      ensures r == Ok(None) <==> Get("mode") == Null
      ensures forall m: PowerMode :: r == Ok(Some(m)) <==> Get("mode") == Str(m.Value())
      ensures r.Raise? <==> Get("mode") !in {Null, Str("green"), Str("normal")}
      ensures r.Raise? ==> r.error == ValueError
    {
      var v := Get("mode");
      if v != Null then
        match PowerModeOf(v)
        case Some(m) => Ok(Some(m))
        case None => Raise(ValueError)
      else
        Ok(None)
    }

    /** True exactly when `wifi_led` is the string `"on"`; a missing field
        gives False. */
    function WifiLed(): (b: bool)
      ensures b <==> "wifi_led" in data && data["wifi_led"] == Str("on")
      ensures "wifi_led" !in data ==> !b
    {
      Get("wifi_led") == Str("on")
    }

    function PowerPrice(): (v: Value)
      ensures "power_price" in data ==> v == data["power_price"]
      ensures "power_price" !in data ==> v == Null
    {
      if Get("power_price") != Null then Get("power_price") else Null
    }

    /** The `elec_leakage` property. */
    function LeakageCurrent(): (v: Value)
      ensures "elec_leakage" in data ==> v == data["elec_leakage"]
      ensures "elec_leakage" !in data ==> v == Null
    {
      if Get("elec_leakage") != Null then Get("elec_leakage") else Null
    }

    function Voltage(): (v: Value)
      ensures "voltage" in data ==> v == data["voltage"]
      ensures "voltage" !in data ==> v == Null
    {
      if Get("voltage") != Null then Get("voltage") else Null
    }

    function PowerFactor(): (v: Value)
      ensures "power_factor" in data ==> v == data["power_factor"]
      ensures "power_factor" !in data ==> v == Null
    {
      if Get("power_factor") != Null then Get("power_factor") else Null
    }
  }

  /** The status built from the values received for `Properties`: the i-th
      name gets the i-th value, up to the shorter list. A count mismatch is
      not an error. */
  function StatusOf(values: seq<Value>): (st: Status)
    ensures forall k :: k in st.data ==> k in Properties
    ensures |values| >= |Properties| ==> forall k :: k in Properties ==> k in st.data
  {
    Status(Zip(Properties, values))
  }

  lemma PropertiesDistinct()
    ensures Distinct(Properties)
  {
  }

  /** Every requested property reads the value in its slot of the reply, or
      None when the reply is too short. */
  lemma StatusSlots(values: seq<Value>)
    ensures forall i :: 0 <= i < |Properties| ==>
      StatusOf(values).Get(Properties[i]) == if i < |values| then values[i] else Null
  {
    PropertiesDistinct();
    ZipDistinct(Properties, values);
  }

  /** What reading the `i`-th requested property gives: its value in the
      reply, or None when the reply stops short of it. */
  function Slot(values: seq<Value>, i: nat): (v: Value)
    requires i < |Properties|
    ensures i >= |values| ==> v == Null
  {
    if i < |values| then values[i] else Null
  }

  /** The property named `name`, requested `i`-th, reads the `i`-th value. */
  lemma ReadSlot(values: seq<Value>, i: nat, name: string)
    requires i < |Properties| && Properties[i] == name
    ensures StatusOf(values).Get(name) == Slot(values, i)
  {
    StatusSlots(values);
  }

  /** Each accessor reads its own position of the reply: the stored value
      unchanged, None past the end; `is_on` and `wifi_led` compare it with
      `"on"`. */
  lemma AccessorsReadReply(values: seq<Value>)
    ensures var st := StatusOf(values);
      && st.Power() == Slot(values, 0) && st.IsOn() == (Slot(values, 0) == Str("on"))
      && st.Temperature() == Slot(values, 1) && st.Current() == Slot(values, 2)
      && st.LoadPower() == Slot(values, 4)
      && st.WifiLed() == (Slot(values, 5) == Str("on")) && st.PowerPrice() == Slot(values, 6)
      && st.Voltage() == Slot(values, 7) && st.PowerFactor() == Slot(values, 8)
      && st.LeakageCurrent() == Slot(values, 9)
  {
    var st := StatusOf(values);
    assert st.Power() == Slot(values, 0) by { ReadSlot(values, 0, "power"); }
    assert st.IsOn() == (Slot(values, 0) == Str("on")) by { ReadSlot(values, 0, "power"); }
    assert st.Temperature() == Slot(values, 1) by { ReadSlot(values, 1, "temperature"); }
    assert st.Current() == Slot(values, 2) by { ReadSlot(values, 2, "current"); }
    assert st.LoadPower() == Slot(values, 4) by { ReadSlot(values, 4, "power_consume_rate"); }
    assert st.WifiLed() == (Slot(values, 5) == Str("on")) by { ReadSlot(values, 5, "wifi_led"); }
    assert st.PowerPrice() == Slot(values, 6) by { ReadSlot(values, 6, "power_price"); }
    assert st.Voltage() == Slot(values, 7) by { ReadSlot(values, 7, "voltage"); }
    assert st.PowerFactor() == Slot(values, 8) by { ReadSlot(values, 8, "power_factor"); }
    assert st.LeakageCurrent() == Slot(values, 9) by { ReadSlot(values, 9, "elec_leakage"); }
  }

  /** The mode is decoded from the fourth value: None when it is missing or
      None, the named mode for `"green"` or `"normal"`, ValueError otherwise. */
  lemma ModeReadsReply(values: seq<Value>)
    ensures var st := StatusOf(values);
      && (st.Mode() == Ok(None) <==> Slot(values, 3) == Null)
      && (forall m: PowerMode :: st.Mode() == Ok(Some(m)) <==> Slot(values, 3) == Str(m.Value()))
      && (st.Mode() == Raise(ValueError) <==> Slot(values, 3) !in {Null, Str("green"), Str("normal")})
  {
    ReadSlot(values, 3, "mode");
  }

  /** A reply with only the power state: every other property is None, the
      strip is on, and it has no mode. */
  lemma ShortReply()
    ensures StatusOf([Str("on")]).IsOn()
    ensures StatusOf([Str("on")]).Temperature() == Null
    ensures StatusOf([Str("on")]).Mode() == Ok(None)
    ensures !StatusOf([Str("on")]).WifiLed()
  {
    StatusSlots([Str("on")]);
    assert Properties[0] == "power" && Properties[1] == "temperature";
    assert Properties[3] == "mode" && Properties[5] == "wifi_led";
  }

  /** `set_power_mode(mode)`. */
  function SetPowerMode(mode: PowerMode): (call: Call)
    ensures call.name == "set_power_mode" && |call.params| == 1
    ensures PowerModeOf(call.params[0]) == Some(mode)
  {
    Call("set_power_mode", [Str(mode.Value())])
  }

  /** `set_wifi_led(led)`: `"on"` or `"off"`. */
  function SetWifiLed(led: bool): (call: Call)
    ensures call.name == "set_wifi_led" && |call.params| == 1
    ensures call.params[0] in {Str("on"), Str("off")}
    ensures call.params[0] == Str("on") <==> led
  {
    Call("set_wifi_led", [Str(if led then "on" else "off")])
  }

  /** `set_realtime_power(power)`: 1 or 0 for `set_rt_power`. */
  function SetRealtimePower(power: bool): (call: Call)
    ensures call.name == "set_rt_power" && |call.params| == 1
    ensures call.params[0] in {Int(0), Int(1)}
    ensures call.params[0] == Int(1) <==> power
  {
    Call("set_rt_power", [Int(if power then 1 else 0)])
  }

  /** `set_power_price(price)`: a price outside 0..999 is refused before
      anything is sent; any other is sent unchanged. */
  function SetPowerPrice(price: int): (r: Result<Call>)
    ensures r.Raise? <==> price < 0 || price > 999
    ensures r.Raise? ==> r.error == PowerStripException(price)
    ensures r.Ok? ==> r.value == Call("set_power_price", [Int(price)])
  {
    if price < 0 || price > 999 then Raise(PowerStripException(price))
    else Ok(Call("set_power_price", [Int(price)]))
  }

  /** What the setters send reads back through the status accessors once
      the strip reports it in the same field. */
  lemma SettersReadBack(mode: PowerMode, led: bool, price: int)
    ensures Status(map["mode" := SetPowerMode(mode).params[0]]).Mode() == Ok(Some(mode))
    ensures Status(map["wifi_led" := SetWifiLed(led).params[0]]).WifiLed() == led
    ensures SetPowerPrice(price).Ok? ==>
      Status(map["power_price" := SetPowerPrice(price).value.params[0]]).PowerPrice() == Int(price)
  {
  }
}
