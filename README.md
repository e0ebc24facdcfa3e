# python-miio: AC Companion command synthesis and status decoders

This project is a Dafny model of three pieces of python-miio, the Python
library that controls Xiaomi appliances. Each piece sends a single remote
call `send(method, params)` and reads back the reply.

- **Air conditioning companion** (`miio/airconditioningcompanion.py`):
  - the wire enumerations `OperationMode`, `FanSpeed`, `SwingMode`, `Power` and `Led`;
  - the per-model command template table `DEVICE_COMMAND_TEMPLATES`;
  - the command string `send_configuration` builds. It cuts a lookup prefix and a suffix out of the model number, then takes the literal power-off command or substitutes nine markers into the template, with nine `str.replace` calls;
  - the positional status decoder `AirConditioningCompanionStatus`. It reads fixed character offsets of the state string in the reply to `get_model_and_state`.
- **Power strip** (`miio/powerstrip.py`): the status built with `defaultdict(lambda: None, zip(...))`, so a missing field reads as None, with its accessors, the power mode enumeration, and the parameters of its setters, including the price range check.
- **Air purifier** (`mirobo/airpurifier.py`): the status built with `dict(zip(...))`, so a missing field is a KeyError, with its accessors, including the LED brightness table, and the parameters of `set_led` and `set_buzzer`.

The modules:

- `Py` (`py_values.dfy`): Python values as the replies deliver them.
  - Exceptions are the `Raise` side of a `Result`.
  - Slicing `s[lo:hi]` clamps both ends.
  - A remote call is the `Call(name, params)` pair handed to the transport.
- `PyDict` (`py_dict.dfy`): `dict(zip(keys, values))`.
- `PyStr` (`py_str.dfy`): `str.replace`, which replaces non-overlapping occurrences scanning left to right.
- `PyInt` (`py_int.dfy`): the parsing side and the formatting side of integers.
  - Parsing: `int(s)` and `int(s, 16)`, with stripping of whitespace, a sign, an optional `0x` and `_` separators. Failure is a ValueError. The stripped whitespace is the ASCII space, `\t\n\v\f\r` and the non-ASCII characters `str.isspace()` accepts. The ASCII separators U+001C..U+001F are not stripped, although `isspace()` accepts them.
  - Formatting: `str(n)` and `format(n, 'X')`.
- `AirConditioningCompanion` (`ac_companion.dfy`):
  - the enumerations and the template table;
  - `Encode`, the nine `replace` calls in the source's order;
  - `SendConfiguration`, the `send_cmd` call built from the result of `Encode`.

  Each template base is stored as its sequence of literal parts and markers (`Template.parts`), and its text is `Template.Base() == Render(parts)`. That same sequence is the reference definition (`Expand`) that the textual substitution is proved against.
- `AirConditioningCompanionStatus` (`ac_status.dfy`): the positional decoder, and the layout of a state string (`StateString`) that it is proved to invert.
- `PowerStrip` (`powerstrip.dfy`) and `AirPurifier` (`airpurifier.dfy`): the property-list decoders and setters.

All three source files are pure computations over their inputs: no loop, and no field updated after construction. `send_configuration` reassigns one local variable through nine `replace` calls, so it is modelled as the composition of those calls (`Substitute`). Every command method returns the `(method, params)` pair it would send instead of sending it.

The model follows the code as written. In particular:

- `[tt]` becomes the full upper-case hexadecimal form of the temperature (`format(t, 'X')`). That is two or more digits from 16 up, with a minus sign below 0.
- The positional accessors catch only `TypeError`, which means the state item cannot be sliced or parsed as a whole. A bad digit or an unknown enum code still raises ValueError.
- `power`, `led` and `load_power` are not guarded at all. A missing item raises IndexError.
- The air purifier's missing fields raise KeyError.

## Model

| member | source | states |
|---|---|---|
| Py.Slice | miio/airconditioningcompanion.py:272-273 | a slice clamps both bounds to the length: its length and each of its characters |
| Py.Index | miio/airconditioningcompanion.py:95 | `data[i]` is the i-th item, IndexError past the end |
| Py.SliceOf | miio/airconditioningcompanion.py:105 | slicing a string or list gives the clamped slice; any other value raises TypeError |
| PyDict.Zip | miio/powerstrip.py:167-168 | the keys of `dict(zip(keys, values))` are exactly the first `min(len(keys), len(values))` keys |
| PyDict.ZipAt | mirobo/airpurifier.py:22 | a key not repeated later maps to the value beside it |
| PyDict.ZipDistinct | mirobo/airpurifier.py:22 | with distinct keys, the i-th key maps to the i-th value, or is absent when the values stop before it |
| PyStr.Replace | miio/airconditioningcompanion.py:287-301 | `s.replace(pat, rep)` keeps the length when `rep` is as long as `pat` and never grows the text when it is shorter; ReplaceAbsent, ReplaceShort, ReplaceSkipsText, ReplaceSkipsWord, ReplaceStepsOver and ReplaceAtFront state which text it produces |
| PyStr.ReplaceAbsent | miio/airconditioningcompanion.py:287-301 | without an occurrence of the pattern, `replace` changes nothing |
| PyStr.ReplaceSkipsText | miio/airconditioningcompanion.py:287-301 | text without the pattern's first character passes through unchanged and the scan resumes after it |
| PyStr.ReplaceAtFront | miio/airconditioningcompanion.py:287-301 | an occurrence at the front is replaced and the scan resumes right after it |
| PyInt.DigitsOf | miio/airconditioningcompanion.py:291 | the digits of a number are non-empty, valid in their base, written `0`-`9` or upper-case `A`-`F`, and without a leading zero: `0` is exactly the digits of zero |
| PyInt.FormatInt | miio/airconditioningcompanion.py:287-291 | `str(n)` / `format(n, 'X')` is the canonical upper-case digits of the magnitude, preceded by a single minus exactly for negative n and with no minus anywhere else |
| PyInt.DigitChar | miio/airconditioningcompanion.py:294-301 | `format(d, 'X')` of a digit is `0`-`9` or upper-case `A`-`F`, and its value is d |
| PyInt.ValueOfDigitsOf | miio/airconditioningcompanion.py:291 | the digits of n denote n |
| PyInt.FormatIntParses | miio/airconditioningcompanion.py:287-291 | `int(format(n, base), base) == n` for every integer n, negative ones included |
| PyInt.ParseOneChar | miio/airconditioningcompanion.py:105 | `int` of a one-character string is that digit's value for `0`-`9`, ValueError otherwise |
| PyInt.ParseIntBound | miio/airconditioningcompanion.py:121 | a k-character string parses to a value below base^k and above -base^(k-1) |
| PyInt.ParseInt | miio/airconditioningcompanion.py:121 | `int(s, base)` on text: None where Python raises ValueError, which includes an empty or all-whitespace string; ParseStr, FormatIntParses and ParseIntBound state the value |
| PyInt.StripsWhitespace | miio/airconditioningcompanion.py:121 | `int('\t5 ')` is 5: surrounding whitespace is stripped |
| PyInt.SeparatorsNotStripped | miio/airconditioningcompanion.py:121 | `int('\x1c5')`, `int('5\x1f')` and `int('\x1c5', 16)` raise ValueError: the ASCII separators are not stripped |
| PyInt.ParseStr | miio/airconditioningcompanion.py:121 | `int(s, base)` returns the parsed value or raises ValueError |
| PyInt.IntOf | miio/airconditioningcompanion.py:95 | `int(v)`: ints unchanged, bools 0/1, floats truncated toward zero, strings parsed, None and lists TypeError |
| PyInt.IntOfHex | miio/airconditioningcompanion.py:121 | `int(v, 16)` accepts only strings; anything else is TypeError |
| AirConditioningCompanion.OperationModeOf | miio/airconditioningcompanion.py:10-15 | `OperationMode(n)` exists exactly for 0..4 and has wire value n |
| AirConditioningCompanion.FanSpeedOf | miio/airconditioningcompanion.py:18-22 | `FanSpeed(n)` exists exactly for 0..3 and has wire value n |
| AirConditioningCompanion.SwingModeOf | miio/airconditioningcompanion.py:25-27 | `SwingMode(n)` exists exactly for 0..1 and has wire value n |
| AirConditioningCompanion.EnumRoundTrip | miio/airconditioningcompanion.py:10-27 | looking a member up by its own wire value finds that member |
| AirConditioningCompanion.MarkerText | miio/airconditioningcompanion.py:44-52 | every marker is a bracketed name with no bracket inside |
| AirConditioningCompanion.MarkerTextInjective | miio/airconditioningcompanion.py:287-301 | different markers are spelled differently |
| AirConditioningCompanion.MarkersDiffer | miio/airconditioningcompanion.py:291-301 | no marker's text starts with a different marker, so `[tt]` never matches inside `[tt1]`, `[tt4]` or `[tt7]` |
| AirConditioningCompanion.ReplaceSkipsMarker | miio/airconditioningcompanion.py:287-301 | replacing one marker leaves a different marker at the front intact |
| AirConditioningCompanion.Offset | miio/airconditioningcompanion.py:294-301 | `format((k + t - 17) % 16, 'X')` is the one hex digit of the non-negative remainder |
| AirConditioningCompanion.MarkerValue | miio/airconditioningcompanion.py:287-301 | no substituted value contains `[`, so it cannot create a marker |
| AirConditioningCompanion.SettingMarkersParse | miio/airconditioningcompanion.py:287-290 | `[po]`, `[mo]`, `[wi]`, `[sw]` become the decimal wire values of power, mode, fan and swing (reads back through `int`) |
| AirConditioningCompanion.TemperatureMarkerParses | miio/airconditioningcompanion.py:291-292 | `[tt]` becomes the upper-case hexadecimal temperature, with a minus only when negative (reads back through `int(_, 16)`); `[li]` becomes the LED character |
| AirConditioningCompanion.OffsetMarkers | miio/airconditioningcompanion.py:294-301 | `[tt1]`, `[tt4]`, `[tt7]` each become one upper-case hex digit of `(k + t - 17) mod 16` |
| AirConditioningCompanion.OffsetsAtSeventeen | miio/airconditioningcompanion.py:294-301 | at 17 degrees the offsets are `1`, `4` and `7` |
| AirConditioningCompanion.FallbackBase | miio/airconditioningcompanion.py:46-49 | the fallback base is `[po][mo][wi][sw][tt][li]` |
| AirConditioningCompanion.TemplatesPlain | miio/airconditioningcompanion.py:45-71 | in every registered template each `[` starts a marker |
| AirConditioningCompanion.Prefix | miio/airconditioningcompanion.py:272 | `model[0:2] + model[8:16]` has at most ten characters, exactly ten for a full model, and starts with the model's first two |
| AirConditioningCompanion.Suffix | miio/airconditioningcompanion.py:273 | `model[-1:]` is the last character of the model, empty for an empty model |
| AirConditioningCompanion.PrefixSuffixShape | miio/airconditioningcompanion.py:272-273 | the prefix is characters 0-1 and 8-15 of the model as far as it reaches, the suffix its last character or nothing |
| AirConditioningCompanion.TemplateKey | miio/airconditioningcompanion.py:281-285 | a registered prefix selects its own entry; any other prefix selects the fallback, never an error |
| AirConditioningCompanion.TemplateNames | miio/airconditioningcompanion.py:45-71 | each registered model prefix (gree_2, gree_8, haier_1, aux_1, chigo_1) finds its own template, and every other prefix finds the generic one |
| AirConditioningCompanion.OffShortcut | miio/airconditioningcompanion.py:276-277 | the literal off command applies exactly when powering off with prefix `0100010727` |
| AirConditioningCompanion.OnlyGree2HasOff | miio/airconditioningcompanion.py:50-53 | exactly the prefix `0100010727` has a literal power-off command |
| AirConditioningCompanion.Fill | miio/airconditioningcompanion.py:287-301 | filling a marker replaces exactly the holes of that marker and keeps a template free of stray `[` |
| AirConditioningCompanion.RenderConcat | miio/airconditioningcompanion.py:282-285 | the text of two piece lists joined is the two texts joined |
| AirConditioningCompanion.ReplaceMarker | miio/airconditioningcompanion.py:287-301 | one `replace` of a marker on a template fills every occurrence of that marker and nothing else |
| AirConditioningCompanion.Resolve | miio/airconditioningcompanion.py:287-301 | resolving turns each marker into its value and keeps literal text |
| AirConditioningCompanion.RenderResolve | miio/airconditioningcompanion.py:287-301 | the resolved template's text is its expansion |
| AirConditioningCompanion.NineFills | miio/airconditioningcompanion.py:287-301 | the nine fills in the source's order resolve every marker |
| AirConditioningCompanion.Substitute | miio/airconditioningcompanion.py:287-301 | the nine `replace` calls in the source's order; SubstitutePlain states what they produce |
| AirConditioningCompanion.SubstitutePlain | miio/airconditioningcompanion.py:287-301 | the nine `replace` calls write every marker's value in its place |
| AirConditioningCompanion.ExpandHasNoBracket | miio/airconditioningcompanion.py:287-303 | no marker is left after substitution |
| AirConditioningCompanion.Encode | miio/airconditioningcompanion.py:272-303 | the command text `send_configuration` builds; EncodeExpands, FallbackSample and OffSample state it |
| AirConditioningCompanion.EncodeExpands | miio/airconditioningcompanion.py:272-303 | for a prefix without `[`, the command is prefix + the looked-up base with every marker replaced + suffix |
| AirConditioningCompanion.SendConfiguration | miio/airconditioningcompanion.py:267-305 | sends `send_cmd` with one string: `prefix + off` when powering off a model with a literal off command, otherwise prefix + expanded template + suffix with no marker left |
| AirConditioningCompanion.FallbackSample | miio/airconditioningcompanion.py:272-303 | model `010500978022222102`, on/cool/24/fan auto/swing off/LED on gives `018022222111311802` |
| AirConditioningCompanion.OffSample | miio/airconditioningcompanion.py:276-279 | switching a gree_2 model off sends the prefix and the literal off command, with no suffix, whatever the other settings |
| AirConditioningCompanionStatus.StateField | miio/airconditioningcompanion.py:121 | `int(data[1][lo:hi], base)`: IndexError without item 1, TypeError when it is not a string, else the parse of the clamped slice |
| AirConditioningCompanionStatus.StateDigit | miio/airconditioningcompanion.py:105 | `int(data[1][i:i+1])` is the decimal digit at position i, ValueError for a missing or non-digit character |
| AirConditioningCompanionStatus.HexPair | miio/airconditioningcompanion.py:121 | two hex digits at offsets 6-7 parse to 16 × first + second |
| AirConditioningCompanionStatus.HexFieldBound | miio/airconditioningcompanion.py:121 | `int(s[6:8], 16)` lies in -15..255, and a string of at most 6 characters raises ValueError |
| AirConditioningCompanionStatus.ExceptTypeError | miio/airconditioningcompanion.py:120-123 | `except TypeError: return None` turns only TypeError into None; other exceptions propagate |
| AirConditioningCompanionStatus.StrOf | miio/airconditioningcompanion.py:100 | `str(v)` of a string is itself, of an int its decimal digits, of a bool or None its Python name |
| AirConditioningCompanionStatus.Code | miio/airconditioningcompanion.py:105 | the digit character of a small wire value |
| AirConditioningCompanionStatus.Status.LoadPower | miio/airconditioningcompanion.py:92-95 | `int(data[2])`, IndexError when the reply is shorter |
| AirConditioningCompanionStatus.Status.AirConditionModel | miio/airconditioningcompanion.py:97-100 | `str(data[0])` as StrOf gives it: a string unchanged, an int as text that reads back to it, `True`/`False`/`None` spelled out; IndexError for an empty reply |
| AirConditioningCompanionStatus.Status.Power | miio/airconditioningcompanion.py:102-105 | `'on'` exactly when character 2 is `1`, `'off'` for any other digit, ValueError otherwise, with no guard |
| AirConditioningCompanionStatus.Status.Led | miio/airconditioningcompanion.py:107-110 | as written: `'off'` whenever character 8 is a digit, ValueError otherwise |
| AirConditioningCompanionStatus.Status.LedFixed | miio/airconditioningcompanion.py:107-110 | corrected: `'on'` exactly when character 8 is the LED-on character `0`, `'off'` otherwise, never an exception for a string or list state |
| AirConditioningCompanionStatus.Status.IsOn | miio/airconditioningcompanion.py:112-115 | `power == 'on'`, with power's exceptions |
| AirConditioningCompanionStatus.Status.TargetTemperature | miio/airconditioningcompanion.py:117-123 | `int(state[6:8], 16)`: the parsed value when characters 6-7 parse, ValueError exactly when they do not (non-hex, short, sign only), None when item 1 is not a string, always within -15..255 |
| AirConditioningCompanionStatus.Status.SwingMode | miio/airconditioningcompanion.py:125-132 | character 5 `0`/`1` gives On/Off, None when item 1 is not a string, ValueError for any other character |
| AirConditioningCompanionStatus.Status.FanSpeed | miio/airconditioningcompanion.py:134-141 | character 4 `0`-`3` gives the fan speed, None when item 1 is not a string, ValueError otherwise |
| AirConditioningCompanionStatus.Status.Mode | miio/airconditioningcompanion.py:143-150 | character 3 `0`-`4` gives the operation mode, None when item 1 is not a string, ValueError otherwise |
| AirConditioningCompanionStatus.StateString | miio/airconditioningcompanion.py:83-84 | a state string laid out from a reading has nine characters before its tail |
| AirConditioningCompanionStatus.StateStringChars | miio/airconditioningcompanion.py:102-150 | the laid-out string holds each setting at the offset the decoder reads |
| AirConditioningCompanionStatus.StatusRoundTrip | miio/airconditioningcompanion.py:92-150 | decoding a laid-out state string returns the reading, and item 2 returns the load |
| AirConditioningCompanionStatus.RoundTripSettings | miio/airconditioningcompanion.py:102-115 | power, is_on, mode, fan and swing read back from a laid-out state string |
| AirConditioningCompanionStatus.RoundTripTemperature | miio/airconditioningcompanion.py:117-123 | the target temperature reads back from a laid-out state string |
| AirConditioningCompanionStatus.TemperatureDigits | miio/airconditioningcompanion.py:117-123 | hex digits hi, lo at offsets 6-7 read as 16 × hi + lo |
| AirConditioningCompanionStatus.RoundTripLed | miio/airconditioningcompanion.py:107-110 | the corrected LED reads back; as written, a lit LED reads `'off'` and a dark one raises |
| AirConditioningCompanionStatus.LedNeverOn | miio/airconditioningcompanion.py:107-110 | the LED accessor as written never returns `'on'` |
| AirConditioningCompanionStatus.SampleStatus | miio/airconditioningcompanion.py:83-84 | the sample reply decodes to on, Heat, Low, swing Off, 22, load 807 |
| PowerStrip.PowerModeOf | miio/powerstrip.py:18-20 | `PowerMode(v)` exists exactly for `"green"` and `"normal"`, and its value is v |
| PowerStrip.Status.Get | miio/powerstrip.py:167-168 | a default-dictionary lookup: the stored value, None when absent |
| PowerStrip.Status.Power | miio/powerstrip.py:36-39 | the stored power state unchanged, None when absent |
| PowerStrip.Status.IsOn | miio/powerstrip.py:41-44 | true exactly when power is present and equals `"on"` |
| PowerStrip.Status.Temperature | miio/powerstrip.py:46-49 | the stored temperature, None when absent |
| PowerStrip.Status.Current | miio/powerstrip.py:51-56 | the stored current, None when absent |
| PowerStrip.Status.LoadPower | miio/powerstrip.py:58-63 | `power_consume_rate` unchanged, None when absent |
| PowerStrip.Status.Mode | miio/powerstrip.py:65-70 | None exactly when the mode is None or missing, the named mode for `green`/`normal`, ValueError for anything else |
| PowerStrip.Status.WifiLed | miio/powerstrip.py:72-75 | true exactly when `wifi_led` is present and `"on"`; missing gives false |
| PowerStrip.Status.PowerPrice | miio/powerstrip.py:77-82 | the stored price, None when absent |
| PowerStrip.Status.LeakageCurrent | miio/powerstrip.py:84-89 | `elec_leakage` unchanged, None when absent |
| PowerStrip.Status.Voltage | miio/powerstrip.py:91-96 | the stored voltage, None when absent |
| PowerStrip.Status.PowerFactor | miio/powerstrip.py:98-103 | the stored power factor, None when absent |
| PowerStrip.StatusOf | miio/powerstrip.py:151-168 | only requested names are stored, and all of them when the reply is long enough; a count mismatch does not raise |
| PowerStrip.StatusSlots | miio/powerstrip.py:151-168 | the i-th requested name reads the i-th value, or None past the end of the reply |
| PowerStrip.Slot | miio/powerstrip.py:167-168 | a position past the end of the reply reads None |
| PowerStrip.ReadSlot | miio/powerstrip.py:167-168 | the property requested i-th reads the i-th value of the reply |
| PowerStrip.AccessorsReadReply | miio/powerstrip.py:36-103 | every accessor returns its own position of the reply unchanged (None past the end); `is_on` and `wifi_led` compare it with `"on"` |
| PowerStrip.ModeReadsReply | miio/powerstrip.py:65-70 | the mode decodes the fourth value: None for None or missing, the named mode, or ValueError |
| PowerStrip.ShortReply | miio/powerstrip.py:151-168 | a reply with only `"on"` leaves every other field None: on, no mode, no Wi-Fi LED |
| PowerStrip.SetPowerMode | miio/powerstrip.py:189-193 | sends `set_power_mode` with the mode's value, which decodes back to the mode |
| PowerStrip.SetWifiLed | miio/powerstrip.py:202-207 | sends `set_wifi_led` with `"on"` exactly when led, else `"off"` |
| PowerStrip.SetRealtimePower | miio/powerstrip.py:227-232 | sends `set_rt_power` with 1 exactly when power, else 0 |
| PowerStrip.SetPowerPrice | miio/powerstrip.py:213-218 | raises PowerStripException exactly for a price outside 0..999, otherwise sends the price unchanged |
| PowerStrip.SettersReadBack | miio/powerstrip.py:65-82 | what the mode, Wi-Fi LED and price setters send reads back through the matching accessor |
| AirPurifier.Numeric | mirobo/airpurifier.py:107-112 | the number a value equals in Python comparisons: an int its value, True 1, False 0, a float itself; strings, None and lists none |
| AirPurifier.Status.Get | mirobo/airpurifier.py:22 | a plain-dictionary lookup: the stored value, KeyError naming the field when absent |
| AirPurifier.Status.Flag | mirobo/airpurifier.py:101-103 | `data[name] == "on"`, KeyError when absent |
| AirPurifier.Status.Power | mirobo/airpurifier.py:76-78 | the stored power state, KeyError when absent |
| AirPurifier.Status.IsOn | mirobo/airpurifier.py:80-82 | true exactly when power equals `"on"`; fails exactly when power is absent |
| AirPurifier.Status.Aqi | mirobo/airpurifier.py:84-86 | the stored AQI, KeyError when absent |
| AirPurifier.Status.Humidity | mirobo/airpurifier.py:88-90 | the stored humidity, KeyError when absent |
| AirPurifier.Status.Temperature | mirobo/airpurifier.py:92-94 | a tenth of the stored number; TypeError for a non-number, KeyError when absent |
| AirPurifier.Status.Mode | mirobo/airpurifier.py:96-99 | the stored mode, KeyError when absent |
| AirPurifier.Status.Led | mirobo/airpurifier.py:101-103 | true exactly when `led` is `"on"`; fails exactly when absent |
| AirPurifier.Status.LedB | mirobo/airpurifier.py:105-112 | 0 → `bright`, 1 → `dim`, 2 → `off` (by numeric equality), TypeError for a list, KeyError carrying the code otherwise |
| AirPurifier.Status.Buzzer | mirobo/airpurifier.py:114-116 | true exactly when `buzzer` is `"on"`; fails exactly when absent |
| AirPurifier.Status.ChildLock | mirobo/airpurifier.py:118-120 | the stored child lock, KeyError when absent |
| AirPurifier.Status.LimitHum | mirobo/airpurifier.py:122-124 | the stored humidity limit, KeyError when absent |
| AirPurifier.Status.TransLevel | mirobo/airpurifier.py:126-128 | the stored transition level, KeyError when absent |
| AirPurifier.Status.Bright | mirobo/airpurifier.py:130-132 | the stored brightness, KeyError when absent |
| AirPurifier.Status.FavoriteLevel | mirobo/airpurifier.py:134-137 | the stored favorite level, KeyError when absent |
| AirPurifier.Status.FilterLifeRemaining | mirobo/airpurifier.py:139-141 | `filter1_life` unchanged, KeyError when absent |
| AirPurifier.Status.ActDet | mirobo/airpurifier.py:143-145 | true exactly when `act_det` is `"on"`; fails exactly when absent |
| AirPurifier.Status.FilterHoursUsed | mirobo/airpurifier.py:147-149 | `f1_hour_used` unchanged, KeyError when absent |
| AirPurifier.Status.UseTime | mirobo/airpurifier.py:151-153 | the stored use time, KeyError when absent |
| AirPurifier.Status.MotorSpeed | mirobo/airpurifier.py:155-157 | `motor1_speed` unchanged, KeyError when absent |
| AirPurifier.StatusOf | mirobo/airpurifier.py:12-22 | only requested names are stored, and all of them when the reply is long enough |
| AirPurifier.StatusSlots | mirobo/airpurifier.py:12-22 | the i-th requested name reads the i-th value, or KeyError past the end of the reply |
| AirPurifier.Slot | mirobo/airpurifier.py:22 | a position reads a value exactly when the reply reaches it |
| AirPurifier.ReadSlot | mirobo/airpurifier.py:22 | the property requested i-th reads the i-th value of the reply |
| AirPurifier.ReadingsReadReply | mirobo/airpurifier.py:84-124 | aqi, humidity, mode, child lock and humidity limit return their own position of the reply |
| AirPurifier.LevelsReadReply | mirobo/airpurifier.py:126-157 | the levels and counters, renamed ones included, return their own position of the reply |
| AirPurifier.PowerReadsReply | mirobo/airpurifier.py:76-82 | power is the first value and `is_on` tests it for `"on"`, KeyError for an empty reply |
| AirPurifier.FlagsReadReply | mirobo/airpurifier.py:101-146 | `led`, `buzzer` and `act_det` test their position for `"on"`, KeyError past the end |
| AirPurifier.TemperatureReadsReply | mirobo/airpurifier.py:92-94 | the temperature is a tenth of the number at the fourth reply position, TypeError for a non-number, KeyError past the end |
| AirPurifier.LedBReadsReply | mirobo/airpurifier.py:105-112 | the brightness is looked up from the seventh reply position: 0 bright, 1 or True dim, 2 off, TypeError for a list, KeyError otherwise |
| AirPurifier.ShortReply | mirobo/airpurifier.py:12-22 | a reply with only `"on"`: on, and reading the LED raises KeyError |
| AirPurifier.SetMode | mirobo/airpurifier.py:24-28 | sends `set_mode` with the mode |
| AirPurifier.SetLed | mirobo/airpurifier.py:43-49 | sends `set_led` with `"on"` exactly when led, else `"off"` |
| AirPurifier.SetBuzzer | mirobo/airpurifier.py:51-57 | as written: sends `set_mode` with `"on"` exactly when buzzer, else `"off"` |
| AirPurifier.SetBuzzerFixed | mirobo/airpurifier.py:51-57 | corrected: sends `set_buzzer` with `"on"` exactly when buzzer, else `"off"` |
| AirPurifier.BuzzerIsModeChange | mirobo/airpurifier.py:24-28 | as written, setting the buzzer is the same call as switching to mode `"on"`/`"off"`; the corrected call never is |
| AirPurifier.SettersReadBack | mirobo/airpurifier.py:43-57 | what the LED and corrected buzzer setters send reads back through the flag of the same name |

## Left out

- `Device.send` and everything behind it: the network, the handshake and encryption. Every command returns the `(method, params)` pair it would send.
- Click decorators, `format_output`, `EnumType` and command-line parsing. These are presentation glue.
- `__repr__`, `__str__` and `__json__`. These render text only.
- The count-mismatch debug log in `PowerStrip.status`. It is logging only and does not change the result.
- Floating point.
  - `temp_dec / 10.0` is computed exactly on reals.
  - Float values in replies are carried as reals and never rounded.
  - `int()` of an infinite or NaN float cannot occur.
- The pure forwarding wrappers carry no logic beyond passing arguments through:
  - `on`, `off`, `learn`, `learn_result`, `learn_stop`, `send_ir_code` and `send_command`;
  - the air purifier's `set_favorite_level`, `set_humidity_limit` and `set_led_brightness`.
  - `AirPurifier.SetMode` is kept only to state what `set_buzzer` sends.
- PyStr.InsertAround: the empty-pattern branch of `str.replace` is kept so that `Replace` is total, and only its length is stated. Every marker the core replaces is non-empty, so no core path reaches it.
- The insert-on-miss side effect of `defaultdict`. It cannot be observed through the accessors.
- AirConditioningCompanionStatus.StrOf: `str()` of a float or a list in item 0 is not modelled and returns None.
- PyInt.ParseInt:
  - Non-ASCII Unicode digits, which Python's `int()` also accepts, are not modelled.
  - Numeric types other than those in `Py.Value` are not modelled.
- AirConditioningCompanion.SendConfiguration: the text is stated only for a prefix without `[`. Such a character in a model number could form a marker together with the template. The command is still computed for every model.
- AirConditioningCompanion.Configuration: the temperature is any integer. The caller's range is not checked, as in the source.
- The gree_2, gree_8 and one-digit bases are stored as their literal parts and markers. Only the fallback base has a lemma spelling its text, because comparing the long literal strings is too costly for the solver. The parts are written in the table in the source's order.

## Findings

| source | as written | input that shows it | evidently intended | confidence | as-written member | corrected member |
|---|---|---|---|---|---|---|
| miio/airconditioningcompanion.py:110 | `int(self.data[1][8:9]) == Led.On.value` compares an int with the string `'0'`, which is never equal | item 1 `011001160100002573` has `0` (LED on) at offset 8, and `led` returns `'off'`; an `a` (LED off) there raises ValueError | `'on'` exactly when character 8 is the LED-on character `0` | not executed | AirConditioningCompanionStatus.LedNeverOn | AirConditioningCompanionStatus.Status.LedFixed |
| mirobo/airpurifier.py:51-57 | `set_buzzer` sends the method `set_mode` | `set_buzzer(True)` sends `("set_mode", ["on"])`, the same request as `set_mode("on")` | send `("set_buzzer", ["on" or "off"])` | not executed | AirPurifier.BuzzerIsModeChange | AirPurifier.SetBuzzerFixed |
