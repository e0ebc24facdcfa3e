/** The Xiaomi air conditioning companion (lumi.acpartner.v2): its wire
    enumerations, the per-model command template table, and the command that
    `send_configuration` synthesises from a model number and a configuration. */
module AirConditioningCompanion {
  import opened Py
  import opened PyInt
  import opened PyStr

  datatype OperationMode = Heat | Cool | Auto | Dehumidify | Ventilate {
    function Value(): (v: nat)
      ensures v <= 4
    {
      match this
      case Heat => 0
      case Cool => 1
      case Auto => 2
      case Dehumidify => 3
      case Ventilate => 4
    }
  }

  datatype FanSpeed = Low | Medium | High | Auto {
    function Value(): (v: nat)
      ensures v <= 3
    {
      match this
      case Low => 0
      case Medium => 1
      case High => 2
      case Auto => 3
    }
  }

  /** Note the wire values run opposite to Power's. */
  datatype SwingMode = On | Off {
    function Value(): (v: nat)
      ensures v <= 1
    {
      match this
      case On => 0
      case Off => 1
    }
  }

  datatype Power = On | Off {
    function Value(): (v: nat)
      ensures v <= 1
    {
      match this
      case On => 1
      case Off => 0
    }
  }

  /** The LED's wire values are characters, not numbers. */
  datatype Led = On | Off {
    function Value(): char
    {
      match this
      case On => '0'
      case Off => 'a'
    }
  }

  /** `OperationMode(n)`: the member with wire value `n`, None where Python
      raises ValueError. */
  function OperationModeOf(n: int): (r: Option<OperationMode>)
    ensures r.Some? <==> 0 <= n <= 4
    ensures r.Some? ==> r.value.Value() == n
  {
    if n == 0 then Some(Heat)
    else if n == 1 then Some(Cool)
    else if n == 2 then Some(OperationMode.Auto)
    else if n == 3 then Some(Dehumidify)
    else if n == 4 then Some(Ventilate)
    else None
  }

  function FanSpeedOf(n: int): (r: Option<FanSpeed>)
    ensures r.Some? <==> 0 <= n <= 3
    ensures r.Some? ==> r.value.Value() == n
  {
    if n == 0 then Some(Low)
    else if n == 1 then Some(Medium)
    else if n == 2 then Some(High)
    else if n == 3 then Some(FanSpeed.Auto)
    else None
  }

  function SwingModeOf(n: int): (r: Option<SwingMode>)
    ensures r.Some? <==> 0 <= n <= 1
    ensures r.Some? ==> r.value.Value() == n
  {
    if n == 0 then Some(SwingMode.On)
    else if n == 1 then Some(SwingMode.Off)
    else None
  }

  /** Looking a member up by its own wire value finds that member. */
  lemma EnumRoundTrip(m: OperationMode, f: FanSpeed, s: SwingMode)
    ensures OperationModeOf(m.Value()) == Some(m)
    ensures FanSpeedOf(f.Value()) == Some(f)
    ensures SwingModeOf(s.Value()) == Some(s)
  {
  }

  /** The arguments of `send_configuration` after the model number. */
  datatype Configuration = Configuration(
    power: Power,
    mode: OperationMode,
    temperature: int,
    fan: FanSpeed,
    swing: SwingMode,
    led: Led)

  /** The markers a command template may contain. */
  datatype Marker = Po | Mo | Wi | Sw | Tt | Li | Tt1 | Tt4 | Tt7

  /** The marker as it is written in a template, e.g. `[tt1]`: brackets
      around a name that contains neither bracket. */
  function MarkerText(m: Marker): (r: string)
    ensures 4 <= |r| <= 5 && r[0] == '[' && r[|r| - 1] == ']'
    ensures forall i :: 0 < i < |r| - 1 ==> r[i] != '[' && r[i] != ']'
  {
    match m
    case Po => "[po]"
    case Mo => "[mo]"
    case Wi => "[wi]"
    case Sw => "[sw]"
    case Tt => "[tt]"
    case Li => "[li]"
    case Tt1 => "[tt1]"
    case Tt4 => "[tt4]"
    case Tt7 => "[tt7]"
  }

  /** The marker a text spells, if any. */
  function MarkerOf(t: string): (r: Option<Marker>)
  {
    if t == "[po]" then Some(Po)
    else if t == "[mo]" then Some(Mo)
    else if t == "[wi]" then Some(Wi)
    else if t == "[sw]" then Some(Sw)
    else if t == "[tt]" then Some(Tt)
    else if t == "[li]" then Some(Li)
    else if t == "[tt1]" then Some(Tt1)
    else if t == "[tt4]" then Some(Tt4)
    else if t == "[tt7]" then Some(Tt7)
    else None
  }

  /** `format((k + t - 17) % 16, 'X')`; `%` with a positive divisor never
      yields a negative number, in Python as in Dafny. */
  function Offset(k: int, t: int): (r: string)
    ensures |r| == 1 && r[0] == DigitChar((k + t - 17) % 16)
  {
    FormatInt((k + t - 17) % 16, 16)
  }

  /** The text that replaces marker `m` for configuration `c`. */
  function MarkerValue(m: Marker, c: Configuration): (r: string)
    ensures '[' !in r
  {
    var r := match m
      case Po => FormatInt(c.power.Value(), 10)
      case Mo => FormatInt(c.mode.Value(), 10)
      case Wi => FormatInt(c.fan.Value(), 10)
      case Sw => FormatInt(c.swing.Value(), 10)
      case Tt => FormatInt(c.temperature, 16)
      case Li => [c.led.Value()]
      case Tt1 => Offset(1, c.temperature)
      case Tt4 => Offset(4, c.temperature)
      case Tt7 => Offset(7, c.temperature);
    assert forall i :: 0 <= i < |r| ==> r[i] != '[' by {
      if m != Li {
        assert !IsDigit('[', 16);
      }
    }
    r
  }

  /** A template entry: the base string, stored as its literal parts and
      markers in order, and, for some models, a literal power-off command. */
  datatype Template = Template(deviceType: string, parts: seq<Piece>, off: Option<string>) {
    /** The base string with its markers, e.g. `[po][mo][wi][sw][tt]1`. */
    function Base(): string
    {
      Render(parts)
    }
  }

  const FallbackKey := "fallback"

  /** The command templates per model prefix. */
  const Templates: map<string, Template> := map[
    "fallback" := Template(
      "generic",
      [Hole(Po), Hole(Mo), Hole(Wi), Hole(Sw), Hole(Tt), Hole(Li)],
      None),
    "0100010727" := Template(
      "gree_2",
      [Hole(Po), Hole(Mo), Hole(Wi), Hole(Sw), Hole(Tt),
       Text("1100190"), Hole(Tt1), Text("205002102000"), Hole(Tt7),
       Text("0190"), Hole(Tt1), Text("207002000000"), Hole(Tt4)],
      Some("01011101004000205002112000D04000207002000000A0")),
    "0100004795" := Template(
      "gree_8",
      [Hole(Po), Hole(Mo), Hole(Wi), Hole(Sw), Hole(Tt), Hole(Li), Text("10009090000500")],
      None),
    "0180333331" := Template("haier_1", [Hole(Po), Hole(Mo), Hole(Wi), Hole(Sw), Hole(Tt), Text("1")], None),
    "0180666661" := Template("aux_1", [Hole(Po), Hole(Mo), Hole(Wi), Hole(Sw), Hole(Tt), Text("1")], None),
    "0180777771" := Template("chigo_1", [Hole(Po), Hole(Mo), Hole(Wi), Hole(Sw), Hole(Tt), Text("1")], None)
  ]

  /** `model[0:2] + model[8:16]`, the key into the template table. */
  function Prefix(model: string): (r: string)
    ensures |r| <= 10
    ensures |model| >= 16 ==> |r| == 10
    ensures |model| >= 2 ==> |r| >= 2 && r[..2] == model[..2]
  {
    Slice(model, 0, 2) + Slice(model, 8, 16)
  }

  /** `model[-1:]`: the last character, or nothing for an empty model. */
  function Suffix(model: string): (r: string)
    ensures |r| == Min(|model|, 1)
    ensures |model| > 0 ==> r[0] == model[|model| - 1]
  {
    if |model| == 0 then [] else [model[|model| - 1]]
  }

  /** The prefix takes characters 0-1 and 8-15 of the model, as far as the
      model reaches; the suffix is the last character, if any. */
  lemma PrefixSuffixShape(model: string)
    ensures |Prefix(model)| == Min(|model|, 2) + (if |model| > 8 then Min(|model|, 16) - 8 else 0)
    ensures forall i :: 0 <= i < Min(|model|, 2) ==> Prefix(model)[i] == model[i]
    ensures forall i :: Min(|model|, 2) <= i < |Prefix(model)| ==> Prefix(model)[i] == model[i + 6]
    ensures |model| >= 16 ==> Prefix(model) == model[0..2] + model[8..16]
    ensures Suffix(model) == (if |model| == 0 then [] else model[|model| - 1..])
  {
    if |model| >= 16 {
      assert Slice(model, 0, 2) == model[0..2];
      assert Slice(model, 8, 16) == model[8..16];
    }
  }

  /** The registered key a prefix resolves to: a registered prefix selects
      its own entry, any other prefix the fallback. */
  function TemplateKey(prefix: string): (k: string)
    ensures k in Templates
    ensures prefix in Templates ==> k == prefix
    ensures prefix !in Templates ==> k == FallbackKey
  {
    if prefix in Templates then prefix else FallbackKey
  }

  /** Each registered model prefix finds its own template; every other
      prefix finds the generic one. */
  lemma TemplateNames(prefix: string)
    ensures Templates[TemplateKey(prefix)].deviceType == "gree_2" <==> prefix == "0100010727"
    ensures Templates[TemplateKey(prefix)].deviceType == "gree_8" <==> prefix == "0100004795"
    ensures Templates[TemplateKey(prefix)].deviceType == "haier_1" <==> prefix == "0180333331"
    ensures Templates[TemplateKey(prefix)].deviceType == "aux_1" <==> prefix == "0180666661"
    ensures Templates[TemplateKey(prefix)].deviceType == "chigo_1" <==> prefix == "0180777771"
    ensures Templates[TemplateKey(prefix)].deviceType == "generic" <==> prefix !in Templates || prefix == FallbackKey
  {
  }

  /** The static turn-off command applies: power off, and the prefix itself
      (not the fallback) has an `off` entry. */
  predicate OffShortcut(prefix: string, power: Power)
    ensures OffShortcut(prefix, power) <==> power == Power.Off && prefix == "0100010727"
  {
    power == Power.Off && prefix in Templates && Templates[prefix].off.Some?
  }

  /** Only one registered model carries a literal power-off command. */
  lemma OnlyGree2HasOff(prefix: string)
    ensures prefix in Templates && Templates[prefix].off.Some? <==> prefix == "0100010727"
  {
  }

  /** The nine `replace` calls, in the order the source makes them. */
  function Substitute(s: string, c: Configuration): string
  {
    var s1 := Replace(s, MarkerText(Po), MarkerValue(Po, c));
    var s2 := Replace(s1, MarkerText(Mo), MarkerValue(Mo, c));
    var s3 := Replace(s2, MarkerText(Wi), MarkerValue(Wi, c));
    var s4 := Replace(s3, MarkerText(Sw), MarkerValue(Sw, c));
    var s5 := Replace(s4, MarkerText(Tt), MarkerValue(Tt, c));
    var s6 := Replace(s5, MarkerText(Li), MarkerValue(Li, c));
    var s7 := Replace(s6, MarkerText(Tt1), MarkerValue(Tt1, c));
    var s8 := Replace(s7, MarkerText(Tt4), MarkerValue(Tt4, c));
    Replace(s8, MarkerText(Tt7), MarkerValue(Tt7, c))
  }

  /** The command string `send_configuration` computes. */
  function Encode(model: string, c: Configuration): string
  {
    var prefix := Prefix(model);
    if OffShortcut(prefix, c.power) then
      prefix + Templates[prefix].off.value
    else
      Substitute(prefix + Templates[TemplateKey(prefix)].Base(), c) + Suffix(model)
  }

  // A template read as literal text and markers: the reference against
  // which the textual substitution is proved.

  datatype Piece = Text(s: string) | Hole(m: Marker)

  /** The template text the pieces spell. */
  function Render(ps: seq<Piece>): string
  {
    if ps == [] then []
    else (match ps[0] case Text(s) => s case Hole(m) => MarkerText(m)) + Render(ps[1..])
  }

  /** The text obtained by writing each marker's value in its place. */
  function Expand(ps: seq<Piece>, c: Configuration): string
  {
    if ps == [] then []
    else (match ps[0] case Text(s) => s case Hole(m) => MarkerValue(m, c)) + Expand(ps[1..], c)
  }

  /** No literal piece contains `[`, so every `[` starts a marker. */
  predicate Plain(ps: seq<Piece>)
  {
    forall i :: 0 <= i < |ps| ==> ps[i].Text? ==> '[' !in ps[i].s
  }

  function FillPiece(p: Piece, m: Marker, v: string): Piece
  {
    if p == Hole(m) then Text(v) else p
  }

  /** Marker `m` turned into literal text `v`. */
  function Fill(ps: seq<Piece>, m: Marker, v: string): (r: seq<Piece>)
    ensures |r| == |ps|
    ensures forall i :: 0 <= i < |ps| ==> r[i] == FillPiece(ps[i], m, v)
    ensures Plain(ps) && '[' !in v ==> Plain(r)
  {
    seq(|ps|, i requires 0 <= i < |ps| => FillPiece(ps[i], m, v))
  }

  lemma {:induction false} RenderConcat(a: seq<Piece>, b: seq<Piece>)
    ensures Render(a + b) == Render(a) + Render(b)
    decreases |a|
  {
    if a != [] {
      assert (a + b)[1..] == a[1..] + b;
      RenderConcat(a[1..], b);
    } else {
      assert a + b == b;
    }
  }

  /** The fallback template is `[po][mo][wi][sw][tt][li]`. */
  lemma FallbackBase()
    ensures Templates[FallbackKey].Base() == "[po]" + "[mo]" + "[wi]" + "[sw]" + "[tt]" + "[li]"
  {
    var ps := Templates[FallbackKey].parts;
    assert ps == [Hole(Po), Hole(Mo), Hole(Wi), Hole(Sw), Hole(Tt), Hole(Li)];
    assert Render(ps[5..]) == "[li]";
    assert Render(ps[4..]) == "[tt]" + "[li]";
    assert Render(ps[3..]) == "[sw]" + "[tt]" + "[li]";
    assert Render(ps[2..]) == "[wi]" + "[sw]" + "[tt]" + "[li]";
    assert Render(ps[1..]) == "[mo]" + "[wi]" + "[sw]" + "[tt]" + "[li]";
  }

  /** No literal part of a registered template contains `[`: every `[` in a
      template starts a marker. */
  lemma TemplatesPlain(key: string)
    requires key in Templates
    ensures Plain(Templates[key].parts)
  {
    if key == "0100010727" {
      Gree2Plain();
    } else if key == "0100004795" {
      Gree8Plain();
    } else {
      ShortTemplatesPlain(key);
    }
  }

  lemma Gree2Plain()
    ensures Plain(Templates["0100010727"].parts)
  {
    var ps := Templates["0100010727"].parts;
    forall i | 0 <= i < |ps| && ps[i].Text?
      ensures '[' !in ps[i].s
    {
      assert ps[i].s in {"1100190", "205002102000", "0190", "207002000000"};
    }
  }

  lemma Gree8Plain()
    ensures Plain(Templates["0100004795"].parts)
  {
    var ps := Templates["0100004795"].parts;
    assert ps[6] == Text("10009090000500");
  }

  lemma ShortTemplatesPlain(key: string)
    requires key in Templates && key != "0100010727" && key != "0100004795"
    ensures Plain(Templates[key].parts)
  {
    var ps := Templates[key].parts;
    assert |ps| == 6 && ps[..5] == [Hole(Po), Hole(Mo), Hole(Wi), Hole(Sw), Hole(Tt)];
    assert ps[5] in {Hole(Li), Text("1")};
  }

  /** Different markers are written differently. */
  lemma MarkerTextInjective(q: Marker, p: Marker)
    ensures MarkerText(q) == MarkerText(p) ==> q == p
  {
    assert MarkerOf(MarkerText(q)) == Some(q);
    assert MarkerOf(MarkerText(p)) == Some(p);
  }

  /** A marker text never begins with a different marker's text. */
  lemma MarkersDiffer(q: Marker, p: Marker, b: string)
    requires q != p
    requires |MarkerText(q) + b| >= |MarkerText(p)|
    ensures (MarkerText(q) + b)[..|MarkerText(p)|] != MarkerText(p)
  {
    var qt, pt := MarkerText(q), MarkerText(p);
    var s := qt + b;
    if |pt| == |qt| {
      assert s[..|pt|] == qt;
      MarkerTextInjective(q, p);
    } else if |pt| < |qt| {
      assert s[..|pt|][|pt| - 1] == qt[|pt| - 1] != ']';
    } else {
      assert s[..|pt|][|qt| - 1] == qt[|qt| - 1] == ']';
      assert pt[|qt| - 1] != ']';
    }
  }

  /** Replacing marker `p` leaves a different marker `q` at the front intact. */
  lemma ReplaceSkipsMarker(q: Marker, p: Marker, b: string, v: string)
    requires q != p
    ensures Replace(MarkerText(q) + b, MarkerText(p), v) == MarkerText(q) + Replace(b, MarkerText(p), v)
  {
    var qt, pt := MarkerText(q), MarkerText(p);
    if |qt + b| >= |pt| {
      MarkersDiffer(q, p, b);
    }
    assert '[' !in qt[1..] by {
      forall i | 0 <= i < |qt[1..]| ensures qt[1..][i] != '[' {
        assert qt[1..][i] == qt[i + 1];
      }
    }
    ReplaceSkipsWord(qt, b, pt, v);
  }

  /** One `replace` of a marker on a plain template fills exactly that marker. */
  lemma {:induction false} ReplaceMarker(ps: seq<Piece>, m: Marker, v: string)
    requires Plain(ps) && '[' !in v
    ensures Replace(Render(ps), MarkerText(m), v) == Render(Fill(ps, m, v))
    decreases |ps|
  {
    var pt := MarkerText(m);
    if ps == [] {
      assert Render(ps) == [];
      assert Fill(ps, m, v) == [];
    } else {
      var rest := Render(ps[1..]);
      assert Plain(ps[1..]) by {
        forall i | 0 <= i < |ps[1..]| ensures ps[1..][i].Text? ==> '[' !in ps[1..][i].s {
          assert ps[1..][i] == ps[i + 1];
        }
      }
      ReplaceMarker(ps[1..], m, v);
      var f := Fill(ps, m, v);
      assert f[1..] == Fill(ps[1..], m, v);
      match ps[0]
      case Text(t) =>
        assert pt[0] == '[';
        ReplaceSkipsText(t, rest, pt, v);
      case Hole(q) =>
        if q == m {
          ReplaceAtFront(rest, pt, v);
        } else {
          ReplaceSkipsMarker(q, m, rest, v);
        }
    }
  }

  function ResolvePiece(p: Piece, c: Configuration): Piece
  {
    match p
    case Text(s) => Text(s)
    case Hole(m) => Text(MarkerValue(m, c))
  }

  /** Every marker turned into the literal text of its value. */
  function Resolve(ps: seq<Piece>, c: Configuration): (r: seq<Piece>)
    ensures |r| == |ps|
    ensures forall i :: 0 <= i < |ps| ==> r[i] == ResolvePiece(ps[i], c)
  {
    seq(|ps|, i requires 0 <= i < |ps| => ResolvePiece(ps[i], c))
  }

  /** Rendering the resolved pieces gives the expansion. */
  lemma {:induction false} RenderResolve(ps: seq<Piece>, c: Configuration)
    ensures Render(Resolve(ps, c)) == Expand(ps, c)
    decreases |ps|
  {
    if ps != [] {
      RenderResolve(ps[1..], c);
      assert Resolve(ps, c)[1..] == Resolve(ps[1..], c);
    }
  }

  /** The nine fills, marker by marker, resolve a single piece. */
  lemma NineFillsPiece(p: Piece, v: Marker -> string)
    ensures FillPiece(FillPiece(FillPiece(FillPiece(FillPiece(FillPiece(FillPiece(FillPiece(FillPiece(p,
              Po, v(Po)), Mo, v(Mo)), Wi, v(Wi)), Sw, v(Sw)), Tt, v(Tt)), Li, v(Li)),
              Tt1, v(Tt1)), Tt4, v(Tt4)), Tt7, v(Tt7))
            == match p case Text(s) => Text(s) case Hole(m) => Text(v(m))
  {
    match p
    case Text(_) =>
    case Hole(m) =>
      match m
      case Po => case Mo => case Wi => case Sw => case Tt => case Li =>
      case Tt1 => case Tt4 => case Tt7 =>
  }

  /** The nine fills, one per marker, resolve every marker. */
  lemma NineFills(ps: seq<Piece>, c: Configuration)
    ensures Fill(Fill(Fill(Fill(Fill(Fill(Fill(Fill(Fill(ps,
              Po, MarkerValue(Po, c)), Mo, MarkerValue(Mo, c)), Wi, MarkerValue(Wi, c)),
              Sw, MarkerValue(Sw, c)), Tt, MarkerValue(Tt, c)), Li, MarkerValue(Li, c)),
              Tt1, MarkerValue(Tt1, c)), Tt4, MarkerValue(Tt4, c)), Tt7, MarkerValue(Tt7, c))
            == Resolve(ps, c)
  {
    var v := m => MarkerValue(m, c);
    var p1 := Fill(ps, Po, v(Po));
    var p2 := Fill(p1, Mo, v(Mo));
    var p3 := Fill(p2, Wi, v(Wi));
    var p4 := Fill(p3, Sw, v(Sw));
    var p5 := Fill(p4, Tt, v(Tt));
    var p6 := Fill(p5, Li, v(Li));
    var p7 := Fill(p6, Tt1, v(Tt1));
    var p8 := Fill(p7, Tt4, v(Tt4));
    var p9 := Fill(p8, Tt7, v(Tt7));
    forall i | 0 <= i < |ps|
      ensures p9[i] == Resolve(ps, c)[i]
    {
      NineFillsPiece(ps[i], v);
    }
  }

  /** The nine `replace` calls on a plain template write every marker's
      value in its place. */
  lemma SubstitutePlain(ps: seq<Piece>, c: Configuration)
    requires Plain(ps)
    ensures Substitute(Render(ps), c) == Expand(ps, c)
  {
    var p1 := Fill(ps, Po, MarkerValue(Po, c));
    var p2 := Fill(p1, Mo, MarkerValue(Mo, c));
    var p3 := Fill(p2, Wi, MarkerValue(Wi, c));
    var p4 := Fill(p3, Sw, MarkerValue(Sw, c));
    var p5 := Fill(p4, Tt, MarkerValue(Tt, c));
    var p6 := Fill(p5, Li, MarkerValue(Li, c));
    var p7 := Fill(p6, Tt1, MarkerValue(Tt1, c));
    var p8 := Fill(p7, Tt4, MarkerValue(Tt4, c));
    var p9 := Fill(p8, Tt7, MarkerValue(Tt7, c));
    ReplaceMarker(ps, Po, MarkerValue(Po, c));
    ReplaceMarker(p1, Mo, MarkerValue(Mo, c));
    ReplaceMarker(p2, Wi, MarkerValue(Wi, c));
    ReplaceMarker(p3, Sw, MarkerValue(Sw, c));
    ReplaceMarker(p4, Tt, MarkerValue(Tt, c));
    ReplaceMarker(p5, Li, MarkerValue(Li, c));
    ReplaceMarker(p6, Tt1, MarkerValue(Tt1, c));
    ReplaceMarker(p7, Tt4, MarkerValue(Tt4, c));
    ReplaceMarker(p8, Tt7, MarkerValue(Tt7, c));
    NineFills(ps, c);
    RenderResolve(ps, c);
  }

  /** An expansion of a plain template contains no `[`, hence no marker. */
  lemma {:induction false} ExpandHasNoBracket(ps: seq<Piece>, c: Configuration)
    requires Plain(ps)
    ensures '[' !in Expand(ps, c)
    decreases |ps|
  {
    if ps != [] {
      assert Plain(ps[1..]) by {
        forall i | 0 <= i < |ps[1..]| ensures ps[1..][i].Text? ==> '[' !in ps[1..][i].s {
          assert ps[1..][i] == ps[i + 1];
        }
      }
      ExpandHasNoBracket(ps[1..], c);
    }
  }

  /** For a prefix without `[`, the command is the prefix, then the
      template with every marker replaced by its value, then the suffix. */
  lemma EncodeExpands(model: string, c: Configuration)
    requires '[' !in Prefix(model)
    requires !OffShortcut(Prefix(model), c.power)
    ensures Encode(model, c) ==
      Prefix(model) + Expand(Templates[TemplateKey(Prefix(model))].parts, c) + Suffix(model)
    ensures '[' !in Expand(Templates[TemplateKey(Prefix(model))].parts, c)
  {
    var prefix := Prefix(model);
    var key := TemplateKey(prefix);
    var ps := Templates[key].parts;
    TemplatesPlain(key);
    var all := [Text(prefix)] + ps;
    assert all[1..] == ps;
    assert Render(all) == prefix + Templates[key].Base() by {
      RenderConcat([Text(prefix)], ps);
    }
    assert Plain(all);
    SubstitutePlain(all, c);
    assert Expand(all, c) == prefix + Expand(ps, c);
    ExpandHasNoBracket(ps, c);
  }

  /** `send_configuration` hands the command to `send_cmd`. When the static
      turn-off command applies it is `prefix + off`, whatever the other
      settings; otherwise, for a prefix without `[`, it is the prefix, the
      looked-up template (fallback for unknown prefixes) with every marker
      replaced, and the suffix. */
  function SendConfiguration(model: string, power: Power, mode: OperationMode,
                             temperature: int, fan: FanSpeed, swing: SwingMode,
                             led: Led): (call: Call)
    ensures call.name == "send_cmd" && |call.params| == 1 && call.params[0].Str?
    ensures OffShortcut(Prefix(model), power) ==>
      call.params[0].s == Prefix(model) + Templates[Prefix(model)].off.value
    ensures !OffShortcut(Prefix(model), power) && '[' !in Prefix(model) ==>
      var body := Expand(Templates[TemplateKey(Prefix(model))].parts,
                         Configuration(power, mode, temperature, fan, swing, led));
      call.params[0].s == Prefix(model) + body + Suffix(model) && '[' !in body
  {
    var c := Configuration(power, mode, temperature, fan, swing, led);
    if !OffShortcut(Prefix(model), power) && '[' !in Prefix(model) then
      EncodeExpands(model, c);
      Call("send_cmd", [Str(Encode(model, c))])
    else
      Call("send_cmd", [Str(Encode(model, c))])
  }

  /** The power, mode, fan and swing markers become the decimal wire value
      of their setting, which reads back through `int()`. */
  lemma SettingMarkersParse(c: Configuration)
    ensures ParseInt(MarkerValue(Po, c), 10) == Some(c.power.Value())
    ensures ParseInt(MarkerValue(Mo, c), 10) == Some(c.mode.Value())
    ensures ParseInt(MarkerValue(Wi, c), 10) == Some(c.fan.Value())
    ensures ParseInt(MarkerValue(Sw, c), 10) == Some(c.swing.Value())
  {
    FormatIntParses(c.power.Value(), 10);
    FormatIntParses(c.mode.Value(), 10);
    FormatIntParses(c.fan.Value(), 10);
    FormatIntParses(c.swing.Value(), 10);
  }

  /** `[tt]` becomes the temperature in hexadecimal, which reads back through
      `int(_, 16)`; `[li]` becomes the LED's character. */
  lemma TemperatureMarkerParses(c: Configuration)
    ensures ParseInt(MarkerValue(Tt, c), 16) == Some(c.temperature)
    ensures forall i :: 0 <= i < |MarkerValue(Tt, c)| ==>
      MarkerValue(Tt, c)[i] == '-' || UpperHexChar(MarkerValue(Tt, c)[i])
    ensures MarkerValue(Li, c) == [c.led.Value()]
  {
    assert ParseInt(MarkerValue(Tt, c), 16) == Some(c.temperature) by {
      assert MarkerValue(Tt, c) == FormatInt(c.temperature, 16);
      FormatIntParses(c.temperature, 16);
    }
    assert MarkerValue(Tt, c) == FormatInt(c.temperature, 16);
  }

  /** `[tt1]`, `[tt4]` and `[tt7]` each become one upper-case hexadecimal
      digit of `(k + t - 17) mod 16`. */
  lemma OffsetMarkers(c: Configuration, m: Marker, k: int)
    requires (m, k) in {(Tt1, 1), (Tt4, 4), (Tt7, 7)}
    ensures |MarkerValue(m, c)| == 1
    ensures '0' <= MarkerValue(m, c)[0] <= '9' || 'A' <= MarkerValue(m, c)[0] <= 'F'
    ensures DigitValue(MarkerValue(m, c)[0]) == (k + c.temperature - 17) % 16
  {
    assert MarkerValue(m, c) == Offset(k, c.temperature);
  }

  /** At 17 degrees the three offsets are `1`, `4` and `7`. */
  lemma OffsetsAtSeventeen()
    ensures Offset(1, 17) == "1" && Offset(4, 17) == "4" && Offset(7, 17) == "7"
  {
  }

  /** An unregistered model: its prefix `0180222221` falls back to the
      generic template, and on/cool/24 degrees/fan auto/swing off/LED on
      becomes `018022222111311802`. */
  lemma FallbackSample(model: string, c: Configuration)
    requires model == "010500978022222102"
    requires c == Configuration(Power.On, OperationMode.Cool, 24, FanSpeed.Auto, SwingMode.Off, Led.On)
    ensures SendConfiguration(model, c.power, c.mode, c.temperature, c.fan, c.swing, c.led)
            == Call("send_cmd", [Str("018022222111311802")])
  {
    var call := SendConfiguration(model, c.power, c.mode, c.temperature, c.fan, c.swing, c.led);
    SampleModel(model);
    FallbackSampleExpands(c);
    SampleJoin();
    assert call.params == [call.params[0]];
  }

  lemma SampleJoin()
    ensures "0180222221" + "1131180" + "2" == "018022222111311802"
  {
  }

  lemma SampleModel(model: string)
    requires model == "010500978022222102"
    ensures Prefix(model) == "0180222221"
    ensures '[' !in Prefix(model)
    ensures TemplateKey(Prefix(model)) == FallbackKey
    ensures Suffix(model) == "2"
  {
    assert Slice(model, 0, 2) == "01";
    assert Slice(model, 8, 16) == "80222221";
  }

  lemma FallbackSampleExpands(c: Configuration)
    requires c == Configuration(Power.On, OperationMode.Cool, 24, FanSpeed.Auto, SwingMode.Off, Led.On)
    ensures Expand(Templates[FallbackKey].parts, c) == "1131180"
  {
    assert Templates[FallbackKey].parts == [Hole(Po), Hole(Mo), Hole(Wi), Hole(Sw), Hole(Tt), Hole(Li)];
    SampleMarkerValues(c);
    SampleExpandSteps(c);
  }

  lemma SampleExpandSteps(c: Configuration)
    requires MarkerValue(Po, c) == "1" && MarkerValue(Mo, c) == "1"
    requires MarkerValue(Wi, c) == "3" && MarkerValue(Sw, c) == "1"
    requires MarkerValue(Tt, c) == "18" && MarkerValue(Li, c) == "0"
    ensures Expand([Hole(Po), Hole(Mo), Hole(Wi), Hole(Sw), Hole(Tt), Hole(Li)], c) == "1131180"
  {
    assert Expand([Hole(Li)], c) == "0";
    assert Expand([Hole(Tt), Hole(Li)], c) == "180";
    assert Expand([Hole(Sw), Hole(Tt), Hole(Li)], c) == "1180";
    assert Expand([Hole(Wi), Hole(Sw), Hole(Tt), Hole(Li)], c) == "31180";
    assert Expand([Hole(Mo), Hole(Wi), Hole(Sw), Hole(Tt), Hole(Li)], c) == "131180";
  }

  lemma SampleMarkerValues(c: Configuration)
    requires c == Configuration(Power.On, OperationMode.Cool, 24, FanSpeed.Auto, SwingMode.Off, Led.On)
    ensures MarkerValue(Po, c) == "1" && MarkerValue(Mo, c) == "1"
    ensures MarkerValue(Wi, c) == "3" && MarkerValue(Sw, c) == "1"
    ensures MarkerValue(Tt, c) == "18" && MarkerValue(Li, c) == "0"
  {
    assert FormatInt(24, 16) == "18" by {
      assert DigitsOf(24, 16) == DigitsOf(1, 16) + [DigitChar(8)];
    }
  }

  /** gree_2 switched off: the literal off command follows the prefix, the
      other settings are ignored and no suffix is appended. */
  lemma OffSample(model: string, c: Configuration)
    requires model == "01234567000107279" && c.power == Power.Off
    ensures SendConfiguration(model, c.power, c.mode, c.temperature, c.fan, c.swing, c.led)
            == Call("send_cmd", [Str("0100010727" + "01011101004000205002112000D04000207002000000A0")])
  {
    var call := SendConfiguration(model, c.power, c.mode, c.temperature, c.fan, c.swing, c.led);
    OffPrefix(model);
    Gree2Off();
    assert call.params == [call.params[0]];
  }

  lemma OffPrefix(model: string)
    requires model == "01234567000107279"
    ensures Prefix(model) == "0100010727"
  {
    assert Slice(model, 0, 2) == "01";
    assert Slice(model, 8, 16) == "00010727";
  }

  lemma Gree2Off()
    ensures OffShortcut("0100010727", Power.Off)
    ensures Templates["0100010727"].off == Some("01011101004000205002112000D04000207002000000A0")
  {
  }
}
