/**
 * The data and the checks of App2.ts: the color table `input`, the expected
 * palette `output`, the tones `baseColors`, `brightness` and `depths`, the
 * single-record checks of the tones, and the palette check that builds the
 * palette from `input` and compares it with `output`.
 */
module Fixtures {
  import opened Wrappers
  import opened Tones
  import opened Writes
  import opened PaletteBuilder
  import opened PaletteLaws

  /**
   * Reading a field inside a modifier. Every record given to the modifiers
   * below has the field; an absent one reads as the empty string.
   */
  function Field(data: Record, name: string): string
  {
    if name in data then data[name] else ""
  }

  /** The color data of one color: `{main, dark, light, extra}`. */
  function Color(main: string, dark: string, light: string, extra: string): Record
  {
    map["main" := main, "dark" := dark, "light" := light, "extra" := extra]
  }

  const Red: Record := Color("red", "darkred", "lightred", "extrared")
  const Green: Record := Color("green", "darkgreen", "lightgreen", "extragreen")
  const Blue: Record := Color("blue", "darkblue", "lightblue", "extrablue")
  const Yellow: Record := Color("yellow", "darkyellow", "lightyellow", "extrayellow")

  /** The module-level color table `input`. */
  const Input: map<string, Record> := map["red" := Red, "green" := Green, "blue" := Blue, "yellow" := Yellow]

  /** `input` as the `inputModel` argument, in enumeration order. */
  const InputModel: seq<(string, Record)> := [("red", Red), ("green", Green), ("blue", Blue), ("yellow", Yellow)]

  /** The callback of `baseColors`. */
  function BaseColorsRecord(data: Record): Record
  {
    map["background" := Field(data, "main"), "color" := Field(data, "main")]
  }

  /** The callback of `brightness` and its subtones `low`, `medium`, `high` and `ultra`. */
  function BrightnessRecord(data: Record): Record
  {
    map["foreground" := Field(data, "main"), "customProp" := "#f0f0f0"]
  }

  function LowRecord(data: Record): Record
  {
    map["white" := Field(data, "light")]
  }

  function MediumRecord(data: Record): Record
  {
    map["shadow" := Field(data, "main")]
  }

  function HighRecord(data: Record): Record
  {
    map["someProp" := "transparent", "anotherProp" := "#fff", "thirdCustomProp" := Field(data, "main")]
  }

  function UltraRecord(data: Record): Record
  {
    map["intensive" := Field(data, "extra")]
  }

  /** The callback of `depths` and its subtones `8-bit`, `16-bit` and `24-bit`. */
  function DepthsRecord(data: Record): Record
  {
    map["background" := Field(data, "light"), "foreground" := Field(data, "main"), "color" := Field(data, "extra")]
  }

  function Bit8Record(data: Record): Record
  {
    map["borderColor" := Field(data, "main")]
  }

  function Bit16Record(data: Record): Record
  {
    map["borderColor" := Field(data, "main"), "anotherColor" := Field(data, "light")]
  }

  function Bit24Record(data: Record): Record
  {
    map["extraColor" := Field(data, "extra")]
  }

  /** The subtone settings given to `createTone` for `brightness` and for `depths`. */
  const BrightnessGroup: SubtoneGroup :=
    SubtoneGroup("brightness", [("low", LowRecord), ("medium", MediumRecord), ("high", HighRecord), ("ultra", UltraRecord)])
  const DepthGroup: SubtoneGroup :=
    SubtoneGroup("depth", [("8-bit", Bit8Record), ("16-bit", Bit16Record), ("24-bit", Bit24Record)])

  /** The three tones of the fixture. */
  const BaseColors: Tone := CreateTone(BaseColorsRecord, None)
  const Brightness: Tone := CreateTone(BrightnessRecord, Some(BrightnessGroup))
  const Depths: Tone := CreateTone(DepthsRecord, Some(DepthGroup))

  /** `{base: baseColors, tones: {brightness, depths}}`. */
  const Config: PaletteConfig := PaletteConfig(BaseColors, [("brightness", Brightness), ("depths", Depths)])

  /**
   * The expected palette `output`, listed color by color (the order of a
   * map display does not change the map).
   */
  const Output: map<string, Record> := map[
    "red" := map["main" := "red", "dark" := "darkred", "light" := "lightred", "extra" := "extrared", "background" := "red", "color" := "red"],
    "red_brightness" := map["foreground" := "red", "customProp" := "#f0f0f0"],
    "red_low_brightness" := map["white" := "lightred"],
    "red_medium_brightness" := map["shadow" := "red"],
    "red_high_brightness" := map["someProp" := "transparent", "anotherProp" := "#fff", "thirdCustomProp" := "red"],
    "red_ultra_brightness" := map["intensive" := "extrared"],
    "red_depth" := map["background" := "lightred", "foreground" := "red", "color" := "extrared"],
    "red_8-bit_depth" := map["borderColor" := "red"],
    "red_16-bit_depth" := map["borderColor" := "red", "anotherColor" := "lightred"],
    "red_24-bit_depth" := map["extraColor" := "extrared"],
    "green" := map["main" := "green", "dark" := "darkgreen", "light" := "lightgreen", "extra" := "extragreen", "background" := "green", "color" := "green"],
    "green_brightness" := map["foreground" := "green", "customProp" := "#f0f0f0"],
    "green_low_brightness" := map["white" := "lightgreen"],
    "green_medium_brightness" := map["shadow" := "green"],
    "green_high_brightness" := map["someProp" := "transparent", "anotherProp" := "#fff", "thirdCustomProp" := "green"],
    "green_ultra_brightness" := map["intensive" := "extragreen"],
    "green_depth" := map["background" := "lightgreen", "foreground" := "green", "color" := "extragreen"],
    "green_8-bit_depth" := map["borderColor" := "green"],
    "green_16-bit_depth" := map["borderColor" := "green", "anotherColor" := "lightgreen"],
    "green_24-bit_depth" := map["extraColor" := "extragreen"],
    "blue" := map["main" := "blue", "dark" := "darkblue", "light" := "lightblue", "extra" := "extrablue", "background" := "blue", "color" := "blue"],
    "blue_brightness" := map["foreground" := "blue", "customProp" := "#f0f0f0"],
    "blue_low_brightness" := map["white" := "lightblue"],
    "blue_medium_brightness" := map["shadow" := "blue"],
    "blue_high_brightness" := map["someProp" := "transparent", "anotherProp" := "#fff", "thirdCustomProp" := "blue"],
    "blue_ultra_brightness" := map["intensive" := "extrablue"],
    "blue_depth" := map["background" := "lightblue", "foreground" := "blue", "color" := "extrablue"],
    "blue_8-bit_depth" := map["borderColor" := "blue"],
    "blue_16-bit_depth" := map["borderColor" := "blue", "anotherColor" := "lightblue"],
    "blue_24-bit_depth" := map["extraColor" := "extrablue"],
    "yellow" := map["main" := "yellow", "dark" := "darkyellow", "light" := "lightyellow", "extra" := "extrayellow", "background" := "yellow", "color" := "yellow"],
    "yellow_brightness" := map["foreground" := "yellow", "customProp" := "#f0f0f0"],
    "yellow_low_brightness" := map["white" := "lightyellow"],
    "yellow_medium_brightness" := map["shadow" := "yellow"],
    "yellow_high_brightness" := map["someProp" := "transparent", "anotherProp" := "#fff", "thirdCustomProp" := "yellow"],
    "yellow_ultra_brightness" := map["intensive" := "extrayellow"],
    "yellow_depth" := map["background" := "lightyellow", "foreground" := "yellow", "color" := "extrayellow"],
    "yellow_8-bit_depth" := map["borderColor" := "yellow"],
    "yellow_16-bit_depth" := map["borderColor" := "yellow", "anotherColor" := "lightyellow"],
    "yellow_24-bit_depth" := map["extraColor" := "extrayellow"]
  ]

  /** `m` after the ten assignments for the color `name` with data `data` under the fixture configuration. */
  function WithColor(m: Output, name: string, data: Record): Output
  {
    m[name := data + BaseColorsRecord(data)]
     [ToneKey(name, "brightness") := BrightnessRecord(data)]
     [SubtoneKey(name, "low", "brightness") := LowRecord(data)]
     [SubtoneKey(name, "medium", "brightness") := MediumRecord(data)]
     [SubtoneKey(name, "high", "brightness") := HighRecord(data)]
     [SubtoneKey(name, "ultra", "brightness") := UltraRecord(data)]
     [ToneKey(name, "depth") := DepthsRecord(data)]
     [SubtoneKey(name, "8-bit", "depth") := Bit8Record(data)]
     [SubtoneKey(name, "16-bit", "depth") := Bit16Record(data)]
     [SubtoneKey(name, "24-bit", "depth") := Bit24Record(data)]
  }

  /** The fixture configuration, tone by tone, as the builder sees it. */
  lemma ConfigShape()
    ensures Config.base.Base? && forall data :: Call(Config.base, data) == BaseColorsRecord(data)
    ensures Config.tones[0].1 == Brightness && Brightness.Toned? && Brightness.subtone == BrightnessGroup
    ensures forall data :: Call(Brightness, data) == BrightnessRecord(data)
    ensures Config.tones[1].1 == Depths && Depths.Toned? && Depths.subtone == DepthGroup
    ensures forall data :: Call(Depths, data) == DepthsRecord(data)
  {
  }

  /** Two more subtones' entries, `n0` then `n1`, assigned on top of the earlier ones. */
  lemma SubtoneOverlayTwoSteps(m: Output, name: string, groupName: string, subs: seq<(string, Modifier)>, data: Record, k: nat,
                               n0: string, f0: Modifier, n1: string, f1: Modifier)
    requires k + 2 <= |subs| && subs[k] == (n0, f0) && subs[k + 1] == (n1, f1)
    ensures Overlay(m, SubtoneWrites(name, groupName, subs[..k + 2], data))
         == Overlay(m, SubtoneWrites(name, groupName, subs[..k], data))
              [SubtoneKey(name, n0, groupName) := f0(data)][SubtoneKey(name, n1, groupName) := f1(data)]
  {
    SubtoneOverlayStep(m, name, groupName, subs, data, k);
    SubtoneOverlayStep(m, name, groupName, subs, data, k + 1);
  }

  /** The subtone assignments of `brightness` for one color, performed on `m`. */
  lemma BrightnessOverlay(m: Output, name: string, data: Record)
    ensures Overlay(m, SubtoneWrites(name, "brightness", BrightnessGroup.subtones, data))
         == m[SubtoneKey(name, "low", "brightness") := LowRecord(data)]
             [SubtoneKey(name, "medium", "brightness") := MediumRecord(data)]
             [SubtoneKey(name, "high", "brightness") := HighRecord(data)]
             [SubtoneKey(name, "ultra", "brightness") := UltraRecord(data)]
  {
    var subs := BrightnessGroup.subtones;
    assert subs[..0] == [];
    SubtoneOverlayTwoSteps(m, name, "brightness", subs, data, 0, "low", LowRecord, "medium", MediumRecord);
    SubtoneOverlayTwoSteps(m, name, "brightness", subs, data, 2, "high", HighRecord, "ultra", UltraRecord);
    assert subs[..4] == subs;
  }

  /** The subtone assignments of `depths` for one color, performed on `m`. */
  lemma DepthOverlay(m: Output, name: string, data: Record)
    ensures Overlay(m, SubtoneWrites(name, "depth", DepthGroup.subtones, data))
         == m[SubtoneKey(name, "8-bit", "depth") := Bit8Record(data)]
             [SubtoneKey(name, "16-bit", "depth") := Bit16Record(data)]
             [SubtoneKey(name, "24-bit", "depth") := Bit24Record(data)]
  {
    var subs := DepthGroup.subtones;
    assert subs[..0] == [];
    SubtoneOverlayTwoSteps(m, name, "depth", subs, data, 0, "8-bit", Bit8Record, "16-bit", Bit16Record);
    SubtoneOverlayStep(m, name, "depth", subs, data, 2);
    assert subs[2] == ("24-bit", Bit24Record);
    assert subs[..3] == subs;
  }

  /** The tone loop for one color with the fixture configuration. */
  lemma ConfigToneWrites(name: string, data: Record)
    ensures ToneWrites(name, Config.tones, data) == Success(
      [] + [(ToneKey(name, "brightness"), BrightnessRecord(data))]
      + SubtoneWrites(name, "brightness", BrightnessGroup.subtones, data)
      + [(ToneKey(name, "depth"), DepthsRecord(data))]
      + SubtoneWrites(name, "depth", DepthGroup.subtones, data))
  {
    var tones := Config.tones;
    ConfigShape();
    assert tones[..0] == [];
    ToneWritesStep(name, tones, data, 0, []);
    var first := ToneWrites(name, tones[..1], data).value;
    ToneWritesStep(name, tones, data, 1, first);
    assert tones[..2] == tones;
  }

  /** The ten assignments made for one color of the table with the fixture configuration. */
  lemma ColorWrites(m: Output, name: string, data: Record) returns (ws: seq<Write>)
    requires name in Input && Input[name] == data
    ensures EntityWrites(Input, (name, data), Config) == Success(ws)
    ensures Overlay(m, ws) == WithColor(m, name, data)
  {
    ConfigShape();
    ConfigToneWrites(name, data);
    var tws := ToneWrites(name, Config.tones, data).value;
    EntityWritesOf(Input, name, data, Config, tws);
    var w0 := (name, data + BaseColorsRecord(data));
    ws := [w0] + tws;
    var m0 := m;
    OverlayCons(m0, w0, tws);
    var m1 := m0[w0.0 := w0.1];
    var t1 := (ToneKey(name, "brightness"), BrightnessRecord(data));
    var t2 := (ToneKey(name, "depth"), DepthsRecord(data));
    var first := SubtoneWrites(name, "brightness", BrightnessGroup.subtones, data);
    var second := SubtoneWrites(name, "depth", DepthGroup.subtones, data);
    OverlayAppend(m1, [] + [t1] + first + [t2], second);
    OverlaySnoc(m1, [] + [t1] + first, t2);
    OverlayAppend(m1, [] + [t1], first);
    OverlaySnoc(m1, [], t1);
    var m2 := m1[t1.0 := t1.1];
    BrightnessOverlay(m2, name, data);
    var m6 := Overlay(m2, first);
    DepthOverlay(m6[t2.0 := t2.1], name, data);
  }

  /** The color table and the input model list the same four colors, in the same order. */
  lemma InputShape()
    ensures |InputModel| == 4
    ensures InputModel[0] == ("red", Red) && InputModel[1] == ("green", Green)
    ensures InputModel[2] == ("blue", Blue) && InputModel[3] == ("yellow", Yellow)
    ensures forall i | 0 <= i < |InputModel| :: InputModel[i].0 in Input && Input[InputModel[i].0] == InputModel[i].1
  {
  }

  /** One more color of the input model: its assignments, performed after the earlier colors'. */
  lemma FixtureStep(i: nat, done: seq<Write>) returns (ws: seq<Write>)
    requires i < |InputModel|
    requires PaletteWrites(Input, InputModel[..i], Config) == Success(done)
    ensures PaletteWrites(Input, InputModel[..i + 1], Config) == Success(done + ws)
    ensures Overlay(map[], done + ws) == WithColor(Overlay(map[], done), InputModel[i].0, InputModel[i].1)
  {
    InputShape();
    var (name, data) := InputModel[i];
    ws := ColorWrites(Overlay(map[], done), name, data);
    PaletteWritesStep(Input, InputModel, Config, i, done, ws);
    OverlayAppend(map[], done, ws);
  }

  /** The object after the first `k` colors of the input model. */
  function FirstColors(k: nat): Output
    requires k <= |InputModel|
  {
    if k == 0 then map[] else WithColor(FirstColors(k - 1), InputModel[k - 1].0, InputModel[k - 1].1)
  }

  /** The builder's assignments for the first `k` colors leave `FirstColors(k)`. */
  lemma {:induction false} FixturePrefix(k: nat) returns (ws: seq<Write>)
    requires k <= |InputModel|
    ensures PaletteWrites(Input, InputModel[..k], Config) == Success(ws)
    ensures Overlay(map[], ws) == FirstColors(k)
  {
    if k == 0 {
      assert InputModel[..0] == [];
      ws := [];
    } else {
      var done := FixturePrefix(k - 1);
      var more := FixtureStep(k - 1, done);
      ws := done + more;
    }
  }

  /** The fixture palette, color by color. */
  lemma FixturePaletteEntries()
    ensures Palette(Input, InputModel, Config)
         == Success(WithColor(WithColor(WithColor(WithColor(map[], "red", Red), "green", Green), "blue", Blue), "yellow", Yellow))
  {
    assert InputModel[..|InputModel|] == InputModel;
    var ws := FixturePrefix(|InputModel|);
    assert FirstColors(|InputModel|)
        == WithColor(WithColor(WithColor(WithColor(map[], "red", Red), "green", Green), "blue", Blue), "yellow", Yellow) by {
      InputShape();
    }
  }

  /** The ten entries of one color of the table, with their keys and records spelled out. */
  lemma ColorLiteral(m: Output, name: string, main: string, dark: string, light: string, extra: string)
    ensures WithColor(m, name, Color(main, dark, light, extra))
         == m[name := map["main" := main, "dark" := dark, "light" := light, "extra" := extra, "background" := main, "color" := main]]
             [ToneKey(name, "brightness") := map["foreground" := main, "customProp" := "#f0f0f0"]]
             [SubtoneKey(name, "low", "brightness") := map["white" := light]]
             [SubtoneKey(name, "medium", "brightness") := map["shadow" := main]]
             [SubtoneKey(name, "high", "brightness") := map["someProp" := "transparent", "anotherProp" := "#fff", "thirdCustomProp" := main]]
             [SubtoneKey(name, "ultra", "brightness") := map["intensive" := extra]]
             [ToneKey(name, "depth") := map["background" := light, "foreground" := main, "color" := extra]]
             [SubtoneKey(name, "8-bit", "depth") := map["borderColor" := main]]
             [SubtoneKey(name, "16-bit", "depth") := map["borderColor" := main, "anotherColor" := light]]
             [SubtoneKey(name, "24-bit", "depth") := map["extraColor" := extra]]
  {
    var data := Color(main, dark, light, extra);
    assert Field(data, "main") == main && Field(data, "light") == light && Field(data, "extra") == extra;
    assert data + BaseColorsRecord(data)
        == map["main" := main, "dark" := dark, "light" := light, "extra" := extra, "background" := main, "color" := main];
  }

  /** The tone-level keys of the four colors, spelled out. */
  lemma ToneKeysSpelled()
    ensures ToneKey("red", "brightness") == "red_brightness" && ToneKey("red", "depth") == "red_depth"
    ensures ToneKey("green", "brightness") == "green_brightness" && ToneKey("green", "depth") == "green_depth"
    ensures ToneKey("blue", "brightness") == "blue_brightness" && ToneKey("blue", "depth") == "blue_depth"
    ensures ToneKey("yellow", "brightness") == "yellow_brightness" && ToneKey("yellow", "depth") == "yellow_depth"
  {
  }

  /** The subtone-level keys of `red`, spelled out. */
  lemma RedBrightnessKeys()
    ensures SubtoneKey("red", "low", "brightness") == "red_low_brightness"
    ensures SubtoneKey("red", "medium", "brightness") == "red_medium_brightness"
    ensures SubtoneKey("red", "high", "brightness") == "red_high_brightness"
    ensures SubtoneKey("red", "ultra", "brightness") == "red_ultra_brightness"
  {
  }

  lemma RedDepthKeys()
    ensures SubtoneKey("red", "8-bit", "depth") == "red_8-bit_depth"
    ensures SubtoneKey("red", "16-bit", "depth") == "red_16-bit_depth"
    ensures SubtoneKey("red", "24-bit", "depth") == "red_24-bit_depth"
  {
  }

  /** The subtone-level keys of `green`, spelled out. */
  lemma GreenBrightnessKeys()
    ensures SubtoneKey("green", "low", "brightness") == "green_low_brightness"
    ensures SubtoneKey("green", "medium", "brightness") == "green_medium_brightness"
    ensures SubtoneKey("green", "high", "brightness") == "green_high_brightness"
    ensures SubtoneKey("green", "ultra", "brightness") == "green_ultra_brightness"
  {
  }

  lemma GreenDepthKeys()
    ensures SubtoneKey("green", "8-bit", "depth") == "green_8-bit_depth"
    ensures SubtoneKey("green", "16-bit", "depth") == "green_16-bit_depth"
    ensures SubtoneKey("green", "24-bit", "depth") == "green_24-bit_depth"
  {
  }

  /** The subtone-level keys of `blue`, spelled out. */
  lemma BlueBrightnessKeys()
    ensures SubtoneKey("blue", "low", "brightness") == "blue_low_brightness"
    ensures SubtoneKey("blue", "medium", "brightness") == "blue_medium_brightness"
    ensures SubtoneKey("blue", "high", "brightness") == "blue_high_brightness"
    ensures SubtoneKey("blue", "ultra", "brightness") == "blue_ultra_brightness"
  {
  }

  lemma BlueDepthKeys()
    ensures SubtoneKey("blue", "8-bit", "depth") == "blue_8-bit_depth"
    ensures SubtoneKey("blue", "16-bit", "depth") == "blue_16-bit_depth"
    ensures SubtoneKey("blue", "24-bit", "depth") == "blue_24-bit_depth"
  {
  }

  /** The subtone-level keys of `yellow`, spelled out. */
  lemma YellowBrightnessKeys()
    ensures SubtoneKey("yellow", "low", "brightness") == "yellow_low_brightness"
    ensures SubtoneKey("yellow", "medium", "brightness") == "yellow_medium_brightness"
    ensures SubtoneKey("yellow", "high", "brightness") == "yellow_high_brightness"
    ensures SubtoneKey("yellow", "ultra", "brightness") == "yellow_ultra_brightness"
  {
  }

  lemma YellowDepthKeys()
    ensures SubtoneKey("yellow", "8-bit", "depth") == "yellow_8-bit_depth"
    ensures SubtoneKey("yellow", "16-bit", "depth") == "yellow_16-bit_depth"
    ensures SubtoneKey("yellow", "24-bit", "depth") == "yellow_24-bit_depth"
  {
  }

  /** The palette check: the palette built from the color table equals `output`. */
  lemma FixturePaletteMatchesOutput()
    ensures Palette(Input, InputModel, Config) == Success(Output)
  {
    FixturePaletteEntries();
    ToneKeysSpelled();
    RedBrightnessKeys();
    RedDepthKeys();
    GreenBrightnessKeys();
    GreenDepthKeys();
    BlueBrightnessKeys();
    BlueDepthKeys();
    YellowBrightnessKeys();
    YellowDepthKeys();
    var m0: Output := map[];
    ColorLiteral(m0, "red", "red", "darkred", "lightred", "extrared");
    var m1 := WithColor(m0, "red", Red);
    ColorLiteral(m1, "green", "green", "darkgreen", "lightgreen", "extragreen");
    var m2 := WithColor(m1, "green", Green);
    ColorLiteral(m2, "blue", "blue", "darkblue", "lightblue", "extrablue");
    var m3 := WithColor(m2, "blue", Blue);
    ColorLiteral(m3, "yellow", "yellow", "darkyellow", "lightyellow", "extrayellow");
  }

  /** The data of the single-record checks, `myData`. */
  const MyData: Record := map["main" := "#777", "light" := "#fff", "dark" := "#000", "extra" := "#111"]

  /** The single-record checks of the three tones and of their subtones and group names. */
  lemma ToneChecks()
    ensures Call(BaseColors, MyData) == map["background" := "#777", "color" := "#777"]
    ensures Brightness.Toned? && Brightness.subtone.name == "brightness"
    ensures Call(Brightness, MyData) == map["foreground" := "#777", "customProp" := "#f0f0f0"]
    ensures Brightness.subtone.subtones[0].0 == "low" && Brightness.subtone.subtones[0].1(MyData) == map["white" := "#fff"]
    ensures Brightness.subtone.subtones[1].0 == "medium" && Brightness.subtone.subtones[1].1(MyData) == map["shadow" := "#777"]
    ensures Brightness.subtone.subtones[2].0 == "high"
         && Brightness.subtone.subtones[2].1(MyData) == map["someProp" := "transparent", "anotherProp" := "#fff", "thirdCustomProp" := "#777"]
    ensures Brightness.subtone.subtones[3].0 == "ultra" && Brightness.subtone.subtones[3].1(MyData) == map["intensive" := "#111"]
    ensures Depths.Toned? && Depths.subtone.name == "depth"
    ensures Call(Depths, MyData) == map["background" := "#fff", "foreground" := "#777", "color" := "#111"]
    ensures Depths.subtone.subtones[0].0 == "8-bit" && Depths.subtone.subtones[0].1(MyData) == map["borderColor" := "#777"]
    ensures Depths.subtone.subtones[1].0 == "16-bit" && Depths.subtone.subtones[1].1(MyData) == map["borderColor" := "#777", "anotherColor" := "#fff"]
    ensures Depths.subtone.subtones[2].0 == "24-bit" && Depths.subtone.subtones[2].1(MyData) == map["extraColor" := "#111"]
  {
    ConfigShape();
  }

  /** The fixture call reads the same table it is given: it agrees with the intended builder. */
  lemma FixtureCallIsIntended()
    ensures ModelTable(InputModel) == Input
    ensures Palette(Input, InputModel, Config) == IntendedPalette(InputModel, Config)
  {
    var m0: Output := map[];
    assert InputModel[..0] == [];
    OverlayPrefixStep(m0, InputModel, 0);
    OverlayPrefixStep(m0, InputModel, 1);
    OverlayPrefixStep(m0, InputModel, 2);
    OverlayPrefixStep(m0, InputModel, 3);
    assert InputModel[..4] == InputModel;
  }

  /** Data for `red` that differs from the table's. */
  const Crimson: Record := Color("crimson", "darkcrimson", "lightcrimson", "extracrimson")

  /** A one-color palette with no tones: the base entry alone. */
  lemma SingleColorPalette(table: map<string, Record>, color: string, raw: Record)
    requires color in table
    ensures Palette(table, [(color, raw)], PaletteConfig(BaseColors, []))
         == Success(map[color := raw + BaseColorsRecord(table[color])])
  {
    var config := PaletteConfig(BaseColors, []);
    var entities := [(color, raw)];
    var w := (color, raw + Call(BaseColors, table[color]));
    ConfigShape();
    EntityWritesOf(table, color, raw, config, []);
    assert entities[..0] == [] && entities[..1] == entities;
    PaletteWritesStep(table, entities, config, 0, [], [w] + []);
    var m0: Output := map[];
    OverlaySnoc(m0, [], w);
    assert [] + ([w] + []) == [] + [w];
  }

  /**
   * The builder as written reads the module-level table, not its argument:
   * given `red` with its own data, the base entry takes its background from
   * the table's `red` while the intended builder takes it from the argument.
   */
  lemma TableShadowsArgument()
    ensures Palette(Input, [("red", Crimson)], PaletteConfig(BaseColors, []))
         == Success(map["red" := Crimson + map["background" := "red", "color" := "red"]])
    ensures IntendedPalette([("red", Crimson)], PaletteConfig(BaseColors, []))
         == Success(map["red" := Crimson + map["background" := "crimson", "color" := "crimson"]])
  {
    var entities := [("red", Crimson)];
    SingleColorPalette(Input, "red", Crimson);
    var m0: Output := map[];
    OverlaySnoc(m0, [], ("red", Crimson));
    assert [] + [("red", Crimson)] == entities;
    assert ModelTable(entities) == map["red" := Crimson];
    SingleColorPalette(ModelTable(entities), "red", Crimson);
    assert BaseColorsRecord(Red) == map["background" := "red", "color" := "red"];
    assert BaseColorsRecord(Crimson) == map["background" := "crimson", "color" := "crimson"];
  }
}
