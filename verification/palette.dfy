/**
 * The palette builder of App2.ts, `createPalette(inputModel, config)`.
 *
 * For every color of the input model, in enumeration order, the builder
 * assigns into one flat result object:
 *   - under `color`, the raw color data overlaid with `config.base(...)`;
 *   - for every tone, under `color_<group name>`, the tone's record;
 *   - for every subtone of that tone, under `color_<subtone>_<group name>`,
 *     the subtone's record.
 * The modifiers are applied to `input[color]`, where `input` is the
 * module-level color table and not the `inputModel` parameter; `lookup`
 * stands for that table.
 *
 * The builder is specified by the ordered list of assignments it makes
 * (`PaletteWrites`) and the object those assignments leave behind
 * (`Palette`); `CreatePalette` is the loop program, proved equal to it.
 */
module PaletteBuilder {
  import opened Wrappers
  import opened Tones
  import opened Writes

  /** The `config` argument: the base callback and the named tones, in enumeration order. */
  datatype PaletteConfig = PaletteConfig(base: Tone, tones: seq<(string, Tone)>)

  /** The run-time failures that abort `createPalette`. */
  datatype Error =
    | UndefinedInput(color: string)  // `input[color]` is undefined and the base modifier reads a field of it
    | MissingSubtone(toneKey: string)  // the tone has no `subtone`, so reading its `name` fails

  /** The key of a tone-level entry, `${color}_${subtoneName}`. */
  function ToneKey(color: string, groupName: string): string
  {
    color + "_" + groupName
  }

  /** The key of a subtone-level entry, `${color}_${sub}_${subtoneName}`. */
  function SubtoneKey(color: string, sub: string, groupName: string): string
  {
    color + "_" + sub + "_" + groupName
  }

  /** The total number of subtones over all tones that carry a group. */
  function SubtoneCount(tones: seq<(string, Tone)>): nat
  {
    if tones == [] then 0
    else
      var tone := tones[|tones| - 1].1;
      SubtoneCount(tones[..|tones| - 1]) + (if tone.Toned? then |tone.subtone.subtones| else 0)
  }

  /** The assignments of the innermost loop: one per subtone, in order. */
  function SubtoneWrites(color: string, groupName: string, subs: seq<(string, Modifier)>, data: Record): (ws: seq<Write>)
    ensures |ws| == |subs|
  {
    if subs == [] then []
    else
      var (sub, subCallback) := subs[|subs| - 1];
      SubtoneWrites(color, groupName, subs[..|subs| - 1], data) + [(SubtoneKey(color, sub, groupName), subCallback(data))]
  }

  /**
   * The assignments of the tone loop for one color: per tone, its own entry
   * followed by its subtones' entries. A tone without a subtone group fails.
   */
  function ToneWrites(color: string, tones: seq<(string, Tone)>, data: Record): (r: Result<seq<Write>, Error>)
    ensures r.Success? ==> |r.value| == |tones| + SubtoneCount(tones)
  {
    if tones == [] then Success([])
    else
      match ToneWrites(color, tones[..|tones| - 1], data)
      case Failure(e) => Failure(e)
      case Success(ws) =>
        var (toneKey, toneCallback) := tones[|tones| - 1];
        match toneCallback
        case Base(_) => Failure(MissingSubtone(toneKey))
        case Toned(_, group) =>
          Success(ws + [(ToneKey(color, group.name), Call(toneCallback, data))]
                  + SubtoneWrites(color, group.name, group.subtones, data))
  }

  /** The number of assignments made for each color. */
  function Width(config: PaletteConfig): nat
  {
    1 + |config.tones| + SubtoneCount(config.tones)
  }

  /** The assignments for one color: its base entry, then the tone loop. */
  function EntityWrites(lookup: map<string, Record>, entity: (string, Record), config: PaletteConfig): (r: Result<seq<Write>, Error>)
    ensures r.Success? ==> |r.value| == Width(config)
  {
    var (color, raw) := entity;
    if color !in lookup then Failure(UndefinedInput(color))
    else
      match ToneWrites(color, config.tones, lookup[color])
      case Failure(e) => Failure(e)
      case Success(ws) => Success([(color, raw + Call(config.base, lookup[color]))] + ws)
  }

  /** Every assignment `createPalette` makes, in the order it makes them. */
  function PaletteWrites(lookup: map<string, Record>, entities: seq<(string, Record)>, config: PaletteConfig): (r: Result<seq<Write>, Error>)
    ensures r.Success? ==> |r.value| == |entities| * Width(config)
  {
    if entities == [] then Success([])
    else
      match PaletteWrites(lookup, entities[..|entities| - 1], config)
      case Failure(e) => Failure(e)
      case Success(ws) =>
        match EntityWrites(lookup, entities[|entities| - 1], config)
        case Failure(e) => Failure(e)
        case Success(ews) =>
          assert |ws + ews| == (|entities| - 1) * Width(config) + Width(config);
          Success(ws + ews)
  }

  /** What `createPalette(inputModel, config)` returns: the empty object after every assignment. */
  function Palette(lookup: map<string, Record>, entities: seq<(string, Record)>, config: PaletteConfig): Result<Output, Error>
  {
    match PaletteWrites(lookup, entities, config)
    case Failure(e) => Failure(e)
    case Success(ws) => Success(Overlay(map[], ws))
  }

  /** Regrouping a concatenation of three sequences. */
  lemma ConcatAssoc3<T>(a: seq<T>, b: seq<T>, c: seq<T>)
    ensures a + b + c == a + (b + c)
  {
  }

  /** The assignments for a color whose tone loop succeeded. */
  lemma EntityWritesOf(lookup: map<string, Record>, color: string, raw: Record, config: PaletteConfig, ws: seq<Write>)
    requires color in lookup
    requires ToneWrites(color, config.tones, lookup[color]) == Success(ws)
    ensures EntityWrites(lookup, (color, raw), config) == Success([(color, raw + Call(config.base, lookup[color]))] + ws)
  {
  }

  /** One more subtone: one more assignment at the end. */
  lemma SubtoneWritesStep(color: string, groupName: string, subs: seq<(string, Modifier)>, data: Record, k: nat)
    requires k < |subs|
    ensures SubtoneWrites(color, groupName, subs[..k + 1], data)
         == SubtoneWrites(color, groupName, subs[..k], data) + [(SubtoneKey(color, subs[k].0, groupName), subs[k].1(data))]
  {
    assert subs[..k + 1][..k] == subs[..k];
  }

  /** One more subtone's entry, assigned on top of the earlier ones. */
  lemma SubtoneOverlayStep(m: Output, color: string, groupName: string, subs: seq<(string, Modifier)>, data: Record, k: nat)
    requires k < |subs|
    ensures Overlay(m, SubtoneWrites(color, groupName, subs[..k + 1], data))
         == Overlay(m, SubtoneWrites(color, groupName, subs[..k], data))[SubtoneKey(color, subs[k].0, groupName) := subs[k].1(data)]
  {
    SubtoneWritesStep(color, groupName, subs, data, k);
    OverlaySnoc(m, SubtoneWrites(color, groupName, subs[..k], data), (SubtoneKey(color, subs[k].0, groupName), subs[k].1(data)));
  }

  /** One more tone that carries a group: its entry, then its subtones' entries. */
  lemma ToneWritesStep(color: string, tones: seq<(string, Tone)>, data: Record, j: nat, ws: seq<Write>)
    requires j < |tones| && tones[j].1.Toned?
    requires ToneWrites(color, tones[..j], data) == Success(ws)
    ensures var group := tones[j].1.subtone;
      ToneWrites(color, tones[..j + 1], data)
      == Success(ws + [(ToneKey(color, group.name), Call(tones[j].1, data))]
                 + SubtoneWrites(color, group.name, group.subtones, data))
  {
    assert tones[..j + 1][..j] == tones[..j];
  }

  /** One more color: its assignments follow those of the colors before it. */
  lemma PaletteWritesStep(lookup: map<string, Record>, entities: seq<(string, Record)>, config: PaletteConfig, i: nat, ws: seq<Write>, ews: seq<Write>)
    requires i < |entities|
    requires PaletteWrites(lookup, entities[..i], config) == Success(ws)
    requires EntityWrites(lookup, entities[i], config) == Success(ews)
    ensures PaletteWrites(lookup, entities[..i + 1], config) == Success(ws + ews)
  {
    assert entities[..i + 1][..i] == entities[..i];
  }

  /** A tone without a subtone group ends the tone loop with a failure. */
  lemma {:induction false} ToneFailurePersists(color: string, tones: seq<(string, Tone)>, data: Record, j: nat)
    requires j < |tones| && tones[j].1.Base?
    requires ToneWrites(color, tones[..j], data).Success?
    ensures ToneWrites(color, tones, data) == Failure(MissingSubtone(tones[j].0))
    decreases |tones|
  {
    if j < |tones| - 1 {
      var init := tones[..|tones| - 1];
      assert init[..j] == tones[..j];
      ToneFailurePersists(color, init, data, j);
    } else {
      assert tones[..j] == tones[..|tones| - 1];
    }
  }

  /** A failure for one color ends the whole build with that failure. */
  lemma {:induction false} PaletteFailurePersists(lookup: map<string, Record>, entities: seq<(string, Record)>, config: PaletteConfig, i: nat, e: Error)
    requires i < |entities|
    requires PaletteWrites(lookup, entities[..i], config).Success?
    requires EntityWrites(lookup, entities[i], config) == Failure(e)
    ensures PaletteWrites(lookup, entities, config) == Failure(e)
    decreases |entities|
  {
    if i < |entities| - 1 {
      var init := entities[..|entities| - 1];
      assert init[..i] == entities[..i];
      PaletteFailurePersists(lookup, init, config, i, e);
    } else {
      assert entities[..i] == entities[..|entities| - 1];
    }
  }

  /** The object `m` after a list of assignments, or the failure that prevented them. */
  function Perform(m: Output, writes: Result<seq<Write>, Error>): Result<Output, Error>
  {
    match writes
    case Failure(e) => Failure(e)
    case Success(ws) => Success(Overlay(m, ws))
  }

  /**
   * The innermost loop of `createPalette`: the entries of one tone's
   * subtones, assigned on top of `result`.
   */
  method FillSubtones(result: Output, color: string, groupName: string, subs: seq<(string, Modifier)>, data: Record)
    returns (r: Output)
    ensures r == Overlay(result, SubtoneWrites(color, groupName, subs, data))
  {
    r := result;
    for k := 0 to |subs|
      invariant r == Overlay(result, SubtoneWrites(color, groupName, subs[..k], data))
    {
      var (sub, subCallback) := subs[k];
      SubtoneOverlayStep(result, color, groupName, subs, data, k);
      r := r[SubtoneKey(color, sub, groupName) := subCallback(data)];
    }
    assert subs[..|subs|] == subs;
  }

  /**
   * The tone loop of `createPalette` for one color: each tone's entry and
   * then its subtones' entries, assigned on top of `result`; a tone without
   * a subtone group aborts it.
   */
  method FillTones(result: Output, color: string, tones: seq<(string, Tone)>, data: Record)
    returns (r: Result<Output, Error>)
    ensures r == Perform(result, ToneWrites(color, tones, data))
  {
    var current := result;
    ghost var done: seq<Write> := [];
    for j := 0 to |tones|
      invariant ToneWrites(color, tones[..j], data) == Success(done)
      invariant current == Overlay(result, done)
    {
      var (toneKey, toneCallback) := tones[j];
      if toneCallback.Base? {
        ToneFailurePersists(color, tones, data, j);
        return Failure(MissingSubtone(toneKey));
      }
      var subtoneName := toneCallback.subtone.name;
      var subs := toneCallback.subtone.subtones;
      ghost var w := (ToneKey(color, subtoneName), Call(toneCallback, data));
      ghost var next := done + [w] + SubtoneWrites(color, subtoneName, subs, data);
      assert ToneWrites(color, tones[..j + 1], data) == Success(next) by {
        ToneWritesStep(color, tones, data, j, done);
      }
      current := current[ToneKey(color, subtoneName) := Call(toneCallback, data)];
      current := FillSubtones(current, color, subtoneName, subs, data);
      assert current == Overlay(result, next) by {
        OverlaySnocAppend(result, done, w, SubtoneWrites(color, subtoneName, subs, data));
      }
      done := next;
    }
    assert tones[..|tones|] == tones;
    r := Success(current);
  }

  /**
   * `createPalette`: the loop over the colors; for each, the base entry and
   * then the tone loop, all filling one result object. It returns exactly
   * `Palette`.
   */
  method CreatePalette(lookup: map<string, Record>, inputModel: seq<(string, Record)>, config: PaletteConfig)
    returns (r: Result<Output, Error>)
    ensures r == Palette(lookup, inputModel, config)
  {
    var result: Output := map[];
    ghost var done: seq<Write> := [];  // every assignment made so far
    for i := 0 to |inputModel|
      invariant PaletteWrites(lookup, inputModel[..i], config) == Success(done)
      invariant result == Overlay(map[], done)
    {
      var (color, raw) := inputModel[i];
      if color !in lookup {
        PaletteFailurePersists(lookup, inputModel, config, i, UndefinedInput(color));
        return Failure(UndefinedInput(color));
      }
      var data := lookup[color];
      ghost var w := (color, raw + Call(config.base, data));
      OverlaySnoc(map[], done, w);
      result := result[color := raw + Call(config.base, data)];
      var filled := FillTones(result, color, config.tones, data);
      if filled.Failure? {
        PaletteFailurePersists(lookup, inputModel, config, i, filled.error);
        return Failure(filled.error);
      }
      ghost var tws := ToneWrites(color, config.tones, data).value;
      EntityWritesOf(lookup, color, raw, config, tws);
      PaletteWritesStep(lookup, inputModel, config, i, done, [w] + tws);
      OverlayAppend(map[], done + [w], tws);
      ConcatAssoc3(done, [w], tws);
      result := filled.value;
      done := done + ([w] + tws);
    }
    assert inputModel[..|inputModel|] == inputModel;
    r := Success(result);
  }
}
