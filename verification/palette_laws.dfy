/**
 * What `createPalette` guarantees: when it succeeds, which keys the result
 * holds, what each entry holds, how many entries there are, and which write
 * wins when two of them share a key; and the corrected builder that applies
 * the modifiers to the `inputModel` argument itself.
 */
module PaletteLaws {
  import opened Wrappers
  import opened Tones
  import opened Writes
  import opened PaletteBuilder

  /** Every tone of the configuration carries a subtone group. */
  ghost predicate AllToned(tones: seq<(string, Tone)>)
  {
    forall j :: 0 <= j < |tones| ==> tones[j].1.Toned?
  }

  /** Every color of the input model has an entry in the color table. */
  ghost predicate AllDefined(lookup: map<string, Record>, entities: seq<(string, Record)>)
  {
    forall i :: 0 <= i < |entities| ==> entities[i].0 in lookup
  }

  lemma {:induction false} ToneWritesSucceeds(color: string, tones: seq<(string, Tone)>, data: Record)
    ensures ToneWrites(color, tones, data).Success? <==> AllToned(tones)
    decreases |tones|
  {
    if tones != [] {
      var init := tones[..|tones| - 1];
      ToneWritesSucceeds(color, init, data);
      assert AllToned(tones) <==> AllToned(init) && tones[|tones| - 1].1.Toned? by {
        if AllToned(init) && tones[|tones| - 1].1.Toned? {
          forall j | 0 <= j < |tones| ensures tones[j].1.Toned? {
            if j < |tones| - 1 { assert tones[j] == init[j]; }
          }
        }
        if AllToned(tones) {
          forall j | 0 <= j < |init| ensures init[j].1.Toned? {
            assert tones[j] == init[j];
          }
        }
      }
    }
  }

  lemma {:induction false} PaletteWritesSucceeds(lookup: map<string, Record>, entities: seq<(string, Record)>, config: PaletteConfig)
    ensures PaletteWrites(lookup, entities, config).Success?
        <==> entities == [] || (AllDefined(lookup, entities) && AllToned(config.tones))
    decreases |entities|
  {
    if entities != [] {
      var init := entities[..|entities| - 1];
      var last := entities[|entities| - 1];
      PaletteWritesSucceeds(lookup, init, config);
      ToneWritesSucceeds(last.0, config.tones, if last.0 in lookup then lookup[last.0] else map[]);
      assert AllDefined(lookup, entities) <==> AllDefined(lookup, init) && last.0 in lookup by {
        if AllDefined(lookup, init) && last.0 in lookup {
          forall i | 0 <= i < |entities| ensures entities[i].0 in lookup {
            if i < |entities| - 1 { assert entities[i] == init[i]; }
          }
        }
        if AllDefined(lookup, entities) {
          forall i | 0 <= i < |init| ensures init[i].0 in lookup {
            assert entities[i] == init[i];
          }
        }
      }
    }
  }

  /**
   * `createPalette` fails exactly when there is at least one color and either
   * some color is missing from the color table or some tone has no subtone
   * group; with no colors nothing is inspected and the result is empty.
   */
  lemma PaletteSucceeds(lookup: map<string, Record>, entities: seq<(string, Record)>, config: PaletteConfig)
    ensures Palette(lookup, entities, config).Success?
        <==> entities == [] || (AllDefined(lookup, entities) && AllToned(config.tones))
    ensures entities == [] ==> Palette(lookup, entities, config) == Success(map[])
  {
    PaletteWritesSucceeds(lookup, entities, config);
  }

  /** `w` is the assignment made for some subtone of a group. */
  ghost predicate IsSubtoneWrite(color: string, groupName: string, subs: seq<(string, Modifier)>, data: Record, w: Write)
  {
    exists s :: 0 <= s < |subs| && w == (SubtoneKey(color, subs[s].0, groupName), subs[s].1(data))
  }

  /** `w` is the assignment made for some tone, or for one of its subtones. */
  ghost predicate IsToneWrite(color: string, tones: seq<(string, Tone)>, data: Record, w: Write)
  {
    exists j :: 0 <= j < |tones| && tones[j].1.Toned? &&
      (|| w == (ToneKey(color, tones[j].1.subtone.name), Call(tones[j].1, data))
       || IsSubtoneWrite(color, tones[j].1.subtone.name, tones[j].1.subtone.subtones, data, w))
  }

  /** `w` is one of the assignments made for the color `entity`. */
  ghost predicate IsEntityWrite(lookup: map<string, Record>, entity: (string, Record), config: PaletteConfig, w: Write)
  {
    && entity.0 in lookup
    && (|| w == (entity.0, entity.1 + Call(config.base, lookup[entity.0]))
        || IsToneWrite(entity.0, config.tones, lookup[entity.0], w))
  }

  lemma {:induction false} SubtoneWritesMembers(color: string, groupName: string, subs: seq<(string, Modifier)>, data: Record, w: Write)
    ensures w in SubtoneWrites(color, groupName, subs, data) <==> IsSubtoneWrite(color, groupName, subs, data, w)
    decreases |subs|
  {
    if subs != [] {
      var init := subs[..|subs| - 1];
      SubtoneWritesMembers(color, groupName, init, data, w);
      if IsSubtoneWrite(color, groupName, subs, data, w) {
        var s :| 0 <= s < |subs| && w == (SubtoneKey(color, subs[s].0, groupName), subs[s].1(data));
        if s < |subs| - 1 {
          assert init[s] == subs[s];
        }
      }
      if IsSubtoneWrite(color, groupName, init, data, w) {
        var s :| 0 <= s < |init| && w == (SubtoneKey(color, init[s].0, groupName), init[s].1(data));
        assert init[s] == subs[s];
      }
    }
  }

  lemma {:induction false} ToneWritesMembers(color: string, tones: seq<(string, Tone)>, data: Record, ws: seq<Write>, w: Write)
    requires ToneWrites(color, tones, data) == Success(ws)
    ensures w in ws <==> IsToneWrite(color, tones, data, w)
    decreases |tones|
  {
    if tones != [] {
      var init := tones[..|tones| - 1];
      var last := tones[|tones| - 1].1;
      var initWs := ToneWrites(color, init, data).value;
      ToneWritesMembers(color, init, data, initWs, w);
      SubtoneWritesMembers(color, last.subtone.name, last.subtone.subtones, data, w);
      assert ws == initWs + [(ToneKey(color, last.subtone.name), Call(last, data))]
                  + SubtoneWrites(color, last.subtone.name, last.subtone.subtones, data);
      if IsToneWrite(color, tones, data, w) {
        var j :| 0 <= j < |tones| && tones[j].1.Toned? &&
          (|| w == (ToneKey(color, tones[j].1.subtone.name), Call(tones[j].1, data))
           || IsSubtoneWrite(color, tones[j].1.subtone.name, tones[j].1.subtone.subtones, data, w));
        if j < |tones| - 1 {
          assert init[j] == tones[j];
        }
      }
      if IsToneWrite(color, init, data, w) {
        var j :| 0 <= j < |init| && init[j].1.Toned? &&
          (|| w == (ToneKey(color, init[j].1.subtone.name), Call(init[j].1, data))
           || IsSubtoneWrite(color, init[j].1.subtone.name, init[j].1.subtone.subtones, data, w));
        assert init[j] == tones[j];
      }
    }
  }

  lemma EntityWritesMembers(lookup: map<string, Record>, entity: (string, Record), config: PaletteConfig, ws: seq<Write>, w: Write)
    requires EntityWrites(lookup, entity, config) == Success(ws)
    ensures w in ws <==> IsEntityWrite(lookup, entity, config, w)
  {
    var tws := ToneWrites(entity.0, config.tones, lookup[entity.0]).value;
    ToneWritesMembers(entity.0, config.tones, lookup[entity.0], tws, w);
  }

  /**
   * The assignments `createPalette` makes are exactly, for every color, its
   * base entry, one entry per tone and one entry per subtone.
   */
  lemma {:induction false} PaletteWritesMembers(lookup: map<string, Record>, entities: seq<(string, Record)>, config: PaletteConfig, ws: seq<Write>, w: Write)
    requires PaletteWrites(lookup, entities, config) == Success(ws)
    ensures w in ws <==> exists i :: 0 <= i < |entities| && IsEntityWrite(lookup, entities[i], config, w)
    decreases |entities|
  {
    if entities != [] {
      var init := entities[..|entities| - 1];
      var last := entities[|entities| - 1];
      var initWs := PaletteWrites(lookup, init, config).value;
      var lastWs := EntityWrites(lookup, last, config).value;
      assert ws == initWs + lastWs;
      PaletteWritesMembers(lookup, init, config, initWs, w);
      EntityWritesMembers(lookup, last, config, lastWs, w);
      if i :| 0 <= i < |entities| && IsEntityWrite(lookup, entities[i], config, w) {
        if i < |entities| - 1 {
          assert init[i] == entities[i];
        }
      }
      if i :| 0 <= i < |init| && IsEntityWrite(lookup, init[i], config, w) {
        assert init[i] == entities[i];
      }
    }
  }

  /** `k` is one of the three key forms for the color `color`. */
  ghost predicate IsKeyOf(color: string, tones: seq<(string, Tone)>, k: string)
  {
    || k == color
    || exists j :: 0 <= j < |tones| && tones[j].1.Toned? &&
         (|| k == ToneKey(color, tones[j].1.subtone.name)
          || exists s :: 0 <= s < |tones[j].1.subtone.subtones| &&
               k == SubtoneKey(color, tones[j].1.subtone.subtones[s].0, tones[j].1.subtone.name))
  }

  lemma EntityWriteKey(lookup: map<string, Record>, entity: (string, Record), config: PaletteConfig, w: Write)
    requires IsEntityWrite(lookup, entity, config, w)
    ensures IsKeyOf(entity.0, config.tones, w.0)
  {
    var data := lookup[entity.0];
    if IsToneWrite(entity.0, config.tones, data, w) {
      var j :| 0 <= j < |config.tones| && config.tones[j].1.Toned? &&
        (|| w == (ToneKey(entity.0, config.tones[j].1.subtone.name), Call(config.tones[j].1, data))
         || IsSubtoneWrite(entity.0, config.tones[j].1.subtone.name, config.tones[j].1.subtone.subtones, data, w));
      var group := config.tones[j].1.subtone;
      if IsSubtoneWrite(entity.0, group.name, group.subtones, data, w) {
        var s :| 0 <= s < |group.subtones| && w == (SubtoneKey(entity.0, group.subtones[s].0, group.name), group.subtones[s].1(data));
      }
    }
  }

  lemma KeyEntityWrite(lookup: map<string, Record>, entity: (string, Record), config: PaletteConfig, k: string) returns (w: Write)
    requires entity.0 in lookup
    requires IsKeyOf(entity.0, config.tones, k)
    ensures w.0 == k && IsEntityWrite(lookup, entity, config, w)
  {
    var color := entity.0;
    var data := lookup[color];
    if k == color {
      w := (color, entity.1 + Call(config.base, data));
    } else {
      var j :| 0 <= j < |config.tones| && config.tones[j].1.Toned? &&
        (|| k == ToneKey(color, config.tones[j].1.subtone.name)
         || exists s :: 0 <= s < |config.tones[j].1.subtone.subtones| &&
              k == SubtoneKey(color, config.tones[j].1.subtone.subtones[s].0, config.tones[j].1.subtone.name));
      var group := config.tones[j].1.subtone;
      if k == ToneKey(color, group.name) {
        w := (k, Call(config.tones[j].1, data));
      } else {
        var s :| 0 <= s < |group.subtones| && k == SubtoneKey(color, group.subtones[s].0, group.name);
        w := (k, group.subtones[s].1(data));
        assert IsSubtoneWrite(color, group.name, group.subtones, data, w);
      }
    }
  }

  /**
   * The result of a successful `createPalette` holds exactly the keys
   * `color`, `color_<group>` and `color_<sub>_<group>` of its colors, tones
   * and subtones, and no other key.
   */
  lemma PaletteKeys(lookup: map<string, Record>, entities: seq<(string, Record)>, config: PaletteConfig, out: Output, k: string)
    requires Palette(lookup, entities, config) == Success(out)
    ensures k in out <==> exists i :: 0 <= i < |entities| && IsKeyOf(entities[i].0, config.tones, k)
  {
    var ws := PaletteWrites(lookup, entities, config).value;
    assert out.Keys == KeysOf(ws);
    if k in out {
      var p :| 0 <= p < |ws| && ws[p].0 == k;
      PaletteWritesMembers(lookup, entities, config, ws, ws[p]);
      var i :| 0 <= i < |entities| && IsEntityWrite(lookup, entities[i], config, ws[p]);
      EntityWriteKey(lookup, entities[i], config, ws[p]);
    }
    if i :| 0 <= i < |entities| && IsKeyOf(entities[i].0, config.tones, k) {
      PaletteSucceeds(lookup, entities, config);
      var w := KeyEntityWrite(lookup, entities[i], config, k);
      PaletteWritesMembers(lookup, entities, config, ws, w);
      var p :| 0 <= p < |ws| && ws[p] == w;
    }
  }

  /** No two assignments of the build write the same key: no name collides. */
  ghost predicate CollisionFree(lookup: map<string, Record>, entities: seq<(string, Record)>, config: PaletteConfig)
  {
    PaletteWrites(lookup, entities, config).Success? && DistinctKeys(PaletteWrites(lookup, entities, config).value)
  }

  /**
   * Key-count law: the result has at most one entry per color and per tone
   * and subtone of each color, and exactly that many when no name collides.
   */
  lemma PaletteSize(lookup: map<string, Record>, entities: seq<(string, Record)>, config: PaletteConfig, out: Output)
    requires Palette(lookup, entities, config) == Success(out)
    ensures |out| <= |entities| * Width(config)
    ensures CollisionFree(lookup, entities, config) ==> |out| == |entities| * Width(config)
  {
    var ws := PaletteWrites(lookup, entities, config).value;
    assert out == Overlay(map[], ws);
    OverlayBound(map[], ws);
    if CollisionFree(lookup, entities, config) {
      OverlaySize(map[], ws);
    }
  }

  /** `inputModel` as an object: each color name with its data. */
  function ModelTable(entities: seq<(string, Record)>): map<string, Record>
  {
    Overlay(map[], entities)
  }

  /** The color names of the input model are distinct, as an object's keys are. */
  ghost predicate DistinctNames(entities: seq<(string, Record)>)
  {
    forall p, q :: 0 <= p < q < |entities| ==> entities[p].0 != entities[q].0
  }

  /** `createPalette` as evidently intended: the modifiers read `inputModel[color]`. */
  function IntendedPalette(entities: seq<(string, Record)>, config: PaletteConfig): Result<Output, Error>
  {
    Palette(ModelTable(entities), entities, config)
  }

  /** The intended builder never meets an undefined color. */
  lemma IntendedSucceeds(entities: seq<(string, Record)>, config: PaletteConfig)
    ensures IntendedPalette(entities, config).Success? <==> entities == [] || AllToned(config.tones)
  {
    PaletteSucceeds(ModelTable(entities), entities, config);
    assert ModelTable(entities).Keys == KeysOf(entities);
    forall i | 0 <= i < |entities| ensures entities[i].0 in ModelTable(entities) {
      assert entities[i].0 in KeysOf(entities);
    }
  }
}
