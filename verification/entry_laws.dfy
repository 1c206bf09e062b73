/**
 * What each entry of the palette holds, with the last write to a key
 * winning.
 *
 * Tones may share a group name, and subtones a subtone name: the later
 * assignment then overwrites the earlier. The laws below hold whenever the
 * names keep the three key forms apart: color names are distinct, and no
 * color, group or subtone name contains the separator `_`. The base entry
 * needs only the first two: every tone and subtone key contains a `_`.
 */
module EntryLaws {
  import opened Wrappers
  import opened Tones
  import opened Writes
  import opened PaletteBuilder
  import opened PaletteLaws
  import opened KeyNames

  /** Names that keep the key forms apart: distinct plain colors, plain group and subtone names. */
  ghost predicate WellNamed(entities: seq<(string, Record)>, config: PaletteConfig)
  {
    PlainColors(entities) && TonesNamed(config.tones)
  }

  /** Color names are distinct and none contains the separator. */
  ghost predicate PlainColors(entities: seq<(string, Record)>)
  {
    && DistinctNames(entities)
    && (forall i :: 0 <= i < |entities| ==> '_' !in entities[i].0)
  }

  /** No group name and no subtone name contains the separator. */
  ghost predicate TonesNamed(tones: seq<(string, Tone)>)
  {
    && (forall j :: 0 <= j < |tones| && tones[j].1.Toned? ==> '_' !in tones[j].1.subtone.name)
    && (forall j, s :: 0 <= j < |tones| && tones[j].1.Toned? && 0 <= s < |tones[j].1.subtone.subtones| ==>
          '_' !in tones[j].1.subtone.subtones[s].0)
  }

  /** `tones[j]` carries a group, and no later tone carries a group of the same name. */
  ghost predicate LastOfGroup(tones: seq<(string, Tone)>, j: int)
  {
    && 0 <= j < |tones| && tones[j].1.Toned?
    && forall t :: j < t < |tones| && tones[t].1.Toned? ==>
         tones[t].1.subtone.name != tones[j].1.subtone.name
  }

  /**
   * Subtone `s` of `tones[j]` is the last one written under its key: no later
   * subtone of the same group has its name, and no later tone's group has
   * both its group name and a subtone of its name.
   */
  ghost predicate LastOfSubtone(tones: seq<(string, Tone)>, j: int, s: int)
  {
    && 0 <= j < |tones| && tones[j].1.Toned?
    && 0 <= s < |tones[j].1.subtone.subtones|
    && var group := tones[j].1.subtone;
       && (forall u :: s < u < |group.subtones| ==> group.subtones[u].0 != group.subtones[s].0)
       && (forall t, u :: j < t < |tones| && tones[t].1.Toned? && 0 <= u < |tones[t].1.subtone.subtones| ==>
             tones[t].1.subtone.name != group.name || tones[t].1.subtone.subtones[u].0 != group.subtones[s].0)
  }

  /** `x` is the assignment for subtone `t` of a group. */
  ghost predicate SubtoneWriteAt(color: string, groupName: string, subs: seq<(string, Modifier)>, data: Record, t: int, x: Write)
  {
    0 <= t < |subs| && x == (SubtoneKey(color, subs[t].0, groupName), subs[t].1(data))
  }

  /** `x` is the assignment for tone `t`, or for one of its subtones. */
  ghost predicate ToneWriteAt(color: string, tones: seq<(string, Tone)>, data: Record, t: int, x: Write)
  {
    && 0 <= t < |tones| && tones[t].1.Toned?
    && (|| x == (ToneKey(color, tones[t].1.subtone.name), Call(tones[t].1, data))
        || IsSubtoneWrite(color, tones[t].1.subtone.name, tones[t].1.subtone.subtones, data, x))
  }

  /** The subtone assignments around subtone `s`: those before it and those after it. */
  lemma {:induction false} SubtoneWritesAround(color: string, groupName: string, subs: seq<(string, Modifier)>, data: Record, s: nat)
    returns (pre: seq<Write>, post: seq<Write>)
    requires s < |subs|
    ensures SubtoneWrites(color, groupName, subs, data)
         == pre + [(SubtoneKey(color, subs[s].0, groupName), subs[s].1(data))] + post
    ensures forall x :: x in post ==> exists t :: s < t && SubtoneWriteAt(color, groupName, subs, data, t, x)
    decreases |subs|
  {
    var init := subs[..|subs| - 1];
    var lastWrite := (SubtoneKey(color, subs[|subs| - 1].0, groupName), subs[|subs| - 1].1(data));
    var initWs := SubtoneWrites(color, groupName, init, data);
    assert SubtoneWrites(color, groupName, subs, data) == initWs + [lastWrite];
    if s == |subs| - 1 {
      pre, post := initWs, [];
    } else {
      var pre0, post0 := SubtoneWritesAround(color, groupName, init, data, s);
      assert init[s] == subs[s];
      pre, post := pre0, post0 + [lastWrite];
      forall x | x in post ensures exists t :: s < t && SubtoneWriteAt(color, groupName, subs, data, t, x) {
        if x in post0 {
          var t :| s < t && SubtoneWriteAt(color, groupName, init, data, t, x);
          assert init[t] == subs[t];
          assert SubtoneWriteAt(color, groupName, subs, data, t, x);
        } else {
          assert SubtoneWriteAt(color, groupName, subs, data, |subs| - 1, x);
        }
      }
    }
  }

  /** The tone loop's assignments around tone `j`: before it, its own, and after it. */
  lemma {:induction false} ToneWritesAround(color: string, tones: seq<(string, Tone)>, data: Record, j: nat)
    returns (pre: seq<Write>, post: seq<Write>)
    requires ToneWrites(color, tones, data).Success?
    requires j < |tones|
    ensures tones[j].1.Toned?
    ensures var group := tones[j].1.subtone;
      ToneWrites(color, tones, data).value
      == pre + [(ToneKey(color, group.name), Call(tones[j].1, data))]
         + SubtoneWrites(color, group.name, group.subtones, data) + post
    ensures forall x :: x in post ==> exists t :: j < t && ToneWriteAt(color, tones, data, t, x)
    decreases |tones|
  {
    var init := tones[..|tones| - 1];
    var last := tones[|tones| - 1].1;
    var initWs := ToneWrites(color, init, data).value;
    var lastWs := [(ToneKey(color, last.subtone.name), Call(last, data))]
                  + SubtoneWrites(color, last.subtone.name, last.subtone.subtones, data);
    assert ToneWrites(color, tones, data).value == initWs + lastWs;
    if j == |tones| - 1 {
      pre, post := initWs, [];
    } else {
      var pre0, post0 := ToneWritesAround(color, init, data, j);
      assert init[j] == tones[j];
      pre, post := pre0, post0 + lastWs;
      forall x | x in post ensures exists t :: j < t && ToneWriteAt(color, tones, data, t, x) {
        if x in post0 {
          var t :| j < t && ToneWriteAt(color, init, data, t, x);
          assert init[t] == tones[t];
          assert ToneWriteAt(color, tones, data, t, x);
        } else {
          SubtoneWritesMembers(color, last.subtone.name, last.subtone.subtones, data, x);
          assert ToneWriteAt(color, tones, data, |tones| - 1, x);
        }
      }
    }
  }

  /** The build's assignments around color `i`: before it, its own, and after it. */
  lemma {:induction false} PaletteWritesAround(lookup: map<string, Record>, entities: seq<(string, Record)>, config: PaletteConfig, i: nat)
    returns (pre: seq<Write>, ews: seq<Write>, post: seq<Write>)
    requires PaletteWrites(lookup, entities, config).Success?
    requires i < |entities|
    ensures EntityWrites(lookup, entities[i], config) == Success(ews)
    ensures PaletteWrites(lookup, entities, config).value == pre + ews + post
    ensures forall x :: x in post ==> exists t :: i < t < |entities| && IsEntityWrite(lookup, entities[t], config, x)
    decreases |entities|
  {
    var init := entities[..|entities| - 1];
    var initWs := PaletteWrites(lookup, init, config).value;
    var lastWs := EntityWrites(lookup, entities[|entities| - 1], config).value;
    assert PaletteWrites(lookup, entities, config).value == initWs + lastWs;
    if i == |entities| - 1 {
      pre, ews, post := initWs, lastWs, [];
    } else {
      var pre0, ews0, post0 := PaletteWritesAround(lookup, init, config, i);
      assert init[i] == entities[i];
      pre, ews, post := pre0, ews0, post0 + lastWs;
      forall x | x in post ensures exists t :: i < t < |entities| && IsEntityWrite(lookup, entities[t], config, x) {
        if x in post0 {
          var t :| i < t < |init| && IsEntityWrite(lookup, init[t], config, x);
          assert init[t] == entities[t];
        } else {
          EntityWritesMembers(lookup, entities[|entities| - 1], config, lastWs, x);
        }
      }
    }
  }

  /** One assignment `w` inside a block of assignments that follows `x`. */
  lemma Prepend<T>(x: seq<T>, mid: seq<T>, a: seq<T>, w: T, b: seq<T>)
    requires mid == a + [w] + b
    ensures x + mid == (x + a) + [w] + b
  {
  }

  /** One assignment `w` inside a block of assignments with others before and after it. */
  lemma SplitAround<T>(pre: seq<T>, mid: seq<T>, post: seq<T>, a: seq<T>, w: T, b: seq<T>)
    requires mid == a + [w] + b
    ensures pre + mid + post == (pre + a) + [w] + (b + post)
  {
  }

  /** A key the tone loop writes for `color` is longer than `color`, so never equal to it. */
  lemma ToneWriteLonger(color: string, tones: seq<(string, Tone)>, data: Record, x: Write)
    requires IsToneWrite(color, tones, data, x)
    ensures |x.0| > |color|
  {
    var j :| 0 <= j < |tones| && tones[j].1.Toned? &&
      (|| x == (ToneKey(color, tones[j].1.subtone.name), Call(tones[j].1, data))
       || IsSubtoneWrite(color, tones[j].1.subtone.name, tones[j].1.subtone.subtones, data, x));
  }

  /** A subtone key of a group is longer than the group's own tone key. */
  lemma SubtoneWriteLonger(color: string, groupName: string, subs: seq<(string, Modifier)>, data: Record, x: Write)
    requires x in SubtoneWrites(color, groupName, subs, data)
    ensures |x.0| > |ToneKey(color, groupName)|
  {
    SubtoneWritesMembers(color, groupName, subs, data, x);
  }

  /** Every key written for a color with a plain name begins with that name. */
  lemma EntityWriteHead(lookup: map<string, Record>, entity: (string, Record), config: PaletteConfig, x: Write)
    requires IsEntityWrite(lookup, entity, config, x)
    requires '_' !in entity.0
    ensures Head(x.0) == entity.0
  {
    var color := entity.0;
    EntityWriteKey(lookup, entity, config, x);
    if x.0 == color {
      PlainKey(color);
    } else {
      var j :| 0 <= j < |config.tones| && config.tones[j].1.Toned? &&
        (|| x.0 == ToneKey(color, config.tones[j].1.subtone.name)
         || exists s :: 0 <= s < |config.tones[j].1.subtone.subtones| &&
              x.0 == SubtoneKey(color, config.tones[j].1.subtone.subtones[s].0, config.tones[j].1.subtone.name));
      var group := config.tones[j].1.subtone;
      if x.0 == ToneKey(color, group.name) {
        ToneKeyParts(color, group.name);
      } else {
        var s :| 0 <= s < |group.subtones| && x.0 == SubtoneKey(color, group.subtones[s].0, group.name);
        SubtoneKeyHead(color, group.subtones[s].0, group.name);
      }
    }
  }

  /** A key written for a later color is never a key of color `i`, given distinct plain colors. */
  lemma LaterColorKey(lookup: map<string, Record>, entities: seq<(string, Record)>, config: PaletteConfig, i: nat, x: Write, k: string)
    requires PlainColors(entities)
    requires i < |entities|
    requires exists t :: i < t < |entities| && IsEntityWrite(lookup, entities[t], config, x)
    requires Head(k) == entities[i].0
    ensures x.0 != k
  {
    var t :| i < t < |entities| && IsEntityWrite(lookup, entities[t], config, x);
    EntityWriteHead(lookup, entities[t], config, x);
  }

  /** A later tone's keys never repeat the tone key of the last tone of a group name. */
  lemma LaterToneKey(color: string, tones: seq<(string, Tone)>, data: Record, j: nat, t: nat, x: Write)
    requires '_' !in color && TonesNamed(tones)
    requires LastOfGroup(tones, j)
    requires j < t && ToneWriteAt(color, tones, data, t, x)
    ensures x.0 != ToneKey(color, tones[j].1.subtone.name)
  {
    var group := tones[j].1.subtone;
    var other := tones[t].1.subtone;
    if x == (ToneKey(color, other.name), Call(tones[t].1, data)) {
      ToneKeysDiffer(color, other.name, color, group.name);
    } else {
      var u :| 0 <= u < |other.subtones| && x == (SubtoneKey(color, other.subtones[u].0, other.name), other.subtones[u].1(data));
      SubtoneKeyParts(color, other.subtones[u].0, other.name);
      ToneKeyParts(color, group.name);
      PlainKey(group.name);
    }
  }

  /** A later subtone of the same group never repeats the key of the last subtone of its name. */
  lemma LaterSiblingKey(color: string, tones: seq<(string, Tone)>, data: Record, j: nat, s: nat, u: nat, x: Write)
    requires '_' !in color && TonesNamed(tones)
    requires LastOfSubtone(tones, j, s)
    requires s < u && SubtoneWriteAt(color, tones[j].1.subtone.name, tones[j].1.subtone.subtones, data, u, x)
    ensures x.0 != SubtoneKey(color, tones[j].1.subtone.subtones[s].0, tones[j].1.subtone.name)
  {
    var group := tones[j].1.subtone;
    SubtoneKeysDiffer(color, group.subtones[u].0, group.name, color, group.subtones[s].0, group.name);
  }

  /** A later tone's keys never repeat the key of the last subtone written under it. */
  lemma LaterSubtoneKey(color: string, tones: seq<(string, Tone)>, data: Record, j: nat, s: nat, t: nat, x: Write)
    requires '_' !in color && TonesNamed(tones)
    requires LastOfSubtone(tones, j, s)
    requires j < t && ToneWriteAt(color, tones, data, t, x)
    ensures x.0 != SubtoneKey(color, tones[j].1.subtone.subtones[s].0, tones[j].1.subtone.name)
  {
    var group := tones[j].1.subtone;
    var other := tones[t].1.subtone;
    if x == (ToneKey(color, other.name), Call(tones[t].1, data)) {
      ToneKeyParts(color, other.name);
      PlainKey(other.name);
      SubtoneKeyParts(color, group.subtones[s].0, group.name);
    } else {
      var u :| 0 <= u < |other.subtones| && x == (SubtoneKey(color, other.subtones[u].0, other.name), other.subtones[u].1(data));
      SubtoneKeysDiffer(color, other.subtones[u].0, other.name, color, group.subtones[s].0, group.name);
    }
  }

  /** No assignment after a color's base entry writes the color's key again. */
  lemma BaseKeyNotRewritten(lookup: map<string, Record>, entities: seq<(string, Record)>, config: PaletteConfig, i: nat,
                            tws: seq<Write>, post: seq<Write>)
    requires PlainColors(entities)
    requires i < |entities| && entities[i].0 in lookup
    requires ToneWrites(entities[i].0, config.tones, lookup[entities[i].0]) == Success(tws)
    requires forall x :: x in post ==> exists t :: i < t < |entities| && IsEntityWrite(lookup, entities[t], config, x)
    ensures forall x :: x in tws + post ==> x.0 != entities[i].0
  {
    var color := entities[i].0;
    PlainKey(color);
    forall x: Write | x in tws + post ensures x.0 != color {
      if x in tws {
        ToneWritesMembers(color, config.tones, lookup[color], tws, x);
        ToneWriteLonger(color, config.tones, lookup[color], x);
      } else {
        LaterColorKey(lookup, entities, config, i, x, color);
      }
    }
  }

  /**
   * The base entry: with distinct plain color names, the entry under each
   * color is its raw data overlaid with the base record of its table entry,
   * whatever the tones' names.
   */
  lemma BaseEntry(lookup: map<string, Record>, entities: seq<(string, Record)>, config: PaletteConfig, out: Output, i: nat)
    requires Palette(lookup, entities, config) == Success(out)
    requires PlainColors(entities)
    requires i < |entities|
    ensures var (color, raw) := entities[i];
      color in lookup && color in out && out[color] == raw + Call(config.base, lookup[color])
  {
    var (color, raw) := entities[i];
    var pre, ews, post := PaletteWritesAround(lookup, entities, config, i);
    var data := lookup[color];
    var tws := ToneWrites(color, config.tones, data).value;
    var w := (color, raw + Call(config.base, data));
    EntityWritesOf(lookup, color, raw, config, tws);
    SplitAround(pre, ews, post, [], w, tws);
    BaseKeyNotRewritten(lookup, entities, config, i, tws, post);
    OverlayFinalWrite(map[], pre + [], w, tws + post);
  }

  /**
   * Last write wins for tone entries, for every color: when `tones[j]` is the
   * last tone whose group is named `g`, the entry `color_<g>` holds that
   * tone's record of the color's table entry; earlier tones of the same
   * group name are overwritten.
   */
  lemma LaterToneWins(lookup: map<string, Record>, entities: seq<(string, Record)>, config: PaletteConfig, out: Output, i: nat, j: nat)
    requires Palette(lookup, entities, config) == Success(out)
    requires WellNamed(entities, config)
    requires i < |entities|
    requires LastOfGroup(config.tones, j)
    ensures var color := entities[i].0;
      var key := ToneKey(color, config.tones[j].1.subtone.name);
      color in lookup && key in out && out[key] == Call(config.tones[j].1, lookup[color])
  {
    var color := entities[i].0;
    var pre, ews, post := PaletteWritesAround(lookup, entities, config, i);
    var data := lookup[color];
    var tones := config.tones;
    var tpre, tpost := ToneWritesAround(color, tones, data, j);
    var group := tones[j].1.subtone;
    var sws := SubtoneWrites(color, group.name, group.subtones, data);
    var w := (ToneKey(color, group.name), Call(tones[j].1, data));
    var bw := (color, entities[i].1 + Call(config.base, data));
    var tws := ToneWrites(color, tones, data).value;
    ConcatAssoc3(tpre + [w], sws, tpost);
    EntityWritesOf(lookup, color, entities[i].1, config, tws);
    Prepend([bw], tws, tpre, w, sws + tpost);
    SplitAround(pre, ews, post, [bw] + tpre, w, sws + tpost);
    ToneKeyParts(color, group.name);
    forall x: Write | x in (sws + tpost) + post ensures x.0 != w.0 {
      if x in sws {
        SubtoneWriteLonger(color, group.name, group.subtones, data, x);
      } else if x in tpost {
        var t :| j < t && ToneWriteAt(color, tones, data, t, x);
        LaterToneKey(color, tones, data, j, t, x);
      } else {
        LaterColorKey(lookup, entities, config, i, x, w.0);
      }
    }
    OverlayFinalWrite(map[], pre + ([bw] + tpre), w, (sws + tpost) + post);
  }

  /**
   * Two tones with the same group name `g`, the documented overwrite case:
   * the base entry is unaffected and `color_g` holds the second tone's record.
   */
  lemma SharedGroupName(lookup: map<string, Record>, color: string, raw: Record, base: Tone, m1: Modifier, m2: Modifier)
    requires color in lookup && '_' !in color
    ensures var r := Palette(lookup, [(color, raw)],
                             PaletteConfig(base, [("a", Toned(m1, SubtoneGroup("g", []))), ("b", Toned(m2, SubtoneGroup("g", [])))]));
      && r.Success?
      && color in r.value && r.value[color] == raw + Call(base, lookup[color])
      && ToneKey(color, "g") in r.value && r.value[ToneKey(color, "g")] == m2(lookup[color])
  {
    var entities := [(color, raw)];
    var config := PaletteConfig(base, [("a", Toned(m1, SubtoneGroup("g", []))), ("b", Toned(m2, SubtoneGroup("g", [])))]);
    PaletteSucceeds(lookup, entities, config);
    var out := Palette(lookup, entities, config).value;
    assert LastOfGroup(config.tones, 1);
    BaseEntry(lookup, entities, config, out, 0);
    LaterToneWins(lookup, entities, config, out, 0, 1);
  }

  /**
   * Last write wins for subtone entries, for every color: when subtone `s`
   * of `tones[j]` is the last one written under its key, the entry
   * `color_<sub>_<group>` holds that subtone's record of the color's table
   * entry.
   */
  lemma LaterSubtoneWins(lookup: map<string, Record>, entities: seq<(string, Record)>, config: PaletteConfig, out: Output, i: nat, j: nat, s: nat)
    requires Palette(lookup, entities, config) == Success(out)
    requires WellNamed(entities, config)
    requires i < |entities|
    requires LastOfSubtone(config.tones, j, s)
    ensures var color := entities[i].0;
      var group := config.tones[j].1.subtone;
      var key := SubtoneKey(color, group.subtones[s].0, group.name);
      color in lookup && key in out && out[key] == group.subtones[s].1(lookup[color])
  {
    var color := entities[i].0;
    var pre, ews, post := PaletteWritesAround(lookup, entities, config, i);
    var data := lookup[color];
    var tones := config.tones;
    var tpre, tpost := ToneWritesAround(color, tones, data, j);
    var group := tones[j].1.subtone;
    var sub := group.subtones[s].0;
    var spre, spost := SubtoneWritesAround(color, group.name, group.subtones, data, s);
    var w := (SubtoneKey(color, sub, group.name), group.subtones[s].1(data));
    var tw := (ToneKey(color, group.name), Call(tones[j].1, data));
    var bw := (color, entities[i].1 + Call(config.base, data));
    var tws := ToneWrites(color, tones, data).value;
    var sws := SubtoneWrites(color, group.name, group.subtones, data);
    // tws == (tpre + [tw]) + sws + tpost, with sws == spre + [w] + spost
    SplitAround(tpre + [tw], sws, tpost, spre, w, spost);
    EntityWritesOf(lookup, color, entities[i].1, config, tws);
    Prepend([bw], tws, tpre + [tw] + spre, w, spost + tpost);
    SplitAround(pre, ews, post, [bw] + (tpre + [tw] + spre), w, spost + tpost);
    SubtoneKeyParts(color, sub, group.name);
    forall x: Write | x in (spost + tpost) + post ensures x.0 != w.0 {
      if x in spost {
        var u :| s < u && SubtoneWriteAt(color, group.name, group.subtones, data, u, x);
        LaterSiblingKey(color, tones, data, j, s, u, x);
      } else if x in tpost {
        var t :| j < t && ToneWriteAt(color, tones, data, t, x);
        LaterSubtoneKey(color, tones, data, j, s, t, x);
      } else {
        LaterColorKey(lookup, entities, config, i, x, w.0);
      }
    }
    OverlayFinalWrite(map[], pre + ([bw] + (tpre + [tw] + spre)), w, (spost + tpost) + post);
  }

  /**
   * Every entry of a color, with names that keep the key forms apart: the
   * base entry, the entry of each tone that is the last of its group name,
   * and the entry of each subtone that is the last written under its key.
   */
  lemma PaletteEntries(lookup: map<string, Record>, entities: seq<(string, Record)>, config: PaletteConfig, out: Output, i: nat)
    requires Palette(lookup, entities, config) == Success(out)
    requires WellNamed(entities, config)
    requires i < |entities|
    ensures var (color, raw) := entities[i];
      && color in lookup
      && color in out && out[color] == raw + Call(config.base, lookup[color])
      && (forall j :: LastOfGroup(config.tones, j) ==>
            && ToneKey(color, config.tones[j].1.subtone.name) in out
            && out[ToneKey(color, config.tones[j].1.subtone.name)] == Call(config.tones[j].1, lookup[color]))
      && (forall j, s :: LastOfSubtone(config.tones, j, s) ==>
            var group := config.tones[j].1.subtone;
            && SubtoneKey(color, group.subtones[s].0, group.name) in out
            && out[SubtoneKey(color, group.subtones[s].0, group.name)] == group.subtones[s].1(lookup[color]))
  {
    BaseEntry(lookup, entities, config, out, i);
    forall j | LastOfGroup(config.tones, j)
      ensures && ToneKey(entities[i].0, config.tones[j].1.subtone.name) in out
              && out[ToneKey(entities[i].0, config.tones[j].1.subtone.name)] == Call(config.tones[j].1, lookup[entities[i].0])
    {
      LaterToneWins(lookup, entities, config, out, i, j);
    }
    forall j, s | LastOfSubtone(config.tones, j, s)
      ensures var group := config.tones[j].1.subtone;
              && SubtoneKey(entities[i].0, group.subtones[s].0, group.name) in out
              && out[SubtoneKey(entities[i].0, group.subtones[s].0, group.name)] == group.subtones[s].1(lookup[entities[i].0])
    {
      LaterSubtoneWins(lookup, entities, config, out, i, j, s);
    }
  }

  /**
   * The corrected builder computes every entry from the color's own data in
   * the input model: the raw data overlaid with its base record, and the
   * records of the last tone and subtone written under each key.
   */
  lemma IntendedEntries(entities: seq<(string, Record)>, config: PaletteConfig, out: Output, i: nat)
    requires IntendedPalette(entities, config) == Success(out)
    requires WellNamed(entities, config)
    requires i < |entities|
    ensures var (color, raw) := entities[i];
      && color in out && out[color] == raw + Call(config.base, raw)
      && (forall j :: LastOfGroup(config.tones, j) ==>
            && ToneKey(color, config.tones[j].1.subtone.name) in out
            && out[ToneKey(color, config.tones[j].1.subtone.name)] == Call(config.tones[j].1, raw))
      && (forall j, s :: LastOfSubtone(config.tones, j, s) ==>
            var group := config.tones[j].1.subtone;
            && SubtoneKey(color, group.subtones[s].0, group.name) in out
            && out[SubtoneKey(color, group.subtones[s].0, group.name)] == group.subtones[s].1(raw))
  {
    OverlayLastWrite(map[], entities, i);
    PaletteEntries(ModelTable(entities), entities, config, out, i);
  }
}
