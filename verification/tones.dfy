/**
 * The transform factory of App2.ts: attribute records, modifiers, subtone
 * groups and `createTone`, which wraps a modifier in a callable tone and
 * attaches a subtone group when one is supplied.
 */
module Tones {
  import opened Wrappers

  /** An attribute record: an object whose fields all hold strings. */
  type Record = map<string, string>

  /** A pure transform from one attribute record to another. */
  type Modifier = Record -> Record

  /**
   * The `subtone` settings of a tone: the group name and the named subtone
   * modifiers, in the order in which the object enumerates them.
   */
  datatype SubtoneGroup = SubtoneGroup(name: string, subtones: seq<(string, Modifier)>)

  /**
   * The callable that `createTone` returns. `Base` is the plain callback; `Toned`
   * is a callback that carries a subtone group under its `subtone` field.
   */
  datatype Tone =
    | Base(modifier: Modifier)
    | Toned(modifier: Modifier, subtone: SubtoneGroup)

  /** Invoking a tone on a record. */
  function Call(tone: Tone, data: Record): Record
  {
    tone.modifier(data)
  }

  /**
   * `createTone(dataModifier, subtoneSettings?)`: the result behaves as
   * `dataModifier` on every record, and it carries the very subtone group it
   * was given, or none when none was given.
   */
  function CreateTone(dataModifier: Modifier, subtoneSettings: Option<SubtoneGroup>): (tone: Tone)
    ensures forall data :: Call(tone, data) == dataModifier(data)
    ensures tone.Toned? <==> subtoneSettings.Some?
    ensures tone.Toned? ==> tone.subtone == subtoneSettings.value
  {
    match subtoneSettings
    case Some(settings) => Toned(data => dataModifier(data), settings)
    case None => Base(data => dataModifier(data))
  }
}
