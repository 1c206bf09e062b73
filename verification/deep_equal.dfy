/**
 * The equality helpers of App2.ts: `deepEqualObj` compares two records and
 * `deepEqualRecordsOfRecords` compares two maps of records. Each first
 * compares key counts, then looks up every key of the first argument in the
 * second and stops at the first key that is missing or differs.
 */
module DeepEqual {
  import opened Tones

  /** Two maps with the same number of keys, one's keys among the other's, have the same keys. */
  lemma SameKeys<V>(a: map<string, V>, b: map<string, V>)
    requires |a| == |b|
    requires a.Keys <= b.Keys
    ensures a.Keys == b.Keys
  {
    var extra := b.Keys - a.Keys;
    assert b.Keys == a.Keys + extra;
    assert |b.Keys| == |a.Keys| + |extra|;
  }

  /** `deepEqualObj(a, b)`: true exactly when the two records are equal. */
  method DeepEqualObj(a: Record, b: Record) returns (equal: bool)
    ensures equal <==> a == b
  {
    if |a| != |b| {
      return false;
    }
    var keysA := a.Keys;
    while keysA != {}
      invariant keysA <= a.Keys
      invariant forall key :: key in a && key !in keysA ==> key in b && a[key] == b[key]
      decreases keysA
    {
      var key :| key in keysA;
      if key !in b || a[key] != b[key] {
        return false;
      }
      keysA := keysA - {key};
    }
    SameKeys(a, b);
    return true;
  }

  /** `deepEqualRecordsOfRecords(a, b)`: true exactly when the two maps of records are equal. */
  method DeepEqualRecordsOfRecords(a: map<string, Record>, b: map<string, Record>) returns (equal: bool)
    ensures equal <==> a == b
  {
    if |a| != |b| {
      return false;
    }
    var keysA := a.Keys;
    while keysA != {}
      invariant keysA <= a.Keys
      invariant forall key :: key in a && key !in keysA ==> key in b && a[key] == b[key]
      decreases keysA
    {
      var key :| key in keysA;
      if key !in b {
        return false;
      }
      var same := DeepEqualObj(a[key], b[key]);
      if !same {
        return false;
      }
      keysA := keysA - {key};
    }
    SameKeys(a, b);
    return true;
  }
}
