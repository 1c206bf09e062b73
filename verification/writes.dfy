/**
 * The flat result object that `createPalette` fills in: a map from composite
 * key to attribute record, changed by one assignment `result[key] = record`
 * at a time. A later assignment to a key replaces the earlier one.
 */
module Writes {
  import opened Tones

  /** The result object of `createPalette`. */
  type Output = map<string, Record>

  /** One assignment `result[key] = record`. */
  type Write = (string, Record)

  /** The keys that the assignments `ws` write to. */
  ghost function KeysOf(ws: seq<Write>): set<string>
  {
    set p | 0 <= p < |ws| :: ws[p].0
  }

  /** No two of the assignments `ws` write to the same key. */
  ghost predicate DistinctKeys(ws: seq<Write>)
  {
    forall p, q :: 0 <= p < q < |ws| ==> ws[p].0 != ws[q].0
  }

  /**
   * The object `m` after the assignments `ws`, performed in order. Its keys
   * are those of `m` together with every key written, and it grows by at most
   * one key per assignment.
   */
  function Overlay(m: Output, ws: seq<Write>): (r: Output)
    ensures r.Keys == m.Keys + KeysOf(ws)
  {
    if ws == [] then m
    else
      var last := ws[|ws| - 1];
      assert KeysOf(ws) == KeysOf(ws[..|ws| - 1]) + {last.0} by {
        forall k | k in KeysOf(ws) ensures k in KeysOf(ws[..|ws| - 1]) + {last.0} {
          var p :| 0 <= p < |ws| && ws[p].0 == k;
          if p < |ws| - 1 { assert ws[..|ws| - 1][p] == ws[p]; }
        }
        forall k | k in KeysOf(ws[..|ws| - 1]) ensures k in KeysOf(ws) {
          var p :| 0 <= p < |ws| - 1 && ws[..|ws| - 1][p].0 == k;
          assert ws[p] == ws[..|ws| - 1][p];
        }
      }
      Overlay(m, ws[..|ws| - 1])[last.0 := last.1]
  }

  /** One more assignment at the end: the object is updated at that key only. */
  lemma OverlaySnoc(m: Output, ws: seq<Write>, w: Write)
    ensures Overlay(m, ws + [w]) == Overlay(m, ws)[w.0 := w.1]
  {
    assert (ws + [w])[..|ws|] == ws;
  }

  /** One assignment at the front: the rest are performed on the updated object. */
  lemma OverlayCons(m: Output, w: Write, ws: seq<Write>)
    ensures Overlay(m, [w] + ws) == Overlay(m[w.0 := w.1], ws)
  {
    OverlayAppend(m, [w], ws);
    OverlaySnoc(m, [], w);
    assert [] + [w] == [w];
  }

  /** Performing `a` and then `b` is performing `a + b`. */
  lemma {:induction false} OverlayAppend(m: Output, a: seq<Write>, b: seq<Write>)
    ensures Overlay(m, a + b) == Overlay(Overlay(m, a), b)
    decreases |b|
  {
    if b == [] {
      assert a + b == a;
    } else {
      var last := b[|b| - 1];
      assert a + b == (a + b[..|b| - 1]) + [last];
      assert b == b[..|b| - 1] + [last];
      OverlaySnoc(m, a + b[..|b| - 1], last);
      OverlayAppend(m, a, b[..|b| - 1]);
      OverlaySnoc(Overlay(m, a), b[..|b| - 1], last);
    }
  }

  /**
   * Last write wins: after the assignments `ws`, a key holds the record of
   * the last assignment to it.
   */
  lemma {:induction false} OverlayLastWrite(m: Output, ws: seq<Write>, p: nat)
    requires p < |ws|
    requires forall q :: p < q < |ws| ==> ws[q].0 != ws[p].0
    ensures ws[p].0 in Overlay(m, ws) && Overlay(m, ws)[ws[p].0] == ws[p].1
    decreases |ws|
  {
    var init := ws[..|ws| - 1];
    if p < |ws| - 1 {
      forall q | p < q < |init| ensures init[q].0 != init[p].0 {
        assert init[q] == ws[q];
      }
      OverlayLastWrite(m, init, p);
      assert init[p] == ws[p];
    }
  }

  /** A key no assignment writes keeps the record it had before. */
  lemma {:induction false} OverlayUntouched(m: Output, ws: seq<Write>, k: string)
    requires forall q :: 0 <= q < |ws| ==> ws[q].0 != k
    ensures k in Overlay(m, ws) <==> k in m
    ensures k in m ==> Overlay(m, ws)[k] == m[k]
    decreases |ws|
  {
    if ws != [] {
      OverlayUntouched(m, ws[..|ws| - 1], k);
    }
  }

  /**
   * When the assignments write distinct keys that are all new, the object
   * gains exactly one key per assignment.
   */
  lemma {:induction false} OverlaySize(m: Output, ws: seq<Write>)
    requires DistinctKeys(ws)
    requires forall q :: 0 <= q < |ws| ==> ws[q].0 !in m
    ensures |Overlay(m, ws)| == |m| + |ws|
    decreases |ws|
  {
    if ws != [] {
      var last := ws[|ws| - 1];
      OverlaySize(m, ws[..|ws| - 1]);
      assert last.0 !in KeysOf(ws[..|ws| - 1]);
    }
  }

  /** Each assignment adds at most one key. */
  lemma {:induction false} OverlayBound(m: Output, ws: seq<Write>)
    ensures |Overlay(m, ws)| <= |m| + |ws|
    decreases |ws|
  {
    if ws != [] {
      OverlayBound(m, ws[..|ws| - 1]);
    }
  }

  /**
   * Last write wins, by position: an assignment that no later assignment
   * overwrites leaves its record under its key.
   */
  lemma OverlayFinalWrite(m: Output, pre: seq<Write>, w: Write, post: seq<Write>)
    requires forall x :: x in post ==> x.0 != w.0
    ensures w.0 in Overlay(m, pre + [w] + post) && Overlay(m, pre + [w] + post)[w.0] == w.1
  {
    OverlaySnocAppend(m, pre, w, post);
    forall q | 0 <= q < |post| ensures post[q].0 != w.0 {
      assert post[q] in post;
    }
    OverlayUntouched(Overlay(m, pre)[w.0 := w.1], post, w.0);
  }

  /** One assignment and then a list of them, after the assignments already made. */
  lemma OverlaySnocAppend(m: Output, ws: seq<Write>, w: Write, more: seq<Write>)
    ensures Overlay(m, ws + [w] + more) == Overlay(Overlay(m, ws)[w.0 := w.1], more)
  {
    OverlayAppend(m, ws + [w], more);
    OverlaySnoc(m, ws, w);
  }

  /** One more assignment from a list performed on `m`. */
  lemma OverlayPrefixStep(m: Output, ws: seq<Write>, k: nat)
    requires k < |ws|
    ensures Overlay(m, ws[..k + 1]) == Overlay(m, ws[..k])[ws[k].0 := ws[k].1]
  {
    OverlaySnoc(m, ws[..k], ws[k]);
    assert ws[..k] + [ws[k]] == ws[..k + 1];
  }
}
