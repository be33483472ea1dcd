/** The engine's registry of impulse forces: an ordered map from start time
    to (frame, duration, force), with a cursor on the next impulse to apply
    (`forcesImpulse_` and `forceImpulseNextIt_`).  The map is a strictly
    sorted sequence; the cursor is an index, `|es|` standing for `end()`. */
module ImpulseRegistry {
  import opened Common

  /** One entry: the key `t` (start time), the frame name, the duration and the force. */
  datatype Impulse = Impulse(t: real, frameName: string, dt: real, F: Vec3)

  /** Strictly increasing start times: the order and uniqueness of map keys. */
  predicate Sorted(es: seq<Impulse>)
  {
    forall i, j :: 0 <= i < j < |es| ==> es[i].t < es[j].t
  }

  /** The position of the first entry whose key is not below `key`. */
  function Rank(es: seq<Impulse>, key: real): (k: nat)
    ensures k <= |es|
    ensures forall i :: 0 <= i < k ==> es[i].t < key
    ensures Sorted(es) ==> forall i :: k <= i < |es| ==> es[i].t >= key
  {
    if |es| == 0 || es[0].t >= key then 0 else 1 + Rank(es[1..], key)
  }

  /** The map contains `key`. */
  predicate HasKey(es: seq<Impulse>, key: real)
  {
    exists i :: 0 <= i < |es| && es[i].t == key
  }

  /** In a sorted map a key is present exactly when it sits at its rank. */
  lemma KeyAtRank(es: seq<Impulse>, key: real)
    requires Sorted(es)
    ensures HasKey(es, key) <==> Rank(es, key) < |es| && es[Rank(es, key)].t == key
  {
    var k := Rank(es, key);
    if !(k < |es| && es[k].t == key) {
      forall i | 0 <= i < |es| ensures es[i].t != key {
        if i > k {
          assert es[k].t < es[i].t;
        }
      }
    }
  }

  /** `map::find`: the entry stored under `key`, if any. */
  function Lookup(es: seq<Impulse>, key: real): (r: Option<Impulse>)
    requires Sorted(es)
    ensures r.Some? <==> HasKey(es, key)
    ensures r.Some? ==> r.value.t == key && r.value in es
  {
    KeyAtRank(es, key);
    var k := Rank(es, key);
    if k < |es| && es[k].t == key then Some(es[k]) else None
  }

  /** In a sorted map the entry under a key is the one at any index holding that key. */
  lemma LookupUnique(es: seq<Impulse>, key: real, i: nat)
    requires Sorted(es) && i < |es| && es[i].t == key
    ensures Lookup(es, key) == Some(es[i])
  {
    var k := Rank(es, key);
    if k < i {
      assert es[k].t < es[i].t;
    }
  }

  /** `forcesImpulse_[e.t] = e`: replaces the entry with the same key, or
      inserts the new one in key order. */
  function Insert(es: seq<Impulse>, e: Impulse): (r: seq<Impulse>)
    requires Sorted(es)
  {
    var k := Rank(es, e.t);
    if k < |es| && es[k].t == e.t then es[k := e] else es[..k] + [e] + es[k..]
  }

  /** The entries after an insertion: `e`, and every old entry under another key. */
  lemma InsertElements(es: seq<Impulse>, e: Impulse)
    requires Sorted(es)
    ensures forall x :: x in Insert(es, e) ==> x == e || x in es
    ensures forall x :: x in es && x.t != e.t ==> x in Insert(es, e)
    ensures e in Insert(es, e)
  {
    var r := Insert(es, e);
    var k := Rank(es, e.t);
    if k < |es| && es[k].t == e.t {
      forall x | x in r ensures x == e || x in es {
        var i :| 0 <= i < |r| && r[i] == x;
        if i != k {
          assert x == es[i];
        }
      }
      forall x | x in es && x.t != e.t ensures x in r {
        var i :| 0 <= i < |es| && es[i] == x;
        assert r[i] == x;
      }
      assert r[k] == e;
    } else {
      assert r == es[..k] + [e] + es[k..];
      assert es == es[..k] + es[k..];
    }
  }

  /** Insertion keeps the map sorted, stores `e` under its key, and leaves
      every other key with its entry. */
  lemma InsertIsMapUpdate(es: seq<Impulse>, e: Impulse, key: real)
    requires Sorted(es)
    ensures Sorted(Insert(es, e))
    ensures |Insert(es, e)| == if HasKey(es, e.t) then |es| else |es| + 1
    ensures Lookup(Insert(es, e), e.t) == Some(e)
    ensures key != e.t ==> Lookup(Insert(es, e), key) == Lookup(es, key)
  {
    var r := Insert(es, e);
    var k := Rank(es, e.t);
    KeyAtRank(es, e.t);
    InsertSorted(es, e);
    assert r[k] == e;
    LookupUnique(r, e.t, k);
    if key != e.t {
      LookupAfterInsert(es, e, key);
    }
  }

  /** Insertion at the rank keeps the keys strictly increasing. */
  lemma InsertSorted(es: seq<Impulse>, e: Impulse)
    requires Sorted(es)
    ensures Sorted(Insert(es, e))
  {
    var r := Insert(es, e);
    var k := Rank(es, e.t);
    if !(k < |es| && es[k].t == e.t) {
      assert |r| == |es| + 1;
      forall i, j | 0 <= i < j < |r| ensures r[i].t < r[j].t {
        if j < k || i > k {
          if i > k {
            assert r[i] == es[i - 1] && r[j] == es[j - 1];
          }
        } else if i == k {
          assert r[j] == es[j - 1];
        } else if j == k {
          assert r[i] == es[i];
        } else {
          assert r[i] == es[i] && r[j] == es[j - 1];
        }
      }
    }
  }

  /** Keys other than the inserted one are looked up as before. */
  lemma LookupAfterInsert(es: seq<Impulse>, e: Impulse, key: real)
    requires Sorted(es) && Sorted(Insert(es, e)) && key != e.t
    ensures Lookup(Insert(es, e), key) == Lookup(es, key)
  {
    var r := Insert(es, e);
    InsertElements(es, e);
    if HasKey(es, key) {
      var i :| 0 <= i < |es| && es[i].t == key;
      assert es[i] in r;
      var m :| 0 <= m < |r| && r[m] == es[i];
      LookupUnique(es, key, i);
      LookupUnique(r, key, m);
    } else {
      forall m | 0 <= m < |r| ensures r[m].t != key {
        assert r[m] in r;
      }
    }
  }

  /** Where `forceImpulseNextIt_` points after the insertion: map insertion
      does not invalidate iterators, so the cursor keeps designating the
      same entry (or `end()`), whose index moves up by one when a new key
      is inserted before it. */
  function CursorAfterInsert(es: seq<Impulse>, cursor: nat, key: real): (c: nat)
    requires Sorted(es) && cursor <= |es|
  {
    if HasKey(es, key) then cursor
    else if cursor < |es| && es[cursor].t < key then cursor
    else cursor + 1
  }

  /** The cursor designates the same entry before and after an insertion:
      the same key (with the new value when that key was replaced), or the end. */
  lemma CursorFollowsEntry(es: seq<Impulse>, cursor: nat, e: Impulse)
    requires Sorted(es) && cursor <= |es|
    ensures var r := Insert(es, e);
            var c := CursorAfterInsert(es, cursor, e.t);
            && c <= |r|
            && (cursor == |es| ==> c == |r|)
            && (cursor < |es| ==> c < |r| && r[c].t == es[cursor].t)
            && (cursor < |es| && es[cursor].t != e.t ==> r[c] == es[cursor])
  {
    var r := Insert(es, e);
    var k := Rank(es, e.t);
    InsertIsMapUpdate(es, e, e.t);
    KeyAtRank(es, e.t);
    if !(k < |es| && es[k].t == e.t) {
      if cursor < |es| && es[cursor].t < e.t {
        assert r[cursor] == es[cursor];
      } else if cursor < |es| {
        assert r[cursor + 1] == es[cursor];
      }
    }
  }

  /** The impulse applied at time `t` (the window test of `computeExternalForces`):
      only the entry under the cursor, and only while `start <= t <= start + duration`. */
  function ActiveImpulse(es: seq<Impulse>, cursor: nat, t: real): (r: Option<Impulse>)
    ensures r.Some? <==> cursor < |es| && es[cursor].t <= t <= es[cursor].t + es[cursor].dt
    ensures r.Some? ==> r.value == es[cursor]
  {
    if cursor < |es| && es[cursor].t <= t && t <= es[cursor].t + es[cursor].dt
    then Some(es[cursor]) else None
  }

  /** The impulse look-ahead at the top of each outer iteration of `step`:
      the cursor moves past an entry whose window has closed, and the result
      is the new cursor with the next impulse breakpoint.  The source reads
      the start time of the entry after advancing without testing for the
      end of the map; here the read only happens on an entry. */
  function NextImpulse(es: seq<Impulse>, cursor: nat, t: real, tEnd: real): (r: (nat, real))
    requires cursor <= |es|
    ensures cursor <= r.0 <= cursor + 1 && r.0 <= |es|
    ensures r.0 == cursor + 1 <==> cursor < |es| && t > es[cursor].t + es[cursor].dt
    ensures r.1 == tEnd || (r.0 < |es| && r.1 == es[r.0].t > t)
              || (r.0 + 1 < |es| && es[r.0].t <= t && r.1 == es[r.0 + 1].t)
  {
    if cursor == |es| then (cursor, tEnd)
    else
      var c := if t > es[cursor].t + es[cursor].dt then cursor + 1 else cursor;
      if c == |es| then (c, tEnd)
      else if es[c].t > t then (c, es[c].t)
      else if c != |es| - 1 then (c, es[c + 1].t)
      else (c, tEnd)
  }

  /** Impulses whose windows are disjoint: each ends before the next starts. */
  predicate Disjoint(es: seq<Impulse>)
  {
    forall i :: 0 <= i < |es| - 1 ==> es[i].t + es[i].dt < es[i + 1].t
  }

  /** `t` lies in the window of impulse `e`. */
  predicate InWindow(e: Impulse, t: real)
  {
    e.t <= t <= e.t + e.dt
  }

  /** With disjoint windows of non-negative length, every window ends before
      the start of every later entry. */
  lemma {:induction false} DisjointChain(es: seq<Impulse>, i: nat, k: nat)
    requires Disjoint(es) && i < k < |es|
    requires forall j :: 0 <= j < |es| ==> es[j].dt >= 0.0
    ensures es[i].t + es[i].dt < es[k].t
    decreases k - i
  {
    if i + 1 < k {
      DisjointChain(es, i + 1, k);
    }
  }

  /** The window test on the cursor alone is the window test on the whole
      registry: when the windows are disjoint, every entry before the cursor
      has closed before `t` and the cursor's own window has not, an impulse
      is active at `t` exactly when `t` lies in the window of some entry,
      and that entry is the one under the cursor. */
  lemma ActiveImpulseIsWindow(es: seq<Impulse>, cursor: nat, t: real)
    requires Sorted(es) && Disjoint(es) && cursor <= |es|
    requires forall j :: 0 <= j < |es| ==> es[j].dt >= 0.0
    requires forall j :: 0 <= j < cursor ==> es[j].t + es[j].dt < t
    requires cursor < |es| ==> t <= es[cursor].t + es[cursor].dt
    ensures ActiveImpulse(es, cursor, t).Some? <==> exists k :: 0 <= k < |es| && InWindow(es[k], t)
    ensures forall k :: 0 <= k < |es| && InWindow(es[k], t) ==> ActiveImpulse(es, cursor, t) == Some(es[k])
  {
    forall k | 0 <= k < |es| && InWindow(es[k], t)
      ensures k == cursor
    {
      if k > cursor {
        DisjointChain(es, cursor, k);
      }
    }
  }

  /** With disjoint windows, once the cursor sits on an entry whose window
      has not closed, the next breakpoint lies strictly ahead of `t`
      (or is the end of the step). */
  lemma NextImpulseAhead(es: seq<Impulse>, cursor: nat, t: real, tEnd: real)
    requires Disjoint(es) && cursor <= |es|
    requires var r := NextImpulse(es, cursor, t, tEnd);
             r.0 < |es| ==> t <= es[r.0].t + es[r.0].dt
    ensures var r := NextImpulse(es, cursor, t, tEnd);
            r.1 == tEnd || r.1 > t
  {
    var r := NextImpulse(es, cursor, t, tEnd);
    if r.0 + 1 < |es| && es[r.0].t <= t && r.1 == es[r.0 + 1].t {
      assert es[r.0].t + es[r.0].dt < es[r.0 + 1].t;
    }
  }

  /** Two impulses whose windows overlap: from `t = 0` the look-ahead sends
      the integrator to the start of the second one, `0.5`; there, with the
      first window still open, it returns `0.5` itself, a breakpoint at (not
      ahead of) the current time, and the cursor stays where it was. */
  lemma OverlapStallsLookAhead(tEnd: real)
    requires tEnd > 0.5
    ensures var es := [Impulse(0.0, "a", 1.0, ZeroVec3), Impulse(0.5, "b", 0.1, ZeroVec3)];
            && Sorted(es) && !Disjoint(es)
            && NextImpulse(es, 0, 0.0, tEnd) == (0, 0.5)
            && NextImpulse(es, 0, 0.5, tEnd) == (0, 0.5)
  {
    var es := [Impulse(0.0, "a", 1.0, ZeroVec3), Impulse(0.5, "b", 0.1, ZeroVec3)];
    assert !(es[0].t + es[0].dt < es[1].t);
  }
}
