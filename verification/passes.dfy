/**
 * The two list-compaction passes of a running frame, stated as functions on
 * sequences: the bullet pass (move every bullet, drop those that left the
 * arena) and the hit pass (move every enemy, and remove it together with the
 * first live bullet it overlaps).  The session's methods are proved to compute
 * exactly these functions; the lemmas here say what the functions guarantee.
 */
module Passes {
  import opened Entities

  datatype Option<T> = None | Some(value: T)

  /** `s` is made of elements of `t`, taken in the order they have in `t`. */
  ghost predicate IsSubsequence<T>(s: seq<T>, t: seq<T>)
    decreases |t|
  {
    s == [] || (t != [] && ((s[0] == t[0] && IsSubsequence(s[1..], t[1..])) || IsSubsequence(s, t[1..])))
  }

  lemma {:induction false} SubsequenceReflexive<T>(s: seq<T>)
    ensures IsSubsequence(s, s)
    decreases |s|
  {
    if s != [] {
      SubsequenceReflexive(s[1..]);
    }
  }

  lemma {:induction false} SubsequenceTransitive<T>(a: seq<T>, b: seq<T>, c: seq<T>)
    requires IsSubsequence(a, b) && IsSubsequence(b, c)
    ensures IsSubsequence(a, c)
    decreases |c|
  {
    if a != [] {
      if b[0] == c[0] && IsSubsequence(b[1..], c[1..]) {
        if a[0] == b[0] && IsSubsequence(a[1..], b[1..]) {
          SubsequenceTransitive(a[1..], b[1..], c[1..]);
        } else {
          SubsequenceTransitive(a, b[1..], c[1..]);
        }
      } else {
        SubsequenceTransitive(a, b, c[1..]);
      }
    }
  }

  lemma {:induction false} SubsequenceMembers<T>(s: seq<T>, t: seq<T>)
    requires IsSubsequence(s, t)
    ensures forall x :: x in s ==> x in t
    decreases |t|
  {
    if s != [] {
      if s[0] == t[0] && IsSubsequence(s[1..], t[1..]) {
        SubsequenceMembers(s[1..], t[1..]);
        assert forall x :: x in s ==> x == s[0] || x in s[1..];
      } else {
        SubsequenceMembers(s, t[1..]);
      }
    }
  }

  /** Prepending the same element to both sides keeps a subsequence. */
  lemma SubsequenceCons<T>(x: T, s: seq<T>, t: seq<T>)
    requires IsSubsequence(s, t)
    ensures IsSubsequence([x] + s, [x] + t)
  {
  }

  /** The sequence without its element at index j (Python's `list.remove` of that element). */
  function Remove<T>(s: seq<T>, j: nat): (r: seq<T>)
    requires j < |s|
    ensures |r| == |s| - 1
    ensures forall k :: 0 <= k < j ==> r[k] == s[k]
    ensures forall k :: j <= k < |r| ==> r[k] == s[k + 1]
  {
    s[..j] + s[j + 1..]
  }

  lemma {:induction false} RemoveIsSubsequence<T>(s: seq<T>, j: nat)
    requires j < |s|
    ensures IsSubsequence(Remove(s, j), s)
  {
    if j == 0 {
      assert Remove(s, j) == s[1..];
      SubsequenceReflexive(s[1..]);
    } else {
      RemoveIsSubsequence(s[1..], j - 1);
      assert Remove(s, j) == [s[0]] + Remove(s[1..], j - 1);
      SubsequenceCons(s[0], Remove(s[1..], j - 1), s[1..]);
      assert [s[0]] + s[1..] == s;
    }
  }

  /** Every element of s transformed by f, in order. */
  function Map<A, B>(f: A -> B, s: seq<A>): (r: seq<B>)
    ensures |r| == |s| && forall i :: 0 <= i < |s| ==> r[i] == f(s[i])
  {
    seq(|s|, i requires 0 <= i < |s| => f(s[i]))
  }

  // ---------------------------------------------------------------- bullet pass

  /** The live bullets after one frame's bullet pass: each bullet flies one
      frame, and those that are then off screen are dropped. */
  function KeepOnScreen(bs: seq<Bullet>): (r: seq<Bullet>)
    ensures |r| <= |bs|
    ensures forall b :: b in r ==> 0.0 <= b.x <= Width as real && 0.0 <= b.y <= Height as real
  {
    if bs == [] then []
    else
      var b := Advance(bs[0]);
      if OffScreen(b) then KeepOnScreen(bs[1..]) else [b] + KeepOnScreen(bs[1..])
  }

  /** The survivors keep the order they had. */
  lemma {:induction false} KeepOnScreenKeepsOrder(bs: seq<Bullet>)
    ensures IsSubsequence(KeepOnScreen(bs), Map(Advance, bs))
  {
    if bs != [] {
      KeepOnScreenKeepsOrder(bs[1..]);
      assert Map(Advance, bs) == [Advance(bs[0])] + Map(Advance, bs[1..]);
      if !OffScreen(Advance(bs[0])) {
        SubsequenceCons(Advance(bs[0]), KeepOnScreen(bs[1..]), Map(Advance, bs[1..]));
      }
    }
  }

  /** One bullet's turn of the bullet pass, at position i of the snapshot bs. */
  lemma KeepOnScreenTurn(kept: seq<Bullet>, bs: seq<Bullet>, i: nat)
    requires i < |bs|
    ensures var b := Advance(bs[i]);
            kept + KeepOnScreen(bs[i..])
              == (if OffScreen(b) then kept else kept + [b]) + KeepOnScreen(bs[i + 1..])
  {
  }

  /** Only bullets that left the arena are dropped: one still on screen after
      its move is among the survivors. */
  lemma {:induction false} KeepOnScreenKeepsVisible(bs: seq<Bullet>, i: nat)
    requires i < |bs| && !OffScreen(Advance(bs[i]))
    ensures Advance(bs[i]) in KeepOnScreen(bs)
  {
    if i > 0 {
      KeepOnScreenKeepsVisible(bs[1..], i - 1);
    }
  }

  /** The live bullets after n frames' bullet passes, with nothing fired in between. */
  function Survivors(bs: seq<Bullet>, n: nat): seq<Bullet>
  {
    if n == 0 then bs else KeepOnScreen(Survivors(bs, n - 1))
  }

  /** The bullet pass drops exactly the bullets that left the arena: every
      moved bullet keeps its multiplicity when it is on screen, and has none
      left when it is off screen. */
  lemma {:induction false} KeepOnScreenCounts(bs: seq<Bullet>)
    ensures forall c :: multiset(KeepOnScreen(bs))[c] == if OffScreen(c) then 0 else multiset(Map(Advance, bs))[c]
  {
    if bs != [] {
      KeepOnScreenCounts(bs[1..]);
      assert Map(Advance, bs) == [Advance(bs[0])] + Map(Advance, bs[1..]);
    }
  }

  /** Every bullet the bullet pass keeps is one of its input bullets, moved. */
  lemma {:induction false} KeepOnScreenMoved(bs: seq<Bullet>)
    ensures forall c :: c in KeepOnScreen(bs) ==> exists b :: b in bs && c == Advance(b)
  {
    if bs != [] {
      KeepOnScreenMoved(bs[1..]);
      forall c | c in KeepOnScreen(bs)
        ensures exists b :: b in bs && c == Advance(b)
      {
        if c != Advance(bs[0]) {
          assert c in KeepOnScreen(bs[1..]);
          var b :| b in bs[1..] && c == Advance(b);
          assert b in bs;
        }
      }
    }
  }

  /** Every bullet alive after n bullet passes is one of the original bullets
      after n frames of straight flight. */
  lemma {:induction false} SurvivorsFlew(bs: seq<Bullet>, n: nat)
    ensures forall c :: c in Survivors(bs, n) ==> exists b :: b in bs && c == Flight(b, n)
  {
    if n > 0 {
      var before := Survivors(bs, n - 1);
      SurvivorsFlew(bs, n - 1);
      KeepOnScreenMoved(before);
      forall c | c in Survivors(bs, n)
        ensures exists b :: b in bs && c == Flight(b, n)
      {
        var a :| a in before && c == Advance(a);
        var b :| b in bs && a == Flight(b, n - 1);
        assert c == Flight(b, n);
      }
    }
  }

  // ---------------------------------------------------------------- hit pass

  /** The index of the first bullet in bs that the enemy overlaps, if any. */
  function FirstOverlap(e: Enemy, bs: seq<Bullet>, overlap: (Enemy, Bullet) -> bool): (r: Option<nat>)
    ensures r.Some? ==> r.value < |bs| && overlap(e, bs[r.value])
    ensures r.Some? ==> forall k :: 0 <= k < r.value ==> !overlap(e, bs[k])
    ensures r.None? ==> forall k :: 0 <= k < |bs| ==> !overlap(e, bs[k])
  {
    if bs == [] then None
    else if overlap(e, bs[0]) then Some(0)
    else
      match FirstOverlap(e, bs[1..], overlap)
      case None => None
      case Some(j) => Some(j + 1)
  }

  /** What the hit pass leaves: the surviving enemies and bullets, and the number of hits. */
  datatype Outcome = Outcome(enemies: seq<Enemy>, bullets: seq<Bullet>, hits: nat)

  /** The hit pass over enemies es and live bullets bs: each enemy in turn is
      moved by `step`, then compared with the bullets still live at that point;
      on the first overlap both are removed and the pass goes on with the next
      enemy. */
  function Resolve(es: seq<Enemy>, bs: seq<Bullet>, step: Enemy -> Enemy, overlap: (Enemy, Bullet) -> bool): (r: Outcome)
    ensures |r.enemies| + r.hits == |es|
    ensures |r.bullets| + r.hits == |bs|
    decreases |es|
  {
    if es == [] then Outcome([], bs, 0)
    else
      var e := step(es[0]);
      match FirstOverlap(e, bs, overlap)
      case None =>
        var rest := Resolve(es[1..], bs, step, overlap);
        rest.(enemies := [e] + rest.enemies)
      case Some(j) =>
        var rest := Resolve(es[1..], Remove(bs, j), step, overlap);
        rest.(hits := rest.hits + 1)
  }

  /** Part-way through the hit pass: the enemies kept so far and the hits
      so far, followed by the pass over the remaining enemies and the bullets
      still live, give the outcome of the whole pass. */
  ghost predicate Remaining(total: Outcome, kept: seq<Enemy>, hits: nat, rest: seq<Enemy>, live: seq<Bullet>,
                            step: Enemy -> Enemy, overlap: (Enemy, Bullet) -> bool)
  {
    var r := Resolve(rest, live, step, overlap);
    && total.enemies == kept + r.enemies
    && total.bullets == r.bullets
    && total.hits == hits + r.hits
  }

  /** A turn in which the moved enemy overlaps no live bullet: it is kept. */
  lemma MissKeepsRemaining(total: Outcome, kept: seq<Enemy>, hits: nat, rest: seq<Enemy>, live: seq<Bullet>,
                           step: Enemy -> Enemy, overlap: (Enemy, Bullet) -> bool)
    requires rest != [] && Remaining(total, kept, hits, rest, live, step, overlap)
    requires FirstOverlap(step(rest[0]), live, overlap).None?
    ensures Remaining(total, kept + [step(rest[0])], hits, rest[1..], live, step, overlap)
  {
  }

  /** A turn in which the moved enemy overlaps the live bullet at j first: both go. */
  lemma HitKeepsRemaining(total: Outcome, kept: seq<Enemy>, hits: nat, rest: seq<Enemy>, live: seq<Bullet>, j: nat,
                          step: Enemy -> Enemy, overlap: (Enemy, Bullet) -> bool)
    requires rest != [] && Remaining(total, kept, hits, rest, live, step, overlap)
    requires FirstOverlap(step(rest[0]), live, overlap) == Some(j)
    ensures j < |live| && Remaining(total, kept, hits + 1, rest[1..], Remove(live, j), step, overlap)
  {
  }

  /** One enemy's turn of the hit pass keeps `Remaining`: the enemy at
      position i of the snapshot es is either kept, or removed together with
      the first live bullet it overlaps. */
  lemma TurnKeepsRemaining(total: Outcome, kept: seq<Enemy>, hits: nat, es: seq<Enemy>, i: nat, live: seq<Bullet>,
                           hit: Option<nat>, step: Enemy -> Enemy, overlap: (Enemy, Bullet) -> bool)
    requires i < |es| && Remaining(total, kept, hits, es[i..], live, step, overlap)
    requires hit == FirstOverlap(step(es[i]), live, overlap)
    ensures hit.None? ==> Remaining(total, kept + [step(es[i])], hits, es[i + 1..], live, step, overlap)
    ensures hit.Some? ==> hit.value < |live| && Remaining(total, kept, hits + 1, es[i + 1..], Remove(live, hit.value), step, overlap)
  {
    var rest := es[i..];
    assert rest[0] == es[i] && rest[1..] == es[i + 1..];
    if hit.None? {
      MissKeepsRemaining(total, kept, hits, rest, live, step, overlap);
    } else {
      HitKeepsRemaining(total, kept, hits, rest, live, hit.value, step, overlap);
    }
  }

  /** The enemy list part-way through the hit pass: updating the enemy at
      the turn's position, then possibly removing it. */
  lemma UpdateAtTurn<T>(kept: seq<T>, es: seq<T>, i: nat, y: T)
    requires i < |es|
    ensures (kept + es[i..])[|kept| := y] == kept + [y] + es[i + 1..]
    ensures Remove(kept + [y] + es[i + 1..], |kept|) == kept + es[i + 1..]
  {
  }

  /** Survivors of both lists keep their order; the enemies are the moved ones. */
  lemma {:induction false} ResolveKeepsOrder(es: seq<Enemy>, bs: seq<Bullet>, step: Enemy -> Enemy, overlap: (Enemy, Bullet) -> bool)
    ensures IsSubsequence(Resolve(es, bs, step, overlap).enemies, Map(step, es))
    ensures IsSubsequence(Resolve(es, bs, step, overlap).bullets, bs)
    decreases |es|
  {
    if es == [] {
      SubsequenceReflexive(bs);
    } else {
      var e := step(es[0]);
      assert Map(step, es) == [e] + Map(step, es[1..]);
      match FirstOverlap(e, bs, overlap)
      case None =>
        ResolveKeepsOrder(es[1..], bs, step, overlap);
        SubsequenceCons(e, Resolve(es[1..], bs, step, overlap).enemies, Map(step, es[1..]));
      case Some(j) =>
        var rest := Resolve(es[1..], Remove(bs, j), step, overlap);
        ResolveKeepsOrder(es[1..], Remove(bs, j), step, overlap);
        RemoveIsSubsequence(bs, j);
        SubsequenceTransitive(rest.bullets, Remove(bs, j), bs);
        assert IsSubsequence(rest.enemies, Map(step, es[1..]));
        assert Map(step, es)[1..] == Map(step, es[1..]);
    }
  }

  /** Only a hit removes an enemy: an enemy that, once moved, overlaps none
      of the bullets keeps every one of its copies. */
  lemma {:induction false} ResolveSparesMisses(es: seq<Enemy>, bs: seq<Bullet>, step: Enemy -> Enemy, overlap: (Enemy, Bullet) -> bool)
    ensures var r := Resolve(es, bs, step, overlap);
            forall e :: (forall b :: b in bs ==> !overlap(e, b)) ==> multiset(r.enemies)[e] == multiset(Map(step, es))[e]
    decreases |es|
  {
    if es != [] {
      var e0 := step(es[0]);
      assert Map(step, es) == [e0] + Map(step, es[1..]);
      match FirstOverlap(e0, bs, overlap)
      case None =>
        ResolveSparesMisses(es[1..], bs, step, overlap);
      case Some(j) =>
        ResolveSparesMisses(es[1..], Remove(bs, j), step, overlap);
        RemoveIsSubsequence(bs, j);
        SubsequenceMembers(Remove(bs, j), bs);
    }
  }

  /** After the pass no surviving enemy overlaps a surviving bullet: each
      survivor was compared with every bullet still live at its turn, and
      bullets are only ever removed afterwards. */
  lemma {:induction false} ResolveLeavesNoOverlap(es: seq<Enemy>, bs: seq<Bullet>, step: Enemy -> Enemy, overlap: (Enemy, Bullet) -> bool)
    ensures var r := Resolve(es, bs, step, overlap);
            forall e, b :: e in r.enemies && b in r.bullets ==> !overlap(e, b)
    decreases |es|
  {
    if es != [] {
      var e := step(es[0]);
      match FirstOverlap(e, bs, overlap)
      case None =>
        var rest := Resolve(es[1..], bs, step, overlap);
        ResolveLeavesNoOverlap(es[1..], bs, step, overlap);
        ResolveKeepsOrder(es[1..], bs, step, overlap);
        SubsequenceMembers(rest.bullets, bs);
        assert forall x :: x in [e] + rest.enemies ==> x == e || x in rest.enemies;
      case Some(j) =>
        ResolveLeavesNoOverlap(es[1..], Remove(bs, j), step, overlap);
    }
  }
}
