/**
 * The bullet manager's list of live bullets (`CBulletManager`): adding a
 * bullet, removing one, and the periodic `Think` that steps every bullet
 * and drops the ones whose step failed.  The list is a sequence of slots in
 * list order; which free slot the linked list hands out is an input.  The
 * `armed` flag is whether a next think is scheduled.
 */
module BulletRegistry {
  import opened Geometry
  import opened Bullets

  /** `InvalidIndex` as `AddBullet` reports it. */
  const NoIndex: int := -1
  /** Sentinel ammo index of an undefined ammo type. */
  const UndefinedAmmo: int := -1

  datatype Entry = Entry(slot: nat, bullet: Bullet)

  datatype Registry = Registry(entries: seq<Entry>, armed: bool)

  datatype Added = Added(registry: Registry, index: int, hits: seq<Hit>)

  /** Some entry of the list occupies `slot`. */
  predicate Holds(entries: seq<Entry>, slot: nat)
  {
    exists k :: 0 <= k < |entries| && entries[k].slot == slot
  }

  predicate UniqueSlots(entries: seq<Entry>)
  {
    forall i, j :: 0 <= i < j < |entries| ==> entries[i].slot != entries[j].slot
  }

  predicate AllValid(entries: seq<Entry>)
  {
    forall i :: 0 <= i < |entries| ==> Valid(entries[i].bullet)
  }

  /** The tick is scheduled exactly while bullets are in flight. */
  predicate Consistent(reg: Registry)
  {
    reg.armed <==> |reg.entries| > 0
  }

  /** The list without the entry in `slot`. */
  function RemoveSlot(entries: seq<Entry>, slot: nat): (r: seq<Entry>)
    ensures |r| <= |entries|
    ensures forall i :: 0 <= i < |r| ==> r[i].slot != slot
  {
    if entries == [] then []
    else (if entries[0].slot == slot then [] else [entries[0]]) + RemoveSlot(entries[1..], slot)
  }

  /**
   * `AddBullet`: an undefined ammo type is refused with -1; otherwise the
   * bullet goes to the tail, is pre-simulated once when it carries a
   * latency (whatever that step returns, it stays in the list), and the
   * first bullet arms the tick.
   */
  function AddBullet(reg: Registry, b: Bullet, slot: nat, w: World, d: Draws): (r: Added)
    requires !Holds(reg.entries, slot)
    requires Valid(b) && IsNorm(w.norm) && w.speedModifier != 0.0
    ensures b.ammoType == UndefinedAmmo ==> r == Added(reg, NoIndex, [])
    ensures b.ammoType != UndefinedAmmo ==>
              && r.index == slot
              && |r.registry.entries| == |reg.entries| + 1
              && r.registry.entries[..|reg.entries|] == reg.entries
              && r.registry.entries[|reg.entries|].slot == slot
              && r.registry.armed == (reg.armed || reg.entries == [])
    ensures b.ammoType != UndefinedAmmo && b.latency == 0.0 ==>
              r.registry.entries[|reg.entries|].bullet == b && r.hits == []
    ensures b.ammoType != UndefinedAmmo && b.latency != 0.0 ==>
              && r.registry.entries[|reg.entries|].bullet == Step(b, w, d).bullet
              && r.hits == Step(b, w, d).hits
    ensures UniqueSlots(reg.entries) ==> UniqueSlots(r.registry.entries)
    ensures AllValid(reg.entries) ==> AllValid(r.registry.entries)
    ensures Consistent(reg) ==> Consistent(r.registry)
  {
    if b.ammoType == UndefinedAmmo then Added(reg, NoIndex, [])
    else
      var pre := if b.latency != 0.0 then Step(b, w, d) else StepResult(true, b, []);
      var entries := reg.entries + [Entry(slot, pre.bullet)];
      Added(Registry(entries, reg.armed || |entries| == 1), slot, pre.hits)
  }

  /** `RemoveBullet`: drops the slot and disarms the tick at count zero. */
  function RemoveBullet(reg: Registry, slot: nat): (r: Registry)
    requires Holds(reg.entries, slot)
    ensures !Holds(r.entries, slot)
    ensures |r.entries| < |reg.entries|
    ensures r.entries == [] ==> !r.armed
    ensures r.entries != [] ==> r.armed == reg.armed
    ensures Consistent(reg) ==> Consistent(r)
    ensures UniqueSlots(reg.entries) ==>
              exists i :: 0 <= i < |reg.entries| && reg.entries[i].slot == slot
                          && r.entries == reg.entries[..i] + reg.entries[i + 1..]
  {
    var entries := RemoveSlot(reg.entries, slot);
    RemoveSlotShorter(reg.entries, slot);
    RemoveOne(reg.entries, slot);
    Registry(entries, if |entries| == 0 then false else reg.armed)
  }

  /** With unique slots, removing a held slot takes out exactly its entry and keeps the rest in order. */
  lemma RemoveOne(entries: seq<Entry>, slot: nat)
    requires Holds(entries, slot)
    ensures UniqueSlots(entries) ==>
              exists i :: 0 <= i < |entries| && entries[i].slot == slot
                          && RemoveSlot(entries, slot) == entries[..i] + entries[i + 1..]
  {
    if UniqueSlots(entries) {
      var i :| 0 <= i < |entries| && entries[i].slot == slot;
      UniqueSplit(entries, i);
      SplitAt(entries, i);
      assert entries == entries[..i] + [entries[i]] + entries[i + 1..];
      RemoveMiddle(entries[..i], entries[i], entries[i + 1..]);
    }
  }

  lemma {:induction false} RemoveSlotShorter(b: seq<Entry>, slot: nat)
    requires Holds(b, slot)
    ensures |RemoveSlot(b, slot)| < |b|
    decreases |b|
  {
    if b[0].slot != slot {
      var k :| 0 <= k < |b| && b[k].slot == slot;
      assert b[1..][k - 1].slot == slot;
      RemoveSlotShorter(b[1..], slot);
    } else {
      assert |RemoveSlot(b[1..], slot)| <= |b[1..]|;
    }
  }

  /** The surviving entries of one tick, in list order, with their stepped bullets. */
  function Survivors(entries: seq<Entry>, w: World, draws: seq<Draws>): (r: seq<Entry>)
    requires |draws| == |entries| && AllValid(entries)
    requires IsNorm(w.norm) && w.speedModifier != 0.0
    ensures |r| <= |entries|
    ensures forall k :: 0 <= k < |r| ==> Holds(entries, r[k].slot)
    ensures AllValid(r)
    decreases |entries|
  {
    if entries == [] then []
    else
      var n := |entries| - 1;
      var s := Step(entries[n].bullet, w, draws[n]);
      var front := Survivors(entries[..n], w, draws[..n]);
      var r := front + (if s.alive then [Entry(entries[n].slot, s.bullet)] else []);
      assert forall k :: 0 <= k < |r| ==> Holds(entries, r[k].slot) by {
        forall k | 0 <= k < |r| ensures Holds(entries, r[k].slot) {
          if k < |front| {
            var j :| 0 <= j < n && entries[..n][j].slot == front[k].slot;
            assert entries[j].slot == r[k].slot;
          } else {
            assert entries[n].slot == r[k].slot;
          }
        }
      }
      r
  }

  /** The entry at list position `j` after its own step. */
  function Pick(entries: seq<Entry>, w: World, draws: seq<Draws>, j: int): Entry
    requires |draws| == |entries| && AllValid(entries) && 0 <= j < |entries|
    requires IsNorm(w.norm) && w.speedModifier != 0.0
  {
    Entry(entries[j].slot, Step(entries[j].bullet, w, draws[j]).bullet)
  }

  /** The bullet at list position `j` survives its own step. */
  predicate Lives(entries: seq<Entry>, w: World, draws: seq<Draws>, j: int)
    requires |draws| == |entries| && AllValid(entries) && 0 <= j < |entries|
    requires IsNorm(w.norm) && w.speedModifier != 0.0
  {
    Step(entries[j].bullet, w, draws[j]).alive
  }

  /** Every entry after its own step, in list order. */
  function Candidates(entries: seq<Entry>, w: World, draws: seq<Draws>): (c: seq<Entry>)
    requires |draws| == |entries| && AllValid(entries)
    requires IsNorm(w.norm) && w.speedModifier != 0.0
    ensures |c| == |entries|
    ensures forall j :: 0 <= j < |entries| ==> c[j] == Pick(entries, w, draws, j)
  {
    seq(|entries|, j requires 0 <= j < |entries| => Pick(entries, w, draws, j))
  }

  /** Whether each entry survives its own step, in list order. */
  function Keeps(entries: seq<Entry>, w: World, draws: seq<Draws>): (c: seq<bool>)
    requires |draws| == |entries| && AllValid(entries)
    requires IsNorm(w.norm) && w.speedModifier != 0.0
    ensures |c| == |entries|
    ensures forall j :: 0 <= j < |entries| ==> c[j] == Lives(entries, w, draws, j)
  {
    seq(|entries|, j requires 0 <= j < |entries| => Lives(entries, w, draws, j))
  }

  /**
   * `r` is the subsequence of `cand` at the rising positions `idx`, which
   * are exactly the positions `keep` marks.
   */
  predicate Selects(r: seq<Entry>, cand: seq<Entry>, keep: seq<bool>, idx: seq<int>)
  {
    && |keep| == |cand|
    && |idx| == |r|
    && (forall k :: 0 <= k < |idx| ==> 0 <= idx[k] < |cand| && r[k] == cand[idx[k]])
    && (forall k, k' :: 0 <= k < k' < |idx| ==> idx[k] < idx[k'])
    && (forall j :: 0 <= j < |cand| ==> (keep[j] <==> j in idx))
  }

  /**
   * The survivors of a tick are exactly the entries whose own step lives,
   * in list order, each with the bullet its step produced: `idx` lists
   * their positions.
   */
  lemma {:induction false} SurvivorsInOrder(entries: seq<Entry>, w: World, draws: seq<Draws>) returns (idx: seq<int>)
    requires |draws| == |entries| && AllValid(entries)
    requires IsNorm(w.norm) && w.speedModifier != 0.0
    ensures Selects(Survivors(entries, w, draws), Candidates(entries, w, draws), Keeps(entries, w, draws), idx)
    decreases |entries|
  {
    if entries == [] {
      idx := [];
    } else {
      var n := |entries| - 1;
      var fidx := SurvivorsInOrder(entries[..n], w, draws[..n]);
      SurvivorsLast(entries, w, draws);
      PrefixCandidates(entries, w, draws, n);
      var cand, keep := Candidates(entries, w, draws), Keeps(entries, w, draws);
      idx := fidx + (if keep[n] then [n] else []);
      SelectsExtend(Survivors(entries, w, draws), Survivors(entries[..n], w, draws[..n]), cand, keep, fidx);
    }
  }

  /** The survivors of a list are those of all but its last entry, then the last one if it lives. */
  lemma SurvivorsLast(entries: seq<Entry>, w: World, draws: seq<Draws>)
    requires |draws| == |entries| && AllValid(entries) && entries != []
    requires IsNorm(w.norm) && w.speedModifier != 0.0
    ensures var n := |entries| - 1;
            Survivors(entries, w, draws) == Survivors(entries[..n], w, draws[..n])
              + (if Keeps(entries, w, draws)[n] then [Candidates(entries, w, draws)[n]] else [])
  {
  }

  /** The candidates and keeps of the first `n` entries are the first `n` of the list's. */
  lemma PrefixCandidates(entries: seq<Entry>, w: World, draws: seq<Draws>, n: nat)
    requires |draws| == |entries| && AllValid(entries) && n <= |entries|
    requires IsNorm(w.norm) && w.speedModifier != 0.0
    ensures Candidates(entries[..n], w, draws[..n]) == Candidates(entries, w, draws)[..n]
    ensures Keeps(entries[..n], w, draws[..n]) == Keeps(entries, w, draws)[..n]
  {
    forall j | 0 <= j < n
      ensures Pick(entries[..n], w, draws[..n], j) == Pick(entries, w, draws, j)
      ensures Lives(entries[..n], w, draws[..n], j) == Lives(entries, w, draws, j)
    {
      assert entries[..n][j] == entries[j] && draws[..n][j] == draws[j];
    }
  }

  /** Selecting from one more candidate: it goes last exactly when it is kept. */
  lemma SelectsExtend(r: seq<Entry>, front: seq<Entry>, cand: seq<Entry>, keep: seq<bool>, fidx: seq<int>)
    requires |cand| == |keep| > 0
    requires Selects(front, cand[..|cand| - 1], keep[..|cand| - 1], fidx)
    requires r == front + (if keep[|cand| - 1] then [cand[|cand| - 1]] else [])
    ensures Selects(r, cand, keep, fidx + (if keep[|cand| - 1] then [|cand| - 1] else []))
  {
    var n := |cand| - 1;
    var idx := fidx + (if keep[n] then [n] else []);
    forall k | 0 <= k < |fidx|
      ensures 0 <= idx[k] < n && r[k] == cand[idx[k]]
    {
      assert r[k] == front[k] && cand[..n][fidx[k]] == cand[fidx[k]];
    }
    forall j | 0 <= j < n
      ensures keep[j] <==> j in idx
    {
      assert keep[..n][j] == keep[j];
      assert j in idx <==> j in fidx;
    }
  }

  /** The damage dispatched by one tick, in list order. */
  function TickHits(entries: seq<Entry>, w: World, draws: seq<Draws>): seq<Hit>
    requires |draws| == |entries| && AllValid(entries)
    requires IsNorm(w.norm) && w.speedModifier != 0.0
    decreases |entries|
  {
    if entries == [] then []
    else
      var n := |entries| - 1;
      TickHits(entries[..n], w, draws[..n]) + Step(entries[n].bullet, w, draws[n]).hits
  }

  lemma RemoveSlotAppend(a: seq<Entry>, b: seq<Entry>, slot: nat)
    ensures RemoveSlot(a + b, slot) == RemoveSlot(a, slot) + RemoveSlot(b, slot)
    decreases |a|
  {
    if a == [] {
      assert a + b == b;
    } else {
      var head := if a[0].slot == slot then [] else [a[0]];
      assert (a + b)[0] == a[0];
      assert (a + b)[1..] == a[1..] + b;
      RemoveSlotAppend(a[1..], b, slot);
      calc {
        RemoveSlot(a + b, slot);
        head + RemoveSlot(a[1..] + b, slot);
        head + (RemoveSlot(a[1..], slot) + RemoveSlot(b, slot));
        (head + RemoveSlot(a[1..], slot)) + RemoveSlot(b, slot);
        RemoveSlot(a, slot) + RemoveSlot(b, slot);
      }
    }
  }

  lemma RemoveSlotAbsent(a: seq<Entry>, slot: nat)
    requires !Holds(a, slot)
    ensures RemoveSlot(a, slot) == a
    decreases |a|
  {
    if a != [] {
      assert a[0].slot != slot;
      forall k | 0 <= k < |a[1..]| ensures a[1..][k].slot != slot {
        assert a[1..][k] == a[k + 1];
      }
      RemoveSlotAbsent(a[1..], slot);
    }
  }

  lemma RemoveSingle(e: Entry)
    ensures RemoveSlot([e], e.slot) == []
  {
    assert [e][1..] == [];
  }

  /** Removing the slot of the middle entry of a list with unique slots removes exactly it. */
  lemma RemoveMiddle(front: seq<Entry>, e: Entry, back: seq<Entry>)
    requires !Holds(front, e.slot) && !Holds(back, e.slot)
    ensures RemoveSlot(front + [e] + back, e.slot) == front + back
  {
    var slot := e.slot;
    RemoveSlotAppend(front, [e], slot);
    RemoveSlotAbsent(front, slot);
    RemoveSingle(e);
    var left := RemoveSlot(front + [e], slot);
    assert left == front + [];
    RemoveSlotAppend(front + [e], back, slot);
    RemoveSlotAbsent(back, slot);
  }

  lemma UniqueSplit(entries: seq<Entry>, i: nat)
    requires UniqueSlots(entries) && i < |entries|
    ensures !Holds(entries[..i], entries[i].slot)
    ensures !Holds(entries[i + 1..], entries[i].slot)
  {
    forall j | 0 <= j < i ensures entries[..i][j].slot != entries[i].slot {
      assert entries[..i][j] == entries[j];
    }
    var back := entries[i + 1..];
    forall j | 0 <= j < |back| ensures back[j].slot != entries[i].slot {
      assert back[j] == entries[i + 1 + j];
    }
  }

  /** Dropping the bullet at walk position `i` leaves the kept prefix and the unvisited rest. */
  lemma DropCurrent(cur: Registry, kept: seq<Entry>, all: seq<Entry>, i: nat)
    requires UniqueSlots(all) && i < |all|
    requires forall k :: 0 <= k < |kept| ==> Holds(all[..i], kept[k].slot)
    requires cur.entries == kept + all[i..]
    ensures Holds(cur.entries, all[i].slot)
    ensures RemoveBullet(cur, all[i].slot).entries == kept + all[i + 1..]
  {
    var e := all[i];
    var rest := all[i + 1..];
    SplitAt(all, i);
    assert cur.entries == kept + [e] + rest;
    assert cur.entries[|kept|] == e;
    UniqueSplit(all, i);
    forall k | 0 <= k < |kept| ensures kept[k].slot != e.slot {
      var j :| 0 <= j < |all[..i]| && all[..i][j].slot == kept[k].slot;
      assert all[..i][j] == all[j];
    }
    RemoveMiddle(kept, e, rest);
  }

  lemma SplitAt(all: seq<Entry>, i: nat)
    requires i < |all|
    ensures all[i..] == [all[i]] + all[i + 1..]
  {
  }

  /** One more entry of the tick: its survivor (if any) and its hits go last. */
  lemma TickExtend(all: seq<Entry>, w: World, draws: seq<Draws>, i: nat)
    requires |draws| == |all| && AllValid(all) && i < |all|
    requires IsNorm(w.norm) && w.speedModifier != 0.0
    ensures var s := Step(all[i].bullet, w, draws[i]);
            && Survivors(all[..i + 1], w, draws[..i + 1]) ==
                 Survivors(all[..i], w, draws[..i]) + (if s.alive then [Entry(all[i].slot, s.bullet)] else [])
            && TickHits(all[..i + 1], w, draws[..i + 1]) == TickHits(all[..i], w, draws[..i]) + s.hits
  {
    assert all[..i + 1][..i] == all[..i];
    assert draws[..i + 1][..i] == draws[..i];
    assert all[..i + 1][i] == all[i];
  }

  /** The list's prefix keeps slots unique. */
  lemma UniquePrefix(entries: seq<Entry>, n: nat)
    requires UniqueSlots(entries) && n <= |entries|
    ensures UniqueSlots(entries[..n])
  {
    forall i, j | 0 <= i < j < n ensures entries[..n][i].slot != entries[..n][j].slot {
      assert entries[..n][i] == entries[i] && entries[..n][j] == entries[j];
    }
  }

  /** A tick keeps the slots of the list unique. */
  lemma {:induction false} SurvivorsUnique(entries: seq<Entry>, w: World, draws: seq<Draws>)
    requires |draws| == |entries| && AllValid(entries) && UniqueSlots(entries)
    requires IsNorm(w.norm) && w.speedModifier != 0.0
    ensures UniqueSlots(Survivors(entries, w, draws))
    decreases |entries|
  {
    if entries != [] {
      var n := |entries| - 1;
      var front := Survivors(entries[..n], w, draws[..n]);
      UniquePrefix(entries, n);
      SurvivorsUnique(entries[..n], w, draws[..n]);
      SurvivorsLast(entries, w, draws);
      if Keeps(entries, w, draws)[n] {
        AppendUnique(front, Candidates(entries, w, draws)[n], entries, n);
      } else {
        assert Survivors(entries, w, draws) == front + [];
      }
    }
  }

  /** An entry for the last slot of a list with unique slots extends survivors drawn from before it. */
  lemma AppendUnique(front: seq<Entry>, e: Entry, entries: seq<Entry>, n: nat)
    requires UniqueSlots(entries) && n < |entries| && e.slot == entries[n].slot
    requires UniqueSlots(front)
    requires forall k :: 0 <= k < |front| ==> Holds(entries[..n], front[k].slot)
    ensures UniqueSlots(front + [e])
  {
    var r := front + [e];
    forall i, j | 0 <= i < j < |r| ensures r[i].slot != r[j].slot {
      if j == |front| {
        var k :| 0 <= k < n && entries[..n][k].slot == front[i].slot;
        assert entries[..n][k] == entries[k];
      } else {
        assert r[i] == front[i] && r[j] == front[j];
      }
    }
  }

  /**
   * `Think`: steps every bullet in list order, removing each one whose step
   * failed (the next slot is taken before the removal, so the walk visits
   * every bullet once), then re-arms the tick only if bullets remain.  The
   * engine clears a scheduled think before running it.
   */
  method Think(reg: Registry, w: World, draws: seq<Draws>) returns (r: Registry, hits: seq<Hit>)
    requires |draws| == |reg.entries| && AllValid(reg.entries) && UniqueSlots(reg.entries)
    requires IsNorm(w.norm) && w.speedModifier != 0.0
    ensures r.entries == Survivors(reg.entries, w, draws)
    ensures hits == TickHits(reg.entries, w, draws)
    ensures Consistent(r) && UniqueSlots(r.entries) && AllValid(r.entries)
  {
    var all := reg.entries;
    var cur := Registry(all, false);
    hits := [];
    var i := 0;
    assert all[..0] == [] && draws[..0] == [] && all[0..] == all;
    while i < |all|
      invariant 0 <= i <= |all|
      invariant cur.entries == Survivors(all[..i], w, draws[..i]) + all[i..]
      invariant hits == TickHits(all[..i], w, draws[..i])
    {
      var rest := all[i + 1..];
      SplitAt(all, i);
      var kept := Survivors(all[..i], w, draws[..i]);
      var s := Step(all[i].bullet, w, draws[i]);
      TickExtend(all, w, draws, i);
      hits := hits + s.hits;
      if s.alive {
        cur := cur.(entries := kept + [Entry(all[i].slot, s.bullet)] + rest);
      } else {
        DropCurrent(cur, kept, all, i);
        cur := RemoveBullet(cur, all[i].slot);
        assert kept + [] == kept;
      }
      assert cur.entries == Survivors(all[..i + 1], w, draws[..i + 1]) + all[i + 1..];
      i := i + 1;
      assert cur.entries == Survivors(all[..i], w, draws[..i]) + all[i..];
    }
    assert all[..|all|] == all;
    assert draws[..|all|] == draws;
    r := cur.(armed := |cur.entries| > 0);
    SurvivorsUnique(all, w, draws);
  }
}

module RegistryProperties {
  import opened Geometry
  import opened Bullets
  import opened BulletRegistry

  /**
   * After a tick, a bullet's slot is still in the list exactly when its
   * step succeeded.
   */
  lemma {:induction false} SurvivesIff(entries: seq<Entry>, w: World, draws: seq<Draws>, i: nat)
    requires |draws| == |entries| && AllValid(entries) && UniqueSlots(entries) && i < |entries|
    requires IsNorm(w.norm) && w.speedModifier != 0.0
    ensures Holds(Survivors(entries, w, draws), entries[i].slot) <==> Step(entries[i].bullet, w, draws[i]).alive
    decreases |entries|
  {
    var n := |entries| - 1;
    var front := Survivors(entries[..n], w, draws[..n]);
    var s := Step(entries[n].bullet, w, draws[n]);
    var last := if s.alive then [Entry(entries[n].slot, s.bullet)] else [];
    var r := Survivors(entries, w, draws);
    assert r == front + last;
    UniquePrefix(entries, n);
    if i == n {
      if s.alive {
        assert r[|front|].slot == entries[i].slot;
      } else {
        forall k | 0 <= k < |r| ensures r[k].slot != entries[i].slot {
          var j :| 0 <= j < n && entries[..n][j].slot == front[k].slot;
          assert entries[..n][j] == entries[j];
        }
      }
    } else {
      assert entries[..n][i] == entries[i] && draws[..n][i] == draws[i];
      SurvivesIff(entries[..n], w, draws[..n], i);
      assert entries[n].slot != entries[i].slot;
      forall k | |front| <= k < |r| ensures r[k].slot == entries[n].slot {
        assert r[k] == last[k - |front|];
      }
      if Holds(r, entries[i].slot) {
        var k :| 0 <= k < |r| && r[k].slot == entries[i].slot;
        assert r[k] == front[k];
      }
      if Holds(front, entries[i].slot) {
        var k :| 0 <= k < |front| && front[k].slot == entries[i].slot;
        assert r[k] == front[k];
      }
    }
  }
}
