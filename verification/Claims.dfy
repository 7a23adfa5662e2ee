/** Jobs are opaque identities: closure storage and vtables are not modelled. */
module Jobs {
  type Job = nat

  datatype Option<+T> = None | Some(value: T)
}

/**
 Claims on a ring: a taker owns the cursors `[start, start + |promise|)` from the moment its
 compare-and-swap succeeds until it publishes `stolen`. `promise` records the items that were
 abstractly removed at that moment, `got` the values actually read out of the slots so far.
 Pending claims are kept in claim order.
 */
module Claims {
  import opened Jobs

  datatype Claim = Claim(taker: nat, start: nat, promise: seq<Job>, got: seq<Job>) {
    function End(): nat {
      start + |promise|
    }
  }

  /** The claims are adjacent, nonempty, and together cover exactly `[lo, hi)`. */
  ghost predicate Tiles(cs: seq<Claim>, lo: nat, hi: nat) {
    if cs == [] then lo == hi
    else cs[0].start == lo && cs[0].promise != [] && Tiles(cs[1..], cs[0].End(), hi)
  }

  /** What was read so far is what was promised, and the rest is still in the ring. */
  ghost predicate Kept(c: Claim, mem: seq<Job>) {
    && c.got <= c.promise
    && c.End() <= |mem|
    && mem[c.start..c.End()] == c.promise
  }

  ghost predicate AllKept(cs: seq<Claim>, mem: seq<Job>) {
    forall c :: c in cs ==> Kept(c, mem)
  }

  /** A taker works on one claim of a ring at a time. */
  ghost predicate OneEach(cs: seq<Claim>) {
    forall i, j :: 0 <= i < j < |cs| ==> cs[i].taker != cs[j].taker
  }

  ghost predicate Engaged(cs: seq<Claim>, t: nat) {
    exists c :: c in cs && c.taker == t
  }

  lemma {:induction false} TilesBounds(cs: seq<Claim>, lo: nat, hi: nat, i: nat)
    requires Tiles(cs, lo, hi) && i < |cs|
    ensures lo <= cs[i].start < cs[i].End() <= hi
    ensures i == 0 <==> cs[i].start == lo
    ensures i > 0 ==> cs[i - 1].End() == cs[i].start
  {
    if i > 0 {
      TilesBounds(cs[1..], cs[0].End(), hi, i - 1);
    } else if |cs| > 1 {
      TilesBounds(cs[1..], cs[0].End(), hi, 0);
      TilesOrder(cs[1..], cs[0].End(), hi);
    }
  }

  lemma {:induction false} TilesOrder(cs: seq<Claim>, lo: nat, hi: nat)
    requires Tiles(cs, lo, hi)
    ensures lo <= hi
    ensures lo < hi <==> cs != []
  {
    if cs != [] {
      TilesOrder(cs[1..], cs[0].End(), hi);
    }
  }

  lemma {:induction false} TilesAppend(cs: seq<Claim>, lo: nat, hi: nat, c: Claim)
    requires Tiles(cs, lo, hi) && c.start == hi && c.promise != []
    ensures Tiles(cs + [c], lo, c.End())
  {
    if cs == [] {
      assert (cs + [c])[1..] == [];
    } else {
      TilesAppend(cs[1..], cs[0].End(), hi, c);
      assert (cs + [c])[1..] == cs[1..] + [c];
    }
  }

  /** Reading a slot changes no claim's range. */
  lemma {:induction false} TilesUpdate(cs: seq<Claim>, lo: nat, hi: nat, i: nat, c: Claim)
    requires Tiles(cs, lo, hi) && i < |cs|
    requires c.start == cs[i].start && c.promise == cs[i].promise
    ensures Tiles(cs[i := c], lo, hi)
  {
    if i == 0 {
      assert cs[i := c][1..] == cs[1..];
    } else {
      TilesUpdate(cs[1..], cs[0].End(), hi, i - 1, c);
      assert cs[i := c][1..] == cs[1..][i - 1 := c];
    }
  }

  /** A ring write at or above `hi` disturbs no claim. */
  lemma SoundByPrefix(cs: seq<Claim>, lo: nat, hi: nat, mem: seq<Job>, mem': seq<Job>)
    requires Sound(cs, lo, hi, mem)
    requires hi <= |mem| && hi <= |mem'| && mem[..hi] == mem'[..hi]
    ensures Sound(cs, lo, hi, mem')
  {
    forall c | c in cs
      ensures Kept(c, mem')
    {
      var i :| 0 <= i < |cs| && cs[i] == c;
      TilesBounds(cs, lo, hi, i);
      SliceOfPrefix(mem, mem', hi, c.start, c.End());
    }
  }

  lemma Join(mem: seq<Job>, i: nat, j: nat, k: nat)
    requires i <= j <= k <= |mem|
    ensures mem[i..k] == mem[i..j] + mem[j..k]
  {
  }

  lemma Front(taken: seq<Job>, rest: seq<Job>)
    ensures taken <= taken + rest && (taken + rest)[|taken|..] == rest
  {
  }

  lemma SliceOfPrefix(a: seq<Job>, b: seq<Job>, hi: nat, i: nat, j: nat)
    requires i <= j <= hi <= |a| && hi <= |b| && a[..hi] == b[..hi]
    ensures a[i..j] == b[i..j]
  {
    assert a[i..j] == a[..hi][i..j];
    assert b[i..j] == b[..hi][i..j];
  }

  /** Only the oldest claim starts where publication stands: release is in claim order. */
  lemma ReleaseIsFirst(cs: seq<Claim>, lo: nat, hi: nat, i: nat)
    requires Tiles(cs, lo, hi) && i < |cs| && cs[i].start == lo
    ensures i == 0
  {
    TilesBounds(cs, lo, hi, i);
  }

  lemma OneEachAppend(cs: seq<Claim>, c: Claim)
    requires OneEach(cs) && !Engaged(cs, c.taker)
    ensures OneEach(cs + [c])
  {
    forall i, j | 0 <= i < j < |cs + [c]|
      ensures (cs + [c])[i].taker != (cs + [c])[j].taker
    {
      assert cs[i] in cs;
    }
  }

  /** Publishing the oldest claim leaves the others as they were. */
  lemma DropOldest(cs: seq<Claim>, lo: nat, hi: nat, mem: seq<Job>)
    requires Sound(cs, lo, hi, mem) && cs != []
    ensures Sound(cs[1..], cs[0].End(), hi, mem) && Kept(cs[0], mem)
    ensures lo < cs[0].End() <= hi
    ensures cs[..0] + cs[0 + 1..] == cs[1..]
    ensures !Engaged(cs[1..], cs[0].taker)
  {
    TilesOrder(cs[1..], cs[0].End(), hi);
    var rest := cs[1..];
    assert forall k :: 0 <= k < |rest| ==> rest[k] == cs[k + 1];
    hide Tiles, Kept;
  }

  /** The claims of a ring whose cursors are `lo` and `hi` and whose written values are `mem`. */
  ghost predicate Sound(cs: seq<Claim>, lo: nat, hi: nat, mem: seq<Job>) {
    Tiles(cs, lo, hi) && AllKept(cs, mem) && OneEach(cs)
  }

  /** A new claim of `[hi, c.End())` joins at the end. */
  lemma AddClaim(cs: seq<Claim>, lo: nat, hi: nat, mem: seq<Job>, c: Claim)
    requires Sound(cs, lo, hi, mem) && !Engaged(cs, c.taker)
    requires c.start == hi && c.promise != [] && c.got == [] && c.End() <= |mem| && c.promise == mem[hi..c.End()]
    ensures Sound(cs + [c], lo, c.End(), mem)
  {
    TilesAppend(cs, lo, hi, c);
    OneEachAppend(cs, c);
    hide Tiles, OneEach, Engaged;
  }

  /** Claim `i` reads its next slot, which holds the value it was promised. */
  lemma ReadOne(cs: seq<Claim>, lo: nat, hi: nat, mem: seq<Job>, i: nat)
    requires Sound(cs, lo, hi, mem) && hi <= |mem| && i < |cs| && |cs[i].got| < |cs[i].promise|
    ensures cs[i].start + |cs[i].got| < hi
    ensures mem[cs[i].start + |cs[i].got|] == cs[i].promise[|cs[i].got|]
    ensures cs[i].got + [cs[i].promise[|cs[i].got|]] == cs[i].promise[..|cs[i].got| + 1]
    ensures Sound(cs[i := cs[i].(got := cs[i].promise[..|cs[i].got| + 1])], lo, hi, mem)
  {
    var c := cs[i];
    var k := |c.got|;
    assert c in cs;
    assert Kept(c, mem);
    TilesBounds(cs, lo, hi, i);
    assert mem[c.start + k] == mem[c.start..c.End()][k];
    assert c.got + [c.promise[k]] == c.promise[..k + 1];
    TilesUpdate(cs, lo, hi, i, c.(got := c.promise[..k + 1]));
    hide Tiles;
  }

  /** Taker `t` has a claim, and an older one is pending before it. */
  ghost predicate Behind(cs: seq<Claim>, t: nat) {
    Engaged(cs, t) && cs != [] && cs[0].taker != t
  }

  /** A claim whose turn has not come has an older one before it. */
  lemma BehindOrTurn(cs: seq<Claim>, lo: nat, hi: nat, c: Claim)
    requires Tiles(cs, lo, hi) && OneEach(cs) && c in cs
    ensures lo <= c.start && (c.start == lo || Behind(cs, c.taker))
  {
    var i :| 0 <= i < |cs| && cs[i] == c;
    TilesBounds(cs, lo, hi, i);
    hide Tiles;
    assert i > 0 ==> cs[0].taker != cs[i].taker;
  }

  /** Exactly one pending claim, the oldest, may publish; every other waits for the one before it. */
  lemma ReleaseOrder(cs: seq<Claim>, lo: nat, hi: nat)
    requires Tiles(cs, lo, hi)
    ensures lo < hi <==> cs != []
    ensures forall i :: 0 <= i < |cs| ==> (cs[i].start == lo <==> i == 0)
    ensures forall i :: 0 < i < |cs| ==> cs[i].start == cs[i - 1].End() && cs[i - 1].start < cs[i].start
  {
    TilesOrder(cs, lo, hi);
    forall i | 0 <= i < |cs|
      ensures cs[i].start == lo <==> i == 0
      ensures i > 0 ==> cs[i].start == cs[i - 1].End() && cs[i - 1].start < cs[i].start
    {
      TilesBounds(cs, lo, hi, i);
      if i > 0 {
        TilesBounds(cs, lo, hi, i - 1);
      }
    }
  }

  function Store(mem: seq<Job>, c: nat, v: Job): seq<Job>
    requires c <= |mem|
  {
    if c < |mem| then mem[c := v] else mem + [v]
  }
}
