/**
 Epoch arithmetic. Python's `%` with a positive modulus is Dafny's; block numbers are unbounded and may
 be negative after a delay is subtracted. `None` is a raised `ValueError`.
 */
module Epochs {
  import opened Modular
  import opened Options

  datatype Epoch = Epoch(firstBlock: int, lastBlock: int) {
    predicate Contains(block: int) {
      firstBlock <= block <= lastBlock
    }

    function Previous(): Option<Epoch> {
      var span := lastBlock - firstBlock + 1;
      if span <= 0 then None
      else if firstBlock - span < 0 || lastBlock - span < 0 then None
      else Some(Epoch(firstBlock - span, lastBlock - span))
    }
  }

  function EpochContainingBlock(block: int, netuid: int, tempo: int): Option<Epoch> {
    if tempo <= 0 then None
    else
      var interval := tempo + 1;
      var next := block + tempo - (block + netuid + 1) % interval;
      if next == block then Some(Epoch(next, next + interval - 1)) else Some(Epoch(next - interval, next - 1))
  }

  /** Some whole number of intervals past the point where the first epoch of this subnet would start. */
  ghost predicate StartsEpoch(block: int, netuid: int, tempo: int)
    requires tempo > 0
  {
    (block + netuid + 2) % (tempo + 1) == 0
  }

  /** The epoch is the window of `tempo + 1` blocks around the block that starts at an epoch start. */
  lemma EpochIsWindow(block: int, netuid: int, tempo: int)
    requires tempo > 0
    ensures var e := EpochContainingBlock(block, netuid, tempo);
            e.Some? && e.value.Contains(block) && e.value.lastBlock - e.value.firstBlock == tempo
              && StartsEpoch(e.value.firstBlock, netuid, tempo)
  {
    var m := tempo + 1;
    var x := block + netuid + 1;
    ModSuccessor(x, m);
    var e := EpochContainingBlock(block, netuid, tempo).value;
    var d := block - e.firstBlock;
    assert d == (x + 1) % m;
    assert e.firstBlock + netuid + 2 == x + 1 - (x + 1) % m;
    var q := (x + 1) / m;
    assert x + 1 == q * m + (x + 1) % m;
    MultipleMod(q, m, 0);
  }

  /** Two epoch starts less than an interval apart are the same. */
  lemma StartsAreApart(a: int, b: int, netuid: int, tempo: int)
    requires tempo > 0 && StartsEpoch(a, netuid, tempo) && StartsEpoch(b, netuid, tempo) && a <= b
    ensures a == b || b - a >= tempo + 1
  {
    var m := tempo + 1;
    var p, q := (a + netuid + 2) / m, (b + netuid + 2) / m;
    assert a + netuid + 2 == p * m && b + netuid + 2 == q * m;
    if p < q {
      MultiplesApart(p, q, m);
    } else if q < p {
      MultiplesApart(q, p, m);
    }
  }

  /** Main theorem: an epoch is the epoch of exactly its own blocks. */
  lemma EpochOfItsBlocks(block: int, other: int, netuid: int, tempo: int)
    requires tempo > 0
    ensures var e := EpochContainingBlock(block, netuid, tempo).value;
            e.Contains(other) <==> EpochContainingBlock(other, netuid, tempo) == Some(e)
  {
    EpochIsWindow(block, netuid, tempo);
    EpochIsWindow(other, netuid, tempo);
    var e, f := EpochContainingBlock(block, netuid, tempo).value, EpochContainingBlock(other, netuid, tempo).value;
    if e.firstBlock <= f.firstBlock {
      StartsAreApart(e.firstBlock, f.firstBlock, netuid, tempo);
    } else {
      StartsAreApart(f.firstBlock, e.firstBlock, netuid, tempo);
    }
  }

  /** Main theorem: epochs tile the integers: disjoint, in order, and without gaps. */
  lemma EpochsTile(block: int, other: int, netuid: int, tempo: int)
    requires tempo > 0
    ensures var e, f := EpochContainingBlock(block, netuid, tempo).value,
            EpochContainingBlock(other, netuid, tempo).value;
            && (block <= other ==> e == f || e.lastBlock < f.firstBlock)
            && EpochContainingBlock(e.lastBlock + 1, netuid, tempo)
               == Some(Epoch(e.lastBlock + 1, e.lastBlock + 1 + tempo))
            && EpochContainingBlock(e.firstBlock - 1, netuid, tempo)
               == Some(Epoch(e.firstBlock - 1 - tempo, e.firstBlock - 1))
  {
    var e, f := EpochContainingBlock(block, netuid, tempo).value, EpochContainingBlock(other, netuid, tempo).value;
    EpochIsWindow(block, netuid, tempo);
    EpochIsWindow(other, netuid, tempo);
    EpochOfItsBlocks(block, other, netuid, tempo);
    if e.firstBlock <= f.firstBlock {
      StartsAreApart(e.firstBlock, f.firstBlock, netuid, tempo);
    } else {
      StartsAreApart(f.firstBlock, e.firstBlock, netuid, tempo);
    }
    Neighbour(e, e.lastBlock + 1, netuid, tempo);
    Neighbour(e, e.firstBlock - 1, netuid, tempo);
  }

  /** The epoch of a block next to an epoch starts one interval before or after it. */
  lemma Neighbour(e: Epoch, block: int, netuid: int, tempo: int)
    requires tempo > 0 && e.lastBlock - e.firstBlock == tempo && StartsEpoch(e.firstBlock, netuid, tempo)
    requires block == e.lastBlock + 1 || block == e.firstBlock - 1
    ensures EpochContainingBlock(block, netuid, tempo)
         == Some(if block > e.lastBlock then Epoch(e.lastBlock + 1, e.lastBlock + 1 + tempo)
           else Epoch(e.firstBlock - 1 - tempo, e.firstBlock - 1))
  {
    EpochIsWindow(block, netuid, tempo);
    var f := EpochContainingBlock(block, netuid, tempo).value;
    if e.firstBlock <= f.firstBlock {
      StartsAreApart(e.firstBlock, f.firstBlock, netuid, tempo);
    } else {
      StartsAreApart(f.firstBlock, e.firstBlock, netuid, tempo);
    }
    if block > e.lastBlock {
      ShiftedStart(f.firstBlock, -1, netuid, tempo);
      StartsAreApart(e.firstBlock, f.firstBlock - (tempo + 1), netuid, tempo);
    } else {
      ShiftedStart(f.firstBlock, 1, netuid, tempo);
      StartsAreApart(f.firstBlock + (tempo + 1), e.firstBlock, netuid, tempo);
    }
  }

  lemma ShiftedStart(block: int, k: int, netuid: int, tempo: int)
    requires tempo > 0 && StartsEpoch(block, netuid, tempo)
    ensures StartsEpoch(block + k * (tempo + 1), netuid, tempo)
  {
    var m := tempo + 1;
    var q := (block + netuid + 2) / m;
    assert block + netuid + 2 == q * m;
    assert block + k * m + netuid + 2 == (q + k) * m;
    MultipleMod(q + k, m, 0);
  }

  /** Main theorem: `previous` raises iff it would reach below block zero; otherwise it is the epoch before. */
  lemma PreviousIsEpochBefore(block: int, netuid: int, tempo: int)
    requires tempo > 0
    ensures var e := EpochContainingBlock(block, netuid, tempo).value;
            && (e.Previous().Some? <==> e.firstBlock >= tempo + 1)
            && (e.Previous().Some? ==> e.Previous() == EpochContainingBlock(e.firstBlock - 1, netuid, tempo))
  {
    EpochIsWindow(block, netuid, tempo);
    EpochsTile(block, block, netuid, tempo);
  }
}
