/**
 The walk along a microblock stream: from the tip through parent hashes, as far as the candidates of
 an anchor block go.
 */
module MicroblockWalks {
  import opened Types

  datatype Microblock = Microblock(hash: Hash, parent: Hash, sequence: nat)

  datatype WalkResult =
    | Found(accepted: set<Hash>, orphaned: set<Hash>)
    | Gap(missing: Hash, oldest: Hash, oldestSequence: nat)

  /** The first candidate with the hash. */
  function FindHash(candidates: seq<Microblock>, h: Hash): (r: Option<Microblock>)
    ensures r.Some? ==> r.value in candidates && r.value.hash == h
    ensures r.None? <==> forall m :: m in candidates ==> m.hash != h
  {
    if candidates == [] then None
    else if candidates[0].hash == h then Some(candidates[0]) else FindHash(candidates[1..], h)
  }

  /** The block reached from the tip by following n parent hashes through the candidates. */
  function Ancestor(candidates: seq<Microblock>, tip: Option<Microblock>, n: nat): Option<Microblock> {
    if n == 0 then tip
    else
      var m := Ancestor(candidates, tip, n - 1);
      if m.None? then None else FindHash(candidates, m.value.parent)
  }

  ghost predicate IsAncestor(candidates: seq<Microblock>, tip: Option<Microblock>, m: Microblock) {
    exists n: nat :: Ancestor(candidates, tip, n) == Some(m)
  }

  /** Hashes of the tip and of its parent closure among the candidates. */
  ghost predicate InClosure(candidates: seq<Microblock>, tip: Option<Microblock>, h: Hash) {
    exists m :: IsAncestor(candidates, tip, m) && m.hash == h
  }

  /** The closure stops at m: its parent is no candidate. */
  ghost predicate StopsAt(candidates: seq<Microblock>, tip: Option<Microblock>, m: Microblock) {
    IsAncestor(candidates, tip, m) && FindHash(candidates, m.parent).None?
  }

  /** A parent has a smaller sequence number than its child. */
  ghost predicate Descending(candidates: seq<Microblock>, tip: Option<Microblock>) {
    && (tip.Some? ==> forall p :: p in candidates && p.hash == tip.value.parent ==> p.sequence < tip.value.sequence)
    && (forall m, p :: m in candidates && p in candidates && p.hash == m.parent ==> p.sequence < m.sequence)
  }

  lemma {:induction false} AncestorsEnd(candidates: seq<Microblock>, tip: Option<Microblock>, m: nat, n: nat)
    requires m <= n && Ancestor(candidates, tip, m).None?
    ensures Ancestor(candidates, tip, n).None?
  {
    if m < n {
      AncestorsEnd(candidates, tip, m, n - 1);
    }
  }

  /** The closure stops in one place only. */
  lemma StopsOnce(candidates: seq<Microblock>, tip: Option<Microblock>, a: Microblock, b: Microblock)
    requires StopsAt(candidates, tip, a) && StopsAt(candidates, tip, b)
    ensures a == b
  {
    var m: nat :| Ancestor(candidates, tip, m) == Some(a);
    var n: nat :| Ancestor(candidates, tip, n) == Some(b);
    assert Ancestor(candidates, tip, m + 1).None? && Ancestor(candidates, tip, n + 1).None?;
    if m < n {
      AncestorsEnd(candidates, tip, m + 1, n);
    } else if n < m {
      AncestorsEnd(candidates, tip, n + 1, m);
    }
  }

  ghost predicate HasHash(candidates: seq<Microblock>, h: Hash) {
    exists m :: m in candidates && m.hash == h
  }

  /** What the walk must answer. */
  ghost predicate Answers(candidates: seq<Microblock>, tip: Option<Microblock>, r: WalkResult) {
    match r
    case Found(accepted, orphaned) =>
      && (forall h :: h in accepted <==> InClosure(candidates, tip, h))
      && (forall h :: h in orphaned <==> HasHash(candidates, h) && !InClosure(candidates, tip, h))
    case Gap(missing, oldest, sequence) =>
      && sequence != 0
      && StopsAt(candidates, tip, Microblock(oldest, missing, sequence))
  }

  ghost predicate HasGap(candidates: seq<Microblock>, tip: Option<Microblock>) {
    exists m :: StopsAt(candidates, tip, m) && m.sequence != 0
  }

  /** All hashes of the first n ancestors. */
  ghost predicate Collected(candidates: seq<Microblock>, tip: Option<Microblock>, n: nat, accepted: set<Hash>) {
    && (forall h :: h in accepted ==> InClosure(candidates, tip, h))
    && (forall i: nat :: i < n && Ancestor(candidates, tip, i).Some? ==>
          Ancestor(candidates, tip, i).value.hash in accepted)
  }

  lemma CollectedAll(candidates: seq<Microblock>, tip: Option<Microblock>, n: nat, accepted: set<Hash>)
    requires Collected(candidates, tip, n, accepted) && Ancestor(candidates, tip, n).None?
    ensures forall h :: h in accepted <==> InClosure(candidates, tip, h)
  {
    forall h | InClosure(candidates, tip, h)
      ensures h in accepted
    {
      var m :| IsAncestor(candidates, tip, m) && m.hash == h;
      var i: nat :| Ancestor(candidates, tip, i) == Some(m);
      if n <= i {
        AncestorsEnd(candidates, tip, n, i);
      }
    }
  }

  /** Without a gap the walk ends at sequence 0, or there was nothing to walk. */
  lemma EndedWell(candidates: seq<Microblock>, tip: Option<Microblock>, n: nat)
    requires Ancestor(candidates, tip, n).None?
    requires n > 0 ==> Ancestor(candidates, tip, n - 1).Some? && Ancestor(candidates, tip, n - 1).value.sequence == 0
    ensures !HasGap(candidates, tip)
  {
    if HasGap(candidates, tip) {
      var m :| StopsAt(candidates, tip, m) && m.sequence != 0;
      var i: nat :| Ancestor(candidates, tip, i) == Some(m);
      if n == 0 {
        AncestorsEnd(candidates, tip, 0, i);
      } else {
        StopsOnce(candidates, tip, m, Ancestor(candidates, tip, n - 1).value);
      }
    }
  }

  /** Candidates that were not accepted. */
  method Rest(candidates: seq<Microblock>, accepted: set<Hash>) returns (orphaned: set<Hash>)
    ensures forall h :: h in orphaned <==> HasHash(candidates, h) && h !in accepted
  {
    orphaned := {};
    for i := 0 to |candidates|
      invariant forall h :: h in orphaned <==> HasHash(candidates[..i], h) && h !in accepted
    {
      if candidates[i].hash !in accepted {
        orphaned := orphaned + {candidates[i].hash};
      }
      var before, after := candidates[..i], candidates[..i + 1];
      assert after == before + [candidates[i]];
      assert forall m :: m in after <==> m in before || m == candidates[i];
      forall h
        ensures HasHash(after, h) <==> HasHash(before, h) || h == candidates[i].hash
      {
        assert candidates[i] in after;
      }
    }
    assert candidates[..|candidates|] == candidates;
  }

  lemma CollectStep(candidates: seq<Microblock>, tip: Option<Microblock>, n: nat, accepted: set<Hash>)
    requires Collected(candidates, tip, n, accepted) && Ancestor(candidates, tip, n).Some?
    ensures Collected(candidates, tip, n + 1, accepted + {Ancestor(candidates, tip, n).value.hash})
    ensures IsAncestor(candidates, tip, Ancestor(candidates, tip, n).value)
    ensures Ancestor(candidates, tip, n + 1) == FindHash(candidates, Ancestor(candidates, tip, n).value.parent)
  {
    assert IsAncestor(candidates, tip, Ancestor(candidates, tip, n).value);
  }

  /** The walk, up to its end or the gap. */
  method Walk(candidates: seq<Microblock>, tip: Option<Microblock>) returns (accepted: set<Hash>,
              gap: Option<Microblock>)
    requires Descending(candidates, tip)
    ensures gap.Some? ==> gap.value.sequence != 0 && StopsAt(candidates, tip, gap.value)
    ensures gap.None? ==> !HasGap(candidates, tip) && forall h :: h in accepted <==> InClosure(candidates, tip, h)
  {
    var prev := tip;
    accepted := {};
    ghost var n: nat := 0;
    while prev.Some?
      invariant prev == Ancestor(candidates, tip, n)
      invariant prev == tip || (prev.Some? ==> prev.value in candidates)
      invariant Collected(candidates, tip, n, accepted)
      invariant prev.None? && n > 0 ==>
        Ancestor(candidates, tip, n - 1).Some? && Ancestor(candidates, tip, n - 1).value.sequence == 0
      decreases prev.Some?, if prev.Some? then prev.value.sequence else 0
    {
      CollectStep(candidates, tip, n, accepted);
      accepted := accepted + {prev.value.hash};
      var found := FindHash(candidates, prev.value.parent);
      if found.None? && prev.value.sequence != 0 {
        return accepted, prev;
      }
      prev, n := found, n + 1;
    }
    CollectedAll(candidates, tip, n, accepted);
    EndedWell(candidates, tip, n);
    gap := None;
  }

  /**
   findUnanchoredMicroblocksAtChainTip: the accepted blocks are the tip and its parent closure among the
   candidates, the orphaned ones all others; a gap is reported exactly when the closure stops at a
   sequence other than 0. Sequences that grow from parent to child make the walk end.
   */
  method FindUnanchoredMicroblocks(candidates: seq<Microblock>, tip: Option<Microblock>) returns (r: WalkResult)
    requires Descending(candidates, tip)
    ensures Answers(candidates, tip, r)
    ensures r.Gap? <==> HasGap(candidates, tip)
    ensures r.Found? ==> r.accepted !! r.orphaned
  {
    var accepted, gap := Walk(candidates, tip);
    if gap.Some? {
      return Gap(gap.value.parent, gap.value.hash, gap.value.sequence);
    }
    var orphaned := Rest(candidates, accepted);
    r := Found(accepted, orphaned);
  }
}
