/** What the copy does to the output: while it runs every output byte is the
    original one or the input's, and a copy that ends without error has transferred
    every byte it had to and touched no other. `o` is the output before the copy. */
module DdCopy {
  import opened Arith
  import opened ByteOrder
  import opened DdModel
  import opened DdAccounting

  // ---------------------------------------------------------- the invariant

  const NONE := Claim(0, 0)

  predicate Within(h: Claim, q: nat) {
    h.offset <= q < h.offset + h.length
  }

  function ClaimOf(io: Io): Claim {
    if InChain(io) then Claim(io.offset, io.length) else NONE
  }

  predicate Disjoint(a: Claim, b: Claim) {
    a.length == 0 || b.length == 0 || a.offset + a.length <= b.offset || b.offset + b.length <= a.offset
  }

  /** A claim lies in the taken part of the region, holds only wanted bytes, starts
      on an output block, and ends on one or at the end of the region. */
  ghost predicate GoodClaim(c: Config, pos: nat, h: Claim)
    requires c.outBs > 0
  {
    h.length == 0 ||
    (&& c.inStart <= h.offset && h.offset + h.length <= pos && pos <= End(c)
     && Multiple(h.offset - c.inStart, c.outBs)
     && (Multiple(h.length, c.outBs) || h.offset + h.length == End(c))
     && forall q: nat :: Within(h, q) ==> Wanted(c, q))
  }

  /** The claims of the contexts, and `h` for one in the middle of a callback, are
      good and pairwise disjoint. */
  ghost predicate Placed(c: Config, s: State, h: Claim) {
    && ValidConfig(c)
    && c.inStart <= s.pos <= End(c)
    && GoodIos(c, s)
    && (Multiple(s.pos - c.inStart, c.outBs) || s.pos == End(c))
    && (s.pos == End(c) && c.copySize > 0 ==> Wanted(c, End(c) - 1) || DataAt(c, End(c)))
    && GoodClaim(c, s.pos, h)
    && (forall i :: 0 <= i < |s.ios| ==> GoodClaim(c, s.pos, ClaimOf(s.ios[i])) && Disjoint(ClaimOf(s.ios[i]), h))
    && (forall i, j :: 0 <= i < j < |s.ios| ==> Disjoint(ClaimOf(s.ios[i]), ClaimOf(s.ios[j])))
  }

  /** The rest of a partly claimed block, as it was on the output. */
  ghost predicate TailKept(c: Config, o: seq<Byte>, io: Io)
    requires c.outBs > 0 && c.inStart <= io.offset
  {
    forall k: nat :: io.length <= k < RoundUp(io.length, c.outBs) && k < |io.buf|
      ==> io.buf[k] == ByteAt(o, OutPos(c, io.offset) + k)
  }

  ghost predicate HoldsInput(c: Config, io: Io) {
    forall k: nat :: k < io.length && k < |io.buf| ==> io.buf[k] == ByteAt(c.input, io.offset + k)
  }

  /** What the buffer of a context holds at its stage, and what of it is on the
      output already. */
  ghost predicate Buffered(c: Config, o: seq<Byte>, out: seq<Byte>, io: Io)
    requires c.outBs > 0 && (InChain(io) ==> c.inStart <= io.offset)
  {
    match io.stage
    case Populating =>
      forall k: nat :: k in io.done && io.length <= k < |io.buf|
        ==> io.buf[k] == ByteAt(o, OutPos(c, io.offset) + k)
    case Reading =>
      && TailKept(c, o, io)
      && forall k: nat :: k in io.done && k < |io.buf| ==> io.buf[k] == ByteAt(c.input, io.offset + k)
    case Writing =>
      && TailKept(c, o, io) && HoldsInput(c, io)
      && forall k: nat :: k in io.done && k < |io.buf| ==>
           OutPos(c, io.offset) + k < |out| && ByteAt(out, OutPos(c, io.offset) + k) == io.buf[k]
    case _ => true
  }

  /** Region byte `q` has its final value on the output. */
  ghost predicate Settled(c: Config, o: seq<Byte>, out: seq<Byte>, q: nat)
    requires c.inStart <= q
  {
    if Wanted(c, q) then OutPos(c, q) < |out| && ByteAt(out, OutPos(c, q)) == ByteAt(c.input, q)
    else ByteAt(out, OutPos(c, q)) == ByteAt(o, OutPos(c, q))
  }

  ghost predicate Covered(ios: seq<Io>, h: Claim, q: nat) {
    Within(h, q) || exists i :: 0 <= i < |ios| && Within(ClaimOf(ios[i]), q)
  }

  /** No output byte outside the region has changed, and one inside is the original
      or, if it was to be copied, the input's. */
  ghost predicate Safe(c: Config, o: seq<Byte>, s: State)
    requires c.inStart <= s.pos
  {
    && (forall p: nat :: !(c.outStart <= p < c.outStart + c.copySize) ==> ByteAt(s.output, p) == ByteAt(o, p))
    && (forall q: nat :: s.pos <= q < End(c) ==> ByteAt(s.output, OutPos(c, q)) == ByteAt(o, OutPos(c, q)))
    && (forall q: nat :: c.inStart <= q < s.pos ==>
          || ByteAt(s.output, OutPos(c, q)) == ByteAt(o, OutPos(c, q))
          || (Wanted(c, q) && ByteAt(s.output, OutPos(c, q)) == ByteAt(c.input, q)))
  }

  ghost predicate Sized(c: Config, o: seq<Byte>, s: State)
    requires c.outBs > 0
  {
    |o| <= |s.output| <= Max(|o|, c.outStart + RoundUp(c.copySize, c.outBs))
  }

  /** Without an error, every taken byte is being copied or settled. */
  ghost predicate Complete(c: Config, o: seq<Byte>, s: State, h: Claim)
    requires c.inStart <= s.pos
  {
    !Halted(s) ==> forall q: nat :: c.inStart <= q < s.pos ==> Covered(s.ios, h, q) || Settled(c, o, s.output, q)
  }

  ghost predicate Copying(c: Config, o: seq<Byte>, s: State, h: Claim) {
    && Placed(c, s, h)
    && (forall i :: 0 <= i < |s.ios| ==> Buffered(c, o, s.output, s.ios[i]))
    && Safe(c, o, s)
    && Sized(c, o, s)
    && Complete(c, o, s, h)
  }

  /** All bytes of the transfer have been moved: the completion is a success. */
  ghost predicate Finished(c: Config, io: Io)
    requires c.outBs > 0
  {
    forall k: nat :: Movable(c, io, k) ==> k in io.done
  }

  // ------------------------------------------------------------ device moves

  /** Rounded up to whole blocks, two disjoint claims still have disjoint ranges. */
  lemma RoundedDisjoint(c: Config, pos: nat, a: Claim, b: Claim, j: nat, k: nat)
    requires ValidConfig(c) && GoodClaim(c, pos, a) && GoodClaim(c, pos, b) && Disjoint(a, b)
    requires a.length > 0 && b.length > 0
    requires j < RoundUp(a.length, c.outBs) && k < RoundUp(b.length, c.outBs)
    ensures a.offset + j != b.offset + k
  {
    hide RoundUp, Multiple, Sub64, NextData, NextHole;
    RoundUpBounds(a.length, c.outBs);
    RoundUpBounds(b.length, c.outBs);
  }

  /** A rounded-up claim stays inside the rounded-up region. */
  lemma RoundedInRegion(c: Config, pos: nat, h: Claim, k: nat)
    requires ValidConfig(c) && GoodClaim(c, pos, h) && h.length > 0 && k < RoundUp(h.length, c.outBs)
    ensures h.offset - c.inStart + k < RoundUp(c.copySize, c.outBs)
    ensures k >= h.length ==> h.offset - c.inStart + k >= c.copySize
  {
    hide RoundUp, Multiple, Sub64, NextData, NextHole;
    RoundUpBounds(h.length, c.outBs);
    var m := h.offset - c.inStart + RoundUp(h.length, c.outBs);
    MultipleAdd(h.offset - c.inStart, RoundUp(h.length, c.outBs), c.outBs);
    RoundUpLeast(c.copySize, c.outBs, m);
  }

  /** A context that keeps its claim, and stays good, leaves everything placed. */
  lemma SamePlaces(c: Config, s: State, r: State, h: Claim, i: nat)
    requires Placed(c, s, h) && i < |s.ios| == |r.ios| && r.pos == s.pos && r.ios == s.ios[i := r.ios[i]]
    requires ClaimOf(r.ios[i]) == ClaimOf(s.ios[i]) && GoodIo(c, r.ios[i])
    requires r.ios[i].length == s.ios[i].length && (Halted(s) ==> Halted(r))
    ensures Placed(c, r, h)
  {
    hide RoundUp, Multiple, GoodClaim, GoodIo, Disjoint, Wanted, Sub64, NextData, NextHole;
  }

  /** One byte moved by the device for the context itself. */
  lemma MoveBuffered(c: Config, o: seq<Byte>, out: seq<Byte>, io: Io, k: nat)
    requires ValidConfig(c) && InChain(io) && GoodIo(c, io) && Movable(c, io, k) && Buffered(c, o, out, io)
    requires io.stage.Populating? && k >= io.length ==>
               ByteAt(out, OutPos(c, io.offset) + k) == ByteAt(o, OutPos(c, io.offset) + k)
    ensures Buffered(c, o, MoveOutput(c, out, io, k), MoveIo(c, out, io, k))
  {
    hide RoundUp, Multiple, Sub64, NextData, NextHole;
  }

  /** The bytes that another write has put on the output are not touched. */
  lemma MoveOthers(c: Config, o: seq<Byte>, s: State, i: nat, k: nat, j: nat)
    requires Copying(c, o, s, NONE) && i < |s.ios| && InChain(s.ios[i]) && Movable(c, s.ios[i], k)
    requires j < |s.ios| && j != i
    ensures var r := Move(c, s, i, k); Buffered(c, o, r.output, r.ios[j])
  {
    hide RoundUp, Multiple, Sized, Complete, Safe, TailKept, HoldsInput, Sub64, NextData, NextHole;
    if s.ios[i].stage.Writing? && s.ios[j].stage.Writing? {
      var a, b := ClaimOf(s.ios[i]), ClaimOf(s.ios[j]);
      assert Disjoint(a, b);
      forall m: nat | m in s.ios[j].done ensures a.offset + k != b.offset + m {
        RoundedDisjoint(c, s.pos, a, b, k, m);
      }
    }
  }

  /** What a write puts on the output: the input byte inside the claim, and the
      original byte in the rest of its last block. */
  lemma WriteSafe(c: Config, o: seq<Byte>, s: State, i: nat, k: nat)
    requires Copying(c, o, s, NONE) && i < |s.ios| && s.ios[i].stage.Writing? && Movable(c, s.ios[i], k)
    ensures var r := Move(c, s, i, k); Safe(c, o, r) && Sized(c, o, r)
  {
    hide RoundUp, Multiple, Complete, Sub64, NextData, NextHole;
    var io := s.ios[i];
    var r := Move(c, s, i, k);
    RoundedInRegion(c, s.pos, ClaimOf(io), k);
    var at := OutPos(c, io.offset) + k;
    if k < io.length {
      assert Within(ClaimOf(io), io.offset + k);
      assert io.buf[k] == ByteAt(c.input, io.offset + k);
    } else {
      assert io.buf[k] == ByteAt(o, at);
    }
    assert forall p: nat :: ByteAt(r.output, p) == if p == at then io.buf[k] else ByteAt(s.output, p);
  }

  /** A device move keeps what is being copied covered and what is settled settled. */
  lemma MoveComplete(c: Config, o: seq<Byte>, s: State, i: nat, k: nat)
    requires Copying(c, o, s, NONE) && i < |s.ios| && InChain(s.ios[i]) && Movable(c, s.ios[i], k)
    ensures Complete(c, o, Move(c, s, i, k), NONE)
  {
    hide RoundUp, Multiple, Sized, Safe, TailKept, Sub64, NextData, NextHole;
    var io := s.ios[i];
    var r := Move(c, s, i, k);
    assert forall j :: 0 <= j < |s.ios| ==> ClaimOf(r.ios[j]) == ClaimOf(s.ios[j]);
    if !Halted(s) {
      forall q: nat | c.inStart <= q < s.pos
        ensures Covered(r.ios, NONE, q) || Settled(c, o, r.output, q)
      {
        if Covered(s.ios, NONE, q) {
          var j :| 0 <= j < |s.ios| && Within(ClaimOf(s.ios[j]), q);
          assert Within(ClaimOf(r.ios[j]), q);
        } else {
          assert !Within(ClaimOf(s.ios[i]), q);
          if io.stage.Writing? {
            assert OutPos(c, q) != OutPos(c, io.offset) + k by {
              if k >= io.length { RoundedInRegion(c, s.pos, ClaimOf(io), k); }
            }
          }
        }
      }
    }
  }

  lemma MoveCopies(c: Config, o: seq<Byte>, s: State, i: nat, k: nat)
    requires Copying(c, o, s, NONE) && i < |s.ios| && InChain(s.ios[i]) && Movable(c, s.ios[i], k)
    ensures Copying(c, o, Move(c, s, i, k), NONE)
  {
    hide RoundUp, Multiple, Sub64, NextData, NextHole;
    var r := Move(c, s, i, k);
    SamePlaces(c, s, r, NONE, i);
    if k >= s.ios[i].length { RoundedInRegion(c, s.pos, ClaimOf(s.ios[i]), k); }
    MoveBuffered(c, o, s.output, s.ios[i], k);
    forall j | 0 <= j < |s.ios| ensures Buffered(c, o, r.output, r.ios[j]) {
      if j != i { MoveOthers(c, o, s, i, k, j); }
    }
    if s.ios[i].stage.Writing? { WriteSafe(c, o, s, i, k); }
    MoveComplete(c, o, s, i, k);
    hide Placed, Buffered, Safe, Sized, Complete;
  }

  // --------------------------------------------------- parts of the callbacks

  /** Counters, exits and further errors do not matter to the copy. */
  lemma SameCopies(c: Config, o: seq<Byte>, s: State, r: State, h: Claim)
    requires Copying(c, o, s, h)
    requires r.ios == s.ios && r.pos == s.pos && r.output == s.output && (Halted(s) ==> Halted(r))
    ensures Copying(c, o, r, h)
  {
    hide RoundUp, Multiple, GoodIo, GoodClaim, Disjoint, Buffered, Settled, Wanted, Covered, Sub64, NextData, NextHole;
  }

  /** After an error or an interrupt a claim may be dropped. */
  lemma DropCopies(c: Config, o: seq<Byte>, s: State, r: State, h: Claim)
    requires Copying(c, o, s, h)
    requires r.ios == s.ios && r.pos == s.pos && r.output == s.output && Halted(r)
    ensures Copying(c, o, r, NONE)
  {
    hide RoundUp, Multiple, GoodIo, Buffered, Settled, Wanted, Covered, Sub64, NextData, NextHole;
  }

  /** The claim of a completed transfer is in the hands of the callback. */
  lemma ParkCopies(c: Config, o: seq<Byte>, s: State, i: nat)
    requires Copying(c, o, s, NONE) && i < |s.ios| && InChain(s.ios[i])
    ensures Copying(c, o, Park(s, i), ClaimOf(s.ios[i]))
  {
    hide RoundUp, Multiple, GoodClaim, Settled, Wanted, Sub64, NextData, NextHole;
    var r, h := Park(s, i), ClaimOf(s.ios[i]);
    assert ClaimOf(r.ios[i]) == NONE;
    forall j | 0 <= j < |s.ios| ensures Disjoint(ClaimOf(r.ios[j]), h) {
      if j < i { assert Disjoint(ClaimOf(s.ios[j]), ClaimOf(s.ios[i])); }
      else if i < j { assert Disjoint(ClaimOf(s.ios[i]), ClaimOf(s.ios[j])); }
    }
    if !Halted(s) {
      forall q: nat | c.inStart <= q < s.pos && Covered(s.ios, NONE, q) ensures Covered(r.ios, h, q) {
        var j :| 0 <= j < |s.ios| && Within(ClaimOf(s.ios[j]), q);
        if j != i { assert Within(ClaimOf(r.ios[j]), q); }
      }
    }
  }

  /** Submitting the next transfer puts the claim back into the context. */
  lemma SubmitPlaces(c: Config, s: State, h: Claim, i: nat, stage: Stage)
    requires Placed(c, s, h) && i < |s.ios| && !InChain(s.ios[i])
    requires stage.Populating? || stage.Reading? || stage.Writing?
    requires Ranged(c, s.ios[i]) && h == Claim(s.ios[i].offset, s.ios[i].length)
    ensures Placed(c, Submit(s, i, stage), NONE)
  {
    hide RoundUp, Multiple, GoodClaim, Wanted;
    var r := Submit(s, i, stage);
    GoodNone(c, s.pos);
    assert ClaimOf(r.ios[i]) == h;
    assert forall j :: 0 <= j < |s.ios| && j != i ==> r.ios[j] == s.ios[j];
  }

  lemma SubmitCopies(c: Config, o: seq<Byte>, s: State, h: Claim, i: nat, stage: Stage)
    requires Copying(c, o, s, h) && i < |s.ios| && !InChain(s.ios[i])
    requires stage.Populating? || stage.Reading? || stage.Writing?
    requires Ranged(c, s.ios[i]) && h == Claim(s.ios[i].offset, s.ios[i].length)
    requires Buffered(c, o, s.output, s.ios[i].(stage := stage, done := {}))
    ensures Copying(c, o, Submit(s, i, stage), NONE)
  {
    hide RoundUp, Multiple, GoodClaim, Settled, Wanted, Buffered, Placed;
    SubmitPlaces(c, s, h, i, stage);
    var r := Submit(s, i, stage);
    assert ClaimOf(r.ios[i]) == h;
    if !Halted(s) {
      forall q: nat | c.inStart <= q < s.pos && Covered(s.ios, h, q) ensures Covered(r.ios, NONE, q) {
        if Within(h, q) {
          assert Within(ClaimOf(r.ios[i]), q);
        } else {
          var j :| 0 <= j < |s.ios| && Within(ClaimOf(s.ios[j]), q);
          assert Within(ClaimOf(r.ios[j]), q);
        }
      }
    }
  }

  lemma GoodNone(c: Config, pos: nat)
    requires c.outBs > 0
    ensures GoodClaim(c, pos, NONE)
  {
    hide RoundUp, Multiple, Sub64, NextData, NextHole;
  }

  /** A claim whose bytes are all settled can be let go. */
  lemma SettleCopies(c: Config, o: seq<Byte>, s: State, h: Claim)
    requires Copying(c, o, s, h)
    requires forall q: nat :: Within(h, q) && c.inStart <= q ==> Settled(c, o, s.output, q)
    ensures Copying(c, o, s, NONE)
  {
    hide RoundUp, Multiple, Settled, Wanted, Buffered, GoodIo, Sub64, NextData, NextHole;
  }

  /** A finished write has settled its claim. */
  lemma WrittenIsSettled(c: Config, o: seq<Byte>, s: State, i: nat)
    requires Copying(c, o, s, NONE) && i < |s.ios| && s.ios[i].stage.Writing? && Finished(c, s.ios[i])
    ensures forall q: nat :: Within(ClaimOf(s.ios[i]), q) ==> Settled(c, o, s.output, q)
  {
    hide RoundUp, Multiple, Safe, Sized, Complete, Sub64, NextData, NextHole;
    var io := s.ios[i];
    RoundUpBounds(io.length, c.outBs);
    forall q: nat | Within(ClaimOf(io), q) ensures Settled(c, o, s.output, q) {
      var k := q - io.offset;
      assert k in io.done && OutPos(c, q) == OutPos(c, io.offset) + k;
    }
  }

  /** Moving the cursor over wanted bytes: the new claim is good and disjoint from
      the others, and its bytes are still the original ones on the output. */
  lemma TakeCopies(c: Config, o: seq<Byte>, s: State, i: nat)
    requires Copying(c, o, s, NONE) && !Halted(s) && i < |s.ios| && s.ios[i].stage.Idle?
    requires var n := Aim(c, s, i).ios[i].length;
      && n > 0 && s.pos + n <= End(c) && (Multiple(n, c.outBs) || s.pos + n == End(c))
      && (c.mode.Dense? && s.pos + n < End(c) ==> n == c.unit)
      && forall q: nat :: s.pos <= q < s.pos + n ==> Wanted(c, q)
    ensures var u := Take(Aim(c, s, i), i);
      Copying(c, o, u, Claim(u.ios[i].offset, u.ios[i].length))
  {
    hide RoundUp, Multiple, Sub64, NextData, NextHole;
    var u := Take(Aim(c, s, i), i);
    var h := Claim(u.ios[i].offset, u.ios[i].length);
    if Multiple(h.length, c.outBs) { MultipleAdd(s.pos - c.inStart, h.length, c.outBs); }
    hide RoundUp, Multiple;
    assert ClaimOf(u.ios[i]) == NONE == ClaimOf(s.ios[i]);
    forall q: nat | c.inStart <= q < u.pos ensures Covered(u.ios, h, q) || Settled(c, o, u.output, q) {
      if q < s.pos && Covered(s.ios, NONE, q) {
        var j :| 0 <= j < |s.ios| && Within(ClaimOf(s.ios[j]), q);
        assert Within(ClaimOf(u.ios[j]), q);
      }
    }
  }

  /** Moving the cursor over a hole settles its bytes. */
  lemma SkipCopies(c: Config, o: seq<Byte>, s: State, pos: nat)
    requires Copying(c, o, s, NONE) && !c.mode.Dense? && s.pos <= pos <= End(c)
    requires Multiple(pos - c.inStart, c.outBs) && DataAt(c, pos)
    requires forall q: nat :: s.pos <= q < pos ==> !Wanted(c, q)
    ensures Copying(c, o, s.(pos := pos), NONE)
  {
    hide RoundUp, Multiple, Buffered, Sub64, NextData, NextHole;
  }

  // ------------------------------------------------------------ the callbacks

  lemma ReadCopies(c: Config, o: seq<Byte>, s: State, h: Claim, i: nat, rc: int)
    requires Copying(c, o, s, h) && i < |s.ios| && s.ios[i].stage.Idle?
    requires Ranged(c, s.ios[i]) && h == Claim(s.ios[i].offset, s.ios[i].length)
    requires TailKept(c, o, s.ios[i])
    ensures Copying(c, o, TargetRead(s, i, rc), NONE)
  {
    hide RoundUp, Multiple, Sub64, NextData, NextHole;
    if !Halted(s) && rc == 0 {
      SubmitCopies(c, o, s, h, i, Reading);
    } else {
      hide Copying;
      DropCopies(c, o, s, TargetRead(s, i, rc), h);
    }
  }

  lemma WriteCopies(c: Config, o: seq<Byte>, s: State, h: Claim, i: nat, rc: int)
    requires Copying(c, o, s, h) && i < |s.ios| && s.ios[i].stage.Idle?
    requires Ranged(c, s.ios[i]) && h == Claim(s.ios[i].offset, s.ios[i].length)
    requires TailKept(c, o, s.ios[i]) && HoldsInput(c, s.ios[i])
    ensures Copying(c, o, TargetWrite(s, i, rc), NONE)
  {
    hide Copying, RoundUp, Multiple, Sub64, NextData, NextHole;
    if !Halted(s) && rc == 0 {
      var t := s.(incBytes := s.incBytes + s.ios[i].length);
      SameCopies(c, o, s, t, h);
      SubmitCopies(c, o, t, h, i, Writing);
    } else {
      DropCopies(c, o, s, TargetWrite(s, i, rc), h);
    }
  }

  /** A range that is about to be taken from the cursor is good. */
  ghost predicate Takeable(c: Config, s: State, i: nat)
    requires ValidConfig(c) && i < |s.ios| && c.inStart <= s.pos
  {
    var n := Aim(c, s, i).ios[i].length;
    && s.pos + n <= End(c) && n <= c.unit
    && (Multiple(n, c.outBs) || s.pos + n == End(c))
    && (c.mode.Dense? && s.pos + n < End(c) ==> n == c.unit)
    && forall q: nat :: s.pos <= q < s.pos + n ==> Wanted(c, q)
  }

  /** A context outside the copy chain may change as long as it stays outside. */
  lemma ReplaceCopies(c: Config, o: seq<Byte>, s: State, r: State, i: nat)
    requires Copying(c, o, s, NONE) && i < |s.ios| == |r.ios| && r.ios == s.ios[i := r.ios[i]]
    requires !InChain(s.ios[i]) && !InChain(r.ios[i]) && GoodIo(c, r.ios[i])
    requires r.pos == s.pos && r.output == s.output && (Halted(s) ==> Halted(r))
    requires c.mode.Dense? ==> s.pos == End(c) || Halted(s)
    ensures Copying(c, o, r, NONE)
  {
    hide RoundUp, Multiple, Sub64, NextData, NextHole, GoodClaim, Disjoint, Settled, Wanted, Buffered;
    assert forall j :: 0 <= j < |s.ios| ==> ClaimOf(r.ios[j]) == ClaimOf(s.ios[j]);
    assert Buffered(c, o, r.output, r.ios[i]) by { UnbufferedIsGood(c, o, r.output, r.ios[i]); }
    forall q: nat | Covered(s.ios, NONE, q) ensures Covered(r.ios, NONE, q) {
      var j :| 0 <= j < |s.ios| && Within(ClaimOf(s.ios[j]), q);
      assert Within(ClaimOf(r.ios[j]), q);
    }
  }

  lemma UnbufferedIsGood(c: Config, o: seq<Byte>, out: seq<Byte>, io: Io)
    requires c.outBs > 0 && !InChain(io)
    ensures Buffered(c, o, out, io)
  {
  }

  lemma PopulateCopies(c: Config, o: seq<Byte>, s: State, i: nat, rc: int)
    requires Copying(c, o, s, NONE) && i < |s.ios| && s.ios[i].stage.Idle?
    requires !Halted(s) ==> Takeable(c, s, i)
    requires !Halted(s) && Aim(c, s, i).ios[i].length == 0 ==> s.pos == End(c)
    ensures Copying(c, o, PopulateBuffer(c, s, i, rc), NONE)
  {
    hide RoundUp, Multiple, Sub64, NextData, NextHole;
    var t := Aim(c, s, i);
    if t.ios[i].length == 0 || Halted(s) {
      ReplaceCopies(c, o, s, t, i);
      hide Copying;
      SameCopies(c, o, t, PopulateBuffer(c, s, i, rc), NONE);
    } else {
      TakeCopies(c, o, s, i);
      var u := Take(t, i);
      var h := Claim(u.ios[i].offset, u.ios[i].length);
      RoundUpBounds(h.length, c.outBs);
      assert Multiple(h.length, c.outBs) ==> TailKept(c, o, u.ios[i]);
      assert Ranged(c, u.ios[i]);
      hide Copying, Multiple, RoundUp, TailKept;
      if Multiple(u.ios[i].length, c.outBs) {
        ReadCopies(c, o, u, h, i, rc);
      } else if rc != 0 {
        DropCopies(c, o, u, PopulateBuffer(c, s, i, rc), h);
      } else {
        SubmitCopies(c, o, u, h, i, Populating);
      }
    }
  }

  /** In a dense copy every context takes a whole unit or what is left. */
  lemma DenseTakeable(c: Config, s: State, i: nat)
    requires Placed(c, s, NONE) && BlocksFit(c) && c.mode.Dense? && i < |s.ios| && !Halted(s)
    ensures Takeable(c, s, i)
    ensures Aim(c, s, i).ios[i].length == 0 ==> s.pos == End(c)
  {
    hide RoundUp, Multiple, GoodClaim, GoodIo, Sub64, NextData, NextHole;
  }

  /** The data that a seek finds starts inside the region or right after it, on an
      output block. */
  lemma DataInRegion(c: Config, s: State)
    requires Placed(c, s, NONE) && Aligned(c) && Contained(c) && !c.mode.Dense? && s.pos < End(c)
    requires NextData(c.data, s.pos).Some?
    ensures var d := NextData(c.data, s.pos).value;
      && s.pos <= d <= End(c) && DataAt(c, d) && Multiple(d - c.inStart, c.outBs)
      && forall q: nat :: s.pos <= q < d ==> !Wanted(c, q)
  {
    hide RoundUp, Multiple, GoodClaim, GoodIo, GoodIos, Sub64, NextData, NextHole;
    var d := NextData(c.data, s.pos).value;
    assert d > End(c) ==> NextData(c.data, End(c)).Some?;
    if d > s.pos {
      assert c.data[d] != c.data[d - 1];
    }
  }

  /** The chunk from a data byte to the next hole, cut to a unit and to the region. */
  lemma SparseTakeable(c: Config, s: State, i: nat)
    requires ValidConfig(c) && BlocksFit(c) && Aligned(c) && !c.mode.Dense? && i < |s.ios|
    requires c.inStart <= s.pos <= End(c) && DataAt(c, s.pos)
    requires Multiple(s.pos - c.inStart, c.outBs)
    requires ChunkLength(c, s.pos, s.ios[i].length)
    ensures Takeable(c, s, i) && (Aim(c, s, i).ios[i].length == 0 <==> s.pos == End(c))
  {
    hide RoundUp, Multiple, Sub64, NextData, NextHole;
    RemainingZero(c, s);
    MultipleMod(0, c.outBs);
    var hole := NextHole(c.data, s.pos);
    assert hole > s.pos;
    if hole < |c.data| {
      assert c.data[hole] != c.data[hole - 1];
      MultipleSub(hole - c.inStart, s.pos - c.inStart, c.outBs);
      assert (hole - c.inStart) - (s.pos - c.inStart) == hole - s.pos;
    }
    hide Multiple;
  }

  /** Lengthening the output file with zeros changes no byte. */
  lemma ExtendCopies(c: Config, o: seq<Byte>, s: State)
    requires Copying(c, o, s, NONE)
    ensures Copying(c, o, s.(output := Extend(s.output, c.copySize + c.outStart)), NONE)
  {
    hide RoundUp, Multiple, Sub64, NextData, NextHole;
    RoundUpBounds(c.copySize, c.outBs);
    hide RoundUp, Multiple, Placed, Extend;
  }

  lemma FinalizeCopies(c: Config, o: seq<Byte>, s: State, endErr: int)
    requires Copying(c, o, s, NONE)
    ensures Copying(c, o, FinalizeOutput(c, s, endErr), NONE)
  {
    hide Copying, Extend, RoundUp, Multiple, Sub64, NextData, NextHole;
    ExtendCopies(c, o, s);
    var t := s.(output := Extend(s.output, c.copySize + c.outStart));
    var r := FinalizeOutput(c, s, endErr);
    if r.output == s.output { SameCopies(c, o, s, r, NONE); } else { SameCopies(c, o, t, r, NONE); }
  }

  /** The length of a chunk that starts at a data byte: up to the next hole, or a
      whole unit when the data goes on to the end of the region. */
  predicate ChunkLength(c: Config, pos: nat, n: nat)
    requires pos <= |c.data|
  {
    var hole := NextHole(c.data, pos);
    n == Min(c.unit, hole - pos) || (n == c.unit && hole == |c.data| && End(c) == |c.data|)
  }

  lemma ChunkCopies(c: Config, o: seq<Byte>, s: State, i: nat, n: nat, rc: int)
    requires ValidConfig(c) && c.inStart <= s.pos <= End(c)
    requires Copying(c, o, s, NONE) && BlocksFit(c) && Aligned(c) && !c.mode.Dense?
    requires i < |s.ios| && s.ios[i].stage.Idle? && !Halted(s)
    requires DataAt(c, s.pos) && Multiple(s.pos - c.inStart, c.outBs) && ChunkLength(c, s.pos, n)
    ensures Copying(c, o, PopulateBuffer(c, WithLength(s, i, n), i, rc), NONE)
  {
    hide Multiple, RoundUp, Sub64, NextHole, PopulateBuffer, Buffered, Safe, Sized, Complete, Aligned, Takeable, Remaining, GoodClaim;
    assert GoodIo(c, s.ios[i]);
    ReplaceCopies(c, o, s, WithLength(s, i, n), i);
    SparseTakeable(c, WithLength(s, i, n), i);
    PopulateCopies(c, o, WithLength(s, i, n), i, rc);
  }

  /** A context that has found data at `d`. */
  lemma DataCopies(c: Config, o: seq<Byte>, s: State, i: nat, env: Env, d: nat)
    requires ValidConfig(c) && c.inStart <= s.pos <= End(c)
    requires Copying(c, o, s, NONE) && BlocksFit(c) && Aligned(c) && !c.mode.Dense? && env.dataErr == 0
    requires i < |s.ios| && s.ios[i].stage.Idle? && !Halted(s)
    requires NextData(c.data, s.pos) == Some(d) && d <= End(c) && Multiple(d - c.inStart, c.outBs)
    ensures Copying(c, o, SeekFile(c, s, i, env), NONE)
  {
    hide Multiple, RoundUp, Sub64, NextData, NextHole, PopulateBuffer, Copying, Aligned;
    SkipCopies(c, o, s, d);
    var t := s.(pos := d);
    if env.holeErr != 0 {
      SameCopies(c, o, t, SeekFile(c, s, i, env), NONE);
    } else {
      ChunkCopies(c, o, t, i, Min(c.unit, NextHole(c.data, d) - d), env.rc);
    }
  }

  lemma SeekFileCopies(c: Config, o: seq<Byte>, s: State, i: nat, env: Env)
    requires ValidConfig(c) && c.inStart <= s.pos <= End(c)
    requires Copying(c, o, s, NONE) && BlocksFit(c) && Aligned(c) && Contained(c)
    requires c.mode.SparseFile? && i < |s.ios| && s.ios[i].stage.Idle? && !Halted(s) && s.pos < End(c)
    ensures Copying(c, o, SeekFile(c, s, i, env), NONE)
  {
    hide Multiple, RoundUp, Sub64, NextData, NextHole, PopulateBuffer, Placed, Buffered, Safe, Sized, Complete, Aligned;
    var next := NextData(c.data, s.pos);
    if env.dataErr != 0 {
      SameCopies(c, o, s, SeekFile(c, s, i, env), NONE);
    } else if next.None? {
      FinalizeCopies(c, o, s, env.endErr);
    } else {
      DataInRegion(c, s);
      DataCopies(c, o, s, i, env, next.value);
    }
  }

  /** A configuration for which the copy is correct in every run. */
  ghost predicate Copyable(c: Config) {
    ValidConfig(c) && BlocksFit(c) && Aligned(c) && Contained(c)
  }

  lemma RemainingZero(c: Config, s: State)
    requires ValidConfig(c) && c.inStart <= s.pos <= End(c)
    ensures Remaining(c, s) == 0 <==> s.pos == End(c)
  {
    hide RoundUp, Multiple, Sub64, NextData, NextHole;
  }

  lemma SeekCopies(c: Config, o: seq<Byte>, s: State, i: nat, env: Env)
    requires Copying(c, o, s, NONE) && Copyable(c)
    requires i < |s.ios| && s.ios[i].stage.Idle?
    ensures Copying(c, o, TargetSeek(c, s, i, env), NONE)
  {
    hide RoundUp, Multiple, Sub64, NextData, NextHole;
    if c.mode.Dense? {
      if !Halted(s) { DenseTakeable(c, s, i); }
      hide Copying, Takeable, PopulateBuffer;
      PopulateCopies(c, o, s, i, env.rc);
    } else {
      RemainingZero(c, s);
      hide Copying, SeekFile;
      if s.pos == End(c) || Halted(s) {
        SameCopies(c, o, s, TargetSeek(c, s, i, env), NONE);
      } else if c.mode.SparseBdev? {
        assert GoodIo(c, s.ios[i]);
        ReplaceCopies(c, o, s, TargetSeek(c, s, i, env), i);
      } else {
        SeekFileCopies(c, o, s, i, env);
      }
    }
  }

  /** What a finished transfer has put into the buffer. */
  lemma FinishedBuffer(c: Config, o: seq<Byte>, out: seq<Byte>, io: Io)
    requires ValidConfig(c) && InChain(io) && GoodIo(c, io) && Finished(c, io) && Buffered(c, o, out, io)
    ensures var idle := io.(stage := Idle, done := {});
      && Ranged(c, idle) && TailKept(c, o, idle)
      && (io.stage.Reading? ==> HoldsInput(c, idle))
  {
    hide RoundUp, Multiple, Sub64, NextData, NextHole;
    RoundUpBounds(io.length, c.outBs);
    hide RoundUp, Multiple;
  }

  /** The completion of a finished transfer goes on with the next stage. */
  lemma CompleteCopies(c: Config, o: seq<Byte>, s: State, i: nat, flagged: bool, env: Env)
    requires Copying(c, o, s, NONE) && Copyable(c)
    requires i < |s.ios| && InChain(s.ios[i]) && Finished(c, s.ios[i])
    ensures Copying(c, o, DdModel.Complete(c, s, i, flagged, env), NONE)
  {
    hide RoundUp, Multiple, Sub64, NextData, NextHole, TargetSeek, TargetRead, TargetWrite, Settled, TailKept, HoldsInput,
      Finished, Ranged, Safe, Sized, Complete, GoodClaim, Disjoint, Buffered, Contained, Aligned;
    var h := ClaimOf(s.ios[i]);
    assert GoodIo(c, s.ios[i]);
    ParkCopies(c, o, s, i);
    FinishedBuffer(c, o, s.output, s.ios[i]);
    if s.ios[i].stage.Writing? { WrittenIsSettled(c, o, s, i); }
    var t := Park(s, i).(outstanding := s.outstanding - 1, error := if flagged then -ENOSPC else s.error);
    SameCopies(c, o, Park(s, i), t, h);
    match s.ios[i].stage
    case Populating => ReadCopies(c, o, t, h, i, env.rc);
    case Reading => WriteCopies(c, o, t, h, i, env.rc);
    case _ =>
      SettleCopies(c, o, t, h);
      SeekCopies(c, o, t, i, env);
  }

  // ------------------------------------------------------------ steps and runs

  /** Completions report transfers that the device has finished. */
  ghost predicate Faithful(c: Config, s: State, e: Event)
    requires Shape(c, s) && Enabled(c, s, e)
  {
    e.Completion? ==> Finished(c, s.ios[e.i])
  }

  lemma StepCopies(c: Config, o: seq<Byte>, s: State, e: Event)
    requires Copying(c, o, s, NONE) && Copyable(c) && !c.mode.SparseBdev?
    requires forall i :: 0 <= i < |s.ios| ==> !Seeking(s.ios[i])
    requires Shape(c, s) && Enabled(c, s, e) && Faithful(c, s, e)
    ensures Copying(c, o, Step(c, s, e), NONE)
  {
    hide Copying, Copyable, DdModel.Complete, RoundUp, Multiple, Sub64, NextData, NextHole;
    match e
    case Transfer(i, k) => MoveCopies(c, o, s, i, k);
    case Completion(i, flagged, env) => CompleteCopies(c, o, s, i, flagged, env);
    case SeekDone(_, _) => assert false;
    case Tick => SameCopies(c, o, s, Step(c, s, e), NONE);
    case Interrupt => SameCopies(c, o, s, Step(c, s, e), NONE);
  }

  ghost predicate FaithfulRun(c: Config, s: State, events: seq<Event>)
    requires CanRun(c, s, events)
    decreases |events|
  {
    events == [] || (Faithful(c, s, events[0]) && FaithfulRun(c, Step(c, s, events[0]), events[1..]))
  }

  lemma {:induction false} RunCopies(c: Config, o: seq<Byte>, s: State, events: seq<Event>)
    requires Copying(c, o, s, NONE) && Copyable(c) && !c.mode.SparseBdev? && Accounted(c, s)
    requires CanRun(c, s, events) && FaithfulRun(c, s, events)
    ensures Copying(c, o, Run(c, s, events), NONE)
    decreases |events|
  {
    hide RoundUp, Multiple, Sub64, NextData, NextHole;
    if events != [] {
      StepCopies(c, o, s, events[0]);
      StepKeeps(c, s, events[0]);
      hide Copying, Copyable, Accounted, Step;
      RunCopies(c, o, Step(c, s, events[0]), events[1..]);
    }
  }

  lemma InitCopies(c: Config, s: State)
    requires Copyable(c) && Init(c, s)
    ensures Copying(c, s.output, s, NONE)
  {
    hide Sub64, NextData, NextHole;
    MultipleMod(0, c.outBs);
  }

  lemma {:induction false} LaunchCopies(c: Config, s: State, envs: seq<Env>, n: nat)
    requires Copyable(c) && !c.mode.SparseBdev? && Init(c, s) && n <= |s.ios| == |envs|
    ensures Copying(c, s.output, Launch(c, s, envs, n), NONE)
  {
    hide RoundUp, Multiple, Sub64, NextData, NextHole, Copying, Contained, Aligned, TargetSeek, Accounted, Measure;
    if n == 0 {
      InitCopies(c, s);
    } else {
      LaunchCopies(c, s, envs, n - 1);
      LaunchKeeps(c, s, envs, n - 1);
      SeekCopies(c, s.output, Launch(c, s, envs, n - 1), n - 1, envs[n - 1]);
    }
  }

  // ------------------------------------------------------------- main results

  /** Byte `k` of the region on an output, and on the input. */
  function OutByte(c: Config, out: seq<Byte>, k: nat): Byte {
    ByteAt(out, c.outStart + k)
  }

  function InByte(c: Config, k: nat): Byte {
    ByteAt(c.input, c.inStart + k)
  }

  /** Only bytes of the region have changed, and the output has grown at most to the
      end of the region's last block. */
  ghost predicate OutsideKept(c: Config, o: seq<Byte>, out: seq<Byte>)
    requires c.outBs > 0
  {
    && (forall p: nat :: p < c.outStart || p >= c.outStart + c.copySize ==> ByteAt(out, p) == ByteAt(o, p))
    && |o| <= |out| <= Max(|o|, c.outStart + RoundUp(c.copySize, c.outBs))
  }

  lemma OutcomeCopies(c: Config, s: State, envs: seq<Env>, events: seq<Event>)
    requires Copyable(c) && ProgramRun(c, s, envs, events)
    requires FaithfulRun(c, Launch(c, s, envs, |s.ios|), events)
    ensures var r := Outcome(c, s, envs, events); Copying(c, s.output, r, NONE) && Accounted(c, r)
  {
    hide RoundUp, Multiple, Sub64, NextData, NextHole;
    LaunchCopies(c, s, envs, |s.ios|);
    LaunchKeeps(c, s, envs, |s.ios|);
    hide Copying, Copyable, Accounted, Launch, CanRun;
    RunCopies(c, s.output, Launch(c, s, envs, |s.ios|), events);
    RunKeeps(c, Launch(c, s, envs, |s.ios|), events);
  }

  lemma CopyingIsSafe(c: Config, o: seq<Byte>, s: State, k: nat)
    requires Copying(c, o, s, NONE) && k < c.copySize
    ensures OutsideKept(c, o, s.output)
    ensures OutByte(c, s.output, k) == OutByte(c, o, k)
         || (Wanted(c, c.inStart + k) && OutByte(c, s.output, k) == InByte(c, k))
  {
    hide RoundUp, Multiple, Sub64, NextData, NextHole;
    assert OutPos(c, c.inStart + k) == c.outStart + k;
    hide RoundUp, Multiple, GoodIos, GoodClaim;
  }

  /** Copy safety, in every run in which completed transfers really happened and
      whatever else fails: at every moment an output byte outside the region is the
      original one, and one inside is the original or the input's. */
  lemma CopyIsSafe(c: Config, s: State, envs: seq<Env>, events: seq<Event>)
    requires Copyable(c) && ProgramRun(c, s, envs, events)
    requires FaithfulRun(c, Launch(c, s, envs, |s.ios|), events)
    ensures var out := Outcome(c, s, envs, events).output;
      && OutsideKept(c, s.output, out)
      && forall k: nat :: k < c.copySize ==>
           || OutByte(c, out, k) == OutByte(c, s.output, k)
           || (Wanted(c, c.inStart + k) && OutByte(c, out, k) == InByte(c, k))
  {
    hide RoundUp, Multiple, Sub64, NextData, NextHole;
    OutcomeCopies(c, s, envs, events);
    var r := Outcome(c, s, envs, events);
    assert OutsideKept(c, s.output, r.output);
    hide Copying, Copyable, ProgramRun, Outcome, OutByte, InByte, OutsideKept;
    forall k: nat | k < c.copySize
      ensures OutByte(c, r.output, k) == OutByte(c, s.output, k)
           || (Wanted(c, c.inStart + k) && OutByte(c, r.output, k) == InByte(c, k))
    {
      CopyingIsSafe(c, s.output, r, k);
    }
  }

  /** When the work is over without an error, all of it is settled. */
  lemma ExitSettles(c: Config, o: seq<Byte>, s: State, k: nat)
    requires Accounted(c, s) && Copying(c, o, s, NONE) && s.exits != [] && !Halted(s) && k < c.copySize
    ensures Settled(c, o, s.output, c.inStart + k)
    ensures OutByte(c, s.output, k) == if Wanted(c, c.inStart + k) then InByte(c, k) else OutByte(c, o, k)
  {
    hide RoundUp, Multiple, GoodIos, GoodClaim, Sub64, NextData, NextHole;
    FlyingBounds(s.ios);
    RemainingZero(c, s);
    assert forall i :: 0 <= i < |s.ios| ==> ClaimOf(s.ios[i]) == NONE;
    assert OutPos(c, c.inStart + k) == c.outStart + k;
  }

  /** Copy correctness. In every run in which completed transfers really happened,
      if `dd_exit` has been called and there was no error and no interrupt, every
      byte of the region that had to be copied is the input's byte, and every hole
      byte and every byte outside the region is unchanged. */
  lemma CopyIsCorrect(c: Config, s: State, envs: seq<Env>, events: seq<Event>)
    requires Copyable(c) && ProgramRun(c, s, envs, events)
    requires FaithfulRun(c, Launch(c, s, envs, |s.ios|), events)
    requires var r := Outcome(c, s, envs, events); r.exits != [] && !Halted(r)
    ensures var out := Outcome(c, s, envs, events).output;
      && OutsideKept(c, s.output, out)
      && forall k: nat :: k < c.copySize ==>
           OutByte(c, out, k) == if Wanted(c, c.inStart + k) then InByte(c, k) else OutByte(c, s.output, k)
  {
    hide RoundUp, Multiple, Sub64, NextData, NextHole;
    CopyIsSafe(c, s, envs, events);
    OutcomeCopies(c, s, envs, events);
    var r := Outcome(c, s, envs, events);
    hide Copying, Copyable, ProgramRun, Outcome, Accounted, OutByte, InByte, OutsideKept;
    forall k: nat | k < c.copySize
      ensures OutByte(c, r.output, k) == if Wanted(c, c.inStart + k) then InByte(c, k) else OutByte(c, s.output, k)
    {
      ExitSettles(c, s.output, r, k);
    }
  }
}
