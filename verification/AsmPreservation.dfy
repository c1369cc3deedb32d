/** What a returning wrapper leaves of the caller's registers, unit by unit, when the body writes
    to operand registers only. */
module AsmPreservation {
  import opened Wrappers
  import opened AsmAllocation
  import opened AsmWrapper

  /** Unit `u` belongs to the register of operand `i`. */
  ghost predicate HasUnit(isa: Isa, regs: Regs, i: int, u: Unit)
    requires RegsKnown(isa, regs)
  {
    0 <= i < |regs| && regs[i].Some? && u in isa.units[regs[i].value]
  }

  ghost predicate OperandUnit(isa: Isa, regs: Regs, u: Unit)
    requires RegsKnown(isa, regs)
  {
    exists i :: HasUnit(isa, regs, i, u)
  }

  /** The body writes to operand registers only, as the compiler demands of it. */
  ghost predicate Disciplined(isa: Isa, regs: Regs, body: Effect)
    requires RegsKnown(isa, regs)
  {
    forall file, u :: !OperandUnit(isa, regs, u) ==> body(file)(u) == file(u)
  }

  /** No body that keeps to its operands can change unit `u` for the caller. */
  ghost predicate Preserved(isa: Isa, regs: Regs, l: Layout, m: Machine, u: Unit)
    requires Safe(isa, regs, l)
  {
    forall body: Effect :: Disciplined(isa, regs, body) ==> Finished(isa, regs, l, m, body).file(u) == m.file(u)
  }

  /** The register of operand `i` overlaps one the caller gives up anyway. */
  ghost predicate SharesWithClobbered(isa: Isa, regs: Regs, i: int)
    requires WellFormed(isa) && RegsKnown(isa, regs) && 0 <= i < |regs| && regs[i].Some?
  {
    exists c :: c in isa.clobbered && Overlap(isa, c, regs[i].value)
  }

  // ---------------------------------------------------------------- the entry code

  lemma {:induction false} LoadsLeave(isa: Isa, regs: Regs, slots: Slots, n: nat, m: Machine, body: Effect, u: Unit)
    requires RegsKnown(isa, regs) && |slots| == |regs| && n <= |regs| && !OperandUnit(isa, regs, u)
    ensures Known(isa, Loads(regs, slots, n)) && Exec(isa, Loads(regs, slots, n), m, body).file(u) == m.file(u)
  {
    if n > 0 {
      LoadsLeave(isa, regs, slots, n - 1, m, body, u);
      LoadsLast(isa, regs, slots, n, m, body);
      assert Both(regs, slots, n - 1) ==> !HasUnit(isa, regs, n - 1, u);
    }
  }

  lemma EntryLeaves(isa: Isa, regs: Regs, l: Layout, m: Machine, body: Effect, u: Unit)
    requires Safe(isa, regs, l) && !OperandUnit(isa, regs, u)
    ensures AtBody(isa, regs, l, false, m, body).file(u) == m.file(u)
  {
    SavesKnown(isa, regs, l.input, |regs|);
    SavesEffect(isa, regs, l.clobber, |regs|, m, body);
    var saves := Saves(regs, l.clobber, |regs|);
    ExecConcat(isa, saves, Loads(regs, l.input, |regs|), m, body);
    LoadsLeave(isa, regs, l.input, |regs|, Exec(isa, saves, m, body), body, u);
  }

  // ---------------------------------------------------------------- exactly what is lost

  /** A body that puts another value into unit `u` and does nothing else. */
  function Spoil(u: Unit, value: Byte): (body: Effect)
  {
    (file: RegisterFile) => (v: Unit) => if v == u then (if value == 0 then 1 else 0) else file(v)
  }

  lemma SpoilIsDisciplined(isa: Isa, regs: Regs, u: Unit, value: Byte)
    requires RegsKnown(isa, regs) && OperandUnit(isa, regs, u)
    ensures Disciplined(isa, regs, Spoil(u, value))
  {
  }

  /** A unit is preserved if and only if no operand has it or a saved register has it. */
  lemma PreservedExactly(isa: Isa, regs: Regs, l: Layout, m: Machine, u: Unit)
    requires Safe(isa, regs, l)
    ensures Preserved(isa, regs, l, m, u) <==>
            !OperandUnit(isa, regs, u) || Loaded(isa, regs, l.clobber, |regs|, u)
  {
    if !OperandUnit(isa, regs, u) || Loaded(isa, regs, l.clobber, |regs|, u) {
      forall body: Effect | Disciplined(isa, regs, body)
        ensures Finished(isa, regs, l, m, body).file(u) == m.file(u)
      {
        UnitsAtReturn(isa, regs, l, m, body, u);
        if !Loaded(isa, regs, l.clobber, |regs|, u) { EntryLeaves(isa, regs, l, m, body, u); }
      }
    } else {
      SpoilIsDisciplined(isa, regs, u, m.file(u));
      UnitsAtReturn(isa, regs, l, m, Spoil(u, m.file(u)), u);
    }
  }

  lemma LoadedIsSaved(isa: Isa, ops: seq<Operand>, regs: Regs, l: Layout, i: int)
    requires Setup(isa, ops, regs, l) && RegsKnown(isa, regs) && 0 <= i < |regs| && regs[i].Some?
    ensures Both(regs, l.clobber, i) <==> !SharesWithClobbered(isa, regs, i)
  {
    assert Saved(isa, ops, regs, i) <==> NeedsSave(isa, regs[i].value);
  }

  /** For every allocation and layout: a disciplined body can change a unit for the caller if and
      only if some operand has the unit and each one that has it is in a register that overlaps
      a clobbered one. A unit outside every clobbered register, which the caller expects back,
      is lost in exactly this way. */
  lemma LostExactly(isa: Isa, ops: seq<Operand>, regs: Regs, l: Layout, m: Machine, u: Unit)
    requires Setup(isa, ops, regs, l)
    ensures Safe(isa, regs, l)
    ensures !Preserved(isa, regs, l, m, u) <==>
            && OperandUnit(isa, regs, u)
            && forall i :: HasUnit(isa, regs, i, u) ==> SharesWithClobbered(isa, regs, i)
  {
    SetupIsSafe(isa, ops, regs, l);
    PreservedExactly(isa, regs, l, m, u);
    forall i | HasUnit(isa, regs, i, u) ensures Both(regs, l.clobber, i) <==> !SharesWithClobbered(isa, regs, i) {
      LoadedIsSaved(isa, ops, regs, l, i);
    }
  }

  // ---------------------------------------------------------------- a register that is lost

  /** One output operand in the fixed register `r`, which is not saved. */
  function Writes(r: Reg): (ops: seq<Operand>)
  {
    [Out(Fixed(r), false, true)]
  }

  function UnsavedLayout(isa: Isa, r: Reg): (l: Layout)
    requires WellFormed(isa) && r in isa.units
  {
    Layout([None], [None], [Some(0)], isa.size[isa.classOf[r]])
  }

  lemma WritesAllocated(isa: Isa, r: Reg)
    requires WellFormed(isa) && r in isa.units
    ensures OperandsOk(isa, Writes(r)) && Allocated(isa, Writes(r), [Some(r)])
  {
    assert OperandOk(isa, Writes(r)[0]) && Fits(isa, Writes(r)[0], r);
  }

  lemma UnsavedSetup(isa: Isa, r: Reg)
    requires WellFormed(isa) && r in isa.units && !NeedsSave(isa, r)
    ensures Setup(isa, Writes(r), [Some(r)], UnsavedLayout(isa, r))
  {
    WritesAllocated(isa, r);
    assert !Saved(isa, Writes(r), [Some(r)], 0);
    var size := isa.size[isa.classOf[r]];
    assert Aligned(0, size) by { assert 0 == 0 * size; }
  }

  /** Every unit of a register that overlaps a clobbered one can be lost, whether or not the unit
      itself is in a clobbered register. */
  lemma PartlyClobberedIsLost(isa: Isa, r: Reg, c: Reg, u: Unit, m: Machine)
    requires WellFormed(isa) && r in isa.units && u in isa.units[r] && c in isa.clobbered && Overlap(isa, c, r)
    ensures Setup(isa, Writes(r), [Some(r)], UnsavedLayout(isa, r)) && Safe(isa, [Some(r)], UnsavedLayout(isa, r))
    ensures !Preserved(isa, [Some(r)], UnsavedLayout(isa, r), m, u)
  {
    UnsavedSetup(isa, r);
    LostExactly(isa, Writes(r), [Some(r)], UnsavedLayout(isa, r), m, u);
    assert HasUnit(isa, [Some(r)], 0, u) && SharesWithClobbered(isa, [Some(r)], 0);
  }

  /** Register 0 has units 0 and 1, and calls clobber its half, register 1, with unit 0. */
  const PAIR := Isa(map[0 := [0, 1], 1 := [0]], map[0 := 0, 1 := 0], map[0 := 2], map[0 := [0]], [1])

  lemma PairOverlaps()
    ensures WellFormed(PAIR) && Overlap(PAIR, 1, 0)
  {
    assert 0 in PAIR.units[1] && 0 in PAIR.units[0];
  }

  /** Unit 1 is in no clobbered register, so the caller expects it back, and it can be lost. */
  lemma ExpectedUnitIsLost(m: Machine)
    ensures WellFormed(PAIR) && Safe(PAIR, [Some(0)], UnsavedLayout(PAIR, 0))
    ensures (forall c :: c in PAIR.clobbered ==> 1 !in PAIR.units[c])
    ensures !Preserved(PAIR, [Some(0)], UnsavedLayout(PAIR, 0), m, 1)
  {
    PairOverlaps();
    PartlyClobberedIsLost(PAIR, 0, 1, 1, m);
  }
}
