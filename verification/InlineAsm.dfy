/** Inline assembly wrappers: the greedy register allocator and the stack-slot allocator. */
module AsmAllocation {
  import opened Wrappers

  type Reg = nat
  type Class = nat
  /** The smallest piece of the register file: registers overlap when they share one. */
  type Unit = nat

  datatype RegOrClass = Fixed(reg: Reg) | FromClass(cls: Class)

  datatype Operand =
    | In(reg: RegOrClass)
    | Out(reg: RegOrClass, late: bool, hasPlace: bool)
    | InOut(reg: RegOrClass, hasPlace: bool)
    | NoReg

  /** `size` is the slot size of a class, `pool` its allocatable registers in order, and
      `clobbered` what the C calling convention already gives up. */
  datatype Isa = Isa(
    units: map<Reg, seq<Unit>>,
    classOf: map<Reg, Class>,
    size: map<Class, nat>,
    pool: map<Class, seq<Reg>>,
    clobbered: seq<Reg>
  )

  ghost predicate Distinct(us: seq<Unit>)
  {
    forall i, j :: 0 <= i < j < |us| ==> us[i] != us[j]
  }

  /** A register moves no more bytes than a slot of any class it can be used for. */
  ghost predicate WellFormed(isa: Isa)
  {
    && (forall r :: r in isa.units ==>
          && Distinct(isa.units[r]) && isa.units[r] != []
          && r in isa.classOf && isa.classOf[r] in isa.size && |isa.units[r]| <= isa.size[isa.classOf[r]])
    && (forall c, r :: c in isa.pool && r in isa.pool[c] ==>
          r in isa.units && c in isa.size && |isa.units[r]| <= isa.size[c])
    && (forall r :: r in isa.clobbered ==> r in isa.units)
    && (forall c :: c in isa.size ==> isa.size[c] > 0)
  }

  ghost predicate OperandOk(isa: Isa, op: Operand)
  {
    op.NoReg? || (match op.reg
                  case Fixed(r) => r in isa.units
                  case FromClass(c) => c in isa.pool && c in isa.size)
  }

  ghost predicate OperandsOk(isa: Isa, ops: seq<Operand>)
  {
    forall i :: 0 <= i < |ops| ==> OperandOk(isa, ops[i])
  }

  predicate Overlap(isa: Isa, r: Reg, q: Reg)
    requires r in isa.units && q in isa.units
  {
    exists u :: u in isa.units[r] && u in isa.units[q]
  }

  /** The operand occupies its register when the body starts. */
  predicate UsesIn(op: Operand)
  {
    op.In? || op.InOut? || (op.Out? && !op.late)
  }

  /** The operand occupies its register when the body ends. */
  predicate UsesOut(op: Operand)
  {
    op.Out? || op.InOut?
  }

  predicate LiveTogether(a: Operand, b: Operand)
  {
    (UsesIn(a) && UsesIn(b)) || (UsesOut(a) && UsesOut(b))
  }

  /** Explicit registers that are live together do not overlap. */
  ghost predicate ExplicitOk(isa: Isa, ops: seq<Operand>)
    requires OperandsOk(isa, ops)
  {
    forall i, j :: 0 <= i < j < |ops| && !ops[i].NoReg? && !ops[j].NoReg? && ops[i].reg.Fixed? && ops[j].reg.Fixed? ==>
      LiveTogether(ops[i], ops[j]) ==>
      (assert OperandOk(isa, ops[i]) && OperandOk(isa, ops[j]); !Overlap(isa, ops[i].reg.reg, ops[j].reg.reg))
  }

  // ---------------------------------------------------------------- registers

  type Regs = seq<Option<Reg>>
  type Taken = map<Reg, (bool, bool)>

  /** The register is one the operand asked for. */
  ghost predicate Fits(isa: Isa, op: Operand, r: Reg)
  {
    && r in isa.units && !op.NoReg?
    && match op.reg
       case Fixed(q) => r == q
       case FromClass(c) => c in isa.pool && r in isa.pool[c]
  }

  ghost predicate AllFit(isa: Isa, ops: seq<Operand>, regs: Regs)
  {
    |regs| == |ops| && forall i :: 0 <= i < |regs| && regs[i].Some? ==> Fits(isa, ops[i], regs[i].value)
  }

  /** Operands live at the same time are in registers that do not overlap. */
  ghost predicate NoClash(isa: Isa, ops: seq<Operand>, regs: Regs)
    requires AllFit(isa, ops, regs)
  {
    forall i, j :: 0 <= i < |regs| && 0 <= j < |regs| && i != j && regs[i].Some? && regs[j].Some? ==>
      LiveTogether(ops[i], ops[j]) ==> !Overlap(isa, regs[i].value, regs[j].value)
  }

  ghost predicate Recorded(ops: seq<Operand>, regs: Regs, taken: Taken)
    requires |regs| == |ops|
  {
    forall i :: 0 <= i < |regs| && regs[i].Some? ==>
      var r := regs[i].value;
      r in taken && (UsesIn(ops[i]) ==> taken[r].0) && (UsesOut(ops[i]) ==> taken[r].1)
  }

  ghost predicate HeldBy(ops: seq<Operand>, regs: Regs, r: Reg, j: nat, wantIn: bool, wantOut: bool)
    requires |regs| == |ops|
  {
    j < |regs| && regs[j] == Some(r) && ((wantIn && UsesIn(ops[j])) || (wantOut && UsesOut(ops[j])))
  }

  /** Every mark is due to some operand. */
  ghost predicate Owned(ops: seq<Operand>, regs: Regs, taken: Taken)
    requires |regs| == |ops|
  {
    forall r :: r in taken ==>
      && (taken[r].0 ==> exists j :: HeldBy(ops, regs, r, j, true, false))
      && (taken[r].1 ==> exists j :: HeldBy(ops, regs, r, j, false, true))
      && (taken[r].0 || taken[r].1)
  }

  ghost predicate Consistent(isa: Isa, ops: seq<Operand>, regs: Regs, taken: Taken)
  {
    AllFit(isa, ops, regs) && NoClash(isa, ops, regs) && Recorded(ops, regs, taken) && Owned(ops, regs, taken)
  }

  /** Which marks an allocation for `op` must keep clear of. */
  predicate InTheWay(taken: Taken, q: Reg, op: Operand)
  {
    q in taken && ((UsesIn(op) && UsesOut(op)) || (UsesIn(op) && taken[q].0) || (UsesOut(op) && taken[q].1))
  }

  predicate Blocked(isa: Isa, taken: Taken, r: Reg, op: Operand)
    requires r in isa.units
  {
    exists q :: q in isa.units && InTheWay(taken, q, op) && Overlap(isa, r, q)
  }

  function Mark(taken: Taken, r: Reg, op: Operand): (t: Taken)
  {
    var was := if r in taken then taken[r] else (false, false);
    taken[r := (was.0 || UsesIn(op), was.1 || UsesOut(op))]
  }

  lemma OverlapSym(isa: Isa, r: Reg, q: Reg)
    requires r in isa.units && q in isa.units
    ensures Overlap(isa, r, q) == Overlap(isa, q, r)
  {
  }

  lemma AssignKeepsRecords(ops: seq<Operand>, regs: Regs, taken: Taken, i: nat, r: Reg)
    requires |regs| == |ops| && i < |ops| && regs[i].None? && !ops[i].NoReg?
    requires Recorded(ops, regs, taken) && Owned(ops, regs, taken)
    ensures Recorded(ops, regs[i := Some(r)], Mark(taken, r, ops[i]))
    ensures Owned(ops, regs[i := Some(r)], Mark(taken, r, ops[i]))
  {
    var regs', taken' := regs[i := Some(r)], Mark(taken, r, ops[i]);
    forall q | q in taken'
      ensures taken'[q].0 ==> exists j :: HeldBy(ops, regs', q, j, true, false)
      ensures taken'[q].1 ==> exists j :: HeldBy(ops, regs', q, j, false, true)
    {
      if q == r && UsesIn(ops[i]) { assert HeldBy(ops, regs', q, i, true, false); }
      if q == r && UsesOut(ops[i]) { assert HeldBy(ops, regs', q, i, false, true); }
      if q in taken && taken[q].0 {
        var j: nat :| HeldBy(ops, regs, q, j, true, false);
        assert HeldBy(ops, regs', q, j, true, false);
      }
      if q in taken && taken[q].1 {
        var j: nat :| HeldBy(ops, regs, q, j, false, true);
        assert HeldBy(ops, regs', q, j, false, true);
      }
    }
  }

  lemma AssignKeeps(isa: Isa, ops: seq<Operand>, regs: Regs, taken: Taken, i: nat, r: Reg)
    requires Consistent(isa, ops, regs, taken) && i < |ops| && regs[i].None? && Fits(isa, ops[i], r)
    requires forall j :: 0 <= j < |regs| && j != i && regs[j].Some? && LiveTogether(ops[i], ops[j]) ==>
               !Overlap(isa, r, regs[j].value)
    ensures Consistent(isa, ops, regs[i := Some(r)], Mark(taken, r, ops[i]))
  {
    AssignKeepsRecords(ops, regs, taken, i, r);
    var regs' := regs[i := Some(r)];
    forall a, b | 0 <= a < |regs'| && 0 <= b < |regs'| && a != b && regs'[a].Some? && regs'[b].Some?
                  && LiveTogether(ops[a], ops[b])
      ensures !Overlap(isa, regs'[a].value, regs'[b].value)
    {
      OverlapSym(isa, regs'[a].value, regs'[b].value);
    }
  }

  lemma UnblockedIsClear(isa: Isa, ops: seq<Operand>, regs: Regs, taken: Taken, i: nat, r: Reg)
    requires Consistent(isa, ops, regs, taken) && i < |ops| && Fits(isa, ops[i], r)
    requires !Blocked(isa, taken, r, ops[i])
    ensures forall j :: 0 <= j < |regs| && j != i && regs[j].Some? && LiveTogether(ops[i], ops[j]) ==>
              !Overlap(isa, r, regs[j].value)
  {
    forall j | 0 <= j < |regs| && j != i && regs[j].Some? && LiveTogether(ops[i], ops[j])
      ensures !Overlap(isa, r, regs[j].value)
    {
      assert InTheWay(taken, regs[j].value, ops[i]);
    }
  }

  /** Some operand live together with `op` already holds a register overlapping `r`. */
  ghost predicate HeldNearby(isa: Isa, ops: seq<Operand>, regs: Regs, op: Operand, r: Reg)
    requires AllFit(isa, ops, regs) && r in isa.units
  {
    exists j :: 0 <= j < |regs| && regs[j].Some? && LiveTogether(op, ops[j]) && Overlap(isa, r, regs[j].value)
  }

  lemma BlockedIsHeld(isa: Isa, ops: seq<Operand>, regs: Regs, taken: Taken, op: Operand, r: Reg)
    requires Consistent(isa, ops, regs, taken) && r in isa.units && Blocked(isa, taken, r, op)
    ensures HeldNearby(isa, ops, regs, op, r)
  {
    var q :| q in isa.units && InTheWay(taken, q, op) && Overlap(isa, r, q);
    if UsesIn(op) && taken[q].0 {
      var j: nat :| HeldBy(ops, regs, q, j, true, false);
      assert LiveTogether(op, ops[j]);
    } else {
      var j: nat :| HeldBy(ops, regs, q, j, false, true);
      assert LiveTogether(op, ops[j]);
    }
  }

  predicate Explicit(op: Operand)
  {
    !op.NoReg? && op.reg.Fixed?
  }

  datatype Pass = Constrained | Relaxed

  /** Operands needing a register of a class throughout come before those needing it only
      when the body starts, or only when it ends. */
  predicate InPass(op: Operand, pass: Pass)
  {
    !op.NoReg? && op.reg.FromClass? && (pass.Constrained? <==> UsesIn(op) && UsesOut(op))
  }

  /** `regs` has what `regs0` has, and the operands of the pass before `i`. */
  ghost predicate Filled(ops: seq<Operand>, regs0: Regs, regs: Regs, pass: Pass, i: nat)
  {
    && |regs0| == |regs| == |ops|
    && forall k :: 0 <= k < |ops| ==> (regs[k].Some? <==> regs0[k].Some? || (k < i && InPass(ops[k], pass)))
  }

  ghost predicate ExplicitFilled(ops: seq<Operand>, regs: Regs, i: nat)
  {
    |regs| == |ops| && forall k :: 0 <= k < |ops| ==> (regs[k].Some? <==> k < i && Explicit(ops[k]))
  }

  lemma ExplicitIsClear(isa: Isa, ops: seq<Operand>, regs: Regs, i: nat)
    requires OperandsOk(isa, ops) && ExplicitOk(isa, ops) && AllFit(isa, ops, regs) && i < |ops| && Explicit(ops[i])
    requires ExplicitFilled(ops, regs, i)
    ensures Fits(isa, ops[i], ops[i].reg.reg)
    ensures forall j :: 0 <= j < |regs| && j != i && regs[j].Some? && LiveTogether(ops[i], ops[j]) ==>
              !Overlap(isa, ops[i].reg.reg, regs[j].value)
  {
    assert OperandOk(isa, ops[i]);
    forall j | 0 <= j < |regs| && j != i && regs[j].Some? && LiveTogether(ops[i], ops[j])
      ensures !Overlap(isa, ops[i].reg.reg, regs[j].value)
    {
      assert Fits(isa, ops[j], regs[j].value);
      OverlapSym(isa, ops[i].reg.reg, regs[j].value);
    }
  }

  lemma NothingTaken(isa: Isa, ops: seq<Operand>)
    ensures Consistent(isa, ops, seq(|ops|, _ => None), map[])
    ensures ExplicitFilled(ops, seq(|ops|, _ => None), 0)
  {
  }

  lemma ExplicitStep(isa: Isa, ops: seq<Operand>, regs: Regs, taken: Taken, i: nat)
    requires OperandsOk(isa, ops) && ExplicitOk(isa, ops) && i < |ops| && Explicit(ops[i])
    requires Consistent(isa, ops, regs, taken) && ExplicitFilled(ops, regs, i)
    ensures var r := ops[i].reg.reg;
            && Consistent(isa, ops, regs[i := Some(r)], Mark(taken, r, ops[i]))
            && ExplicitFilled(ops, regs[i := Some(r)], i + 1)
  {
    ExplicitIsClear(isa, ops, regs, i);
    AssignKeeps(isa, ops, regs, taken, i, ops[i].reg.reg);
  }

  method TakeExplicit(isa: Isa, ops: seq<Operand>) returns (regs: Regs, taken: Taken)
    requires WellFormed(isa) && OperandsOk(isa, ops) && ExplicitOk(isa, ops)
    ensures Consistent(isa, ops, regs, taken) && ExplicitFilled(ops, regs, |ops|)
  {
    regs, taken := seq(|ops|, _ => None), map[];
    NothingTaken(isa, ops);
    for i := 0 to |ops|
      invariant Consistent(isa, ops, regs, taken) && ExplicitFilled(ops, regs, i)
    {
      if Explicit(ops[i]) {
        var r := ops[i].reg.reg;
        ExplicitStep(isa, ops, regs, taken, i);
        regs, taken := regs[i := Some(r)], Mark(taken, r, ops[i]);
      }
    }
  }

  /** The register is in the pool, nothing is in its way, and something is in the way of every
      register before it. */
  ghost predicate IsFirstFree(isa: Isa, pool: seq<Reg>, taken: Taken, op: Operand, r: Reg)
    requires forall k :: 0 <= k < |pool| ==> pool[k] in isa.units
  {
    exists k :: 0 <= k < |pool| && pool[k] == r && !Blocked(isa, taken, r, op)
                && forall j :: 0 <= j < k ==> Blocked(isa, taken, pool[j], op)
  }

  /** The first register of the pool that nothing is in the way of. If there is none, every one
      overlaps a register that is live together with the operand. */
  method FirstFree(isa: Isa, pool: seq<Reg>, taken: Taken, op: Operand, ghost ops: seq<Operand>, ghost regs: Regs)
    returns (found: Option<Reg>)
    requires Consistent(isa, ops, regs, taken) && forall k :: 0 <= k < |pool| ==> pool[k] in isa.units
    ensures found.Some? ==> found.value in pool && found.value in isa.units && !Blocked(isa, taken, found.value, op)
    ensures found.Some? ==> IsFirstFree(isa, pool, taken, op, found.value)
    ensures found.None? ==> forall k :: 0 <= k < |pool| ==> HeldNearby(isa, ops, regs, op, pool[k])
  {
    for i := 0 to |pool|
      invariant forall k :: 0 <= k < i ==> HeldNearby(isa, ops, regs, op, pool[k]) && Blocked(isa, taken, pool[k], op)
    {
      if !Blocked(isa, taken, pool[i], op) { return Some(pool[i]); }
      BlockedIsHeld(isa, ops, regs, taken, op, pool[i]);
    }
    return None;
  }

  lemma ClassStep(isa: Isa, ops: seq<Operand>, regs0: Regs, regs: Regs, taken: Taken, pass: Pass, i: nat, r: Reg)
    requires Consistent(isa, ops, regs, taken) && Filled(ops, regs0, regs, pass, i) && i < |ops| && regs[i].None?
    requires InPass(ops[i], pass) && Fits(isa, ops[i], r) && !Blocked(isa, taken, r, ops[i])
    ensures Consistent(isa, ops, regs[i := Some(r)], Mark(taken, r, ops[i]))
    ensures Filled(ops, regs0, regs[i := Some(r)], pass, i + 1)
  {
    UnblockedIsClear(isa, ops, regs, taken, i, r);
    AssignKeeps(isa, ops, regs, taken, i, r);
  }

  /** The failing operand: every register of its class overlaps one that is live with it. */
  ghost predicate Exhausted(isa: Isa, ops: seq<Operand>, regs: Regs, i: nat)
    requires AllFit(isa, ops, regs) && i < |ops|
  {
    && regs[i].None? && !ops[i].NoReg? && ops[i].reg.FromClass? && ops[i].reg.cls in isa.pool
    && var pool := isa.pool[ops[i].reg.cls];
       forall k :: 0 <= k < |pool| ==> pool[k] in isa.units && HeldNearby(isa, ops, regs, ops[i], pool[k])
  }

  method TakeFromClasses(isa: Isa, ops: seq<Operand>, regs0: Regs, taken0: Taken, pass: Pass)
    returns (ok: bool, regs: Regs, taken: Taken)
    requires WellFormed(isa) && OperandsOk(isa, ops) && Consistent(isa, ops, regs0, taken0)
    requires forall i :: 0 <= i < |ops| && InPass(ops[i], pass) ==> regs0[i].None?
    ensures Consistent(isa, ops, regs, taken)
    ensures ok ==> Filled(ops, regs0, regs, pass, |ops|)
    ensures !ok ==> exists i :: 0 <= i < |ops| && Exhausted(isa, ops, regs, i)
  {
    regs, taken := regs0, taken0;
    for i := 0 to |ops|
      invariant Consistent(isa, ops, regs, taken) && Filled(ops, regs0, regs, pass, i)
    {
      if InPass(ops[i], pass) {
        assert OperandOk(isa, ops[i]);
        var found := FirstFree(isa, isa.pool[ops[i].reg.cls], taken, ops[i], ops, regs);
        if found.None? {
          assert Exhausted(isa, ops, regs, i);
          return false, regs, taken;
        }
        ClassStep(isa, ops, regs0, regs, taken, pass, i, found.value);
        regs, taken := regs[i := found], Mark(taken, found.value, ops[i]);
      }
    }
    ok := true;
  }

  /** Every operand that names a register got one it asked for, and none clash. */
  ghost predicate Allocated(isa: Isa, ops: seq<Operand>, regs: Regs)
  {
    && AllFit(isa, ops, regs) && NoClash(isa, ops, regs)
    && forall i :: 0 <= i < |ops| ==> (regs[i].Some? <==> !ops[i].NoReg?)
  }

  lemma PassesCoverAll(ops: seq<Operand>, r1: Regs, r2: Regs, r3: Regs)
    requires ExplicitFilled(ops, r1, |ops|)
    requires Filled(ops, r1, r2, Constrained, |ops|) && Filled(ops, r2, r3, Relaxed, |ops|)
    ensures forall i :: 0 <= i < |ops| ==> (r3[i].Some? <==> !ops[i].NoReg?)
  {
  }

  lemma PassIsFree(ops: seq<Operand>, r1: Regs, r2: Regs)
    requires ExplicitFilled(ops, r1, |ops|)
    ensures forall i :: 0 <= i < |ops| && InPass(ops[i], Constrained) ==> r1[i].None?
    ensures Filled(ops, r1, r2, Constrained, |ops|) ==>
              forall i :: 0 <= i < |ops| && InPass(ops[i], Relaxed) ==> r2[i].None?
  {
  }

  /** Explicit registers first, then operands needing a register throughout, then the rest. */
  method AllocateRegisters(isa: Isa, ops: seq<Operand>) returns (ok: bool, regs: Regs)
    requires WellFormed(isa) && OperandsOk(isa, ops) && ExplicitOk(isa, ops)
    ensures ok ==> Allocated(isa, ops, regs)
    ensures !ok ==> && AllFit(isa, ops, regs) && NoClash(isa, ops, regs)
                    && exists i :: 0 <= i < |ops| && Exhausted(isa, ops, regs, i)
  {
    var r1, taken1 := TakeExplicit(isa, ops);
    PassIsFree(ops, r1, r1);
    var ok2, r2, taken2 := TakeFromClasses(isa, ops, r1, taken1, Constrained);
    if !ok2 { return false, r2; }
    PassIsFree(ops, r1, r2);
    var ok3, r3, taken3 := TakeFromClasses(isa, ops, r2, taken2, Relaxed);
    if ok3 { PassesCoverAll(ops, r1, r2, r3); }
    return ok3, r3;
  }

  // ---------------------------------------------------------------- stack slots

  type Slots = seq<Option<nat>>

  ghost predicate Aligned(n: nat, a: nat)
  {
    exists k: nat :: n == k * a
  }

  function AlignTo(n: nat, a: nat): (r: nat)
    requires a > 0
    ensures n <= r < n + a && Aligned(r, a)
  {
    (n + a - 1) / a * a
  }

  /** Slots for the operands that want one: aligned to their size, inside `lo..hi`, and in
      operand order without overlap. */
  ghost predicate Placed(want: seq<Option<nat>>, slots: Slots, lo: nat, hi: nat)
  {
    && |slots| == |want| && lo <= hi
    && (forall i :: 0 <= i < |want| ==> (slots[i].Some? <==> want[i].Some?))
    && (forall i :: 0 <= i < |want| && want[i].Some? ==>
          && want[i].value > 0 && Aligned(slots[i].value, want[i].value)
          && lo <= slots[i].value && slots[i].value + want[i].value <= hi)
    && (forall i, j :: 0 <= i < j < |want| && want[i].Some? && want[j].Some? ==>
          slots[i].value + want[i].value <= slots[j].value)
  }

  ghost predicate AllPositive(want: seq<Option<nat>>)
  {
    forall i :: 0 <= i < |want| && want[i].Some? ==> want[i].value > 0
  }

  method PlaceSlots(want: seq<Option<nat>>, lo: nat) returns (slots: Slots, hi: nat)
    requires AllPositive(want)
    ensures Placed(want, slots, lo, hi)
  {
    slots, hi := [], lo;
    for i := 0 to |want|
      invariant |slots| == i && Placed(want[..i], slots, lo, hi)
    {
      var slot := None;
      if want[i].Some? {
        var offset := AlignTo(hi, want[i].value);
        slot, hi := Some(offset), offset + want[i].value;
      }
      slots := slots + [slot];
      assert want[..i + 1] == want[..i] + [want[i]];
    }
    assert want[..|want|] == want;
  }

  function ClassOf(isa: Isa, r: RegOrClass): (c: Class)
    requires r.Fixed? ==> r.reg in isa.classOf
  {
    match r case Fixed(reg) => isa.classOf[reg] case FromClass(c) => c
  }

  function SlotSize(isa: Isa, op: Operand): (n: nat)
    requires WellFormed(isa) && OperandOk(isa, op) && !op.NoReg?
    ensures n > 0
  {
    isa.size[ClassOf(isa, op.reg)]
  }

  /** Saving is needed unless a register the caller gives up anyway overlaps it. */
  predicate NeedsSave(isa: Isa, r: Reg)
    requires WellFormed(isa) && r in isa.units
  {
    forall c :: c in isa.clobbered ==> !Overlap(isa, c, r)
  }

  predicate WantsInput(op: Operand)
  {
    op.In? || op.InOut?
  }

  predicate WantsOutput(op: Operand)
  {
    (op.Out? || op.InOut?) && op.hasPlace
  }

  datatype Layout = Layout(clobber: Slots, input: Slots, output: Slots, size: nat)

  predicate Saved(isa: Isa, ops: seq<Operand>, regs: Regs, i: nat)
    requires WellFormed(isa) && AllFit(isa, ops, regs) && i < |ops|
  {
    regs[i].Some? && (assert Fits(isa, ops[i], regs[i].value); NeedsSave(isa, regs[i].value))
  }

  function SaveSize(isa: Isa, ops: seq<Operand>, regs: Regs, i: nat): (n: nat)
    requires WellFormed(isa) && AllFit(isa, ops, regs) && i < |ops| && regs[i].Some?
    ensures n > 0
  {
    assert Fits(isa, ops[i], regs[i].value);
    isa.size[isa.classOf[regs[i].value]]
  }

  /** The sizes of the clobber slots, and of the slots of the operands that `p` picks. */
  function SaveWants(isa: Isa, ops: seq<Operand>, regs: Regs): (w: seq<Option<nat>>)
    requires WellFormed(isa) && AllFit(isa, ops, regs)
    ensures |w| == |ops|
    ensures forall i :: 0 <= i < |w| ==>
              w[i] == if Saved(isa, ops, regs, i) then Some(SaveSize(isa, ops, regs, i)) else None
  {
    seq(|ops|, i requires 0 <= i < |ops| =>
      if Saved(isa, ops, regs, i) then Some(SaveSize(isa, ops, regs, i)) else None)
  }

  function OperandWants(isa: Isa, ops: seq<Operand>, p: Operand -> bool): (w: seq<Option<nat>>)
    requires WellFormed(isa) && OperandsOk(isa, ops)
    ensures |w| == |ops|
    ensures forall i :: 0 <= i < |w| ==>
              w[i] == if !ops[i].NoReg? && p(ops[i]) then Some(SlotSize(isa, ops[i])) else None
  {
    seq(|ops|, i requires 0 <= i < |ops| =>
      if !ops[i].NoReg? && p(ops[i]) then Some(SlotSize(isa, ops[i])) else None)
  }

  ghost predicate Apart(a: nat, n: nat, b: nat, m: nat)
  {
    a + n <= b || b + m <= a
  }

  /** Slots of one kind: where `want` asks, aligned, in bounds and apart from each other. */
  ghost predicate Sound(want: seq<Option<nat>>, slots: Slots, size: nat)
  {
    && |slots| == |want|
    && (forall i :: 0 <= i < |want| ==> (slots[i].Some? <==> want[i].Some?))
    && (forall i :: 0 <= i < |want| && want[i].Some? ==>
          Aligned(slots[i].value, want[i].value) && slots[i].value + want[i].value <= size)
    && (forall i, j :: 0 <= i < |want| && 0 <= j < |want| && i != j && want[i].Some? && want[j].Some? ==>
          Apart(slots[i].value, want[i].value, slots[j].value, want[j].value))
  }

  /** Slots of two kinds that keep apart. */
  ghost predicate KindsApart(want: seq<Option<nat>>, slots: Slots, want2: seq<Option<nat>>, slots2: Slots)
    requires |slots| == |want| && |slots2| == |want2|
    requires forall i :: 0 <= i < |want| ==> (slots[i].Some? <==> want[i].Some?)
    requires forall i :: 0 <= i < |want2| ==> (slots2[i].Some? <==> want2[i].Some?)
  {
    forall i, j :: 0 <= i < |want| && 0 <= j < |want2| && want[i].Some? && want2[j].Some? ==>
      Apart(slots[i].value, want[i].value, slots2[j].value, want2[j].value)
  }

  /** Input slots may share bytes with output slots; everything else keeps apart. */
  ghost predicate Laid(isa: Isa, ops: seq<Operand>, regs: Regs, l: Layout)
    requires WellFormed(isa) && OperandsOk(isa, ops) && AllFit(isa, ops, regs)
  {
    var saves := SaveWants(isa, ops, regs);
    var ins, outs := OperandWants(isa, ops, WantsInput), OperandWants(isa, ops, WantsOutput);
    && Sound(saves, l.clobber, l.size) && Sound(ins, l.input, l.size) && Sound(outs, l.output, l.size)
    && KindsApart(saves, l.clobber, ins, l.input) && KindsApart(saves, l.clobber, outs, l.output)
  }

  function Merge(a: Slots, b: Slots): (r: Slots)
    requires |a| == |b|
    ensures |r| == |a| && forall i :: 0 <= i < |a| ==> r[i] == if a[i].Some? then a[i] else b[i]
  {
    seq(|a|, i requires 0 <= i < |a| => if a[i].Some? then a[i] else b[i])
  }

  lemma PlacedIsSound(want: seq<Option<nat>>, slots: Slots, lo: nat, hi: nat, size: nat)
    requires Placed(want, slots, lo, hi) && hi <= size
    ensures Sound(want, slots, size)
  {
  }

  /** Two kinds placed one above the other, no operand being of both. */
  ghost predicate Splits(want: seq<Option<nat>>, a: seq<Option<nat>>, b: seq<Option<nat>>)
  {
    |want| == |a| == |b| && forall i :: 0 <= i < |want| ==> want[i] == if a[i].Some? then a[i] else b[i]
  }

  lemma MergeIsSound(want: seq<Option<nat>>, a: seq<Option<nat>>, slotsA: Slots, lo: nat, mid: nat,
                     b: seq<Option<nat>>, slotsB: Slots, hi: nat, size: nat)
    requires Splits(want, a, b) && Placed(a, slotsA, lo, mid) && Placed(b, slotsB, mid, hi) && hi <= size
    ensures Sound(want, Merge(slotsA, slotsB), size)
  {
  }

  lemma MergeIsApart(saves: seq<Option<nat>>, clobber: Slots, low: nat, want: seq<Option<nat>>,
                     a: seq<Option<nat>>, slotsA: Slots, mid: nat, b: seq<Option<nat>>, slotsB: Slots, hi: nat)
    requires Splits(want, a, b) && |saves| == |want|
    requires Placed(saves, clobber, 0, low) && Placed(a, slotsA, low, mid) && Placed(b, slotsB, mid, hi)
    ensures KindsApart(saves, clobber, want, Merge(slotsA, slotsB))
  {
  }

  predicate KeepsPlace(op: Operand)
  {
    op.InOut? && op.hasPlace
  }

  predicate OnlyRead(op: Operand)
  {
    op.In? || (op.InOut? && !op.hasPlace)
  }

  predicate OnlyWritten(op: Operand)
  {
    op.Out? && op.hasPlace
  }

  lemma InputsSplit(isa: Isa, ops: seq<Operand>)
    requires WellFormed(isa) && OperandsOk(isa, ops)
    ensures Splits(OperandWants(isa, ops, WantsInput),
                   OperandWants(isa, ops, KeepsPlace), OperandWants(isa, ops, OnlyRead))
  {
  }

  lemma OutputsSplit(isa: Isa, ops: seq<Operand>)
    requires WellFormed(isa) && OperandsOk(isa, ops)
    ensures Splits(OperandWants(isa, ops, WantsOutput),
                   OperandWants(isa, ops, KeepsPlace), OperandWants(isa, ops, OnlyWritten))
  {
  }

  method PlaceAll(saves: seq<Option<nat>>, both: seq<Option<nat>>, inOnly: seq<Option<nat>>, outOnly: seq<Option<nat>>,
                  ghost ins: seq<Option<nat>>, ghost outs: seq<Option<nat>>) returns (l: Layout)
    requires Splits(ins, both, inOnly) && Splits(outs, both, outOnly) && |saves| == |both|
    requires AllPositive(saves) && AllPositive(both) && AllPositive(inOnly) && AllPositive(outOnly)
    ensures Sound(saves, l.clobber, l.size) && Sound(ins, l.input, l.size) && Sound(outs, l.output, l.size)
    ensures KindsApart(saves, l.clobber, ins, l.input) && KindsApart(saves, l.clobber, outs, l.output)
    ensures forall i :: 0 <= i < |both| && both[i].Some? ==> l.input[i] == l.output[i]
  {
    var clobber, low := PlaceSlots(saves, 0);
    var shared, mid := PlaceSlots(both, low);
    var input, inputEnd := PlaceSlots(inOnly, mid);
    var output, outputEnd := PlaceSlots(outOnly, mid);
    var size := if outputEnd < inputEnd then inputEnd else outputEnd;
    l := Layout(clobber, Merge(shared, input), Merge(shared, output), size);
    PlacedIsSound(saves, clobber, 0, low, size);
    MergeIsSound(ins, both, shared, low, mid, inOnly, input, inputEnd, size);
    MergeIsSound(outs, both, shared, low, mid, outOnly, output, outputEnd, size);
    MergeIsApart(saves, clobber, low, ins, both, shared, mid, inOnly, input, inputEnd);
    MergeIsApart(saves, clobber, low, outs, both, shared, mid, outOnly, output, outputEnd);
  }

  /** Clobber slots, then slots shared by the two sides of an in-out operand, then the inputs;
      the outputs start again where the inputs started. */
  method AllocateStackSlots(isa: Isa, ops: seq<Operand>, regs: Regs) returns (l: Layout)
    requires WellFormed(isa) && OperandsOk(isa, ops) && AllFit(isa, ops, regs)
    ensures Laid(isa, ops, regs, l)
    ensures forall i :: 0 <= i < |ops| && KeepsPlace(ops[i]) ==> l.input[i] == l.output[i]
  {
    ghost var ins, outs := OperandWants(isa, ops, WantsInput), OperandWants(isa, ops, WantsOutput);
    InputsSplit(isa, ops);
    OutputsSplit(isa, ops);
    var saves := SaveWants(isa, ops, regs);
    var both := OperandWants(isa, ops, KeepsPlace);
    var inOnly := OperandWants(isa, ops, OnlyRead);
    var outOnly := OperandWants(isa, ops, OnlyWritten);
    l := PlaceAll(saves, both, inOnly, outOnly, ins, outs);
  }
}

/** The emitted wrapper on an abstract machine: it saves what the caller expects back, loads
    the inputs, runs the body, stores the outputs and restores. The body may change every
    register but not the wrapper's stack slots. */
module AsmWrapper {
  import opened Wrappers
  import opened AsmAllocation

  type Byte = n: nat | n < 256
  type RegisterFile = Unit -> Byte
  /** The assembly body. */
  type Effect = RegisterFile -> RegisterFile
  /** Memory from the start of the stack slot area. */
  type Memory = nat -> Byte

  datatype Machine = Machine(file: RegisterFile, mem: Memory)

  datatype Instr = Save(reg: Reg, slot: nat) | Load(reg: Reg, slot: nat) | Body

  function StoreBytes(mem: Memory, slot: nat, bytes: seq<Byte>): (r: Memory)
  {
    (a: nat) => if slot <= a < slot + |bytes| then bytes[a - slot] else mem(a)
  }

  ghost function Position(us: seq<Unit>, u: Unit): (k: nat)
    requires u in us
    ensures k < |us| && us[k] == u
  {
    var k: nat :| k < |us| && us[k] == u;
    k
  }

  function Contents(file: RegisterFile, us: seq<Unit>): (r: seq<Byte>)
  {
    seq(|us|, k requires 0 <= k < |us| => file(us[k]))
  }

  ghost function LoadUnits(file: RegisterFile, us: seq<Unit>, mem: Memory, slot: nat): (r: RegisterFile)
  {
    (u: Unit) => if u in us then mem(slot + Position(us, u)) else file(u)
  }

  ghost function Step(isa: Isa, i: Instr, m: Machine, body: Effect): (r: Machine)
    requires i.Body? || i.reg in isa.units
  {
    match i
    case Save(reg, slot) => m.(mem := StoreBytes(m.mem, slot, Contents(m.file, isa.units[reg])))
    case Load(reg, slot) => m.(file := LoadUnits(m.file, isa.units[reg], m.mem, slot))
    case Body => m.(file := body(m.file))
  }

  ghost predicate Known(isa: Isa, code: seq<Instr>)
  {
    forall k :: 0 <= k < |code| ==> code[k].Body? || code[k].reg in isa.units
  }

  ghost function Exec(isa: Isa, code: seq<Instr>, m: Machine, body: Effect): (r: Machine)
    requires Known(isa, code)
    decreases |code|
  {
    if code == [] then m else
    Step(isa, code[|code| - 1], Exec(isa, code[..|code| - 1], m, body), body)
  }

  lemma {:induction false} ExecConcat(isa: Isa, a: seq<Instr>, b: seq<Instr>, m: Machine, body: Effect)
    requires Known(isa, a) && Known(isa, b)
    ensures Known(isa, a + b) && Exec(isa, a + b, m, body) == Exec(isa, b, Exec(isa, a, m, body), body)
    decreases |b|
  {
    if b == [] {
      assert a + b == a;
    } else {
      var last := |b| - 1;
      ExecConcat(isa, a, b[..last], m, body);
      assert (a + b)[..|a + b| - 1] == a + b[..last];
    }
  }

  // ---------------------------------------------------------------- generated code

  /** One save or load for each of the first `n` operands with both a register and a slot. */
  function Saves(regs: Regs, slots: Slots, n: nat): (code: seq<Instr>)
    requires n <= |regs| && n <= |slots|
  {
    if n == 0 then [] else
    Saves(regs, slots, n - 1)
      + if regs[n - 1].Some? && slots[n - 1].Some? then [Save(regs[n - 1].value, slots[n - 1].value)] else []
  }

  function Loads(regs: Regs, slots: Slots, n: nat): (code: seq<Instr>)
    requires n <= |regs| && n <= |slots|
  {
    if n == 0 then [] else
    Loads(regs, slots, n - 1)
      + if regs[n - 1].Some? && slots[n - 1].Some? then [Load(regs[n - 1].value, slots[n - 1].value)] else []
  }

  ghost predicate SameLength(regs: Regs, l: Layout)
  {
    |l.clobber| == |l.input| == |l.output| == |regs|
  }

  /** What runs before the body. */
  function Entry(regs: Regs, l: Layout, noreturn: bool): (code: seq<Instr>)
    requires SameLength(regs, l)
  {
    (if noreturn then [] else Saves(regs, l.clobber, |regs|)) + Loads(regs, l.input, |regs|)
  }

  function Wrapper(regs: Regs, l: Layout, noreturn: bool): (code: seq<Instr>)
    requires SameLength(regs, l)
  {
    Entry(regs, l, noreturn) + [Body]
      + if noreturn then [] else Saves(regs, l.output, |regs|) + Loads(regs, l.clobber, |regs|)
  }

  method EmitSaves(code0: seq<Instr>, regs: Regs, slots: Slots) returns (code: seq<Instr>)
    requires |slots| == |regs|
    ensures code == code0 + Saves(regs, slots, |regs|)
  {
    code := code0;
    assert code0 + [] == code0;
    for i := 0 to |regs|
      invariant code == code0 + Saves(regs, slots, i)
    {
      if regs[i].Some? && slots[i].Some? {
        code := code + [Save(regs[i].value, slots[i].value)];
      }
    }
  }

  method EmitLoads(code0: seq<Instr>, regs: Regs, slots: Slots) returns (code: seq<Instr>)
    requires |slots| == |regs|
    ensures code == code0 + Loads(regs, slots, |regs|)
  {
    code := code0;
    assert code0 + [] == code0;
    for i := 0 to |regs|
      invariant code == code0 + Loads(regs, slots, i)
    {
      if regs[i].Some? && slots[i].Some? {
        code := code + [Load(regs[i].value, slots[i].value)];
      }
    }
  }

  method GenerateAsmWrapper(regs: Regs, l: Layout, noreturn: bool) returns (code: seq<Instr>)
    requires SameLength(regs, l)
    ensures code == Wrapper(regs, l, noreturn)
  {
    code := [];
    if !noreturn { code := EmitSaves(code, regs, l.clobber); }
    code := EmitLoads(code, regs, l.input);
    code := code + [Body];
    if !noreturn {
      code := EmitSaves(code, regs, l.output);
      code := EmitLoads(code, regs, l.clobber);
    }
  }

  // ---------------------------------------------------------------- what each stretch of code does

  ghost predicate RegsKnown(isa: Isa, regs: Regs)
  {
    forall i :: 0 <= i < |regs| && regs[i].Some? ==> regs[i].value in isa.units
  }

  /** Operand `i` has a register and a slot. */
  ghost predicate Both(regs: Regs, slots: Slots, i: int)
  {
    0 <= i < |regs| && i < |slots| && regs[i].Some? && slots[i].Some?
  }

  /** The bytes that moving operands' registers touches do not overlap. */
  ghost predicate MovesApart(isa: Isa, regs: Regs, slots: Slots)
    requires RegsKnown(isa, regs)
  {
    forall i, j :: Both(regs, slots, i) && Both(regs, slots, j) && i != j ==>
      Apart(slots[i].value, |isa.units[regs[i].value]|, slots[j].value, |isa.units[regs[j].value]|)
  }

  /** Byte `a` is in the slot of one of the first `n` operands. */
  ghost predicate Touched(isa: Isa, regs: Regs, slots: Slots, n: nat, a: nat)
    requires RegsKnown(isa, regs)
  {
    exists i :: 0 <= i < n && Both(regs, slots, i) && slots[i].value <= a < slots[i].value + |isa.units[regs[i].value]|
  }

  lemma {:induction false} SavesKnown(isa: Isa, regs: Regs, slots: Slots, n: nat)
    requires RegsKnown(isa, regs) && n <= |regs| && n <= |slots|
    ensures Known(isa, Saves(regs, slots, n)) && Known(isa, Loads(regs, slots, n))
  {
    if n > 0 { SavesKnown(isa, regs, slots, n - 1); }
  }

  /** The slot of operand `i` holds what `file` has in its register. */
  ghost predicate Holds(isa: Isa, regs: Regs, slots: Slots, i: nat, mem: Memory, file: RegisterFile)
    requires RegsKnown(isa, regs) && Both(regs, slots, i)
  {
    forall k :: 0 <= k < |isa.units[regs[i].value]| ==> mem(slots[i].value + k) == file(isa.units[regs[i].value][k])
  }

  ghost predicate AllHold(isa: Isa, regs: Regs, slots: Slots, n: nat, mem: Memory, file: RegisterFile)
    requires RegsKnown(isa, regs)
  {
    forall i :: 0 <= i < n && Both(regs, slots, i) ==> Holds(isa, regs, slots, i, mem, file)
  }

  /** The last save comes after all the others. */
  lemma SavesLast(isa: Isa, regs: Regs, slots: Slots, n: nat, m: Machine, body: Effect)
    requires RegsKnown(isa, regs) && 0 < n <= |regs| && n <= |slots|
    ensures Known(isa, Saves(regs, slots, n)) && Known(isa, Saves(regs, slots, n - 1))
    ensures var before := Exec(isa, Saves(regs, slots, n - 1), m, body);
            Exec(isa, Saves(regs, slots, n), m, body) ==
            if Both(regs, slots, n - 1) then Step(isa, Save(regs[n - 1].value, slots[n - 1].value), before, body)
            else before
  {
    SavesKnown(isa, regs, slots, n);
    SavesKnown(isa, regs, slots, n - 1);
    var code, prev := Saves(regs, slots, n), Saves(regs, slots, n - 1);
    assert if Both(regs, slots, n - 1) then code[..|code| - 1] == prev else code == prev;
  }

  lemma LoadsLast(isa: Isa, regs: Regs, slots: Slots, n: nat, m: Machine, body: Effect)
    requires RegsKnown(isa, regs) && 0 < n <= |regs| && n <= |slots|
    ensures Known(isa, Loads(regs, slots, n)) && Known(isa, Loads(regs, slots, n - 1))
    ensures var before := Exec(isa, Loads(regs, slots, n - 1), m, body);
            Exec(isa, Loads(regs, slots, n), m, body) ==
            if Both(regs, slots, n - 1) then Step(isa, Load(regs[n - 1].value, slots[n - 1].value), before, body)
            else before
  {
    SavesKnown(isa, regs, slots, n);
    SavesKnown(isa, regs, slots, n - 1);
    var code, prev := Loads(regs, slots, n), Loads(regs, slots, n - 1);
    assert if Both(regs, slots, n - 1) then code[..|code| - 1] == prev else code == prev;
  }

  /** One more save adds its register and leaves the slots of the others alone. */
  lemma SaveAdds(isa: Isa, regs: Regs, slots: Slots, n: nat, mem: Memory, file: RegisterFile)
    requires RegsKnown(isa, regs) && |slots| == |regs| && MovesApart(isa, regs, slots) && 0 < n <= |regs|
    requires Both(regs, slots, n - 1) && AllHold(isa, regs, slots, n - 1, mem, file)
    ensures var mem' := StoreBytes(mem, slots[n - 1].value, Contents(file, isa.units[regs[n - 1].value]));
            && AllHold(isa, regs, slots, n, mem', file)
            && (forall a: nat :: !Touched(isa, regs, slots, n, a) ==> mem'(a) == mem(a))
  {
    var mem' := StoreBytes(mem, slots[n - 1].value, Contents(file, isa.units[regs[n - 1].value]));
    forall i | 0 <= i < n && Both(regs, slots, i) ensures Holds(isa, regs, slots, i, mem', file) {
      if i < n - 1 {
        assert Holds(isa, regs, slots, i, mem, file);
        assert Apart(slots[i].value, |isa.units[regs[i].value]|, slots[n - 1].value, |isa.units[regs[n - 1].value]|);
      }
    }
  }

  /** From `m` to `m'` the first `n` operands were saved and nothing else happened. */
  ghost predicate HasSaved(isa: Isa, regs: Regs, slots: Slots, n: nat, m: Machine, m': Machine)
    requires RegsKnown(isa, regs)
  {
    && m'.file == m.file && AllHold(isa, regs, slots, n, m'.mem, m.file)
    && forall a: nat :: !Touched(isa, regs, slots, n, a) ==> m'.mem(a) == m.mem(a)
  }

  lemma SaveStep(isa: Isa, regs: Regs, slots: Slots, n: nat, m: Machine, before: Machine, body: Effect)
    requires RegsKnown(isa, regs) && |slots| == |regs| && MovesApart(isa, regs, slots) && 0 < n <= |regs|
    requires HasSaved(isa, regs, slots, n - 1, m, before)
    ensures HasSaved(isa, regs, slots, n, m,
                     if Both(regs, slots, n - 1)
                     then Step(isa, Save(regs[n - 1].value, slots[n - 1].value), before, body)
                     else before)
  {
    if Both(regs, slots, n - 1) { SaveAdds(isa, regs, slots, n, before.mem, m.file); }
    assert forall a: nat :: Touched(isa, regs, slots, n - 1, a) ==> Touched(isa, regs, slots, n, a);
  }

  lemma {:induction false} SavesEffect(isa: Isa, regs: Regs, slots: Slots, n: nat, m: Machine, body: Effect)
    requires RegsKnown(isa, regs) && |slots| == |regs| && n <= |regs| && MovesApart(isa, regs, slots)
    ensures Known(isa, Saves(regs, slots, n))
    ensures HasSaved(isa, regs, slots, n, m, Exec(isa, Saves(regs, slots, n), m, body))
  {
    if n > 0 {
      SavesEffect(isa, regs, slots, n - 1, m, body);
      SavesLast(isa, regs, slots, n, m, body);
      SaveStep(isa, regs, slots, n, m, Exec(isa, Saves(regs, slots, n - 1), m, body), body);
    }
  }

  ghost predicate UnitsDistinct(isa: Isa)
  {
    forall r :: r in isa.units ==> Distinct(isa.units[r])
  }

  lemma LoadedUnit(us: seq<Unit>, k: nat)
    requires Distinct(us) && k < |us|
    ensures Position(us, us[k]) == k
  {
  }

  ghost predicate LoadsApart(isa: Isa, regs: Regs, slots: Slots)
    requires RegsKnown(isa, regs)
  {
    forall i, j :: Both(regs, slots, i) && Both(regs, slots, j) && i != j ==>
      !Overlap(isa, regs[i].value, regs[j].value)
  }

  /** A loaded register holds its slot, and registers that do not overlap it keep theirs. */
  lemma LoadAdds(isa: Isa, regs: Regs, slots: Slots, n: nat, file: RegisterFile, mem: Memory)
    requires UnitsDistinct(isa) && RegsKnown(isa, regs) && |slots| == |regs| && LoadsApart(isa, regs, slots)
    requires 0 < n <= |regs| && Both(regs, slots, n - 1) && AllHold(isa, regs, slots, n - 1, mem, file)
    ensures AllHold(isa, regs, slots, n, mem,
                    LoadUnits(file, isa.units[regs[n - 1].value], mem, slots[n - 1].value))
  {
    var us := isa.units[regs[n - 1].value];
    var file' := LoadUnits(file, us, mem, slots[n - 1].value);
    forall i | 0 <= i < n && Both(regs, slots, i) ensures Holds(isa, regs, slots, i, mem, file') {
      if i == n - 1 {
        forall k | 0 <= k < |us| ensures Position(us, us[k]) == k { LoadedUnit(us, k); }
      } else {
        assert Holds(isa, regs, slots, i, mem, file) && !Overlap(isa, regs[i].value, regs[n - 1].value);
        assert forall u :: u in isa.units[regs[i].value] ==> u !in us;
      }
    }
  }

  /** Loads of registers that do not overlap: each ends with what its slot holds. */
  lemma {:induction false} LoadsEffect(isa: Isa, regs: Regs, slots: Slots, n: nat, m: Machine, body: Effect)
    requires UnitsDistinct(isa) && RegsKnown(isa, regs) && |slots| == |regs| && n <= |regs|
    requires LoadsApart(isa, regs, slots)
    ensures Known(isa, Loads(regs, slots, n))
    ensures var m' := Exec(isa, Loads(regs, slots, n), m, body);
            m'.mem == m.mem && AllHold(isa, regs, slots, n, m.mem, m'.file)
  {
    if n > 0 {
      LoadsEffect(isa, regs, slots, n - 1, m, body);
      LoadsLast(isa, regs, slots, n, m, body);
      if Both(regs, slots, n - 1) {
        LoadAdds(isa, regs, slots, n, Exec(isa, Loads(regs, slots, n - 1), m, body).file, m.mem);
      }
    }
  }

  /** The units of one of the first `n` operands that are loaded. */
  ghost predicate Loaded(isa: Isa, regs: Regs, slots: Slots, n: nat, u: Unit)
    requires RegsKnown(isa, regs)
  {
    exists i :: 0 <= i < n && Both(regs, slots, i) && u in isa.units[regs[i].value]
  }

  lemma LoadedLast(isa: Isa, regs: Regs, slots: Slots, n: nat, u: Unit)
    requires RegsKnown(isa, regs) && 0 < n <= |regs|
    ensures Loaded(isa, regs, slots, n, u) <==>
            || Loaded(isa, regs, slots, n - 1, u)
            || (Both(regs, slots, n - 1) && u in isa.units[regs[n - 1].value])
  {
  }

  /** From `m` to `m'` unit `u` was restored from `file` if one of the first `n` operands has it. */
  ghost predicate Restored(isa: Isa, regs: Regs, slots: Slots, n: nat, m: Machine, m': Machine, file: RegisterFile,
                           u: Unit)
    requires RegsKnown(isa, regs)
  {
    m'.mem == m.mem && m'.file(u) == if Loaded(isa, regs, slots, n, u) then file(u) else m.file(u)
  }

  lemma RestoreStep(isa: Isa, regs: Regs, slots: Slots, n: nat, m: Machine, before: Machine, body: Effect,
                    file: RegisterFile, u: Unit)
    requires RegsKnown(isa, regs) && 0 < n <= |regs| && AllHold(isa, regs, slots, |regs|, m.mem, file)
    requires Restored(isa, regs, slots, n - 1, m, before, file, u)
    ensures Restored(isa, regs, slots, n, m,
                     if Both(regs, slots, n - 1)
                     then Step(isa, Load(regs[n - 1].value, slots[n - 1].value), before, body)
                     else before, file, u)
  {
    LoadedLast(isa, regs, slots, n, u);
    if Both(regs, slots, n - 1) { assert Holds(isa, regs, slots, n - 1, m.mem, file); }
  }

  /** Loads from slots that all hold what `file` had: every loaded register is as in `file`,
      even when loaded registers overlap, and every other unit stays as it was. */
  lemma {:induction false} RestoresEffect(isa: Isa, regs: Regs, slots: Slots, n: nat, m: Machine,
                                          body: Effect, file: RegisterFile, u: Unit)
    requires RegsKnown(isa, regs) && |slots| == |regs| && n <= |regs|
    requires AllHold(isa, regs, slots, |regs|, m.mem, file)
    ensures Known(isa, Loads(regs, slots, n))
    ensures Restored(isa, regs, slots, n, m, Exec(isa, Loads(regs, slots, n), m, body), file, u)
  {
    if n > 0 {
      RestoresEffect(isa, regs, slots, n - 1, m, body, file, u);
      LoadsLast(isa, regs, slots, n, m, body);
      RestoreStep(isa, regs, slots, n, m, Exec(isa, Loads(regs, slots, n - 1), m, body), body, file, u);
    }
  }

  // ---------------------------------------------------------------- the caller

  /** The caller puts every input value in its slot before the call. */
  function CallerStores(mem: Memory, slots: Slots, values: seq<seq<Byte>>, n: nat): (r: Memory)
    requires n <= |slots| && n <= |values|
  {
    if n == 0 then mem else
    var prev := CallerStores(mem, slots, values, n - 1);
    if slots[n - 1].Some? then StoreBytes(prev, slots[n - 1].value, values[n - 1]) else prev
  }

  lemma {:induction false} StoredValues(mem: Memory, want: seq<Option<nat>>, slots: Slots, values: seq<seq<Byte>>,
                                        n: nat, size: nat)
    requires Sound(want, slots, size) && |values| == |slots| && n <= |slots|
    requires forall i :: 0 <= i < |want| && want[i].Some? ==> |values[i]| <= want[i].value
    ensures forall i, k :: 0 <= i < n && slots[i].Some? && 0 <= k < |values[i]| ==>
              CallerStores(mem, slots, values, n)(slots[i].value + k) == values[i][k]
  {
    if n > 0 {
      StoredValues(mem, want, slots, values, n - 1, size);
      forall i, k | 0 <= i < n && slots[i].Some? && 0 <= k < |values[i]|
        ensures CallerStores(mem, slots, values, n)(slots[i].value + k) == values[i][k]
      {
        if i < n - 1 && slots[n - 1].Some? {
          assert Apart(slots[i].value, want[i].value, slots[n - 1].value, want[n - 1].value);
        }
      }
    }
  }

  // ---------------------------------------------------------------- the whole wrapper

  ghost predicate Setup(isa: Isa, ops: seq<Operand>, regs: Regs, l: Layout)
  {
    WellFormed(isa) && OperandsOk(isa, ops) && Allocated(isa, ops, regs) && Laid(isa, ops, regs, l)
  }

  /** No register moves more bytes than its slots have. */
  lemma MovesFit(isa: Isa, ops: seq<Operand>, regs: Regs, l: Layout, i: nat)
    requires Setup(isa, ops, regs, l) && i < |ops| && regs[i].Some?
    ensures regs[i].value in isa.units
    ensures |isa.units[regs[i].value]| <= SaveSize(isa, ops, regs, i)
    ensures |isa.units[regs[i].value]| <= SlotSize(isa, ops[i])
  {
    assert Fits(isa, ops[i], regs[i].value) && OperandOk(isa, ops[i]);
  }

  /** Writing the `a` slots never touches the bytes the `b` slots use. */
  ghost predicate Misses(isa: Isa, regs: Regs, a: Slots, b: Slots)
    requires RegsKnown(isa, regs)
  {
    forall i, x: nat :: Both(regs, b, i) && b[i].value <= x < b[i].value + |isa.units[regs[i].value]| ==>
      !Touched(isa, regs, a, |regs|, x)
  }

  /** All the wrapper needs of registers and slots. */
  ghost predicate Safe(isa: Isa, regs: Regs, l: Layout)
  {
    && RegsKnown(isa, regs) && UnitsDistinct(isa) && SameLength(regs, l)
    && MovesApart(isa, regs, l.clobber) && MovesApart(isa, regs, l.output) && LoadsApart(isa, regs, l.input)
    && Misses(isa, regs, l.clobber, l.input) && Misses(isa, regs, l.output, l.clobber)
  }

  lemma SavesMoveApart(isa: Isa, ops: seq<Operand>, regs: Regs, l: Layout)
    requires Setup(isa, ops, regs, l) && RegsKnown(isa, regs)
    ensures MovesApart(isa, regs, l.clobber)
  {
    forall i | 0 <= i < |regs| && regs[i].Some? ensures |isa.units[regs[i].value]| <= SaveSize(isa, ops, regs, i) {
      MovesFit(isa, ops, regs, l, i);
    }
  }

  lemma OutputsMoveApart(isa: Isa, ops: seq<Operand>, regs: Regs, l: Layout)
    requires Setup(isa, ops, regs, l) && RegsKnown(isa, regs)
    ensures MovesApart(isa, regs, l.output)
  {
    forall i | 0 <= i < |regs| && regs[i].Some? ensures |isa.units[regs[i].value]| <= SlotSize(isa, ops[i]) {
      MovesFit(isa, ops, regs, l, i);
    }
  }

  lemma SetupMisses(isa: Isa, ops: seq<Operand>, regs: Regs, l: Layout)
    requires Setup(isa, ops, regs, l) && RegsKnown(isa, regs)
    ensures Misses(isa, regs, l.clobber, l.input) && Misses(isa, regs, l.output, l.clobber)
  {
    forall i, j | Both(regs, l.clobber, i) && Both(regs, l.input, j)
      ensures Apart(l.clobber[i].value, |isa.units[regs[i].value]|, l.input[j].value, |isa.units[regs[j].value]|)
    {
      MovesFit(isa, ops, regs, l, i);
      MovesFit(isa, ops, regs, l, j);
    }
    forall i, j | Both(regs, l.clobber, i) && Both(regs, l.output, j)
      ensures Apart(l.clobber[i].value, |isa.units[regs[i].value]|, l.output[j].value, |isa.units[regs[j].value]|)
    {
      MovesFit(isa, ops, regs, l, i);
      MovesFit(isa, ops, regs, l, j);
    }
  }

  lemma InputsDoNotOverlap(isa: Isa, ops: seq<Operand>, regs: Regs, l: Layout)
    requires Setup(isa, ops, regs, l) && RegsKnown(isa, regs)
    ensures LoadsApart(isa, regs, l.input)
  {
    forall i, j | Both(regs, l.input, i) && Both(regs, l.input, j) && i != j
      ensures !Overlap(isa, regs[i].value, regs[j].value)
    {
      assert WantsInput(ops[i]) && WantsInput(ops[j]) && LiveTogether(ops[i], ops[j]);
    }
  }

  lemma SetupIsSafe(isa: Isa, ops: seq<Operand>, regs: Regs, l: Layout)
    requires Setup(isa, ops, regs, l)
    ensures Safe(isa, regs, l)
  {
    assert RegsKnown(isa, regs) by {
      forall i | 0 <= i < |regs| && regs[i].Some? ensures regs[i].value in isa.units { MovesFit(isa, ops, regs, l, i); }
    }
    SavesMoveApart(isa, ops, regs, l);
    OutputsMoveApart(isa, ops, regs, l);
    SetupMisses(isa, ops, regs, l);
    InputsDoNotOverlap(isa, ops, regs, l);
  }

  /** The state in which the body starts. */
  ghost function AtBody(isa: Isa, regs: Regs, l: Layout, noreturn: bool, m: Machine, body: Effect): (r: Machine)
    requires RegsKnown(isa, regs) && SameLength(regs, l)
  {
    SavesKnown(isa, regs, l.clobber, |regs|);
    SavesKnown(isa, regs, l.input, |regs|);
    Exec(isa, Entry(regs, l, noreturn), m, body)
  }

  lemma MissedSlotsKeep(isa: Isa, regs: Regs, a: Slots, b: Slots, mem: Memory, mem': Memory, file: RegisterFile)
    requires RegsKnown(isa, regs) && |a| == |b| == |regs| && Misses(isa, regs, a, b)
    requires forall x: nat :: !Touched(isa, regs, a, |regs|, x) ==> mem'(x) == mem(x)
    ensures AllHold(isa, regs, b, |regs|, mem, file) <==> AllHold(isa, regs, b, |regs|, mem', file)
  {
    forall i | Both(regs, b, i)
      ensures Holds(isa, regs, b, i, mem, file) <==> Holds(isa, regs, b, i, mem', file)
    {
      assert forall x: nat :: b[i].value <= x < b[i].value + |isa.units[regs[i].value]| ==> mem'(x) == mem(x);
    }
  }

  /** When the body starts, the registers have what the input slots had and the clobber slots
      have what the registers had. */
  lemma BodyStart(isa: Isa, regs: Regs, l: Layout, noreturn: bool, m: Machine, body: Effect)
    requires Safe(isa, regs, l)
    ensures var start := AtBody(isa, regs, l, noreturn, m, body);
            && AllHold(isa, regs, l.input, |regs|, m.mem, start.file)
            && (!noreturn ==> AllHold(isa, regs, l.clobber, |regs|, start.mem, m.file))
  {
    SavesKnown(isa, regs, l.input, |regs|);
    SavesKnown(isa, regs, l.clobber, |regs|);
    var saves := if noreturn then [] else Saves(regs, l.clobber, |regs|);
    var m1 := Exec(isa, saves, m, body);
    ExecConcat(isa, saves, Loads(regs, l.input, |regs|), m, body);
    LoadsEffect(isa, regs, l.input, |regs|, m1, body);
    if !noreturn {
      SavesEffect(isa, regs, l.clobber, |regs|, m, body);
      MissedSlotsKeep(isa, regs, l.clobber, l.input, m.mem, m1.mem, AtBody(isa, regs, l, noreturn, m, body).file);
    }
  }

  ghost function AfterBody(isa: Isa, regs: Regs, l: Layout, m: Machine, body: Effect): (r: Machine)
    requires RegsKnown(isa, regs) && SameLength(regs, l)
  {
    SavesKnown(isa, regs, l.clobber, |regs|);
    SavesKnown(isa, regs, l.output, |regs|);
    Exec(isa, Saves(regs, l.output, |regs|) + Loads(regs, l.clobber, |regs|), m, body)
  }

  /** Stores and restores after the body, from any state whose clobber slots hold `file`. */
  lemma BodyEnd(isa: Isa, regs: Regs, l: Layout, m: Machine, body: Effect, file: RegisterFile, u: Unit)
    requires Safe(isa, regs, l) && AllHold(isa, regs, l.clobber, |regs|, m.mem, file)
    ensures var end := AfterBody(isa, regs, l, m, body);
            && AllHold(isa, regs, l.output, |regs|, end.mem, m.file)
            && end.file(u) == if Loaded(isa, regs, l.clobber, |regs|, u) then file(u) else m.file(u)
  {
    SavesKnown(isa, regs, l.output, |regs|);
    SavesKnown(isa, regs, l.clobber, |regs|);
    ExecConcat(isa, Saves(regs, l.output, |regs|), Loads(regs, l.clobber, |regs|), m, body);
    SavesEffect(isa, regs, l.output, |regs|, m, body);
    var m1 := Exec(isa, Saves(regs, l.output, |regs|), m, body);
    MissedSlotsKeep(isa, regs, l.output, l.clobber, m.mem, m1.mem, file);
    RestoresEffect(isa, regs, l.clobber, |regs|, m1, body, file, u);
  }

  ghost function Finished(isa: Isa, regs: Regs, l: Layout, m: Machine, body: Effect): (r: Machine)
    requires RegsKnown(isa, regs) && SameLength(regs, l)
  {
    WrapperStages(isa, regs, l, m, body);
    Exec(isa, Wrapper(regs, l, false), m, body)
  }

  lemma WrapperStages(isa: Isa, regs: Regs, l: Layout, m: Machine, body: Effect)
    requires RegsKnown(isa, regs) && SameLength(regs, l)
    ensures Known(isa, Wrapper(regs, l, false))
    ensures var start := AtBody(isa, regs, l, false, m, body);
            Exec(isa, Wrapper(regs, l, false), m, body)
            == AfterBody(isa, regs, l, start.(file := body(start.file)), body)
  {
    SavesKnown(isa, regs, l.clobber, |regs|);
    SavesKnown(isa, regs, l.input, |regs|);
    SavesKnown(isa, regs, l.output, |regs|);
    var entry, rest := Entry(regs, l, false), Saves(regs, l.output, |regs|) + Loads(regs, l.clobber, |regs|);
    ExecConcat(isa, entry, [Body], m, body);
    ExecConcat(isa, entry + [Body], rest, m, body);
    assert [Body][..0] == [];
  }

  /** The machine as the caller calls the wrapper: input values are in their slots. */
  function Called(before: Machine, l: Layout, values: seq<seq<Byte>>): (m: Machine)
    requires |values| == |l.input|
  {
    before.(mem := CallerStores(before.mem, l.input, values, |l.input|))
  }

  ghost predicate ValuesFit(isa: Isa, ops: seq<Operand>, values: seq<seq<Byte>>)
    requires WellFormed(isa) && OperandsOk(isa, ops)
  {
    |values| == |ops| && forall i :: 0 <= i < |ops| && !ops[i].NoReg? ==> |values[i]| <= SlotSize(isa, ops[i])
  }

  /** Operand `i`'s register starts with the bytes of `value`. */
  ghost predicate StartsWith(isa: Isa, regs: Regs, i: nat, file: RegisterFile, value: seq<Byte>)
    requires RegsKnown(isa, regs) && i < |regs| && regs[i].Some?
  {
    forall k :: 0 <= k < |isa.units[regs[i].value]| && k < |value| ==> file(isa.units[regs[i].value][k]) == value[k]
  }

  lemma CalledHolds(isa: Isa, ops: seq<Operand>, regs: Regs, l: Layout, values: seq<seq<Byte>>, before: Machine, i: nat)
    requires Setup(isa, ops, regs, l) && ValuesFit(isa, ops, values) && i < |ops| && WantsInput(ops[i])
    ensures Both(regs, l.input, i)
    ensures forall k :: 0 <= k < |values[i]| ==> Called(before, l, values).mem(l.input[i].value + k) == values[i][k]
  {
    StoredValues(before.mem, OperandWants(isa, ops, WantsInput), l.input, values, |ops|, l.size);
  }

  lemma HeldIsStart(isa: Isa, regs: Regs, slots: Slots, i: nat, mem: Memory, file: RegisterFile, value: seq<Byte>)
    requires RegsKnown(isa, regs) && Both(regs, slots, i) && AllHold(isa, regs, slots, |regs|, mem, file)
    requires forall k :: 0 <= k < |value| ==> mem(slots[i].value + k) == value[k]
    ensures StartsWith(isa, regs, i, file, value)
  {
    assert Holds(isa, regs, slots, i, mem, file);
  }

  lemma StoredReachesTheBody(isa: Isa, regs: Regs, l: Layout, noreturn: bool, m: Machine, body: Effect, i: nat,
                             value: seq<Byte>)
    requires Safe(isa, regs, l) && Both(regs, l.input, i)
    requires forall k :: 0 <= k < |value| ==> m.mem(l.input[i].value + k) == value[k]
    ensures StartsWith(isa, regs, i, AtBody(isa, regs, l, noreturn, m, body).file, value)
  {
    BodyStart(isa, regs, l, noreturn, m, body);
    HeldIsStart(isa, regs, l.input, i, m.mem, AtBody(isa, regs, l, noreturn, m, body).file, value);
  }

  /** With or without a return: when the body starts, every input value is in its register. */
  lemma InputsReachTheBody(isa: Isa, ops: seq<Operand>, regs: Regs, l: Layout, values: seq<seq<Byte>>, noreturn: bool,
                           before: Machine, body: Effect, i: nat)
    requires Setup(isa, ops, regs, l) && ValuesFit(isa, ops, values) && i < |ops| && WantsInput(ops[i])
    ensures Safe(isa, regs, l)
    ensures StartsWith(isa, regs, i, AtBody(isa, regs, l, noreturn, Called(before, l, values), body).file, values[i])
  {
    SetupIsSafe(isa, ops, regs, l);
    var m := Called(before, l, values);
    CalledHolds(isa, ops, regs, l, values, before, i);
    StoredReachesTheBody(isa, regs, l, noreturn, m, body, i, values[i]);
  }

  /** When the wrapper returns, every output slot holds what the body left in its register. */
  lemma OutputsReachTheCaller(isa: Isa, ops: seq<Operand>, regs: Regs, l: Layout, m: Machine, body: Effect, i: nat)
    requires Setup(isa, ops, regs, l) && i < |ops| && WantsOutput(ops[i])
    ensures Safe(isa, regs, l) && Both(regs, l.output, i)
    ensures Holds(isa, regs, l.output, i, Finished(isa, regs, l, m, body).mem,
                  body(AtBody(isa, regs, l, false, m, body).file))
  {
    SetupIsSafe(isa, ops, regs, l);
    var start := AtBody(isa, regs, l, false, m, body);
    BodyStart(isa, regs, l, false, m, body);
    BodyEnd(isa, regs, l, start.(file := body(start.file)), body, m.file, 0);
    WrapperStages(isa, regs, l, m, body);
  }

  /** When the wrapper returns, a unit of a saved register is as the caller had it, whatever the
      body did, and any other unit is as the body left it. */
  lemma UnitsAtReturn(isa: Isa, regs: Regs, l: Layout, m: Machine, body: Effect, u: Unit)
    requires Safe(isa, regs, l)
    ensures Finished(isa, regs, l, m, body).file(u) ==
            if Loaded(isa, regs, l.clobber, |regs|, u) then m.file(u)
            else body(AtBody(isa, regs, l, false, m, body).file)(u)
  {
    var start := AtBody(isa, regs, l, false, m, body);
    BodyStart(isa, regs, l, false, m, body);
    BodyEnd(isa, regs, l, start.(file := body(start.file)), body, m.file, u);
    WrapperStages(isa, regs, l, m, body);
  }

  /** When the wrapper returns, every operand register the caller expects back is as before,
      whatever the body did. */
  lemma SavedRegistersAreRestored(isa: Isa, ops: seq<Operand>, regs: Regs, l: Layout, m: Machine, body: Effect, i: nat)
    requires Setup(isa, ops, regs, l) && i < |ops| && Saved(isa, ops, regs, i)
    ensures Safe(isa, regs, l)
    ensures forall u :: u in isa.units[regs[i].value] ==> Finished(isa, regs, l, m, body).file(u) == m.file(u)
  {
    SetupIsSafe(isa, ops, regs, l);
    assert Both(regs, l.clobber, i);
    forall u | u in isa.units[regs[i].value] ensures Finished(isa, regs, l, m, body).file(u) == m.file(u) {
      UnitsAtReturn(isa, regs, l, m, body, u);
      assert Loaded(isa, regs, l.clobber, |regs|, u);
    }
  }

  /** Allocation, layout and emission together. */
  method CodegenInlineAsm(isa: Isa, ops: seq<Operand>, noreturn: bool)
    returns (ok: bool, regs: Regs, l: Layout, code: seq<Instr>)
    requires WellFormed(isa) && OperandsOk(isa, ops) && ExplicitOk(isa, ops)
    ensures ok ==> Setup(isa, ops, regs, l) && SameLength(regs, l) && code == Wrapper(regs, l, noreturn)
    ensures !ok ==> AllFit(isa, ops, regs) && exists i :: 0 <= i < |ops| && Exhausted(isa, ops, regs, i)
  {
    l, code := Layout([], [], [], 0), [];
    ok, regs := AllocateRegisters(isa, ops);
    if ok {
      l := AllocateStackSlots(isa, ops, regs);
      code := GenerateAsmWrapper(regs, l, noreturn);
    }
  }
}
