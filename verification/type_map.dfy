/**
 * The register type map of the bytecode analysis: a persistent map from
 * x, f and y registers to JVM types. Setters return new maps; y registers
 * are numbered from the top of a stack of `stacksize` slots; two maps are
 * merged pointwise through the lattice null / exact type / ETuple / EObject.
 *
 * A map is a value. The helpers that walk registers in loops (`copy`,
 * `grow`, `merge_regs`, the equality walks, `max_xreg`) are methods that
 * fill fresh arrays or accumulate in local variables; each is proved
 * against a specification function.
 */
module TypeMaps {
  import opened Wrappers

  /** The sort of a JVM type, as far as the analysis looks at it. */
  datatype Sort = ObjectSort | OtherSort(code: int)

  /** A JVM type: its sort and its internal name (equal types have equal names). */
  datatype AsmType = AsmType(sort: Sort, internalName: string)

  /** A register's type; `None` is the null of an unknown register. */
  type Slot = Option<AsmType>

  const ETupleName: string := "erjang/ETuple"
  const TypeETuple: AsmType := AsmType(ObjectSort, ETupleName)
  const TypeEObject: AsmType := AsmType(ObjectSort, "erjang/EObject")

  /** An object type whose internal name starts with that of ETuple. */
  predicate IsTupleType(t: AsmType) {
    t.sort == ObjectSort && ETupleName <= t.internalName
  }

  /** `merge`: the least type covering both, in the lattice null / exact / ETuple / EObject. */
  function Merge(t1: Slot, t2: Slot): Slot {
    if t1.None? || t2.None? then None
    else if t1 == t2 then t1
    else if IsTupleType(t1.value) && IsTupleType(t2.value) then Some(TypeETuple)
    else Some(TypeEObject)
  }

  function Max(a: int, b: int): int {
    if a < b then b else a
  }

  /** `get`: the register's type, or null past the end of the array. */
  function Get(regs: seq<Slot>, i: nat): (r: Slot)
    ensures i >= |regs| ==> r.None?
    ensures i < |regs| ==> r == regs[i]
  {
    if i < |regs| then regs[i] else None
  }

  /** Register arrays that agree once the shorter is padded with nulls. */
  predicate SameRegs(r1: seq<Slot>, r2: seq<Slot>) {
    forall i :: 0 <= i < Max(|r1|, |r2|) ==> Get(r1, i) == Get(r2, i)
  }

  /** `merge_regs`: the pointwise merge, as long as the longer array. */
  function MergedRegs(r1: seq<Slot>, r2: seq<Slot>): (r: seq<Slot>)
    ensures |r| == Max(|r1|, |r2|)
    ensures forall i :: 0 <= i < |r| ==> r[i] == Merge(Get(r1, i), Get(r2, i))
  {
    seq(Max(|r1|, |r2|), i requires 0 <= i => Merge(Get(r1, i), Get(r2, i)))
  }

  /** The error `gety` and `sety` raise for a y register outside the stack. */
  datatype YError = NoYRegister(reg: int)

  /**
   * A type map. `stacksize` is the number of y registers; y register `r`
   * is stored at position `stacksize - r - 1` of `yregs`.
   */
  datatype TypeMap = TypeMap(xregs: seq<Slot>, yregs: seq<Slot>, fregs: seq<Slot>, stacksize: int) {

    /** `getx` */
    function GetX(reg: nat): Slot {
      Get(xregs, reg)
    }

    /** `getf` */
    function GetF(reg: nat): Slot {
      Get(fregs, reg)
    }

    /** `get_ypos`: where y register `reg` is stored; inside the stack exactly for registers 0 to stacksize-1. */
    function GetYPos(reg: int): (pos: int)
      ensures 0 <= pos < stacksize <==> 0 <= reg < stacksize
      ensures reg == stacksize - pos - 1
    {
      stacksize - reg - 1
    }

    /** `gety`: IllegalArgument outside the stack, null past the stored array. */
    function GetY(reg: int): (r: Result<Slot, YError>)
      ensures r.Ok? <==> 0 <= reg < stacksize
      ensures r.Ok? && GetYPos(reg) >= |yregs| ==> r.value.None?
      ensures r.Ok? && GetYPos(reg) < |yregs| ==> r.value == yregs[GetYPos(reg)]
    {
      var pos := GetYPos(reg);
      if pos < 0 || pos >= stacksize then Err(NoYRegister(reg))
      else Ok(Get(yregs, pos))
    }

    /** `trim_y`: the stack shrinks by `n`; the register arrays are shared. */
    function TrimY(n: int): (r: TypeMap)
      ensures r.xregs == xregs && r.yregs == yregs && r.fregs == fregs && r.stacksize == stacksize - n
    {
      this.(stacksize := stacksize - n)
    }

    /** `alloc_y`: the stack grows by `n`; the register arrays are shared. */
    function AllocY(n: int): (r: TypeMap)
      ensures r.xregs == xregs && r.yregs == yregs && r.fregs == fregs && r.stacksize == stacksize + n
    {
      this.(stacksize := stacksize + n)
    }

    /** `setx`: the same map when the register already holds `t`; otherwise a map where it does. */
    method SetX(reg: nat, t: Slot) returns (r: TypeMap)
      ensures GetX(reg) == t ==> r == this
      ensures GetX(reg) != t ==>
        r.yregs == yregs && r.fregs == fregs && r.stacksize == stacksize &&
        |r.xregs| == (if |xregs| <= reg then reg + 6 else |xregs|)
      ensures r.GetX(reg) == t && forall i: nat :: i != reg ==> r.GetX(i) == GetX(i)
    {
      if Get(xregs, reg) == t {
        return this;
      }
      var newX := SetReg(xregs, reg, t);
      return this.(xregs := newX);
    }

    /** `setf`: as `setx`, on the f registers. */
    method SetF(reg: nat, t: Slot) returns (r: TypeMap)
      ensures GetF(reg) == t ==> r == this
      ensures GetF(reg) != t ==>
        r.xregs == xregs && r.yregs == yregs && r.stacksize == stacksize &&
        |r.fregs| == (if |fregs| <= reg then reg + 6 else |fregs|)
      ensures r.GetF(reg) == t && forall i: nat :: i != reg ==> r.GetF(i) == GetF(i)
    {
      if Get(fregs, reg) == t {
        return this;
      }
      var newF := SetReg(fregs, reg, t);
      return this.(fregs := newF);
    }

    /**
     * `sety`: IllegalArgument for a register outside the stack; the same map
     * when the register already holds `t`; otherwise a map where it does.
     */
    method SetY(reg: int, t: Slot) returns (r: Result<TypeMap, YError>)
      ensures r.Ok? <==> 0 <= reg < stacksize
      ensures r.Ok? && GetY(reg) == Ok(t) ==> r.value == this
      ensures r.Ok? ==>
        r.value.xregs == xregs && r.value.fregs == fregs && r.value.stacksize == stacksize &&
        r.value.GetY(reg) == Ok(t) && forall j :: j != reg ==> r.value.GetY(j) == GetY(j)
    {
      var current := GetY(reg);
      if current.Err? {
        return Err(current.error);
      }
      if current.value == t {
        return Ok(this);
      }
      var pos := GetYPos(reg);
      var newY := SetReg(yregs, pos, t);
      return Ok(this.(yregs := newY));
    }

    /** `max_xreg`: one more than the highest x register holding a type, and at least 1. */
    method MaxXReg() returns (r: int)
      ensures r == MaxRegBound(xregs)
    {
      r := MaxReg(xregs);
    }

    /** `max_freg`: as `max_xreg`, on the f registers. */
    method MaxFReg() returns (r: int)
      ensures r == MaxRegBound(fregs)
    {
      r := MaxReg(fregs);
    }

    /** `equals`: the same x and f registers up to trailing nulls, and the same y registers. */
    method Equals(other: TypeMap) returns (b: bool)
      ensures b == Same(this, other)
    {
      b := EqRegs(xregs, other.xregs);
      if b {
        b := EqY(this, other);
      }
      if b {
        b := EqRegs(fregs, other.fregs);
      }
    }

    /**
     * `mergeFrom`: x and f registers are kept when equal and merged
     * otherwise; the y registers are kept when equal, dropped together with
     * the stack when the stack sizes differ, and merged slot by slot
     * otherwise. Nothing changed gives the same map.
     */
    method MergeFrom(other: TypeMap) returns (r: TypeMap)
      ensures r == MergedFrom(this, other)
    {
      var newX := xregs;
      var sameX := EqRegs(xregs, other.xregs);
      if !sameX {
        newX := MergeRegs(xregs, other.xregs);
      }
      var newF := fregs;
      var sameF := EqRegs(fregs, other.fregs);
      if !sameF {
        newF := MergeRegs(fregs, other.fregs);
      }
      var newY := yregs;
      var newStacksize := stacksize;
      var sameY := EqY(this, other);
      if !sameY {
        if stacksize != other.stacksize {
          newStacksize := 0;
          newY := [];
        } else {
          newStacksize := stacksize;
          newY := MergeY(this, other);
        }
      }
      if newX == xregs && newY == yregs && newF == fregs && newStacksize == stacksize {
        return this;
      }
      return TypeMap(newX, newY, newF, newStacksize);
    }
  }

  /** The map a new basic block starts from: no types and an empty stack. */
  const Empty: TypeMap := TypeMap([], [], [], 0)

  /** Two maps `equals` considers equal. */
  predicate Same(a: TypeMap, b: TypeMap) {
    SameRegs(a.xregs, b.xregs) && SameY(a, b) && SameRegs(a.fregs, b.fregs)
  }

  /** `eqy`: equal stack sizes and the same type in every y register. */
  predicate SameY(a: TypeMap, b: TypeMap) {
    a.stacksize == b.stacksize && forall reg :: 0 <= reg < a.stacksize ==> a.GetY(reg) == b.GetY(reg)
  }

  /** The y registers of two maps with the same stack, merged position by position. */
  function MergedY(a: TypeMap, b: TypeMap, n: nat): (r: seq<Slot>)
    ensures |r| == n
    ensures forall p :: 0 <= p < n ==> r[p] == Merge(Get(a.yregs, p), Get(b.yregs, p))
  {
    seq(n, p requires 0 <= p => Merge(Get(a.yregs, p), Get(b.yregs, p)))
  }

  /** One register array of `mergeFrom`: kept when `eq` holds, otherwise `merge_regs`. */
  function MergedUnlessSame(r1: seq<Slot>, r2: seq<Slot>): seq<Slot> {
    if SameRegs(r1, r2) then r1 else MergedRegs(r1, r2)
  }

  /** What `mergeFrom` computes (with "nothing changed" read as equal values). */
  function MergedFrom(a: TypeMap, b: TypeMap): TypeMap {
    var x := MergedUnlessSame(a.xregs, b.xregs);
    var f := MergedUnlessSame(a.fregs, b.fregs);
    if SameY(a, b) then TypeMap(x, a.yregs, f, a.stacksize)
    else if a.stacksize != b.stacksize then TypeMap(x, [], f, 0)
    else TypeMap(x, MergedY(a, b, a.stacksize), f, a.stacksize)
  }

  /** `max_xreg` on one array: 1 + the highest index holding a type, or 1 when there is none. */
  function MaxRegBound(regs: seq<Slot>): (r: int)
    ensures 1 <= r <= Max(1, |regs|)
    ensures forall i :: r <= i < |regs| ==> regs[i].None?
    ensures r >= 2 ==> regs[r - 1].Some?
    decreases |regs|
  {
    if |regs| <= 1 then 1
    else if regs[|regs| - 1].Some? then |regs|
    else MaxRegBound(regs[..|regs| - 1])
  }

  // ---------------------------------------------------------------------
  // The loops over register arrays
  // ---------------------------------------------------------------------

  /** `copy`: a fresh array with the same registers. */
  method Copy(regs: seq<Slot>) returns (res: array<Slot>)
    ensures fresh(res) && res[..] == regs
  {
    res := new Slot[|regs|];
    for i := 0 to |regs|
      invariant forall j :: 0 <= j < i ==> res[j] == regs[j]
    {
      res[i] := regs[i];
    }
  }

  /** `grow`: a fresh array of length reg+6 starting with the registers, then nulls. */
  method Grow(regs: seq<Slot>, reg: nat) returns (res: array<Slot>)
    requires |regs| <= reg + 6
    ensures fresh(res) && res.Length == reg + 6
    ensures forall i :: 0 <= i < res.Length ==> res[i] == Get(regs, i)
  {
    res := new Slot[reg + 6](_ => None);
    for i := 0 to |regs|
      invariant forall j :: 0 <= j < i ==> res[j] == regs[j]
      invariant forall j :: |regs| <= j < res.Length ==> res[j].None?
    {
      res[i] := regs[i];
    }
  }

  /** The store shared by `setx`, `setf` and `sety`: grow or copy, then write. */
  method SetReg(regs: seq<Slot>, reg: nat, t: Slot) returns (res: seq<Slot>)
    ensures |res| == if |regs| <= reg then reg + 6 else |regs|
    ensures Get(res, reg) == t && forall i: nat :: i != reg ==> Get(res, i) == Get(regs, i)
  {
    var a;
    if |regs| <= reg {
      a := Grow(regs, reg);
    } else {
      a := Copy(regs);
    }
    a[reg] := t;
    res := a[..];
  }

  /** `eq` on two register arrays. */
  method EqRegs(r1: seq<Slot>, r2: seq<Slot>) returns (b: bool)
    ensures b == SameRegs(r1, r2)
  {
    var max := Max(|r1|, |r2|);
    for i := 0 to max
      invariant forall j :: 0 <= j < i ==> Get(r1, j) == Get(r2, j)
    {
      if Get(r1, i) != Get(r2, i) {
        return false;
      }
    }
    return true;
  }

  /** `eqy` */
  method EqY(me: TypeMap, other: TypeMap) returns (b: bool)
    ensures b == SameY(me, other)
  {
    if me.stacksize != other.stacksize {
      return false;
    }
    var stacksize := me.stacksize;
    var i := 0;
    while i < stacksize
      invariant 0 <= i && (stacksize > 0 ==> i <= stacksize)
      invariant forall reg :: 0 <= reg < i ==> me.GetY(reg) == other.GetY(reg)
      decreases stacksize - i
    {
      if me.GetY(i).value != other.GetY(i).value {
        return false;
      }
      i := i + 1;
    }
    return true;
  }

  /** `merge_regs` */
  method MergeRegs(r1: seq<Slot>, r2: seq<Slot>) returns (res: seq<Slot>)
    ensures res == MergedRegs(r1, r2)
  {
    var a := new Slot[Max(|r1|, |r2|)];
    for i := 0 to a.Length
      invariant forall j :: 0 <= j < i ==> a[j] == Merge(Get(r1, j), Get(r2, j))
    {
      a[i] := Merge(Get(r1, i), Get(r2, i));
    }
    res := a[..];
  }

  /** The y-register loop of `mergeFrom`, for two maps with the same, nonempty stack. */
  method MergeY(me: TypeMap, other: TypeMap) returns (res: seq<Slot>)
    requires me.stacksize == other.stacksize && me.stacksize > 0
    ensures res == MergedY(me, other, me.stacksize)
  {
    var n := me.stacksize;
    var a := new Slot[n];
    for i := 0 to n
      invariant forall p :: n - i <= p < n ==> a[p] == Merge(Get(me.yregs, p), Get(other.yregs, p))
    {
      a[n - i - 1] := Merge(me.GetY(i).value, other.GetY(i).value);
    }
    res := a[..];
  }

  /** The loop shared by `max_xreg` and `max_freg`. */
  method MaxReg(regs: seq<Slot>) returns (r: int)
    ensures r == MaxRegBound(regs)
  {
    var max := 0;
    for i := 0 to |regs|
      invariant max == MaxRegBound(regs[..i]) - 1
    {
      assert regs[..i + 1][..i] == regs[..i];
      if regs[i].Some? {
        max := i;
      }
    }
    assert regs[..|regs|] == regs;
    return max + 1;
  }
}

/**
 * Properties of the type map: the merge lattice, register equality up to
 * trailing nulls, y-register renumbering, and what `mergeFrom` computes.
 */
module TypeMapProperties {
  import opened Wrappers
  import opened TypeMaps

  /** Merging is commutative and idempotent, and null absorbs everything. */
  lemma MergeCommutativeIdempotent(t1: Slot, t2: Slot)
    ensures Merge(t1, t2) == Merge(t2, t1)
    ensures Merge(t1, t1) == t1
    ensures Merge(t1, t2).None? <==> t1.None? || t2.None?
  {
  }

  /** ETuple is a tuple type, EObject is not, so they differ. */
  lemma LatticeTop()
    ensures IsTupleType(TypeETuple) && !IsTupleType(TypeEObject) && TypeETuple != TypeEObject
  {
    assert TypeEObject.internalName[8] != ETupleName[8];
  }

  /**
   * The merge of non-null types: the type itself when they are equal,
   * ETuple when they are distinct tuple types, EObject otherwise; so it is
   * a tuple type exactly when both are.
   */
  lemma MergeTupleIff(t1: AsmType, t2: AsmType)
    ensures var m := Merge(Some(t1), Some(t2));
      m.Some? && (IsTupleType(m.value) <==> IsTupleType(t1) && IsTupleType(t2)) &&
      (t1 != t2 ==> m.value == if IsTupleType(t1) && IsTupleType(t2) then TypeETuple else TypeEObject)
  {
    LatticeTop();
  }

  /** Merging is associative. */
  lemma MergeAssociative(t1: Slot, t2: Slot, t3: Slot)
    ensures Merge(Merge(t1, t2), t3) == Merge(t1, Merge(t2, t3))
  {
    LatticeTop();
    if t1.Some? && t2.Some? && t3.Some? {
      MergeTupleIff(t1.value, t2.value);
      MergeTupleIff(t2.value, t3.value);
    }
  }

  /** The merge covers each side: merging it again with either side changes nothing. */
  lemma MergeAbsorbs(t1: Slot, t2: Slot)
    ensures Merge(Merge(t1, t2), t1) == Merge(t1, t2)
    ensures Merge(Merge(t1, t2), t2) == Merge(t1, t2)
  {
    LatticeTop();
  }

  /** Register arrays are equal for `eq` exactly when every register reads the same. */
  lemma SameRegsIff(r1: seq<Slot>, r2: seq<Slot>)
    ensures SameRegs(r1, r2) <==> forall i: nat :: Get(r1, i) == Get(r2, i)
  {
  }

  /** Trailing nulls are irrelevant to register equality. */
  lemma TrailingNulls(regs: seq<Slot>, k: nat)
    ensures SameRegs(regs, regs + seq(k, _ => None))
  {
    var padded := regs + seq(k, _ => None);
    forall i | 0 <= i < Max(|regs|, |padded|) ensures Get(regs, i) == Get(padded, i) {
      if i >= |regs| {
        assert padded[i] == None;
      }
    }
  }

  /** `equals` is an equivalence. */
  lemma SameEquivalence(a: TypeMap, b: TypeMap, c: TypeMap)
    ensures Same(a, a)
    ensures Same(a, b) ==> Same(b, a)
    ensures Same(a, b) && Same(b, c) ==> Same(a, c)
  {
    if Same(a, b) && Same(b, c) {
      SameRegsIff(a.xregs, b.xregs);
      SameRegsIff(b.xregs, c.xregs);
      SameRegsIff(a.xregs, c.xregs);
      SameRegsIff(a.fregs, b.fregs);
      SameRegsIff(b.fregs, c.fregs);
      SameRegsIff(a.fregs, c.fregs);
    }
  }

  /** Maps `equals` considers equal read the same in every register. */
  lemma SameReadsSame(a: TypeMap, b: TypeMap)
    requires Same(a, b)
    ensures forall i: nat :: a.GetX(i) == b.GetX(i) && a.GetF(i) == b.GetF(i)
    ensures forall reg :: a.GetY(reg) == b.GetY(reg)
  {
    SameRegsIff(a.xregs, b.xregs);
    SameRegsIff(a.fregs, b.fregs);
  }

  /** `merge_regs` is commutative, and merging an array with itself gives it back. */
  lemma MergedRegsCommutativeIdempotent(r1: seq<Slot>, r2: seq<Slot>)
    ensures MergedRegs(r1, r2) == MergedRegs(r2, r1)
    ensures MergedRegs(r1, r1) == r1
  {
    var m, n := MergedRegs(r1, r2), MergedRegs(r2, r1);
    forall i | 0 <= i < |m| ensures m[i] == n[i] {
      MergeCommutativeIdempotent(Get(r1, i), Get(r2, i));
    }
    forall i | 0 <= i < |r1| ensures MergedRegs(r1, r1)[i] == r1[i] {
      MergeCommutativeIdempotent(Get(r1, i), Get(r1, i));
    }
  }

  /** Whether or not `mergeFrom` keeps the x registers, each reads as the merge of both sides. */
  lemma MergedFromRegs(a: TypeMap, b: TypeMap)
    ensures var r := MergedFrom(a, b);
      forall i: nat :: r.GetX(i) == Merge(a.GetX(i), b.GetX(i)) && r.GetF(i) == Merge(a.GetF(i), b.GetF(i))
  {
    var r := MergedFrom(a, b);
    forall i: nat ensures r.GetX(i) == Merge(a.GetX(i), b.GetX(i)) && r.GetF(i) == Merge(a.GetF(i), b.GetF(i)) {
      MergeCommutativeIdempotent(a.GetX(i), b.GetX(i));
      MergeCommutativeIdempotent(a.GetF(i), b.GetF(i));
      SameRegsIff(a.xregs, b.xregs);
      SameRegsIff(a.fregs, b.fregs);
    }
  }

  /**
   * With differing stack sizes the merge has an empty stack and no y types;
   * with equal ones it keeps the stack size and each y register reads as
   * the merge of both sides.
   */
  lemma MergedFromStack(a: TypeMap, b: TypeMap)
    ensures var r := MergedFrom(a, b);
      (a.stacksize != b.stacksize ==> r.stacksize == 0 && r.yregs == []) &&
      (a.stacksize == b.stacksize ==>
         r.stacksize == a.stacksize &&
         forall reg :: 0 <= reg < a.stacksize ==> r.GetY(reg) == Ok(Merge(a.GetY(reg).value, b.GetY(reg).value)))
  {
    var r := MergedFrom(a, b);
    if a.stacksize == b.stacksize {
      forall reg | 0 <= reg < a.stacksize
        ensures r.GetY(reg) == Ok(Merge(a.GetY(reg).value, b.GetY(reg).value))
      {
        MergeCommutativeIdempotent(a.GetY(reg).value, b.GetY(reg).value);
      }
    }
  }

  /** Nothing to merge: a map merged with one it equals is returned as it is. */
  lemma MergedFromUnchanged(a: TypeMap, b: TypeMap)
    ensures Same(a, b) ==> MergedFrom(a, b) == a
    ensures MergedFrom(a, a) == a
  {
    SameEquivalence(a, a, a);
  }

  /** The x and f registers of a merge do not depend on the order of the two maps. */
  lemma MergedFromRegsCommute(a: TypeMap, b: TypeMap)
    ensures SameRegs(MergedFrom(a, b).xregs, MergedFrom(b, a).xregs)
    ensures SameRegs(MergedFrom(a, b).fregs, MergedFrom(b, a).fregs)
  {
    MergedUnlessSameCommutes(a.xregs, b.xregs);
    MergedUnlessSameCommutes(a.fregs, b.fregs);
  }

  /** One register array of a merge does not depend on the order of the two arrays. */
  lemma MergedUnlessSameCommutes(s1: seq<Slot>, s2: seq<Slot>)
    ensures SameRegs(MergedUnlessSame(s1, s2), MergedUnlessSame(s2, s1))
  {
    var r1, r2 := MergedUnlessSame(s1, s2), MergedUnlessSame(s2, s1);
    SameRegsIff(s1, s2);
    SameRegsIff(s2, s1);
    forall i: nat ensures Get(r1, i) == Get(r2, i) {
      MergeCommutativeIdempotent(Get(s1, i), Get(s2, i));
    }
    SameRegsIff(r1, r2);
  }

  /** The stack and y registers of a merge do not depend on the order of the two maps. */
  lemma MergedFromYCommute(a: TypeMap, b: TypeMap)
    ensures SameY(MergedFrom(a, b), MergedFrom(b, a))
  {
    var r1, r2 := MergedFrom(a, b), MergedFrom(b, a);
    MergedFromStack(a, b);
    MergedFromStack(b, a);
    if a.stacksize == b.stacksize {
      forall reg | 0 <= reg < r1.stacksize ensures r1.GetY(reg) == r2.GetY(reg) {
        MergeCommutativeIdempotent(a.GetY(reg).value, b.GetY(reg).value);
      }
    } else {
      assert r1.stacksize == 0 == r2.stacksize;
    }
  }

  /** The intended merge is symmetric up to `equals`. */
  lemma MergedFromCommutes(a: TypeMap, b: TypeMap)
    ensures Same(MergedFrom(a, b), MergedFrom(b, a))
  {
    MergedFromRegsCommute(a, b);
    MergedFromYCommute(a, b);
  }

  /** `alloc_y(n)` renumbers: old y register `reg` is new y register `reg + n`. */
  lemma AllocYShifts(m: TypeMap, n: nat)
    ensures forall reg :: 0 <= reg < m.stacksize ==> m.AllocY(n).GetY(reg + n) == m.GetY(reg)
    ensures forall reg :: 0 <= reg < n ==> m.AllocY(n).GetY(reg).Ok? == (reg < m.stacksize + n)
  {
  }

  /** `trim_y(n)` drops y registers 0 to n-1 and renumbers the rest down by `n`. */
  lemma TrimYShifts(m: TypeMap, n: nat)
    ensures forall reg :: n <= reg < m.stacksize ==> m.TrimY(n).GetY(reg - n) == m.GetY(reg)
    ensures forall reg :: m.stacksize - n <= reg ==> m.TrimY(n).GetY(reg).Err?
  {
  }

  /** Allocating and then trimming the same amount gives the map back. */
  lemma AllocTrimRoundTrip(m: TypeMap, n: int)
    ensures m.AllocY(n).TrimY(n) == m && m.TrimY(n).AllocY(n) == m
  {
  }

  // ---------------------------------------------------------------------
  // mergeFrom as written
  // ---------------------------------------------------------------------

  /**
   * `mergeFrom` exactly as written, where "nothing changed" is decided by
   * array identity. `ySharedEmpty` says that `a`'s y array is the shared
   * empty array, which is also what a yanked stack gets: then yanking the
   * stack looks like no change.
   */
  function MergedFromAsWritten(a: TypeMap, b: TypeMap, ySharedEmpty: bool): (r: TypeMap)
    requires ySharedEmpty ==> a.yregs == []
    ensures SameY(a, b) || a.stacksize == b.stacksize || !ySharedEmpty ==> r == MergedFrom(a, b)
  {
    var keptX := SameRegs(a.xregs, b.xregs);
    var keptF := SameRegs(a.fregs, b.fregs);
    var yKept := SameY(a, b) || (a.stacksize != b.stacksize && ySharedEmpty);
    if keptX && keptF && yKept then a else MergedFrom(a, b)
  }

  /**
   * The as-written merge differs from the intended one exactly when a map
   * with the shared empty y array and a nonzero stack is merged with one of
   * another stack size and the same x and f registers: it then keeps the
   * stale stack size instead of yanking the stack to 0.
   */
  lemma AsWrittenKeepsStaleStack(a: TypeMap, b: TypeMap, ySharedEmpty: bool)
    requires ySharedEmpty ==> a.yregs == []
    ensures MergedFromAsWritten(a, b, ySharedEmpty) != MergedFrom(a, b) <==>
      ySharedEmpty && a.stacksize != b.stacksize && a.stacksize != 0 &&
      SameRegs(a.xregs, b.xregs) && SameRegs(a.fregs, b.fregs)
  {
    if ySharedEmpty && a.stacksize != b.stacksize && SameRegs(a.xregs, b.xregs) && SameRegs(a.fregs, b.fregs) {
      assert MergedFrom(a, b) == TypeMap(a.xregs, [], a.fregs, 0);
    }
  }

  /**
   * A map whose stack was allocated but whose y registers were never set
   * (`alloc_y(2)` on a new map) merged with a new map: the code keeps
   * stack size 2, where the stack should have been yanked to 0.
   */
  lemma StaleStackExample()
    ensures var a := Empty.AllocY(2);
      MergedFromAsWritten(a, Empty, true).stacksize == 2 && MergedFrom(a, Empty).stacksize == 0
  {
    var a := Empty.AllocY(2);
    assert !SameY(a, Empty);
    assert SameRegs(a.xregs, Empty.xregs) && SameRegs(a.fregs, Empty.fregs);
  }

  /**
   * The merge as written is not symmetric: merging a new map into one with
   * an allocated, never-set stack keeps stack size 2, while merging the
   * other way round gives 0. The intended merge gives 0 both ways.
   */
  lemma AsWrittenNotSymmetric()
    ensures var a := Empty.AllocY(2);
      var ab, ba := MergedFromAsWritten(a, Empty, true), MergedFromAsWritten(Empty, a, true);
      !Same(ab, ba) && ab.stacksize == 2 && ba.stacksize == 0 &&
      MergedFrom(a, Empty).stacksize == 0 == MergedFrom(Empty, a).stacksize
  {
    var a := Empty.AllocY(2);
    assert !SameY(a, Empty) && !SameY(Empty, a);
    assert SameRegs(a.xregs, Empty.xregs) && SameRegs(a.fregs, Empty.fregs);
  }
}
