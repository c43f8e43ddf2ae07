/** The variable store: one slot per upper-case letter A..Z, each holding an
    "assigned" flag and a value. Parse mode records only that a variable has
    become assigned; interpret mode also records its value. */
module VariableStore {

  /** `marked` is the slot's assigned flag. */
  datatype Slot = Slot(marked: bool, value: real)

  const Letters: nat := 26

  type Store = s: seq<Slot> | |s| == Letters witness seq(Letters, _ => Slot(false, 0.0))

  /** Only the upper-case letters name variables. */
  predicate IsVariable(c: char)
  {
    'A' <= c <= 'Z'
  }

  function Index(c: char): (i: nat)
    requires IsVariable(c)
    ensures i < Letters
  {
    (c as int) - ('A' as int)
  }

  predicate IsAssigned(st: Store, c: char)
    requires IsVariable(c)
  {
    st[Index(c)].marked
  }

  function Value(st: Store, c: char): real
    requires IsVariable(c)
  {
    st[Index(c)].value
  }

  /** The store at the start of a run: nothing assigned, every value 0. */
  function FreshStore(): (st: Store)
    ensures forall c :: IsVariable(c) ==> !IsAssigned(st, c) && Value(st, c) == 0.0
  {
    seq(Letters, _ => Slot(false, 0.0))
  }

  /** assignValToVariable: marks `c` assigned in every mode, but writes `v`
      only when interpreting. No other variable changes. */
  function Assign(st: Store, c: char, v: real, interpreting: bool): (r: Store)
    requires IsVariable(c)
    ensures IsAssigned(r, c)
    ensures Value(r, c) == if interpreting then v else Value(st, c)
    ensures forall d :: IsVariable(d) && d != c ==>
              IsAssigned(r, d) == IsAssigned(st, d) && Value(r, d) == Value(st, d)
  {
    st[Index(c) := Slot(true, if interpreting then v else st[Index(c)].value)]
  }

  /** Every variable assigned in `a` is still assigned in `b`. */
  predicate AssignedStays(a: Store, b: Store)
  {
    forall c :: IsVariable(c) && IsAssigned(a, c) ==> IsAssigned(b, c)
  }

  /** `a` and `b` hold the same value for every variable. */
  predicate SameValues(a: Store, b: Store)
  {
    forall c :: IsVariable(c) ==> Value(a, c) == Value(b, c)
  }

  /** The repository's store checks: only upper-case letters are variables;
      a fresh variable is unassigned; an
      interpret-mode assignment records the value; a parse-mode assignment
      marks the variable assigned but leaves its value at 0. */
  lemma StoreSamples()
    ensures IsVariable('X') && !IsVariable('a') && !IsVariable('%') && !IsVariable('+')
    ensures !IsAssigned(FreshStore(), 'X')
    ensures IsAssigned(Assign(FreshStore(), 'X', 34.0, true), 'X')
    ensures Value(Assign(FreshStore(), 'X', 34.0, true), 'X') == 34.0
    ensures IsAssigned(Assign(FreshStore(), 'Q', 15.0, false), 'Q')
    ensures Value(Assign(FreshStore(), 'Q', 15.0, false), 'Q') == 0.0
  {
  }

  /** A parse-mode assignment never changes any value. */
  lemma ParseAssignKeepsValues(st: Store, c: char, v: real)
    requires IsVariable(c)
    ensures SameValues(st, Assign(st, c, v, false))
    ensures AssignedStays(st, Assign(st, c, v, false))
  {
  }
}
