/** The reverse-Polish rule of SET (processPolish, processOperator,
    finishPolish), and a reference postfix semantics it is proved against. */
module ReversePolish {
  import opened Optional
  import opened Numbers
  import opened VariableStore
  import opened ValueStack
  import opened Lexicon
  import opened State
  import opened TokenCache

  /** processOperator: pops b, then a, and pushes `a op b` (which also
      becomes `val`, see Polish). With fewer than two operands it fails. */
  function ApplyOperator(stack: seq<real>, op: MathOp): (r: Option<seq<real>>)
    ensures r.Some? <==> |stack| >= 2
    ensures r.Some? ==>
              var n := |stack|;
              r.value == stack[..n - 2] + [DoMaths(stack[n - 2], stack[n - 1], op)]
  {
    match Pop(stack)
    case None => None
    case Some((b, rest)) =>
      match Pop(rest)
      case None => None
      case Some((a, bottom)) => Some(Push(bottom, DoMaths(a, b, op)))
  }

  /** finishPolish: pops the result into `val`, ignoring whether the pop
      worked, and succeeds only if the stack is then empty. On an empty stack
      it therefore succeeds and leaves `val` as it was; on a failure the
      values below the popped one stay on the stack. */
  function FinishPolish(s: Session): (r: Step)
    ensures r.ok <==> |s.stack| <= 1
    ensures |s.stack| == 0 ==> r.s == s
    ensures |s.stack| > 0 ==> r.s == s.(val := s.stack[|s.stack| - 1], stack := s.stack[..|s.stack| - 1])
  {
    match Pop(s.stack)
    case None => Step(true, s)
    case Some((v, rest)) => Step(|rest| == 0, s.(val := v, stack := rest))
  }

  /** An element of a postfix expression. */
  datatype Term = Operand(v: real) | Apply(o: MathOp)

  /** What a token contributes to an expression under the store `st`: an
      operand its value, an operator its operation. */
  function TermOf(st: Store, t: string): Option<Term>
  {
    if IsOperand(st, t) then Some(Operand(OperandValue(st, t)))
    else match OperatorOf(t)
      case Some(o) => Some(Apply(o))
      case None => None
  }

  /** How the postfix machine ends with the values `left` on its stack:
      stuck, or stopped at the `;` at position `at`. */
  datatype Outcome = Stuck(left: seq<real>) | Stops(left: seq<real>, at: nat)

  /** The postfix machine reading the source from position `p` with `stack`
      under the store `st`: operands are pushed, an operator replaces the
      top two values x, y (y on top) by `x o y`, and `;` stops it. The
      machine is stuck when a token is neither a term nor `;` (the stack
      stays as it is) or when an operator finds fewer than two values (its
      pops have emptied the stack). */
  function Postfix(src: Source, st: Store, p: nat, stack: seq<real>): (r: Outcome)
    ensures r.Stops? ==> p <= r.at && TokenAt(src, r.at) == ";"
    ensures r.Stops? && |stack| > 0 ==> |r.left| > 0
    decreases |src.tokens| - p
  {
    if p >= |src.tokens| then Stuck(stack)
    else
      var t := TokenAt(src, p);
      if t == ";" then Stops(stack, p)
      else match TermOf(st, t)
        case None => Stuck(stack)
        case Some(Operand(v)) => Postfix(src, st, p + 1, stack + [v])
        case Some(Apply(o)) =>
          var n := |stack|;
          if n < 2 then Stuck([])
          else Postfix(src, st, p + 1, stack[..n - 2] + [DoMaths(stack[n - 2], stack[n - 1], o)])
  }

  /** What the machine's outcome leaves on processPolish's stack: a stuck
      machine its stack, a stopped one its stack less the value
      finishPolish pops. */
  function Leftover(out: Outcome): seq<real>
  {
    match out
    case Stuck(left) => left
    case Stops(left, _) => if |left| == 0 then [] else left[..|left| - 1]
  }

  /** The outcome `r` of Polish started with `val` equal to `v0` is the one
      the postfix machine's outcome `out` calls for: success exactly when the
      machine reaches `;` with at most one value left, that value taken (and
      `v0` kept when there is none), the cursor on the `;`; and the value
      stack left behind is the machine's, less the popped result. */
  predicate Agrees(r: Step, out: Outcome, v0: real)
  {
    && (r.ok <==> out.Stops? && |out.left| <= 1)
    && (r.ok && |out.left| == 1 ==> r.s.val == out.left[0])
    && (r.ok && |out.left| == 0 ==> r.s.val == v0)
    && (r.ok ==> r.s.cursor == out.at)
    && r.s.stack == Leftover(out)
  }

  /** What Polish promises from `s`: the token array only grows, nothing
      but the cursor, the scan count, the value stack and `val` changes, and
      the outcome agrees with the postfix machine run on the session's stack
      under the store at entry from the next token on. */
  predicate PolishSpec(src: Source, s: Session, r: Step)
  {
    && Valid(r.s)
    && s.scanned <= r.s.scanned
    && Framed(s, r.s)
    && Agrees(r, Postfix(src, s.store, NextIndex(s), s.stack), s.val)
  }

  /** processPolish on the session's value stack: operands are pushed,
      operators applied, and `;` ends the expression. */
  function Polish(src: Source, s: Session): (r: Step)
    requires Valid(s)
    ensures PolishSpec(src, s, r)
    decreases Max(s.scanned, |src.tokens|) - NextIndex(s), 1
  {
    var a := Advance(src, s);
    if a.ok && IsVarNum(a.kind) then PolishOperand(src, s)
    else if a.ok && |a.tok| == 1 && a.kind == Op then PolishOperator(src, s)
    else PolishHalt(src, s)
  }

  /** The branches of processPolish that end it: the end of the file; a
      token that is neither a VarNum nor one character long, rejected; `;`,
      which hands over to finishPolish; any other one-character token,
      rejected. */
  function PolishHalt(src: Source, s: Session): (r: Step)
    requires Valid(s)
    requires var a := Advance(src, s); !(a.ok && (IsVarNum(a.kind) || a.kind == Op))
    ensures PolishSpec(src, s, r)
  {
    var a := Advance(src, s);
    if !a.ok then Step(false, a.s)
    else if |a.tok| != 1 then
      PolishRejected(src, s);
      Step(false, a.s)
    else if a.kind == Semicolon then
      PolishFinished(src, s);
      FinishPolish(a.s)
    else
      PolishRejected(src, s);
      Step(false, a.s)
  }

  /** A token that is neither a VarNum, an operator nor a lone `;` ends
      processPolish with an error, where the postfix machine is stuck. */
  lemma PolishRejected(src: Source, s: Session)
    requires Valid(s)
    requires var a := Advance(src, s);
             a.ok && !IsVarNum(a.kind) && a.kind != Op && (|a.tok| != 1 || a.kind != Semicolon)
    ensures PolishSpec(src, s, Step(false, Advance(src, s).s))
  {
    var a := Advance(src, s);
    OperandKind(s.store, a.tok);
    PostfixRejects(src, s.store, NextIndex(s), s.stack);
  }

  /** `;` hands processPolish over to finishPolish, where the postfix
      machine stops. */
  lemma PolishFinished(src: Source, s: Session)
    requires Valid(s)
    requires var a := Advance(src, s); a.ok && |a.tok| == 1 && a.kind == Semicolon
    ensures PolishSpec(src, s, FinishPolish(Advance(src, s).s))
  {
    var a := Advance(src, s);
    var p := NextIndex(s);
    assert a.tok == ";" && TokenAt(src, p) == ";";
    assert a.s == Moved(s);
    PostfixStops(src, s.store, p, s.stack);
  }

  /** The branch of processPolish for a VarNum: its value is pushed and the
      rule goes on. */
  function PolishOperand(src: Source, s: Session): (r: Step)
    requires Valid(s)
    requires Advance(src, s).ok && IsVarNum(Advance(src, s).kind)
    ensures PolishSpec(src, s, r)
    decreases Max(s.scanned, |src.tokens|) - NextIndex(s), 0
  {
    var a := Advance(src, s);
    var r := Polish(src, a.s.(stack := Push(s.stack, a.s.val)));
    OperandStep(src, s, r);
    r
  }

  /** What Polish promises after pushing an operand it promises before. */
  lemma OperandStep(src: Source, s: Session, r: Step)
    requires Valid(s)
    requires var a := Advance(src, s); a.ok && IsVarNum(a.kind)
    requires var a := Advance(src, s); PolishSpec(src, a.s.(stack := Push(s.stack, a.s.val)), r)
    ensures PolishSpec(src, s, r)
  {
    var a := Advance(src, s);
    var p := NextIndex(s);
    var pushed := a.s.(stack := Push(s.stack, a.s.val));
    OperandKind(s.store, a.tok);
    PostfixPushes(src, s.store, p, s.stack, a.s.val);
    assert Agrees(r, Postfix(src, pushed.store, NextIndex(pushed), pushed.stack), pushed.val);
    AgreesAcross(r, Postfix(src, s.store, p, s.stack), Postfix(src, s.store, p + 1, pushed.stack), s.val, a.s.val);
  }

  /** The branch of processPolish for an operator: processOperator runs, its
      result becomes `val`, and the rule goes on. When it fails its pops
      have emptied the stack. */
  function PolishOperator(src: Source, s: Session): (r: Step)
    requires Valid(s)
    requires Advance(src, s).ok && Advance(src, s).kind == Op
    ensures PolishSpec(src, s, r)
    decreases Max(s.scanned, |src.tokens|) - NextIndex(s), 0
  {
    var a := Advance(src, s);
    OperatorStep(src, s);
    match ApplyOperator(s.stack, a.s.op)
    case None => Step(false, a.s.(stack := []))
    case Some(rest) =>
      var r := Polish(src, a.s.(val := rest[|rest| - 1], stack := rest));
      AppliedStep(src, s, rest, r);
      r
  }

  /** processOperator's failure ends Polish as the postfix machine gets
      stuck. */
  lemma OperatorStep(src: Source, s: Session)
    requires Valid(s)
    requires Advance(src, s).ok && Advance(src, s).kind == Op
    ensures var a := Advance(src, s);
            ApplyOperator(s.stack, a.s.op).None? ==> PolishSpec(src, s, Step(false, a.s.(stack := [])))
  {
    var a := Advance(src, s);
    OperatorIsNoOperand(s.store, a.tok);
    PostfixApplies(src, s.store, NextIndex(s), s.stack, a.s.op);
  }

  /** What Polish promises after an operator applied to the stack it
      promises before. */
  lemma AppliedStep(src: Source, s: Session, rest: seq<real>, r: Step)
    requires Valid(s)
    requires var a := Advance(src, s); a.ok && a.kind == Op && ApplyOperator(s.stack, a.s.op) == Some(rest)
    requires var a := Advance(src, s); PolishSpec(src, a.s.(val := rest[|rest| - 1], stack := rest), r)
    ensures PolishSpec(src, s, r)
  {
    var a := Advance(src, s);
    var p := NextIndex(s);
    var s1 := a.s.(val := rest[|rest| - 1], stack := rest);
    OperatorIsNoOperand(s.store, a.tok);
    PostfixApplies(src, s.store, p, s.stack, a.s.op);
    assert Agrees(r, Postfix(src, s1.store, NextIndex(s1), rest), s1.val);
    AgreesAcross(r, Postfix(src, s.store, p, s.stack), Postfix(src, s.store, p + 1, rest), s.val, rest[|rest| - 1]);
  }

  /** Agreement carries over from the machine's next step to the current
      one when both end the same way and the value taken cannot be the one
      held before the step. */
  lemma AgreesAcross(r: Step, now: Outcome, next: Outcome, v0: real, v1: real)
    requires now == next
    requires Agrees(r, next, v1)
    requires next.Stops? ==> |next.left| > 0
    ensures Agrees(r, now, v0)
  {
  }

  /** The postfix machine on an operand pushes its value. */
  lemma PostfixPushes(src: Source, st: Store, p: nat, stack: seq<real>, v: real)
    requires IsOperand(st, TokenAt(src, p)) && v == OperandValue(st, TokenAt(src, p))
    ensures Postfix(src, st, p, stack) == Postfix(src, st, p + 1, Push(stack, v))
  {
    assert TokenAt(src, p) != "";
  }

  /** The postfix machine on an operator combines the top two values, and
      fails when there are fewer. */
  lemma PostfixApplies(src: Source, st: Store, p: nat, stack: seq<real>, o: MathOp)
    requires !IsOperand(st, TokenAt(src, p)) && OperatorOf(TokenAt(src, p)) == Some(o)
    ensures Postfix(src, st, p, stack) ==
              match ApplyOperator(stack, o)
              case None => Stuck([])
              case Some(rest) => Postfix(src, st, p + 1, rest)
  {
    var t := TokenAt(src, p);
    assert p < |src.tokens| && t != ";";
    assert TermOf(st, t) == Some(Apply(o));
    var n := |stack|;
    if n >= 2 {
      assert ApplyOperator(stack, o) == Some(stack[..n - 2] + [DoMaths(stack[n - 2], stack[n - 1], o)]);
    }
  }

  /** The postfix machine stops at `;`. */
  lemma PostfixStops(src: Source, st: Store, p: nat, stack: seq<real>)
    requires TokenAt(src, p) == ";"
    ensures Postfix(src, st, p, stack) == Stops(stack, p)
  {
  }

  /** `x y o ;`: the operator pops y, then x, and pushes `x o y`, so the
      machine stops on the `;` with that one value on top of the stack it
      started from. */
  lemma BinaryExpression(src: Source, st: Store, p: nat, stack: seq<real>, o: MathOp)
    requires IsOperand(st, TokenAt(src, p)) && IsOperand(st, TokenAt(src, p + 1))
    requires OperatorOf(TokenAt(src, p + 2)) == Some(o) && TokenAt(src, p + 3) == ";"
    ensures var x := OperandValue(st, TokenAt(src, p)); var y := OperandValue(st, TokenAt(src, p + 1));
            Postfix(src, st, p, stack) == Stops(stack + [DoMaths(x, y, o)], p + 3)
  {
    var x := OperandValue(st, TokenAt(src, p));
    var y := OperandValue(st, TokenAt(src, p + 1));
    PostfixPushes(src, st, p, stack, x);
    PostfixPushes(src, st, p + 1, Push(stack, x), y);
    OperatorIsNoOperand(st, TokenAt(src, p + 2));
    PostfixApplies(src, st, p + 2, Push(Push(stack, x), y), o);
    AppliedOnTop(stack, x, y, o);
    PostfixStops(src, st, p + 3, stack + [DoMaths(x, y, o)]);
  }

  /** An operator applied to two pushed values replaces them with `x o y`. */
  lemma AppliedOnTop(stack: seq<real>, x: real, y: real, o: MathOp)
    ensures ApplyOperator(Push(Push(stack, x), y), o) == Some(stack + [DoMaths(x, y, o)])
  {
    var two := Push(Push(stack, x), y);
    assert two[..|two| - 2] == stack;
  }

  /** The postfix machine fails on a token that is neither a term nor `;`. */
  lemma PostfixRejects(src: Source, st: Store, p: nat, stack: seq<real>)
    requires var t := TokenAt(src, p); !IsOperand(st, t) && OperatorOf(t).None? && t != ";"
    ensures Postfix(src, st, p, stack) == Stuck(stack)
  {
  }

  // ---------------------------------------------------------------------
  // The postfix machine over abstract terms

  /** The textbook postfix machine: operands are pushed, an operator
      replaces the top two values x, y (y on top) by `x o y`; None when an
      operator finds fewer than two values. */
  function Eval(terms: seq<Term>, stack: seq<real>): Option<seq<real>>
    decreases |terms|
  {
    if |terms| == 0 then Some(stack)
    else match terms[0]
      case Operand(v) => Eval(terms[1..], stack + [v])
      case Apply(o) =>
        if |stack| < 2 then None
        else Eval(terms[1..], stack[..|stack| - 2] + [DoMaths(stack[|stack| - 2], stack[|stack| - 1], o)])
  }

  /** The source, from position `p` on, spells out `terms`: each of those
      tokens is an operand or an operator, the one that term stands for. */
  predicate Spells(src: Source, st: Store, p: nat, terms: seq<Term>)
  {
    forall i :: 0 <= i < |terms| ==> TermOf(st, TokenAt(src, p + i)) == Some(terms[i])
  }

  /** Reading a spelled-out expression closed by `;` is evaluating its
      terms. */
  lemma {:induction false} PostfixReadsTerms(src: Source, st: Store, p: nat, stack: seq<real>, terms: seq<Term>)
    requires Spells(src, st, p, terms)
    requires TokenAt(src, p + |terms|) == ";"
    ensures Postfix(src, st, p, stack) ==
              match Eval(terms, stack)
              case Some(out) => Stops(out, p + |terms|)
              case None => Stuck([])
    decreases |terms|
  {
    if |terms| > 0 {
      assert TermOf(st, TokenAt(src, p + 0)) == Some(terms[0]);
      assert TokenAt(src, p) != ";";
      SpellsRest(src, st, p, terms);
      match terms[0] {
        case Operand(v) =>
          PostfixReadsTerms(src, st, p + 1, stack + [v], terms[1..]);
        case Apply(o) =>
          var n := |stack|;
          if n >= 2 {
            PostfixReadsTerms(src, st, p + 1, stack[..n - 2] + [DoMaths(stack[n - 2], stack[n - 1], o)], terms[1..]);
          }
      }
    }
  }

  /** An expression made of operands and operators and closed by `;` is
      accepted exactly when the postfix machine, started on the same stack,
      neither underflows nor leaves more than one value; the value it leaves
      is the one SET receives, and the cursor is left on the `;`. */
  lemma PolishMeetsReference(src: Source, s: Session, terms: seq<Term>)
    requires Valid(s)
    requires Spells(src, s.store, NextIndex(s), terms)
    requires TokenAt(src, NextIndex(s) + |terms|) == ";"
    ensures var r := Polish(src, s);
            var out := Eval(terms, s.stack);
            && (r.ok <==> out.Some? && |out.value| <= 1)
            && (r.ok && |out.value| == 1 ==> r.s.val == out.value[0])
            && (r.ok ==> r.s.cursor == NextIndex(s) + |terms|)
            && (r.ok ==> r.s.stack == [])
  {
    PostfixReadsTerms(src, s.store, NextIndex(s), s.stack, terms);
  }

  /** Spelling is positional: the rest of an expression is spelled from the
      next position. */
  lemma SpellsRest(src: Source, st: Store, p: nat, terms: seq<Term>)
    requires |terms| > 0 && Spells(src, st, p, terms)
    ensures Spells(src, st, p + 1, terms[1..])
  {
    forall i | 0 <= i < |terms| - 1
      ensures TermOf(st, TokenAt(src, p + 1 + i)) == Some(terms[1..][i])
    {
      assert p + 1 + i == p + (i + 1);
    }
  }
}
