/** Consequences of the rule contracts for particular inputs: how tokens
    are classified, which operands the drawing rules accept, the words CLR
    accepts, and how SET depends on the value stack the run shares. */
module GrammarFacts {
  import opened Optional
  import opened Numbers
  import opened VariableStore
  import opened Lexicon
  import opened State
  import opened ValueStack
  import opened ReversePolish
  import opened Rules

  /** A '-' followed by digits is a number, not an operator, and its value
      is the negated integer. */
  lemma SignedNumberClassified(st: Store, s: string)
    requires |s| > 0 && AllDigits(s)
    ensures Classify(st, "-" + s) == Num
    ensures TokenValue(st, "-" + s) == -(DigitsValue(s) as real)
  {
    NegatedRunIsNumber(s);
    OperandKind(st, "-" + s);
  }

  /** "-5" is the number -5; "-" alone is the subtraction operator. */
  lemma MinusSamples(st: Store)
    ensures Classify(st, "-5") == Num && TokenValue(st, "-5") == -5.0
    ensures Classify(st, "-") == Op && OperatorOf("-") == Some(Subtract)
  {
    assert "-5" == "-" + "5";
    SignedNumberClassified(st, "5");
  }

  /** A variable letter is an operand exactly when it is assigned; an
      unassigned one is classified as such and is no operand, so FD, LT, RT,
      BKSTP, the bounds of DO and WHILE and reverse-Polish expressions
      reject it. */
  lemma VariableOperand(st: Store, c: char)
    requires IsVariable(c)
    ensures IsOperand(st, [c]) <==> IsAssigned(st, c)
    ensures !IsAssigned(st, c) ==> Classify(st, [c]) == UnassignedVar
    ensures IsAssigned(st, c) ==> OperandValue(st, [c]) == Value(st, c)
  {
    if ParseNumber([c]).Some? {
      OneCharNumber([c]);
    }
  }

  /** In a fresh store no variable is an operand. */
  lemma FreshVariablesAreNoOperands(c: char)
    requires IsVariable(c)
    ensures !IsOperand(FreshStore(), [c])
  {
    VariableOperand(FreshStore(), c);
  }

  /** CLR accepts exactly ADV, RAND, WHTE, RED, BLUE, GREEN, YLLW and PRPL. */
  lemma ColourWordsExactly(t: string)
    ensures IsColourWord(t) <==> t in ColourWords
  {
  }

  /** `SET A := ;` passes processSet when the value stack holds at most
      one value: finishPolish does not check that a value was popped, so on
      an empty stack the expression is accepted with no value, and a value a
      failed expression left behind is taken as the result. */
  lemma BareSetAccepted(src: Source, s: Session, r: Step)
    requires SetHeadAt(src, NextIndex(s)) && TokenAt(src, NextIndex(s) + 2) == ";"
    requires |s.stack| <= 1
    requires SetSpec(src, s, r)
    ensures r.ok && r.s.stack == []
    ensures |s.stack| == 1 ==> r.s.val == s.stack[0]
  {
    PostfixStops(src, s.store, NextIndex(s) + 2, s.stack);
  }

  /** `SET A := x y ;` is rejected by finishPolish: two values are left, the
      top one is popped, and the one below stays on the run's value stack. */
  lemma TwoOperandsRejected(src: Source, s: Session, r: Step)
    requires var p := NextIndex(s);
             && SetHeadAt(src, p)
             && IsOperand(s.store, TokenAt(src, p + 2)) && IsOperand(s.store, TokenAt(src, p + 3))
             && TokenAt(src, p + 4) == ";"
    requires SetSpec(src, s, r)
    ensures !r.ok && r.s.store == s.store
    ensures r.s.stack == s.stack + [OperandValue(s.store, TokenAt(src, NextIndex(s) + 2))]
  {
    var p := NextIndex(s);
    var v := OperandValue(s.store, TokenAt(src, p + 2));
    var w := OperandValue(s.store, TokenAt(src, p + 3));
    PostfixPushes(src, s.store, p + 2, s.stack, v);
    PostfixPushes(src, s.store, p + 3, Push(s.stack, v), w);
    PostfixStops(src, s.store, p + 4, Push(Push(s.stack, v), w));
  }

  /** `SET A := x ;` succeeds exactly when the value stack is empty: a value
      an earlier failed expression left there (one swallowed by skipLoop
      when interpreting, say) makes every later single-operand SET fail. */
  lemma LeftoverSpoilsNextSet(src: Source, s: Session, r: Step)
    requires var p := NextIndex(s);
             SetHeadAt(src, p) && IsOperand(s.store, TokenAt(src, p + 2)) && TokenAt(src, p + 3) == ";"
    requires SetSpec(src, s, r)
    ensures r.ok <==> s.stack == []
    ensures r.ok ==> r.s.val == OperandValue(s.store, TokenAt(src, NextIndex(s) + 2))
  {
    var p := NextIndex(s);
    var v := OperandValue(s.store, TokenAt(src, p + 2));
    PostfixPushes(src, s.store, p + 2, s.stack, v);
    PostfixStops(src, s.store, p + 3, Push(s.stack, v));
  }
}
