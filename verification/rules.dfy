/** The grammar rules that read a fixed number of tokens: the operand of a
    drawing instruction, SET, CLR, and the heads of DO and WHILE loops up to
    their opening braces. Each takes the session before the rule's first
    token and returns whether the rule matched and the session after it. */
module Rules {
  import opened Numbers
  import opened VariableStore
  import opened Lexicon
  import opened State
  import opened TokenCache
  import opened ReversePolish

  /** What every single read leaves unchanged: the token array only grows,
      the cursor moves onto the token read, and only the scratch fields may
      change. */
  predicate ReadFrom(s: Session, r: Session)
  {
    Valid(r) && s.scanned <= r.scanned && Kept(s, r) && r.cursor == NextIndex(s)
  }

  /** Reads the next token and accepts it when it is the fixed spelling
      number `j` (whatToken returned that spelling's kind). */
  method ReadWord(src: Source, s: Session, j: nat) returns (r: Step)
    requires Valid(s) && j < KeywordCount
    ensures ReadFrom(s, r.s)
    ensures r.ok <==> TokenAt(src, NextIndex(s)) == KeywordAt(j).0
    ensures r.ok ==> NextIndex(r.s) == NextIndex(s) + 1 && r.s.val == s.val
  {
    var a := Advance(src, s);
    r := Step(a.ok && a.kind == KeywordAt(j).1, a.s);
    WordRead(src, s, a, j);
  }

  /** A token read by Advance has the kind of spelling `j` exactly when it
      is that spelling; past the end of the file nothing is read. */
  lemma WordRead(src: Source, s: Session, a: Scan, j: nat)
    requires Valid(s) && j < KeywordCount && a == Advance(src, s)
    ensures a.ok && a.kind == KeywordAt(j).1 <==> TokenAt(src, NextIndex(s)) == KeywordAt(j).0
  {
    WordKind(s.store, a.tok, j);
    if !a.ok {
      SpellingNumbers(j);
      assert TokenAt(src, NextIndex(s)) == "";
    }
  }

  /** checkForVarNum on the next token: accepts a number or an assigned
      variable, leaving its value in `val`. */
  method ReadVarNum(src: Source, s: Session) returns (r: Step)
    requires Valid(s)
    ensures ReadFrom(s, r.s)
    ensures var t := TokenAt(src, NextIndex(s));
      && (r.ok <==> IsOperand(s.store, t))
      && (r.ok ==> NextIndex(r.s) == NextIndex(s) + 1 && r.s.val == OperandValue(s.store, t))
  {
    var a := Advance(src, s);
    if a.ok {
      OperandKind(s.store, a.tok);
    }
    r := Step(a.ok && IsVarNum(a.kind), a.s);
  }

  /** checkForAnyVar on the next token: accepts a variable, assigned or not;
      an assigned one leaves its value in `val`. */
  method ReadVariable(src: Source, s: Session) returns (r: Step)
    requires Valid(s)
    ensures ReadFrom(s, r.s)
    ensures var t := TokenAt(src, NextIndex(s));
      && (r.ok <==> |t| == 1 && IsVariable(t[0]))
      && (r.ok ==> NextIndex(r.s) == NextIndex(s) + 1)
      && (r.ok ==> r.s.val == if IsAssigned(s.store, t[0]) then Value(s.store, t[0]) else s.val)
  {
    var a := Advance(src, s);
    r := Step(a.ok && IsAnyVar(a.kind), a.s);
  }

  /** Reads the next token and accepts it when it is an assigned variable. */
  method ReadAssigned(src: Source, s: Session) returns (r: Step)
    requires Valid(s)
    ensures ReadFrom(s, r.s)
    ensures var t := TokenAt(src, NextIndex(s));
      && (r.ok <==> |t| == 1 && IsVariable(t[0]) && IsAssigned(s.store, t[0]))
      && (r.ok ==> NextIndex(r.s) == NextIndex(s) + 1)
  {
    var a := Advance(src, s);
    r := Step(a.ok && a.kind == AssignedVar, a.s);
  }

  /** Reads the next token and accepts it when it is "<" or ">". */
  method ReadComparator(src: Source, s: Session) returns (r: Step)
    requires Valid(s)
    ensures ReadFrom(s, r.s)
    ensures var t := TokenAt(src, NextIndex(s));
      && (r.ok <==> t == "<" || t == ">")
      && (r.ok ==> NextIndex(r.s) == NextIndex(s) + 1)
  {
    var a := Advance(src, s);
    WordKind(s.store, a.tok, 15);
    WordKind(s.store, a.tok, 16);
    r := Step(a.ok && (a.kind == LessThan || a.kind == MoreThan), a.s);
  }

  /** The `VARNUM {` that closes the head of a DO or WHILE loop: the bound's
      value is left in `val` and the cursor on the brace. */
  method ReadBound(src: Source, s: Session) returns (r: Step)
    requires Valid(s)
    ensures Valid(r.s) && s.scanned <= r.s.scanned && Kept(s, r.s)
    ensures var p := NextIndex(s); var t := TokenAt(src, p);
      && (r.ok <==> IsOperand(s.store, t) && TokenAt(src, p + 1) == "{")
      && (r.ok ==> r.s.val == OperandValue(s.store, t) && r.s.cursor == p + 1)
  {
    r := ReadVarNum(src, s);
    if r.ok {
      r := ReadWord(src, r.s, 10);
    }
  }

  /** The drawing action of an instruction keyword (doAction's first
      argument). */
  function ActionOf(k: Kind): Action
  {
    if k == Lt then Left else if k == Rt then Right else if k == BkStep then BackStep else Forward
  }

  /** What a drawing instruction `act` does from `s`: it reads one operand,
      which must be a number or an assigned variable (an unassigned
      variable, like any other token or the end of the file, is an error),
      and when interpreting hands the operand's value to the drawing
      collaborator. Nothing but the token array, the cursor, the scratch
      value and the drawing calls changes. */
  predicate ActionSpec(src: Source, s: Session, act: Action, r: Step)
  {
    && Evolves(s, r.s)
    && r.s.braces == s.braces && r.s.store == s.store && r.s.colour == s.colour && r.s.stack == s.stack
    && var t := TokenAt(src, NextIndex(s));
       && (r.ok <==> IsOperand(s.store, t))
       && (r.ok ==> NextIndex(r.s) == NextIndex(s) + 1)
       && (r.ok ==> r.s.trace == s.trace + Emitted(s, Move(act, OperandValue(s.store, t))))
       && (!r.ok ==> r.s.trace == s.trace)
  }

  /** processAction followed by doAction (FD, LT, RT and BKSTP). */
  method ActionRule(src: Source, s: Session, act: Action) returns (r: Step)
    requires Valid(s)
    ensures ActionSpec(src, s, act, r)
  {
    r := ReadVarNum(src, s);
    if r.ok {
      r := Step(true, Dispatch(r.s, Move(act, r.s.val)));
    }
  }

  /** processPolish run from `b`, whose store, scratch value and value
      stack are those of `s`: only the token array, the cursor, the value
      stack and the scratch value change, and the outcome agrees with the
      postfix machine run on the stack of `s` under its store from the token
      after `b`'s cursor. */
  method PolishRule(src: Source, s: Session, b: Session) returns (r: Step)
    requires Valid(b) && b.store == s.store && b.val == s.val && b.stack == s.stack
    ensures Valid(r.s) && b.scanned <= r.s.scanned && Framed(b, r.s)
    ensures Agrees(r, Postfix(src, s.store, NextIndex(b), s.stack), s.val)
  {
    r := Polish(src, b);
  }

  /** The head `VAR :=` of a SET at `p`. */
  predicate SetHeadAt(src: Source, p: nat)
  {
    var t := TokenAt(src, p);
    |t| == 1 && IsVariable(t[0]) && TokenAt(src, p + 1) == ":="
  }

  /** What SET does from `s`: it reads a variable (assigned or not), ":="
      and a reverse-Polish expression evaluated on the run's value stack,
      then assigns the scratch value to the variable (written only when
      interpreting). The scratch value is the expression's result, or, when
      the expression is a bare ";", whatever reading the variable left there:
      its own value if it was assigned, the earlier scratch value if not. A
      failed SET assigns nothing; once the head has been read, the value
      stack is left as the expression left it, values and all. */
  predicate SetSpec(src: Source, s: Session, r: Step)
  {
    && Evolves(s, r.s)
    && r.s.braces == s.braces && r.s.colour == s.colour && r.s.trace == s.trace
    && var p := NextIndex(s); var t := TokenAt(src, p); var out := Postfix(src, s.store, p + 2, s.stack);
       && (r.ok <==> SetHeadAt(src, p) && out.Stops? && |out.left| <= 1)
       && (r.ok ==> r.s.store == Assign(s.store, t[0], r.s.val, s.interpret) && r.s.cursor == out.at)
       && (r.ok && |out.left| == 1 ==> r.s.val == out.left[0])
       && (r.ok && |out.left| == 0 ==> r.s.val == if IsAssigned(s.store, t[0]) then Value(s.store, t[0]) else s.val)
       && (!r.ok ==> r.s.store == s.store)
       && (SetHeadAt(src, p) ==> r.s.stack == Leftover(out))
       && (!SetHeadAt(src, p) ==> r.s.stack == s.stack)
  }

  /** processSet. */
  method SetRule(src: Source, s: Session) returns (r: Step)
    requires Valid(s)
    ensures SetSpec(src, s, r)
  {
    var a := ReadVariable(src, s);
    if !a.ok {
      return a;
    }
    var c := Current(src, a.s)[0];
    var b := ReadWord(src, a.s, 13);
    if !b.ok {
      return b;
    }
    var e := PolishRule(src, a.s, b.s);
    if !e.ok {
      return e;
    }
    r := Step(true, AssignVariable(e.s, c, e.s.val));
  }

  /** The words CLR accepts: ADV, RAND and the colour names. */
  predicate IsColourWord(t: string)
  {
    t == "ADV" || t == "RAND" || ColourNamed(t).Some?
  }

  /** processColour once its token `t` has been read and classified as
      `k`: ADV advances the turtle's colour and RAND picks a random one when
      interpreting; a colour name (checkForColour) becomes the session's
      scratch colour in either mode and is applied when interpreting; any
      other token is an error. */
  method ColourWord(s: Session, t: string, k: Kind) returns (r: Step)
    requires Valid(s)
    requires (k == Adv <==> t == "ADV") && (k == Rand <==> t == "RAND")
    ensures Evolves(s, r.s)
    ensures r.s.braces == s.braces && r.s.store == s.store
    ensures r.ok <==> IsColourWord(t)
    ensures t == "ADV" ==> r.s.trace == s.trace + Emitted(s, AdvanceColour)
    ensures t == "RAND" ==> r.s.trace == s.trace + Emitted(s, RandomColour)
    ensures ColourNamed(t).Some? ==>
              r.s.colour == ColourNamed(t).value && r.s.trace == s.trace + Emitted(s, ApplyColour(r.s.colour))
    ensures !r.ok ==> r.s == s
    ensures r.s.cursor == s.cursor && r.s.scanned == s.scanned && r.s.stack == s.stack
  {
    if k == Adv {
      r := Step(true, Dispatch(s, AdvanceColour));
    } else if k == Rand {
      r := Step(true, Dispatch(s, RandomColour));
    } else {
      match ColourNamed(t)
      case Some(c) =>
        r := Step(true, Dispatch(s.(colour := c), ApplyColour(c)));
      case None =>
        r := Step(false, s);
    }
  }

  /** What CLR does from `s`: it reads one word; ADV and RAND go to the
      drawing collaborator, a colour name becomes the scratch colour and is
      applied, anything else (or the end of the file) is an error. No
      variable, brace count or stacked value changes. */
  predicate ColourSpec(src: Source, s: Session, r: Step)
  {
    && Evolves(s, r.s)
    && r.s.braces == s.braces && r.s.store == s.store && r.s.stack == s.stack
    && var t := TokenAt(src, NextIndex(s));
       && (r.ok <==> IsColourWord(t))
       && (r.ok ==> NextIndex(r.s) == NextIndex(s) + 1)
       && (t == "ADV" ==> r.s.trace == s.trace + Emitted(s, AdvanceColour))
       && (t == "RAND" ==> r.s.trace == s.trace + Emitted(s, RandomColour))
       && (ColourNamed(t).Some? ==>
             r.s.colour == ColourNamed(t).value && r.s.trace == s.trace + Emitted(s, ApplyColour(r.s.colour)))
       && (!r.ok ==> r.s.trace == s.trace)
  }

  /** processColour: CLR reads one token and handles it as ColourWord. */
  method ColourRule(src: Source, s: Session) returns (r: Step)
    requires Valid(s)
    ensures ColourSpec(src, s, r)
  {
    var a := Advance(src, s);
    if !a.ok {
      r := Step(false, a.s);
      KeptEvolves(s, a.s);
      assert !IsColourWord(TokenAt(src, NextIndex(s))) by {
        assert TokenAt(src, NextIndex(s)) == "";
      }
      return;
    }
    WordKind(s.store, a.tok, 17);
    WordKind(s.store, a.tok, 18);
    r := ColourWord(a.s, a.tok, a.kind);
    ColourRead(src, s, a.s, a.tok, r);
  }

  /** CLR's word `t`, read from `s` into `m`, handled as ColourWord says,
      is what ColourSpec asks of the rule. */
  lemma ColourRead(src: Source, s: Session, m: Session, t: string, r: Step)
    requires Valid(m) && s.scanned <= m.scanned && Kept(s, m)
    requires t == TokenAt(src, NextIndex(s)) && NextIndex(m) == NextIndex(s) + 1
    requires Evolves(m, r.s)
    requires r.s.braces == m.braces && r.s.store == m.store
    requires r.ok <==> IsColourWord(t)
    requires t == "ADV" ==> r.s.trace == m.trace + Emitted(m, AdvanceColour)
    requires t == "RAND" ==> r.s.trace == m.trace + Emitted(m, RandomColour)
    requires ColourNamed(t).Some? ==>
               r.s.colour == ColourNamed(t).value && r.s.trace == m.trace + Emitted(m, ApplyColour(r.s.colour))
    requires !r.ok ==> r.s == m
    requires r.s.cursor == m.cursor && r.s.scanned == m.scanned && r.s.stack == m.stack
    ensures ColourSpec(src, s, r)
  {
    KeptEvolves(s, m);
    EvolvesChain(s, m, r.s);
  }

  /** The head of a DO loop read up to its opening brace: the loop variable,
      the two bounds cast to int, and the session with the cursor on the
      brace. */
  datatype DoHead = DoHead(ok: bool, s: Session, name: char, first: int, last: int)

  /** The tokens `VAR FROM VARNUM` at `p`, read under the store `st`. */
  predicate DoStartAt(src: Source, st: Store, p: nat)
  {
    var t := TokenAt(src, p);
    |t| == 1 && IsVariable(t[0]) && TokenAt(src, p + 1) == "FROM" && IsOperand(st, TokenAt(src, p + 2))
  }

  /** The tokens `TO VARNUM {` at `p`, read under the store `st`. */
  predicate DoEndAt(src: Source, st: Store, p: nat)
  {
    TokenAt(src, p) == "TO" && IsOperand(st, TokenAt(src, p + 1)) && TokenAt(src, p + 2) == "{"
  }

  /** The first bound of the DO head at `p`, cast to int. */
  function FirstBound(src: Source, st: Store, p: nat): int
    requires DoStartAt(src, st, p)
  {
    Trunc(OperandValue(st, TokenAt(src, p + 2)))
  }

  /** The store once the loop variable of the DO head at `p` holds the
      first bound. */
  function StoreAfterFrom(src: Source, st: Store, interpret: bool, p: nat): Store
    requires DoStartAt(src, st, p)
  {
    Assign(st, TokenAt(src, p)[0], FirstBound(src, st, p) as real, interpret)
  }

  /** The whole head `VAR FROM VARNUM TO VARNUM {` at `p`, where the second
      bound is read after the first has been assigned. */
  predicate DoHeadAt(src: Source, st: Store, interpret: bool, p: nat)
  {
    DoStartAt(src, st, p) && DoEndAt(src, StoreAfterFrom(src, st, interpret, p), p + 3)
  }

  /** The second bound of the DO head at `p`, cast to int. */
  function LastBound(src: Source, st: Store, interpret: bool, p: nat): int
    requires DoHeadAt(src, st, interpret, p)
  {
    Trunc(OperandValue(StoreAfterFrom(src, st, interpret, p), TokenAt(src, p + 4)))
  }

  /** The first half of processDo: the loop variable, FROM and the first
      bound, which is cast to int and assigned to the variable at once. */
  method DoStart(src: Source, s: Session) returns (h: DoHead)
    requires Valid(s)
    ensures Evolves(s, h.s)
    ensures h.s.braces == s.braces && h.s.colour == s.colour && h.s.trace == s.trace && h.s.stack == s.stack
    ensures var p := NextIndex(s);
      && (h.ok <==> DoStartAt(src, s.store, p))
      && (h.ok ==>
            && h.name == TokenAt(src, p)[0]
            && h.first == FirstBound(src, s.store, p)
            && h.s.store == StoreAfterFrom(src, s.store, s.interpret, p)
            && NextIndex(h.s) == p + 3)
      && (!h.ok ==> h.s.store == s.store)
  {
    var a := ReadVariable(src, s);
    if !a.ok {
      return DoHead(false, a.s, 'A', 0, 0);
    }
    var c := Current(src, a.s)[0];
    var b := ReadWord(src, a.s, 8);
    if !b.ok {
      return DoHead(false, b.s, c, 0, 0);
    }
    var d := ReadVarNum(src, b.s);
    if !d.ok {
      return DoHead(false, d.s, c, 0, 0);
    }
    var first := Trunc(d.s.val);
    h := DoHead(true, AssignVariable(d.s, c, first as real), c, first, 0);
  }

  /** processDo up to its opening brace: the second half reads TO, the
      second bound (under the store the first half left) and the brace. */
  method ReadDoHead(src: Source, s: Session) returns (h: DoHead)
    requires Valid(s)
    ensures Evolves(s, h.s)
    ensures h.s.braces == s.braces && h.s.colour == s.colour && h.s.trace == s.trace && h.s.stack == s.stack
    ensures var p := NextIndex(s);
      && (h.ok <==> DoHeadAt(src, s.store, s.interpret, p))
      && (h.ok ==>
            && h.name == TokenAt(src, p)[0] && IsVariable(h.name)
            && h.first == FirstBound(src, s.store, p)
            && h.last == LastBound(src, s.store, s.interpret, p)
            && h.s.store == StoreAfterFrom(src, s.store, s.interpret, p)
            && h.s.val == OperandValue(h.s.store, TokenAt(src, p + 4))
            && h.s.cursor == p + 5)
  {
    h := DoStart(src, s);
    if !h.ok {
      return;
    }
    var a := ReadWord(src, h.s, 9);
    if !a.ok {
      return h.(ok := false, s := a.s);
    }
    var b := ReadBound(src, a.s);
    h := h.(ok := b.ok, s := b.s, last := Trunc(b.s.val));
  }

  /** The comparator of a WHILE loop. */
  datatype Comparator = Below | Above

  /** Whether the loop condition `v < bound` or `v > bound` holds. */
  predicate Holds(c: Comparator, v: real, bound: real)
  {
    match c
    case Below => v < bound
    case Above => v > bound
  }

  /** The opposite comparator: the two never hold together, and neither
      holds when the value equals the bound. */
  function Flip(c: Comparator): (f: Comparator)
    ensures f != c
    ensures forall v: real, bound: real :: Holds(f, v, bound) ==> !Holds(c, v, bound)
    ensures forall v: real :: !Holds(f, v, v) && !Holds(c, v, v)
  {
    match c
    case Below => Above
    case Above => Below
  }

  /** The comparator a WHILE head spells. */
  function ComparatorOf(t: string): Comparator
  {
    if t == "<" then Below else Above
  }

  /** The head of a WHILE loop read up to its opening brace. */
  datatype WhileHead = WhileHead(ok: bool, s: Session, name: char, cmp: Comparator, bound: real)

  /** The tokens `ASSIGNEDVAR (<|>) VARNUM {` at `p`, read under the store
      `st`. */
  predicate WhileHeadAt(src: Source, st: Store, p: nat)
  {
    var t := TokenAt(src, p);
    && |t| == 1 && IsVariable(t[0]) && IsAssigned(st, t[0])
    && (TokenAt(src, p + 1) == "<" || TokenAt(src, p + 1) == ">")
    && IsOperand(st, TokenAt(src, p + 2))
    && TokenAt(src, p + 3) == "{"
  }

  /** processWhile up to its opening brace: the loop variable must already
      be assigned, the comparator is "<" or ">", and the bound is kept as
      read (not cast). Reading the head changes no variable. */
  method ReadWhileHead(src: Source, s: Session) returns (h: WhileHead)
    requires Valid(s)
    ensures Evolves(s, h.s) && Kept(s, h.s)
    ensures var p := NextIndex(s);
      && (h.ok <==> WhileHeadAt(src, s.store, p))
      && (h.ok ==>
            && h.name == TokenAt(src, p)[0] && IsVariable(h.name)
            && h.cmp == ComparatorOf(TokenAt(src, p + 1))
            && h.bound == OperandValue(s.store, TokenAt(src, p + 2))
            && h.s.val == h.bound
            && h.s.cursor == p + 3)
  {
    var a := ReadAssigned(src, s);
    if !a.ok {
      return WhileHead(false, a.s, 'A', Below, 0.0);
    }
    var c := Current(src, a.s)[0];
    var b := ReadComparator(src, a.s);
    if !b.ok {
      return WhileHead(false, b.s, c, Below, 0.0);
    }
    var cmp := ComparatorOf(Current(src, b.s));
    var d := ReadBound(src, b.s);
    h := WhileHead(d.ok, d.s, c, cmp, d.s.val);
  }
}
