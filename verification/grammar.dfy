/** The recursive-descent cycle: processMain, processInstructionList,
    processInstruction, processDo with its upward and downward loop
    executors, processWhile, executeWhileLoop and skipLoop. A DO or WHILE
    body is run again by rewinding the cursor to the loop's opening brace;
    the token array then replays the cached tokens. Rules that run loops can
    recurse without bound, so every rule here carries a fuel bound and gives
    up with OutOfFuel when it is exhausted. */
module Grammar {
  import opened Numbers
  import opened VariableStore
  import opened Lexicon
  import opened State
  import opened TokenCache
  import opened Rules

  /** The result of a rule that may run loops: a verdict with the session
      after the rule, or OutOfFuel. */
  datatype Run = Finished(ok: bool, s: Session) | OutOfFuel

  /** A finished run evolved from `s`. */
  predicate Settles(s: Session, r: Run)
  {
    r.Finished? ==> Evolves(s, r.s)
  }

  /** In parse mode a rule that succeeds closes every brace it opens. */
  predicate Balanced(s: Session, r: Run)
  {
    r.Finished? && r.ok && !s.interpret ==> r.s.braces == s.braces
  }

  /** The values a DO loop counts through: up from `first` to `last` when
      `first <= last`, otherwise down from `first` to `last`. */
  function Counters(first: int, last: int): (cs: seq<int>)
    ensures |cs| == if first <= last then last - first + 1 else first - last + 1
    ensures forall i :: 0 <= i < |cs| ==> cs[i] == (if first <= last then first + i else first - i)
  {
    if first <= last then CountUp(first, last) else CountDown(first, last)
  }

  /** executeUpwardsDoLoop's counters: from `start` up to `stop`, inclusive. */
  function CountUp(start: int, stop: int): (cs: seq<int>)
    ensures |cs| == if start <= stop then stop - start + 1 else 0
    ensures forall i :: 0 <= i < |cs| ==> cs[i] == (start + i)
    decreases stop - start + 1
  {
    if start > stop then [] else [start] + CountUp(start + 1, stop)
  }

  /** executeDownwardsDoLoop's counters: from `start` down to `stop`, inclusive. */
  function CountDown(start: int, stop: int): (cs: seq<int>)
    ensures |cs| == if start >= stop then start - stop + 1 else 0
    ensures forall i :: 0 <= i < |cs| ==> cs[i] == (start - i)
    decreases start - stop + 1
  {
    if start < stop then [] else [start] + CountDown(start - 1, stop)
  }

  /** A run that finished and succeeded. */
  predicate Succeeded(r: Run)
  {
    r.Finished? && r.ok
  }

  /** What the instruction of kind `k` does from `s`, the session with the
      cursor on its keyword, with `fuel`: it settles, keeps the braces
      balanced, and does what KindSpec says of its kind. */
  predicate InstructionSpec(src: Source, s: Session, k: Kind, fuel: nat, r: Run, loop: Loop)
    decreases fuel, 4
  {
    Settles(s, r) && Balanced(s, r) && KindSpec(src, s, k, fuel, r, loop)
  }

  /** What the instruction of kind `k` yields: the verdict and session of its
      rule, for PN the pen toggle, a DO as DoSpec says and a WHILE as
      WhileSpec says, with the head and passes `loop` records. */
  predicate KindSpec(src: Source, s: Session, k: Kind, fuel: nat, r: Run, loop: Loop)
    decreases fuel, 3
  {
    && (k == Pen ==> r == Finished(true, Dispatch(s, TogglePen)))
    && (k == SetWord ==> r.Finished? && SetSpec(src, s, Step(r.ok, r.s)))
    && (k == Clr ==> r.Finished? && ColourSpec(src, s, Step(r.ok, r.s)))
    && (k in {Fd, Lt, Rt, BkStep} ==> r.Finished? && ActionSpec(src, s, ActionOf(k), Step(r.ok, r.s)))
    && (k == DoWord ==> DoSpec(src, s, fuel, r, loop.head, loop.passes))
    && (k == WhileWord ==> WhileSpec(src, s, fuel, r, loop.head, loop.skip, loop.passes))
  }

  /** How an instruction list run `r` from `s` with `fuel` ends, read off its
      next token: a closing brace ends it at once, the end of the file or a
      token that is neither an instruction nor "}" is an error. A list that
      succeeds leaves the cursor on its closing brace, and in parse mode one
      brace fewer hanging. */
  predicate ListEnds(src: Source, s: Session, fuel: nat, r: Run)
  {
    && Settles(s, r)
    && (Succeeded(r) ==> Current(src, r.s) == "}")
    && (Succeeded(r) && !s.interpret ==> r.s.braces == s.braces - 1)
    && (fuel == 0 ==> r == OutOfFuel)
    && (fuel > 0 && !Readable(src, s) ==> r == Finished(false, Moved(s)))
    && (fuel > 0 && Readable(src, s) && Next(src, s) == "}" ==>
          r == Finished(true, Moved(s).(braces := s.braces - 1)))
    && (fuel > 0 && Readable(src, s) && Next(src, s) != "}" && Next(src, s) !in InstructionWords ==>
          r.Finished? && !r.ok)
  }

  /** The record of one run of processInstructionList: a list that ended at
      its first token (a closing brace, the end of the file, a token that is
      no instruction, or no fuel left), or one whose first token was an
      instruction, with that instruction's run and what its loop did. */
  datatype Pass =
    | Ended(run: Run)
    | Went(run: Run, first: Run, loop: Loop)

  /** What a loop instruction did: the session after its head, the pass
      skipLoop made over the body, and the passes the loop made. Nothing in
      it is read for an instruction that is no loop. */
  datatype Loop = Loop(head: Session, skip: Pass, passes: seq<Pass>)

  /** What processInstructionList does from `s` with `fuel`, as its record
      `p` tells it: the list ends as ListEnds says, and when the next token
      is an instruction keyword, `p` holds that instruction's run from the
      keyword; a first instruction that does not succeed is the list's
      result, and one that succeeds is followed by an instruction list from
      the session it left, which ends as ListEnds says and whose result is
      the list's. */
  predicate ListSpec(src: Source, s: Session, fuel: nat, p: Pass)
    decreases fuel, 5
  {
    && ListEnds(src, s, fuel, p.run)
    && (fuel > 0 && Readable(src, s) && Next(src, s) in InstructionWords ==>
          && p.Went?
          && InstructionSpec(src, Moved(s), SpelledKind(Next(src, s)), fuel - 1, p.first, p.loop)
          && (Succeeded(p.first) ==> ListEnds(src, p.first.s, fuel - 1, p.run))
          && (!Succeeded(p.first) ==> p.run == p.first))
  }

  /** The session before pass `i` of a loop entered at `s`: `s` itself for
      the first pass, the session the previous pass finished with after
      that. */
  function Before(s: Session, passes: seq<Pass>, i: nat): Session
  {
    if i == 0 || i > |passes| then s
    else match passes[i - 1].run
      case Finished(_, t) => t
      case OutOfFuel => s
  }

  /** Every pass succeeded. */
  predicate AllSucceeded(passes: seq<Pass>)
  {
    forall i :: 0 <= i < |passes| ==> Succeeded(passes[i].run)
  }

  /** A loop's passes end at the first one that does not succeed, and that
      pass's run is then the loop's result. */
  predicate Chained(passes: seq<Pass>, r: Run)
  {
    && (forall i :: 0 <= i < |passes| - 1 ==> Succeeded(passes[i].run))
    && (|passes| > 0 && !Succeeded(passes[|passes| - 1].run) ==> r == passes[|passes| - 1].run)
  }

  /** Adding a pass keeps the earlier passes and the sessions before them,
      and the session after the new pass is the one its run finished with. */
  lemma BeforeKept(s: Session, passes: seq<Pass>, p: Pass, j: nat)
    requires j <= |passes|
    ensures Before(s, passes + [p], j) == Before(s, passes, j)
    ensures j < |passes| ==> (passes + [p])[j] == passes[j]
    ensures p.run.Finished? ==> Before(s, passes + [p], |passes| + 1) == p.run.s
  {
  }

  /** The session a DO pass starts from: the loop variable `name` assigned
      the counter (its value written only when interpreting), the cursor
      rewound to the opening brace at `start`, and one more brace hanging. */
  function Enter(cur: Session, name: char, counter: int, start: nat): (e: Session)
    requires IsVariable(name)
    ensures e.cursor == start && e.braces == cur.braces + 1 && e.interpret == cur.interpret
    ensures IsAssigned(e.store, name)
    ensures cur.interpret ==> Value(e.store, name) == counter as real
    ensures !cur.interpret ==> SameValues(cur.store, e.store)
  {
    cur.(store := Assign(cur.store, name, counter as real, cur.interpret), cursor := start, braces := cur.braces + 1)
  }

  /** The session a WHILE pass starts from: the cursor rewound to the
      opening brace at `start`, and one more brace hanging. */
  function Rewind(cur: Session, start: nat): Session
  {
    cur.(cursor := start, braces := cur.braces + 1)
  }

  /** The session skipLoop parses the body from: interpreting off and one
      more brace hanging. */
  function Quiet(s: Session): Session
  {
    s.(interpret := false, braces := s.braces + 1)
  }

  /** The passes of a DO loop entered at `s` over `counters`: pass `j` is
      the body list run with one less unit of fuel from the session before
      it, entered with the loop variable set to counter `j`. */
  predicate DoPasses(src: Source, s: Session, name: char, counters: seq<int>, fuel: nat, passes: seq<Pass>)
    requires IsVariable(name)
    decreases fuel, 0
  {
    forall j :: 0 <= j < |passes| ==>
      j < |counters| && fuel > 0 && ListSpec(src, Enter(Before(s, passes, j), name, counters[j], s.cursor), fuel - 1, passes[j])
  }

  /** The passes of a WHILE loop entered at `s`: pass `j` is made because
      the condition held in the session before it, and is the body list run
      with one less unit of fuel from that session, cursor rewound. */
  predicate WhilePasses(src: Source, s: Session, name: char, cmp: Comparator, bound: real, fuel: nat, passes: seq<Pass>)
    requires IsVariable(name)
    decreases fuel, 0
  {
    forall j :: 0 <= j < |passes| ==>
      && Holds(cmp, Value(Before(s, passes, j).store, name), bound) && fuel > 0
      && ListSpec(src, Rewind(Before(s, passes, j), s.cursor), fuel - 1, passes[j])
  }

  /** The DO loop entered at `s` (the cursor on its opening brace) over
      `counters`: pass `i` runs the body from the session before it with the
      loop variable set to counter `i`; the passes stop early only at one
      that does not succeed, whose run is the loop's; when all succeed the
      loop succeeds with the last pass's session. */
  predicate DoLoopSpec(src: Source, s: Session, name: char, counters: seq<int>, fuel: nat, r: Run, passes: seq<Pass>)
    requires IsVariable(name)
    decreases fuel, 1
  {
    && |passes| <= |counters|
    && (fuel == 0 ==> r == OutOfFuel && passes == [])
    && DoPasses(src, s, name, counters, fuel, passes)
    && Chained(passes, r)
    && (fuel > 0 && |passes| < |counters| ==> |passes| > 0 && !Succeeded(passes[|passes| - 1].run))
    && (fuel > 0 && AllSucceeded(passes) && |passes| == |counters| ==>
          r == Finished(true, Before(s, passes, |passes|)))
  }

  /** The DO at the next token: a malformed head is an error; a well-formed
      one leaves `head`, with the loop variable holding the first bound, the
      second bound's value in `val` and the cursor on the opening brace, and
      the loop then runs over the counters from the first bound to the last. */
  predicate DoSpec(src: Source, s: Session, fuel: nat, r: Run, head: Session, passes: seq<Pass>)
    decreases fuel, 2
  {
    var p := NextIndex(s);
    && (!DoHeadAt(src, s.store, s.interpret, p) ==> r.Finished? && !r.ok)
    && (DoHeadAt(src, s.store, s.interpret, p) ==>
          && Evolves(s, head)
          && head.braces == s.braces && head.colour == s.colour && head.trace == s.trace && head.stack == s.stack
          && head.store == StoreAfterFrom(src, s.store, s.interpret, p)
          && head.val == OperandValue(head.store, TokenAt(src, p + 4))
          && head.cursor == p + 5
          && DoLoopSpec(src, head, TokenAt(src, p)[0],
                        Counters(FirstBound(src, s.store, p), LastBound(src, s.store, s.interpret, p)), fuel, r, passes))
  }

  /** skipLoop from `s`, the session on the loop's opening brace: `body` is
      an instruction-list run from Quiet(s); the mode is then restored, and
      when interpreting a body that fails still lets the rule succeed. */
  predicate SkipSpec(src: Source, s: Session, fuel: nat, r: Run, body: Pass)
    decreases fuel, 1
  {
    && (fuel == 0 ==> r == OutOfFuel)
    && (fuel > 0 ==> ListSpec(src, Quiet(s), fuel - 1, body))
    && (fuel > 0 && body.run.OutOfFuel? ==> r == OutOfFuel)
    && (fuel > 0 && body.run.Finished? ==>
          r == Finished(body.run.ok || s.interpret, body.run.s.(interpret := s.interpret)))
  }

  /** The WHILE loop entered at `s` (the cursor on its opening brace): pass
      `i` runs, from the session before it, only while the condition holds
      there; the passes stop early only at one that does not succeed, whose
      run is the loop's; after passes that all succeed, a false condition
      ends the loop with success, and a true one means the fuel (one unit a
      pass) ran out. */
  predicate WhileLoopSpec(src: Source, s: Session, name: char, cmp: Comparator, bound: real, fuel: nat,
                          r: Run, passes: seq<Pass>)
    requires IsVariable(name)
    decreases fuel, 1
  {
    && |passes| <= fuel
    && WhilePasses(src, s, name, cmp, bound, fuel, passes)
    && Chained(passes, r)
    && (AllSucceeded(passes) && Holds(cmp, Value(Before(s, passes, |passes|).store, name), bound) ==>
          |passes| == fuel && r == OutOfFuel)
    && (AllSucceeded(passes) && !Holds(cmp, Value(Before(s, passes, |passes|).store, name), bound) ==>
          r == Finished(true, Before(s, passes, |passes|)))
  }

  /** The WHILE at the next token: a malformed head is an error; a
      well-formed one leaves `head`, with the bound in `val` and the cursor
      on the opening brace. When parsing, or when interpreting with the
      opposite condition already true, the body goes through skipLoop once;
      otherwise the loop runs. */
  predicate WhileSpec(src: Source, s: Session, fuel: nat, r: Run, head: Session, skip: Pass, passes: seq<Pass>)
    decreases fuel, 2
  {
    var p := NextIndex(s);
    && (!WhileHeadAt(src, s.store, p) ==> r.Finished? && !r.ok)
    && (WhileHeadAt(src, s.store, p) ==>
          var name := TokenAt(src, p)[0];
          var cmp := ComparatorOf(TokenAt(src, p + 1));
          var bound := OperandValue(s.store, TokenAt(src, p + 2));
          && Evolves(s, head) && Kept(s, head) && head.val == bound && head.cursor == p + 3
          && (!s.interpret || Holds(Flip(cmp), Value(s.store, name), bound) ==> SkipSpec(src, head, fuel, r, skip))
          && (s.interpret && !Holds(Flip(cmp), Value(s.store, name), bound) ==>
                WhileLoopSpec(src, head, name, cmp, bound, fuel, r, passes)))
  }

  /** processInstructionList: instructions up to the closing brace, which
      is consumed and closes one hanging brace. The end of the file or any
      other token is an error. */
  method InstrList(src: Source, s: Session, fuel: nat) returns (r: Run, ghost p: Pass)
    requires Valid(s)
    ensures ListEnds(src, s, fuel, r)
    ensures p.run == r && ListSpec(src, s, fuel, p)
    decreases fuel, 4
  {
    p := Ended(OutOfFuel);
    if fuel == 0 {
      ListStarved(src, s, p);
      return OutOfFuel, p;
    }
    var a := Advance(src, s);
    if a.ok && IsInstruction(a.kind) {
      r, p := InstrFirst(src, s, fuel, a);
    } else if a.ok && a.kind == CloseBrace {
      r := Finished(true, a.s.(braces := a.s.braces - 1));
      p := Ended(r);
      ListHalts(src, s, fuel, p);
    } else {
      r := Finished(false, a.s);
      p := Ended(r);
      ListHalts(src, s, fuel, p);
    }
  }

  /** processInstructionList on an instruction keyword: the instruction
      runs, and when it succeeds the list goes on after it; otherwise its
      run is the list's. */
  method InstrFirst(src: Source, s: Session, fuel: nat, a: Scan) returns (r: Run, ghost p: Pass)
    requires Valid(s) && fuel > 0
    requires a == Advance(src, s) && a.ok && IsInstruction(a.kind)
    ensures ListEnds(src, s, fuel, r)
    ensures p.run == r && ListSpec(src, s, fuel, p)
    decreases fuel, 3
  {
    var i;
    ghost var loop;
    i, loop := Instruction(src, a.s, a.kind, fuel - 1);
    if i.Finished? && i.ok {
      ghost var rest;
      r, rest := InstrList(src, i.s, fuel - 1);
      p := Went(r, i, loop);
      ListGoesOn(src, s, fuel, a, i, loop, r);
    } else {
      r := i;
      p := Went(r, i, loop);
      ListStops(src, s, fuel, a, i, loop);
    }
  }

  /** An instruction list with no fuel left runs out of fuel. */
  lemma ListStarved(src: Source, s: Session, p: Pass)
    requires p == Ended(OutOfFuel)
    ensures ListEnds(src, s, 0, p.run)
    ensures ListSpec(src, s, 0, p)
  {
  }

  /** An instruction list whose next token is no instruction ends there:
      with success on "}", with an error otherwise. */
  lemma ListHalts(src: Source, s: Session, fuel: nat, p: Pass)
    requires Valid(s) && fuel > 0
    requires var a := Advance(src, s); !(a.ok && IsInstruction(a.kind))
    requires var a := Advance(src, s);
             p == Ended(if a.ok && a.kind == CloseBrace then Finished(true, a.s.(braces := a.s.braces - 1))
                        else Finished(false, a.s))
    ensures ListEnds(src, s, fuel, p.run)
    ensures ListSpec(src, s, fuel, p)
  {
    var a := Advance(src, s);
    KeptEvolves(s, a.s);
    if a.ok {
      InstructionWordKind(s.store, a.tok);
    }
  }

  /** An instruction list whose next token is an instruction that does not
      succeed ends with that instruction's run. */
  lemma ListStops(src: Source, s: Session, fuel: nat, a: Scan, i: Run, loop: Loop)
    requires Valid(s) && fuel > 0
    requires a == Advance(src, s) && a.ok && IsInstruction(a.kind)
    requires InstructionSpec(src, a.s, a.kind, fuel - 1, i, loop)
    requires !Succeeded(i)
    ensures ListEnds(src, s, fuel, i)
    ensures ListSpec(src, s, fuel, Went(i, i, loop))
  {
    KeptEvolves(s, a.s);
    InstructionWordKind(s.store, a.tok);
    if i.Finished? {
      EvolvesChain(s, a.s, i.s);
    }
  }

  /** An instruction list whose next token is an instruction that succeeds
      goes on with the rest of the list, whose run is the list's. */
  lemma ListGoesOn(src: Source, s: Session, fuel: nat, a: Scan, i: Run, loop: Loop, r: Run)
    requires Valid(s) && fuel > 0
    requires a == Advance(src, s) && a.ok && IsInstruction(a.kind)
    requires InstructionSpec(src, a.s, a.kind, fuel - 1, i, loop)
    requires Succeeded(i) && ListEnds(src, i.s, fuel - 1, r)
    ensures ListEnds(src, s, fuel, r)
    ensures ListSpec(src, s, fuel, Went(r, i, loop))
  {
    KeptEvolves(s, a.s);
    InstructionWordKind(s.store, a.tok);
    EvolvesChain(s, a.s, i.s);
    if r.Finished? {
      EvolvesChain(s, i.s, r.s);
    }
  }

  /** processInstruction on the instruction keyword of kind `k` under the
      cursor. PN toggles the pen when interpreting. */
  method Instruction(src: Source, s: Session, k: Kind, fuel: nat) returns (r: Run, ghost loop: Loop)
    requires Valid(s) && IsInstruction(k)
    ensures Settles(s, r)
    ensures InstructionSpec(src, s, k, fuel, r, loop)
    decreases fuel, 3
  {
    ghost var head, skip, passes := s, Ended(OutOfFuel), [];
    loop := Loop(head, skip, passes);
    if k == SetWord {
      var t := SetRule(src, s);
      r := Finished(t.ok, t.s);
    } else if k == Clr {
      var t := ColourRule(src, s);
      r := Finished(t.ok, t.s);
    } else if k == Pen {
      r := Finished(true, Dispatch(s, TogglePen));
    } else if k == DoWord {
      r, head, passes := Do(src, s, fuel);
      loop := Loop(head, skip, passes);
    } else if k == WhileWord {
      r, head, skip, passes := While(src, s, fuel);
      loop := Loop(head, skip, passes);
    } else {
      var t := ActionRule(src, s, ActionOf(k));
      r := Finished(t.ok, t.s);
    }
  }

  /** processDo: the head, then the body once for every counter from the
      first bound to the last, upward or downward. */
  method Do(src: Source, s: Session, fuel: nat) returns (r: Run, ghost head: Session, ghost passes: seq<Pass>)
    requires Valid(s)
    ensures Settles(s, r)
    ensures Balanced(s, r)
    ensures DoSpec(src, s, fuel, r, head, passes)
    decreases fuel, 2
  {
    var h := ReadDoHead(src, s);
    head, passes := h.s, [];
    if !h.ok {
      return Finished(false, h.s), head, passes;
    }
    r, passes := DoLoop(src, h.s, h.name, Counters(h.first, h.last), fuel);
    if r.Finished? {
      EvolvesChain(s, h.s, r.s);
    }
  }

  /** executeUpwardsDoLoop and executeDownwardsDoLoop: for each counter the
      loop variable is assigned, the cursor rewound to the opening brace,
      one more brace counted as hanging, and the body run; a failing body
      ends the loop with an error. */
  method DoLoop(src: Source, s: Session, name: char, counters: seq<int>, fuel: nat)
    returns (r: Run, ghost passes: seq<Pass>)
    requires Valid(s) && IsVariable(name)
    ensures Settles(s, r)
    ensures Balanced(s, r)
    ensures DoLoopSpec(src, s, name, counters, fuel, r, passes)
    decreases fuel, 1
  {
    passes := [];
    if fuel == 0 {
      return OutOfFuel, passes;
    }
    var cur := s;
    var i := 0;
    while i < |counters|
      invariant 0 <= i <= |counters| && |passes| == i
      invariant cur == Before(s, passes, i)
      invariant DoSoFar(src, s, name, counters, fuel, passes)
    {
      var b;
      ghost var p;
      b, p := DoPass(src, s, name, counters, fuel, passes, i, cur);
      passes := passes + [p];
      if !b.Finished? || !b.ok {
        return b, passes;
      }
      cur := b.s;
      i := i + 1;
    }
    DoPassesDone(src, s, name, counters, fuel, passes);
    r := Finished(true, cur);
  }

  /** One pass of a DO loop: the loop variable is assigned the next
      counter, the cursor rewound to the opening brace, one more brace
      counted as hanging, and the body run. A pass that succeeds extends
      the passes so far; one that does not ends the loop with its run. */
  method DoPass(src: Source, s: Session, name: char, counters: seq<int>, fuel: nat, ghost passes: seq<Pass>, i: nat, cur: Session)
    returns (b: Run, ghost p: Pass)
    requires Valid(s) && IsVariable(name) && fuel > 0
    requires DoSoFar(src, s, name, counters, fuel, passes) && i == |passes| < |counters|
    requires cur == Before(s, passes, i)
    ensures p.run == b
    ensures Succeeded(b) ==> DoSoFar(src, s, name, counters, fuel, passes + [p]) && Before(s, passes + [p], |passes| + 1) == b.s
    ensures !Succeeded(b) ==> DoLoopSpec(src, s, name, counters, fuel, b, passes + [p])
    ensures !Succeeded(b) ==> Settles(s, b) && Balanced(s, b)
    decreases fuel, 0
  {
    var e := Enter(cur, name, counters[i], s.cursor);
    EnterValid(s, cur, name, counters[i]);
    b, p := InstrList(src, e, fuel - 1);
    if !b.Finished? || !b.ok {
      DoPassFails(src, s, name, counters, fuel, passes, e, p);
    } else {
      DoPassAdded(src, s, name, counters, fuel, passes, e, p);
    }
  }

  /** The DO passes made so far all succeeded, each from its counter's
      entry session, and the session after them evolved from the one the
      loop was entered with, in parse mode with every brace closed again. */
  predicate DoSoFar(src: Source, s: Session, name: char, counters: seq<int>, fuel: nat, passes: seq<Pass>)
    requires IsVariable(name) && fuel > 0
  {
    && |passes| <= |counters|
    && AllSucceeded(passes)
    && DoPasses(src, s, name, counters, fuel, passes)
    && Evolves(s, Before(s, passes, |passes|))
    && (!s.interpret ==> Before(s, passes, |passes|).braces == s.braces)
  }

  /** A DO pass run from the next counter's entry session extends the
      passes. */
  lemma DoPassesGrow(src: Source, s: Session, name: char, counters: seq<int>, fuel: nat, passes: seq<Pass>, e: Session, p: Pass)
    requires IsVariable(name) && fuel > 0
    requires DoPasses(src, s, name, counters, fuel, passes) && |passes| < |counters|
    requires e == Enter(Before(s, passes, |passes|), name, counters[|passes|], s.cursor)
    ensures ListSpec(src, e, fuel - 1, p) ==> DoPasses(src, s, name, counters, fuel, passes + [p])
    ensures p.run.Finished? ==> Before(s, passes + [p], |passes| + 1) == p.run.s
  {
    var q := passes + [p];
    if ListSpec(src, e, fuel - 1, p) {
      forall j | 0 <= j < |q|
        ensures ListSpec(src, Enter(Before(s, q, j), name, counters[j], s.cursor), fuel - 1, q[j])
      {
        BeforeKept(s, passes, p, j);
      }
    }
    BeforeKept(s, passes, p, |passes|);
  }

  /** A DO pass entered from a session the loop evolved to, and finished,
      leaves a session evolved from the loop's, with the pass's brace
      closed again in parse mode when it succeeded. */
  lemma DoPassEvolves(src: Source, s: Session, cur: Session, name: char, counter: int, fuel: nat, p: Pass)
    requires Valid(s) && IsVariable(name) && Evolves(s, cur)
    requires !s.interpret ==> cur.braces == s.braces
    requires ListEnds(src, Enter(cur, name, counter, s.cursor), fuel, p.run)
    ensures Settles(s, p.run)
    ensures Balanced(s, p.run)
  {
    var e := Enter(cur, name, counter, s.cursor);
    var w := AssignVariable(cur, name, counter as real);
    assert e == w.(cursor := s.cursor, braces := cur.braces + 1);
    if p.run.Finished? {
      EvolvesChain(s, cur, w);
      EvolvesChain(s, e, p.run.s);
    }
  }

  /** The entry session of a DO pass is valid: the cursor goes back to the
      loop's opening brace, which lies inside the token array read so far. */
  lemma EnterValid(s: Session, cur: Session, name: char, counter: int)
    requires Valid(s) && IsVariable(name) && Evolves(s, cur)
    ensures Valid(Enter(cur, name, counter, s.cursor))
  {
  }

  /** One more DO pass that succeeds keeps the passes so far qualified. */
  lemma DoPassAdded(src: Source, s: Session, name: char, counters: seq<int>, fuel: nat, passes: seq<Pass>, e: Session, p: Pass)
    requires Valid(s) && IsVariable(name) && fuel > 0
    requires DoSoFar(src, s, name, counters, fuel, passes) && |passes| < |counters|
    requires e == Enter(Before(s, passes, |passes|), name, counters[|passes|], s.cursor)
    requires ListEnds(src, e, fuel - 1, p.run) && ListSpec(src, e, fuel - 1, p)
    requires Succeeded(p.run)
    ensures DoSoFar(src, s, name, counters, fuel, passes + [p])
    ensures Before(s, passes + [p], |passes| + 1) == p.run.s
  {
    DoPassesGrow(src, s, name, counters, fuel, passes, e, p);
    DoPassEvolves(src, s, Before(s, passes, |passes|), name, counters[|passes|], fuel - 1, p);
  }

  /** One more DO pass that does not succeed ends the loop with its run. */
  lemma DoPassFails(src: Source, s: Session, name: char, counters: seq<int>, fuel: nat, passes: seq<Pass>, e: Session, p: Pass)
    requires Valid(s) && IsVariable(name) && fuel > 0
    requires DoSoFar(src, s, name, counters, fuel, passes) && |passes| < |counters|
    requires e == Enter(Before(s, passes, |passes|), name, counters[|passes|], s.cursor)
    requires ListEnds(src, e, fuel - 1, p.run) && ListSpec(src, e, fuel - 1, p)
    requires !Succeeded(p.run)
    ensures DoLoopSpec(src, s, name, counters, fuel, p.run, passes + [p])
    ensures Settles(s, p.run) && Balanced(s, p.run)
  {
    DoPassesGrow(src, s, name, counters, fuel, passes, e, p);
    DoPassEvolves(src, s, Before(s, passes, |passes|), name, counters[|passes|], fuel - 1, p);
  }

  /** A DO loop whose passes all succeeded, one per counter, succeeds with
      the last pass's session. */
  lemma DoPassesDone(src: Source, s: Session, name: char, counters: seq<int>, fuel: nat, passes: seq<Pass>)
    requires IsVariable(name) && fuel > 0
    requires DoSoFar(src, s, name, counters, fuel, passes) && |passes| == |counters|
    ensures DoLoopSpec(src, s, name, counters, fuel, Finished(true, Before(s, passes, |passes|)), passes)
    ensures Settles(s, Finished(true, Before(s, passes, |passes|)))
    ensures Balanced(s, Finished(true, Before(s, passes, |passes|)))
  {
  }

  /** processWhile: the head, then, when parsing, one pass over the body
      with skipLoop; when interpreting, skipLoop if the opposite condition
      already holds and executeWhileLoop otherwise. When the variable equals
      the bound neither happens: the rule succeeds with the cursor left on
      the opening brace. */
  method While(src: Source, s: Session, fuel: nat)
    returns (r: Run, ghost head: Session, ghost skip: Pass, ghost passes: seq<Pass>)
    requires Valid(s)
    ensures Settles(s, r)
    ensures Balanced(s, r)
    ensures WhileSpec(src, s, fuel, r, head, skip, passes)
    ensures r.Finished? && r.ok ==> WhileHeadAt(src, s.store, NextIndex(s))
    ensures var p := NextIndex(s);
      s.interpret && WhileHeadAt(src, s.store, p) ==>
        var name := TokenAt(src, p)[0];
        var bound := OperandValue(s.store, TokenAt(src, p + 2));
        Value(s.store, name) == bound ==>
          && r.Finished? && r.ok && r.s.cursor == p + 3
          && r.s.store == s.store && r.s.trace == s.trace
    ensures var p := NextIndex(s);
      s.interpret && WhileHeadAt(src, s.store, p) ==>
        var name := TokenAt(src, p)[0];
        var cmp := ComparatorOf(TokenAt(src, p + 1));
        var bound := OperandValue(s.store, TokenAt(src, p + 2));
        Holds(Flip(cmp), Value(s.store, name), bound) && r.Finished? ==>
          r.ok && r.s.trace == s.trace && SameValues(s.store, r.s.store)
    ensures var p := NextIndex(s);
      s.interpret && WhileHeadAt(src, s.store, p) ==>
        var name := TokenAt(src, p)[0];
        var cmp := ComparatorOf(TokenAt(src, p + 1));
        var bound := OperandValue(s.store, TokenAt(src, p + 2));
        Holds(cmp, Value(s.store, name), bound) && r.Finished? && r.ok ==>
          !Holds(cmp, Value(r.s.store, name), bound)
    decreases fuel, 2
  {
    var h := ReadWhileHead(src, s);
    head, skip, passes := h.s, Ended(OutOfFuel), [];
    if !h.ok {
      return Finished(false, h.s), head, skip, passes;
    }
    if !h.s.interpret || Holds(Flip(h.cmp), Value(h.s.store, h.name), h.bound) {
      r, skip := Skip(src, h.s, fuel);
    } else {
      r, passes := WhileLoop(src, h.s, h.name, h.cmp, h.bound, fuel);
    }
    if r.Finished? {
      EvolvesChain(s, h.s, r.s);
    }
  }

  /** The loop of executeWhileLoop: while the condition holds, the cursor is
      rewound to the opening brace, one more brace counted as hanging, and
      the body run; a failing body ends the loop with an error. Each pass
      costs one unit of fuel. A loop that ends normally leaves its condition
      false, and a loop whose condition is false at the start does nothing. */
  method WhileLoop(src: Source, s: Session, name: char, cmp: Comparator, bound: real, fuel: nat)
    returns (r: Run, ghost passes: seq<Pass>)
    requires Valid(s) && IsVariable(name)
    ensures Settles(s, r)
    ensures Balanced(s, r)
    ensures WhileLoopSpec(src, s, name, cmp, bound, fuel, r, passes)
    ensures r.Finished? && r.ok ==> !Holds(cmp, Value(r.s.store, name), bound)
    ensures !Holds(cmp, Value(s.store, name), bound) ==> r == Finished(true, s)
    decreases fuel, 1
  {
    passes := [];
    var cur := s;
    var budget: nat := fuel;
    while Holds(cmp, Value(cur.store, name), bound)
      invariant budget + |passes| == fuel
      invariant cur == Before(s, passes, |passes|)
      invariant WhileSoFar(src, s, name, cmp, bound, fuel, passes)
      invariant !Holds(cmp, Value(s.store, name), bound) ==> cur == s
      decreases budget
    {
      if budget == 0 {
        WhileRunsOut(src, s, name, cmp, bound, fuel, passes);
        return OutOfFuel, passes;
      }
      var b;
      ghost var p;
      b, p := WhilePass(src, s, name, cmp, bound, fuel, passes, cur);
      passes := passes + [p];
      if !b.Finished? || !b.ok {
        return b, passes;
      }
      cur := b.s;
      budget := budget - 1;
    }
    WhileStops(src, s, name, cmp, bound, fuel, passes);
    r := Finished(true, cur);
  }

  /** One pass of a WHILE loop whose condition holds: the cursor is rewound
      to the opening brace, one more brace counted as hanging, and the body
      run. A pass that succeeds extends the passes so far; one that does not
      ends the loop with its run. */
  method WhilePass(src: Source, s: Session, name: char, cmp: Comparator, bound: real, fuel: nat,
                   ghost passes: seq<Pass>, cur: Session)
    returns (b: Run, ghost p: Pass)
    requires Valid(s) && IsVariable(name) && fuel > 0
    requires WhileSoFar(src, s, name, cmp, bound, fuel, passes) && |passes| < fuel
    requires cur == Before(s, passes, |passes|) && Holds(cmp, Value(cur.store, name), bound)
    ensures p.run == b
    ensures Succeeded(b) ==> WhileSoFar(src, s, name, cmp, bound, fuel, passes + [p]) && Before(s, passes + [p], |passes| + 1) == b.s
    ensures !Succeeded(b) ==> WhileLoopSpec(src, s, name, cmp, bound, fuel, b, passes + [p])
    ensures !Succeeded(b) ==> Settles(s, b) && Balanced(s, b)
    decreases fuel, 0
  {
    var e := Rewind(cur, s.cursor);
    RewindValid(s, cur);
    b, p := InstrList(src, e, fuel - 1);
    if !b.Finished? || !b.ok {
      WhilePassFails(src, s, name, cmp, bound, fuel, passes, e, p);
    } else {
      WhilePassAdded(src, s, name, cmp, bound, fuel, passes, e, p);
    }
  }

  /** The WHILE passes made so far all succeeded, each run from the session
      before it, where the condition held, and the session after them
      evolved from the one the loop was entered with, in parse mode with
      every brace closed again. */
  predicate WhileSoFar(src: Source, s: Session, name: char, cmp: Comparator, bound: real, fuel: nat, passes: seq<Pass>)
    requires IsVariable(name)
  {
    && |passes| <= fuel
    && AllSucceeded(passes)
    && WhilePasses(src, s, name, cmp, bound, fuel, passes)
    && Evolves(s, Before(s, passes, |passes|))
    && (!s.interpret ==> Before(s, passes, |passes|).braces == s.braces)
  }

  /** A WHILE pass run, because the condition held, from the session after
      the passes so far extends the passes. */
  lemma WhilePassesGrow(src: Source, s: Session, name: char, cmp: Comparator, bound: real, fuel: nat,
                        passes: seq<Pass>, e: Session, p: Pass)
    requires IsVariable(name) && fuel > 0
    requires WhilePasses(src, s, name, cmp, bound, fuel, passes)
    requires Holds(cmp, Value(Before(s, passes, |passes|).store, name), bound)
    requires e == Rewind(Before(s, passes, |passes|), s.cursor)
    ensures ListSpec(src, e, fuel - 1, p) ==> WhilePasses(src, s, name, cmp, bound, fuel, passes + [p])
    ensures p.run.Finished? ==> Before(s, passes + [p], |passes| + 1) == p.run.s
  {
    var q := passes + [p];
    if ListSpec(src, e, fuel - 1, p) {
      forall j | 0 <= j < |q|
        ensures Holds(cmp, Value(Before(s, q, j).store, name), bound)
        ensures ListSpec(src, Rewind(Before(s, q, j), s.cursor), fuel - 1, q[j])
      {
        BeforeKept(s, passes, p, j);
      }
    }
    BeforeKept(s, passes, p, |passes|);
  }

  /** A WHILE pass rewound from a session the loop evolved to, and
      finished, leaves a session evolved from the loop's, with the pass's
      brace closed again in parse mode when it succeeded. */
  lemma WhilePassEvolves(src: Source, s: Session, cur: Session, fuel: nat, p: Pass)
    requires Valid(s) && Evolves(s, cur)
    requires !s.interpret ==> cur.braces == s.braces
    requires ListEnds(src, Rewind(cur, s.cursor), fuel, p.run)
    ensures Settles(s, p.run)
    ensures Balanced(s, p.run)
  {
    if p.run.Finished? {
      EvolvesChain(s, Rewind(cur, s.cursor), p.run.s);
    }
  }

  /** The session a WHILE pass starts from is valid: the cursor goes back
      to the loop's opening brace, inside the token array read so far. */
  lemma RewindValid(s: Session, cur: Session)
    requires Valid(s) && Evolves(s, cur)
    ensures Valid(Rewind(cur, s.cursor))
  {
  }

  /** One more WHILE pass, made because the condition held, that succeeds
      keeps the passes so far qualified. */
  lemma WhilePassAdded(src: Source, s: Session, name: char, cmp: Comparator, bound: real, fuel: nat,
                       passes: seq<Pass>, e: Session, p: Pass)
    requires Valid(s) && IsVariable(name)
    requires WhileSoFar(src, s, name, cmp, bound, fuel, passes) && |passes| < fuel
    requires Holds(cmp, Value(Before(s, passes, |passes|).store, name), bound)
    requires e == Rewind(Before(s, passes, |passes|), s.cursor)
    requires ListEnds(src, e, fuel - 1, p.run) && ListSpec(src, e, fuel - 1, p)
    requires Succeeded(p.run)
    ensures WhileSoFar(src, s, name, cmp, bound, fuel, passes + [p])
    ensures Before(s, passes + [p], |passes| + 1) == p.run.s
  {
    WhilePassesGrow(src, s, name, cmp, bound, fuel, passes, e, p);
    WhilePassEvolves(src, s, Before(s, passes, |passes|), fuel - 1, p);
  }

  /** One more WHILE pass, made because the condition held, that does not
      succeed ends the loop with its run. */
  lemma WhilePassFails(src: Source, s: Session, name: char, cmp: Comparator, bound: real, fuel: nat,
                       passes: seq<Pass>, e: Session, p: Pass)
    requires Valid(s) && IsVariable(name)
    requires WhileSoFar(src, s, name, cmp, bound, fuel, passes) && |passes| < fuel
    requires Holds(cmp, Value(Before(s, passes, |passes|).store, name), bound)
    requires e == Rewind(Before(s, passes, |passes|), s.cursor)
    requires ListEnds(src, e, fuel - 1, p.run) && ListSpec(src, e, fuel - 1, p)
    requires !Succeeded(p.run)
    ensures WhileLoopSpec(src, s, name, cmp, bound, fuel, p.run, passes + [p])
    ensures Settles(s, p.run) && Balanced(s, p.run)
  {
    WhilePassesGrow(src, s, name, cmp, bound, fuel, passes, e, p);
    WhilePassEvolves(src, s, Before(s, passes, |passes|), fuel - 1, p);
  }

  /** A WHILE loop whose passes all succeeded ends with success once the
      condition fails. */
  lemma WhileStops(src: Source, s: Session, name: char, cmp: Comparator, bound: real, fuel: nat, passes: seq<Pass>)
    requires IsVariable(name)
    requires WhileSoFar(src, s, name, cmp, bound, fuel, passes)
    requires !Holds(cmp, Value(Before(s, passes, |passes|).store, name), bound)
    ensures WhileLoopSpec(src, s, name, cmp, bound, fuel, Finished(true, Before(s, passes, |passes|)), passes)
    ensures Settles(s, Finished(true, Before(s, passes, |passes|)))
    ensures Balanced(s, Finished(true, Before(s, passes, |passes|)))
  {
  }

  /** A WHILE loop whose condition still holds after one successful pass
      per unit of fuel has run out of fuel. */
  lemma WhileRunsOut(src: Source, s: Session, name: char, cmp: Comparator, bound: real, fuel: nat, passes: seq<Pass>)
    requires IsVariable(name)
    requires WhileSoFar(src, s, name, cmp, bound, fuel, passes) && |passes| == fuel
    requires Holds(cmp, Value(Before(s, passes, |passes|).store, name), bound)
    ensures WhileLoopSpec(src, s, name, cmp, bound, fuel, OutOfFuel, passes)
  {
  }

  /** skipLoop: the body is parsed once with interpreting switched off, and
      the mode is then restored. When interpreting, a syntax error in the
      body is only a warning and the rule succeeds anyway. Nothing is drawn
      and no variable's value changes. */
  method Skip(src: Source, s: Session, fuel: nat) returns (r: Run, ghost body: Pass)
    requires Valid(s)
    ensures Settles(s, r)
    ensures Balanced(s, r)
    ensures SkipSpec(src, s, fuel, r, body)
    ensures r.Finished? ==> r.s.trace == s.trace && SameValues(s.store, r.s.store)
    ensures r.Finished? && s.interpret ==> r.ok
    decreases fuel, 0
  {
    body := Ended(OutOfFuel);
    if fuel == 0 {
      return OutOfFuel, body;
    }
    var b;
    b, body := InstrList(src, Quiet(s), fuel - 1);
    if !b.Finished? {
      return OutOfFuel, body;
    }
    r := Finished(b.ok || s.interpret, b.s.(interpret := s.interpret));
  }

  /** Only spaces and newlines. */
  predicate OnlyBlanks(t: string)
  {
    forall i :: 0 <= i < |t| ==> t[i] == ' ' || t[i] == '\n'
  }

  /** checkForEndOfCode after `n` scans: what is left of the file holds
      nothing but spaces and newlines. A scan past the last token has
      already reached the end of the file. */
  predicate AtEndOfCode(src: Source, n: nat)
  {
    n > |src.tokens| || (n == |src.tokens| && OnlyBlanks(src.trailing))
  }

  /** What processMain does from `s` with `fuel`: the first token must be
      "{", which opens a brace; `list` is then the instruction-list run after
      it. A list that succeeds with no brace left hanging must be followed by
      nothing but blanks; otherwise the list's run is the result. */
  predicate ProgramSpec(src: Source, s: Session, fuel: nat, r: Run, list: Pass)
  {
    && Settles(s, r)
    && (!Readable(src, s) || Next(src, s) != "{" ==> r.Finished? && !r.ok)
    && (Readable(src, s) && Next(src, s) == "{" ==>
          && ListSpec(src, Moved(s).(braces := s.braces + 1), fuel, list)
          && (Succeeded(list.run) && list.run.s.braces == 0 ==>
                r == Finished(AtEndOfCode(src, list.run.s.scanned), list.run.s))
          && (!(Succeeded(list.run) && list.run.s.braces == 0) ==> r == list.run))
  }

  /** processMain. */
  method Program(src: Source, s: Session, fuel: nat) returns (r: Run, ghost list: Pass)
    requires Valid(s)
    ensures ProgramSpec(src, s, fuel, r, list)
    ensures r.Finished? && r.ok ==> TokenAt(src, NextIndex(s)) == "{"
    ensures r.Finished? && r.ok && r.s.braces == 0 ==> AtEndOfCode(src, r.s.scanned)
    ensures r.Finished? && r.ok && !s.interpret ==> r.s.braces == s.braces
  {
    list := Ended(OutOfFuel);
    var a := Advance(src, s);
    if !a.ok || a.kind != OpenBrace {
      ProgramUnopened(src, s, fuel, list);
      return Finished(false, a.s), list;
    }
    OpenBraceKind(src, s);
    var m := a.s.(braces := a.s.braces + 1);
    r, list := InstrList(src, m, fuel);
    if r.Finished? && r.ok && r.s.braces == 0 {
      r := Finished(AtEndOfCode(src, r.s.scanned), r.s);
    }
    ProgramAfterList(src, s, fuel, m, list, r);
  }

  /** processMain on a file whose next token is no "{" fails at once. */
  lemma ProgramUnopened(src: Source, s: Session, fuel: nat, list: Pass)
    requires Valid(s)
    requires var a := Advance(src, s); !a.ok || a.kind != OpenBrace
    ensures ProgramSpec(src, s, fuel, Finished(false, Advance(src, s).s), list)
  {
    var a := Advance(src, s);
    KeptEvolves(s, a.s);
    if a.ok {
      InstructionWordKind(s.store, a.tok);
    }
  }

  /** A scan that reads "{" is the token "{" at the cursor. */
  lemma OpenBraceKind(src: Source, s: Session)
    requires Valid(s)
    ensures var a := Advance(src, s);
            a.ok && a.kind == OpenBrace ==> Readable(src, s) && Next(src, s) == "{" && a.s == Moved(s)
  {
    var a := Advance(src, s);
    if a.ok {
      InstructionWordKind(s.store, a.tok);
    }
  }

  /** processMain once "{" has been read and the list after it has run:
      the list's result, or, when it succeeded with every brace closed,
      whether only blanks follow. */
  lemma ProgramAfterList(src: Source, s: Session, fuel: nat, m: Session, list: Pass, r: Run)
    requires Valid(s) && Readable(src, s) && Next(src, s) == "{"
    requires m == Moved(s).(braces := s.braces + 1) && ListSpec(src, m, fuel, list)
    requires r == if Succeeded(list.run) && list.run.s.braces == 0
                  then Finished(AtEndOfCode(src, list.run.s.scanned), list.run.s)
                  else list.run
    ensures ProgramSpec(src, s, fuel, r, list)
    ensures r.Finished? && r.ok ==> TokenAt(src, NextIndex(s)) == "{"
    ensures r.Finished? && r.ok && r.s.braces == 0 ==> AtEndOfCode(src, r.s.scanned)
    ensures r.Finished? && r.ok && !s.interpret ==> r.s.braces == s.braces
  {
    KeptEvolves(s, Moved(s));
    if r.Finished? {
      EvolvesChain(s, m, r.s);
    }
  }

  /** parse: the whole file in parse mode, from a fresh session. A file
      that parses starts with "{" and ends, after its last closing brace,
      with nothing but blanks; parsing draws nothing and leaves every
      variable's value at 0. */
  method ParseFile(src: Source, fuel: nat) returns (r: Run, ghost list: Pass)
    ensures ProgramSpec(src, Start(false), fuel, r, list)
    ensures r.Finished? ==> r.s.trace == [] && !r.s.interpret
    ensures r.Finished? ==> forall c :: IsVariable(c) ==> Value(r.s.store, c) == 0.0
    ensures r.Finished? && r.ok ==> TokenAt(src, 0) == "{" && r.s.braces == 0 && AtEndOfCode(src, r.s.scanned)
  {
    r, list := Program(src, Start(false), fuel);
  }

  /** interpret: the whole file in interpret mode, from a fresh session. */
  method InterpretFile(src: Source, fuel: nat) returns (r: Run, ghost list: Pass)
    ensures ProgramSpec(src, Start(true), fuel, r, list)
    ensures r.Finished? ==> r.s.interpret && Valid(r.s)
    ensures r.Finished? && r.ok ==> TokenAt(src, 0) == "{"
    ensures r.Finished? && r.ok && r.s.braces == 0 ==> AtEndOfCode(src, r.s.scanned)
  {
    r, list := Program(src, Start(true), fuel);
  }
}
