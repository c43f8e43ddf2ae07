/** Whole files run through parse and interpret: the smallest drawing
    program, `{ FD 10 }`, is accepted in both modes and draws one forward
    move of 10 when interpreted, and the counted loop
    `{ DO A FROM 1 TO 2 { FD A } }` draws moves of 1 and then 2. */
module Samples {
  import opened Numbers
  import opened VariableStore
  import opened Lexicon
  import opened State
  import opened TokenCache
  import opened Rules
  import opened Grammar

  /** The file `{ FD 10 }`, with nothing after the closing brace. */
  function ForwardTen(): Source
  {
    Source(["{", "FD", "10", "}"], "")
  }

  /** The session processMain hands the list of a file that starts with
      "{": the "{" read and one brace hanging. */
  function AfterOpen(interpret: bool): (e: Session)
    ensures Valid(e) && NextIndex(e) == 1 && e.braces == 1 && e.trace == [] && e.interpret == interpret
    ensures e.store == FreshStore()
  {
    Moved(Start(interpret)).(braces := 1)
  }

  /** FD on "10" succeeds, leaving the cursor on "10" and, when
      interpreting, one forward move of 10 drawn. */
  lemma ForwardTenMoves(interpret: bool, fuel: nat, f: Run, loop: Loop)
    requires InstructionSpec(ForwardTen(), Moved(AfterOpen(interpret)), Fd, fuel, f, loop)
    ensures Succeeded(f) && NextIndex(f.s) == 3 && f.s.braces == 1
    ensures f.s.trace == if interpret then [Move(Forward, 10.0)] else []
  {
    var e := AfterOpen(interpret);
    assert TokenAt(ForwardTen(), NextIndex(Moved(e))) == "10";
    DigitRunIsNumber("10");
    assert DigitsValue("10") == 10 by {
      assert "10"[..1] == "1";
    }
    assert IsOperand(e.store, "10") && OperandValue(e.store, "10") == 10.0;
  }

  /** The list of `{ FD 10 }` with enough fuel succeeds after its closing
      brace, with no brace left hanging and the file fully read. */
  lemma ForwardTenList(interpret: bool, fuel: nat, list: Pass)
    requires fuel >= 2
    requires ListSpec(ForwardTen(), AfterOpen(interpret), fuel, list)
    ensures Succeeded(list.run) && list.run.s.braces == 0
    ensures AtEndOfCode(ForwardTen(), list.run.s.scanned)
    ensures list.run.s.trace == if interpret then [Move(Forward, 10.0)] else []
  {
    var src := ForwardTen();
    var e := AfterOpen(interpret);
    assert Next(src, e) == "FD" && "FD" in InstructionWords;
    InstructionWordKind(e.store, "FD");
    assert SpelledKind("FD") == Fd;
    var f := list.first;
    ForwardTenMoves(interpret, fuel - 1, f, list.loop);
    assert Readable(src, f.s) && Next(src, f.s) == "}";
    assert list.run == Finished(true, Moved(f.s).(braces := 0));
  }

  /** Any run of processMain on `{ FD 10 }` from a fresh session with
      enough fuel for the list and its one instruction succeeds, having
      drawn the move exactly when interpreting. */
  lemma ForwardTenRuns(interpret: bool, fuel: nat, r: Run, list: Pass)
    requires fuel >= 2
    requires ProgramSpec(ForwardTen(), Start(interpret), fuel, r, list)
    ensures r.Finished? && r.ok && r.s.braces == 0
    ensures r.s.trace == if interpret then [Move(Forward, 10.0)] else []
  {
    assert Next(ForwardTen(), Start(interpret)) == "{";
    ForwardTenList(interpret, fuel, list);
  }

  /** parse accepts `{ FD 10 }` and draws nothing. */
  method ParseForwardTen() returns (r: Run)
    ensures r.Finished? && r.ok && r.s.trace == []
  {
    ghost var list;
    r, list := ParseFile(ForwardTen(), 2);
    ForwardTenRuns(false, 2, r, list);
  }

  /** interpret accepts `{ FD 10 }` and draws one forward move of 10. */
  method InterpretForwardTen() returns (r: Run)
    ensures r.Finished? && r.ok && r.s.trace == [Move(Forward, 10.0)]
  {
    ghost var list;
    r, list := InterpretFile(ForwardTen(), 2);
    ForwardTenRuns(true, 2, r, list);
  }

  /** The file `{ } FD`: a closing brace with a token after it. */
  function ExtraInput(): Source
  {
    Source(["{", "}", "FD"], "")
  }

  /** processMain on `{ } FD` fails in both modes: the list closes every
      brace, and checkForEndOfCode then finds more than blanks after it. */
  lemma ExtraInputRejected(interpret: bool, fuel: nat, r: Run, list: Pass)
    requires fuel >= 1
    requires ProgramSpec(ExtraInput(), Start(interpret), fuel, r, list)
    ensures r.Finished? && !r.ok
  {
    var src := ExtraInput();
    var s := Start(interpret);
    assert Next(src, s) == "{";
    var e := Moved(s).(braces := 1);
    assert NextIndex(e) == 1 && Readable(src, e) && Next(src, e) == "}";
    assert list.run == Finished(true, Moved(e).(braces := 0));
    assert Moved(e).scanned == 2;
  }

  /** A list whose next token is an instruction keyword runs that
      instruction first, and goes on with the rest of the list when the
      instruction succeeds. */
  lemma ListWent(src: Source, s: Session, fuel: nat, k: Kind, p: Pass)
    requires fuel > 0 && Readable(src, s) && Next(src, s) in InstructionWords
    requires k == SpelledKind(Next(src, s))
    ensures ListSpec(src, s, fuel, p) ==>
              && p.Went? && InstructionSpec(src, Moved(s), k, fuel - 1, p.first, p.loop)
              && (Succeeded(p.first) ==> ListEnds(src, p.first.s, fuel - 1, p.run))
  {
  }

  /** A DO instruction runs as the DO rule says. */
  lemma InstructionDo(src: Source, s: Session, fuel: nat, r: Run, loop: Loop)
    ensures InstructionSpec(src, s, DoWord, fuel, r, loop) ==> DoSpec(src, s, fuel, r, loop.head, loop.passes)
  {
    if InstructionSpec(src, s, DoWord, fuel, r, loop) {
      assert KindSpec(src, s, DoWord, fuel, r, loop);
    }
  }

  /** A list whose next token is "}" succeeds at once, closing a brace. */
  lemma ListClosed(src: Source, s: Session, fuel: nat, r: Run)
    requires fuel > 0 && Readable(src, s) && Next(src, s) == "}"
    ensures ListEnds(src, s, fuel, r) ==> r == Finished(true, Moved(s).(braces := s.braces - 1))
  {
  }

  /** The file `{ DO A FROM 1 TO 2 { FD A } }`, with nothing after the last
      closing brace. */
  function CountedForward(): Source
  {
    Source(["{", "DO", "A", "FROM", "1", "TO", "2", "{", "FD", "A", "}", "}"], "")
  }

  /** What `FD A` draws with A equal to `v`: one forward move when
      interpreting, nothing when parsing. */
  function Drawn(interpret: bool, v: real): seq<Event>
  {
    if interpret then [Move(Forward, v)] else []
  }

  /** FD on "A", with A assigned and, when interpreting, equal to `v`,
      succeeds with the cursor on "A" and the move drawn. */
  lemma CountedForwardMove(e: Session, v: real, fuel: nat, f: Run, loop: Loop)
    requires e.cursor == 8 && e.scanned > 8 && IsAssigned(e.store, 'A')
    requires e.interpret ==> Value(e.store, 'A') == v
    requires InstructionSpec(CountedForward(), e, Fd, fuel, f, loop)
    ensures Succeeded(f) && NextIndex(f.s) == 10 && f.s.braces == e.braces && f.s.interpret == e.interpret
    ensures f.s.trace == e.trace + Drawn(e.interpret, v)
  {
    assert TokenAt(CountedForward(), NextIndex(e)) == "A";
    NonNumberSamples();
    assert ParseNumber("A").None?;
    assert IsOperand(e.store, "A");
  }

  /** One pass of the body `{ FD A }`, entered on its opening brace with A
      assigned (and equal to `v` when interpreting), succeeds on the body's
      closing brace with that brace closed, having drawn FD v. */
  lemma CountedForwardPass(e: Session, v: real, fuel: nat, p: Pass)
    requires Valid(e) && e.cursor == 7 && IsAssigned(e.store, 'A')
    requires e.interpret ==> Value(e.store, 'A') == v
    requires fuel >= 2
    requires ListSpec(CountedForward(), e, fuel, p)
    ensures Succeeded(p.run) && Valid(p.run.s) && p.run.s.cursor == 10
    ensures p.run.s.braces == e.braces - 1 && p.run.s.interpret == e.interpret
    ensures p.run.s.trace == e.trace + Drawn(e.interpret, v)
  {
    var src := CountedForward();
    assert Next(src, e) == "FD" && "FD" in InstructionWords;
    InstructionWordKind(e.store, "FD");
    assert SpelledKind("FD") == Fd;
    ListWent(src, e, fuel, Fd, p);
    var f := p.first;
    CountedForwardMove(Moved(e), v, fuel - 1, f, p.loop);
    assert Readable(src, f.s) && Next(src, f.s) == "}";
    ListClosed(src, f.s, fuel - 1, p.run);
  }

  /** The first pass of the DO loop over the counters 1 and 2, entered on
      the body's brace with one brace hanging, succeeds on the body's
      closing brace, having drawn FD 1 when interpreting. */
  lemma CountedForwardFirst(h: Session, fuel: nat, r: Run, passes: seq<Pass>)
    requires Valid(h) && h.cursor == 7 && h.braces == 1 && h.trace == []
    requires fuel >= 3
    requires DoLoopSpec(CountedForward(), h, 'A', [1, 2], fuel, r, passes)
    ensures |passes| > 0 && Succeeded(passes[0].run)
    ensures var t := passes[0].run.s;
            Valid(t) && t.cursor == 10 && t.braces == 1 && t.interpret == h.interpret
            && t.trace == Drawn(h.interpret, 1.0)
  {
    assert |passes| > 0;
    var e := Enter(h, 'A', 1, 7);
    assert ListSpec(CountedForward(), e, fuel - 1, passes[0]);
    CountedForwardPass(e, 1.0, fuel - 1, passes[0]);
  }

  /** After a first pass that succeeded on the body's closing brace, the
      DO loop over the counters 1 and 2 makes its second and last pass,
      which succeeds there too, having drawn FD 2 when interpreting. */
  lemma CountedForwardSecond(h: Session, fuel: nat, r: Run, passes: seq<Pass>)
    requires h.cursor == 7 && fuel >= 3
    requires DoLoopSpec(CountedForward(), h, 'A', [1, 2], fuel, r, passes)
    requires |passes| > 0 && Succeeded(passes[0].run)
    requires var t := passes[0].run.s; Valid(t) && t.cursor == 10 && t.braces == 1
    ensures |passes| == 2 && Succeeded(passes[1].run)
    ensures var t := passes[0].run.s; var u := passes[1].run.s;
            Valid(u) && u.cursor == 10 && u.braces == 1 && u.interpret == t.interpret
            && u.trace == t.trace + Drawn(t.interpret, 2.0)
  {
    var t := passes[0].run.s;
    assert |passes| == 2;
    var e := Enter(t, 'A', 2, 7);
    assert Before(h, passes, 1) == t;
    assert ListSpec(CountedForward(), e, fuel - 1, passes[1]);
    CountedForwardPass(e, 2.0, fuel - 1, passes[1]);
  }

  /** The DO loop over the counters 1 and 2, entered on the body's brace
      with one brace hanging, makes exactly two passes, both of which
      succeed, and draws FD 1 then FD 2 when interpreting. */
  lemma CountedForwardLoop(h: Session, fuel: nat, r: Run, passes: seq<Pass>)
    requires fuel >= 3
    ensures Valid(h) && h.cursor == 7 && h.braces == 1 && h.trace == [] &&
            DoLoopSpec(CountedForward(), h, 'A', [1, 2], fuel, r, passes) ==>
              && Succeeded(r) && r.s.cursor == 10 && r.s.braces == 1 && r.s.interpret == h.interpret
              && r.s.trace == Drawn(h.interpret, 1.0) + Drawn(h.interpret, 2.0)
  {
    if Valid(h) && h.cursor == 7 && h.braces == 1 && h.trace == [] &&
       DoLoopSpec(CountedForward(), h, 'A', [1, 2], fuel, r, passes) {
      CountedForwardFirst(h, fuel, r, passes);
      CountedForwardSecond(h, fuel, r, passes);
      assert AllSucceeded(passes);
      assert r == Finished(true, passes[1].run.s);
    }
  }

  /** Under any store, `A FROM 1 TO 2 {` at token 2 is a well-formed DO
      head for the variable A with the bounds 1 and 2. */
  lemma CountedForwardBounds(st: Store, interpret: bool)
    ensures DoHeadAt(CountedForward(), st, interpret, 2)
    ensures TokenAt(CountedForward(), 2)[0] == 'A'
    ensures FirstBound(CountedForward(), st, 2) == 1
    ensures LastBound(CountedForward(), st, interpret, 2) == 2
  {
    var src := CountedForward();
    DigitRunIsNumber("1");
    DigitRunIsNumber("2");
    assert DoStartAt(src, st, 2);
    assert FirstBound(src, st, 2) == 1;
  }

  /** The head `A FROM 1 TO 2 {` after DO is well formed: it leaves the
      cursor on the body's brace with A assigned, nothing drawn and one
      brace hanging, and the loop runs over the counters 1 and 2. */
  lemma CountedForwardHead(interpret: bool, fuel: nat, f: Run, head: Session, passes: seq<Pass>)
    ensures DoHeadAt(CountedForward(), Moved(AfterOpen(interpret)).store, interpret, 2)
    ensures TokenAt(CountedForward(), 2)[0] == 'A'
    ensures Counters(FirstBound(CountedForward(), Moved(AfterOpen(interpret)).store, 2),
                     LastBound(CountedForward(), Moved(AfterOpen(interpret)).store, interpret, 2)) == [1, 2]
    ensures DoSpec(CountedForward(), Moved(AfterOpen(interpret)), fuel, f, head, passes) ==>
              && Valid(head) && head.cursor == 7 && head.braces == 1 && head.trace == [] && head.interpret == interpret
              && DoLoopSpec(CountedForward(), head, 'A', [1, 2], fuel, f, passes)
  {
    var s := Moved(AfterOpen(interpret));
    assert NextIndex(s) == 2;
    CountedForwardBounds(s.store, interpret);
    assert Counters(1, 2) == [1, 2];
  }

  /** The DO instruction of `{ DO A FROM 1 TO 2 { FD A } }` succeeds on the
      body's closing brace having drawn FD 1 then FD 2 when interpreting. */
  lemma CountedForwardDo(interpret: bool, fuel: nat, f: Run, loop: Loop)
    requires fuel >= 3
    ensures InstructionSpec(CountedForward(), Moved(AfterOpen(interpret)), DoWord, fuel, f, loop) ==>
              && Succeeded(f) && NextIndex(f.s) == 11 && f.s.braces == 1
              && f.s.trace == Drawn(interpret, 1.0) + Drawn(interpret, 2.0)
  {
    InstructionDo(CountedForward(), Moved(AfterOpen(interpret)), fuel, f, loop);
    CountedForwardHead(interpret, fuel, f, loop.head, loop.passes);
    CountedForwardLoop(loop.head, fuel, f, loop.passes);
  }

  /** The list of `{ DO A FROM 1 TO 2 { FD A } }` with enough fuel
      succeeds after its last closing brace, with no brace left hanging
      and the file fully read. */
  lemma CountedForwardList(interpret: bool, fuel: nat, list: Pass)
    requires fuel >= 4
    requires ListSpec(CountedForward(), AfterOpen(interpret), fuel, list)
    ensures Succeeded(list.run) && list.run.s.braces == 0
    ensures AtEndOfCode(CountedForward(), list.run.s.scanned)
    ensures list.run.s.trace == Drawn(interpret, 1.0) + Drawn(interpret, 2.0)
  {
    var src := CountedForward();
    var e := AfterOpen(interpret);
    assert Next(src, e) == "DO" && "DO" in InstructionWords;
    InstructionWordKind(e.store, "DO");
    assert SpelledKind("DO") == DoWord;
    ListWent(src, e, fuel, DoWord, list);
    var f := list.first;
    CountedForwardDo(interpret, fuel - 1, f, list.loop);
    assert Readable(src, f.s) && Next(src, f.s) == "}";
    ListClosed(src, f.s, fuel - 1, list.run);
  }

  /** Any run of processMain on `{ DO A FROM 1 TO 2 { FD A } }` from a
      fresh session with fuel for the list, the loop, a pass and the
      pass's closing brace succeeds, having drawn FD 1 then FD 2 exactly
      when interpreting. */
  lemma CountedForwardRuns(interpret: bool, fuel: nat, r: Run, list: Pass)
    requires fuel >= 4
    requires ProgramSpec(CountedForward(), Start(interpret), fuel, r, list)
    ensures r.Finished? && r.ok && r.s.braces == 0
    ensures r.s.trace == Drawn(interpret, 1.0) + Drawn(interpret, 2.0)
  {
    assert Next(CountedForward(), Start(interpret)) == "{";
    CountedForwardList(interpret, fuel, list);
  }

  /** parse accepts `{ DO A FROM 1 TO 2 { FD A } }` and draws nothing. */
  method ParseCountedForward() returns (r: Run)
    ensures r.Finished? && r.ok && r.s.trace == []
  {
    ghost var list;
    r, list := ParseFile(CountedForward(), 4);
    CountedForwardRuns(false, 4, r, list);
  }

  /** interpret accepts `{ DO A FROM 1 TO 2 { FD A } }` and draws a forward
      move of 1 and then one of 2. */
  method InterpretCountedForward() returns (r: Run)
    ensures r.Finished? && r.ok && r.s.trace == [Move(Forward, 1.0), Move(Forward, 2.0)]
  {
    ghost var list;
    r, list := InterpretFile(CountedForward(), 4);
    CountedForwardRuns(true, 4, r, list);
  }
}
