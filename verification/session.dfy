/** The per-run parse state (the C `struct parseHandler`), made an immutable
    record that the grammar threads through its rules, plus the source it
    reads from and the trace of calls into the drawing collaborator. */
module State {
  import opened Numbers
  import opened VariableStore
  import opened Lexicon

  /** The instruction kinds forwarded to doAction. */
  datatype Action = Forward | Left | Right | BackStep

  /** One call into the drawing collaborator: doAction, switchPenStatus,
      advanceTurtleColour, setRandomTurtleColour or applyTurtleColour. */
  datatype Event =
    | Move(action: Action, amount: real)
    | TogglePen
    | AdvanceColour
    | RandomColour
    | ApplyColour(colour: Colour)

  /** A source file, pre-split the way `fscanf("%s")` splits it: the
      whitespace-separated tokens, and the characters after the last one. */
  datatype Source = Source(tokens: seq<string>, trailing: string)

  /** The mutable parse context. The token array is represented by how many
      scans have been made (`scanned`): the file does not change during a
      run, so slot `i` of the array always holds what scan `i` yields (see
      Cache). `cursor` is the current token index, `braces` the count of
      hanging braces, `store` the variables, `val`, `op` and `colour` the
      scratch value, operation and colour, `stack` the value stack of the
      reverse-Polish evaluator (one stack for the whole run, top last),
      `interpret` the mode flag and `trace` the drawing calls made so far. */
  datatype Session = Session(
    scanned: nat,
    cursor: nat,
    braces: int,
    store: Store,
    val: real,
    stack: seq<real>,
    op: MathOp,
    colour: Colour,
    interpret: bool,
    trace: seq<Event>)

  /** Result of a rule that cannot run out of fuel. */
  datatype Step = Step(ok: bool, s: Session)

  /** What the scan of token `i` yields: the token itself, or the empty
      string a failed scan past the end of the file leaves in its slot. */
  function TokenAt(src: Source, i: nat): string
  {
    if i < |src.tokens| then src.tokens[i] else ""
  }

  /** What the first `n` scans of `src` leave in the token array. */
  function Scanned(src: Source, n: nat): (c: seq<string>)
    ensures |c| == n
    ensures forall i :: 0 <= i < n ==> c[i] == TokenAt(src, i)
    ensures n <= |src.tokens| ==> c == src.tokens[..n]
  {
    if n == 0 then [] else Scanned(src, n - 1) + [TokenAt(src, n - 1)]
  }

  /** The token array of a session. */
  function Cache(src: Source, s: Session): seq<string>
  {
    Scanned(src, s.scanned)
  }

  /** The token the cursor is on. */
  function Current(src: Source, s: Session): string
  {
    TokenAt(src, s.cursor)
  }

  /** The index the next getToken lands on. */
  function NextIndex(s: Session): nat
  {
    if s.scanned == 0 then 0 else s.cursor + 1
  }

  function Max(a: int, b: int): int
  {
    if a < b then b else a
  }

  /** The cursor points into the token array, or is 0 before the first
      token. */
  predicate Valid(s: Session)
  {
    && (s.scanned == 0 ==> s.cursor == 0)
    && (s.scanned > 0 ==> s.cursor < s.scanned)
  }

  /** A fresh session (setUpForParsing): empty cache, no hanging braces and
      a fresh store. The C code leaves `val`, the operation
      and the colour uninitialised; they are fixed here. */
  function Start(interpret: bool): (s: Session)
    ensures Valid(s) && NextIndex(s) == 0
    ensures s.braces == 0 && s.store == FreshStore() && s.stack == [] && s.trace == [] && s.interpret == interpret
  {
    Session(0, 0, 0, FreshStore(), 0.0, [], Add, White, interpret, [])
  }

  /** A call into the drawing collaborator, made only when interpreting. */
  function Dispatch(s: Session, e: Event): (r: Session)
    ensures s.interpret ==> r.trace == s.trace + [e]
    ensures !s.interpret ==> r == s
    ensures r == s.(trace := r.trace)
  {
    if s.interpret then s.(trace := s.trace + [e]) else s
  }

  /** The drawing calls a rule makes for event `e`: the event itself when
      interpreting, nothing when parsing. */
  function Emitted(s: Session, e: Event): (es: seq<Event>)
    ensures s.interpret ==> es == [e]
    ensures !s.interpret ==> es == []
  {
    if s.interpret then [e] else []
  }

  /** The fields only CLR, the drawing rules, the brace-counting rules and
      SET's assignment change are the same in `s` and `t`. */
  predicate Framed(s: Session, t: Session)
  {
    t.braces == s.braces && t.store == s.store && t.colour == s.colour &&
    t.interpret == s.interpret && t.trace == s.trace
  }

  /** As Framed, and the value stack is the same too: nothing but the token
      array, the cursor and the scratch fields differ. */
  predicate Kept(s: Session, t: Session)
  {
    Framed(s, t) && t.stack == s.stack
  }

  /** How a session may change across any grammar rule: the token array
      only grows and the cursor stays in it, the mode flag comes back as it was, drawing calls are
      only appended, assigned variables stay assigned, and in parse mode
      neither the trace nor any variable value changes. */
  predicate Evolves(s: Session, t: Session)
  {
    && Valid(t)
    && s.scanned <= t.scanned
    && t.interpret == s.interpret
    && s.trace <= t.trace
    && AssignedStays(s.store, t.store)
    && (!s.interpret ==> t.trace == s.trace && SameValues(s.store, t.store))
  }

  /** assignValToVariable on the session's store, under its mode. */
  function AssignVariable(s: Session, c: char, v: real): (r: Session)
    requires Valid(s) && IsVariable(c)
    ensures Evolves(s, r)
    ensures r == s.(store := Assign(s.store, c, v, s.interpret))
  {
    s.(store := Assign(s.store, c, v, s.interpret))
  }

  /** A step that changes only the token array, the cursor and the scratch
      fields is a way of evolving. */
  lemma KeptEvolves(s: Session, t: Session)
    requires Valid(t) && s.scanned <= t.scanned && Kept(s, t)
    ensures Evolves(s, t)
  {
  }

  /** Evolving is transitive. */
  lemma EvolvesChain(a: Session, b: Session, c: Session)
    requires Evolves(a, b) && Evolves(b, c)
    ensures Evolves(a, c)
  {
  }
}

/** The lazily filled token cache (getToken) and classification of the token
    just read (whatToken and its side effects on the session). */
module TokenCache {
  import opened Optional
  import opened Numbers
  import opened VariableStore
  import opened Lexicon
  import opened State

  /** The session once the cursor has moved to the next index: the token
      array grows by one slot when the cursor was at its tail. */
  function Moved(s: Session): (r: Session)
    ensures r.cursor == NextIndex(s) && r.scanned >= s.scanned
    ensures Valid(s) ==> Valid(r) && r.scanned > r.cursor
  {
    s.(scanned := if NextIndex(s) < s.scanned then s.scanned else s.scanned + 1, cursor := NextIndex(s))
  }

  /** The next read can be served: from the token array or from the file. */
  predicate Readable(src: Source, s: Session)
  {
    NextIndex(s) < s.scanned || NextIndex(s) < |src.tokens|
  }

  /** The token the next read yields. */
  function Next(src: Source, s: Session): string
  {
    TokenAt(src, NextIndex(s))
  }

  /** getToken. Behind the tail of the token array it replays the next
      cached token without scanning; at the tail it scans one more token
      into a new slot, and fails when the file is exhausted (the slot is
      still added). */
  function GetToken(src: Source, s: Session): (r: Step)
    requires Valid(s)
    ensures Valid(r.s)
    ensures r.s.cursor == NextIndex(s)
    ensures r.ok <==> NextIndex(s) < s.scanned || NextIndex(s) < |src.tokens|
    ensures NextIndex(s) < s.scanned ==> r.s.scanned == s.scanned
    ensures NextIndex(s) >= s.scanned ==> r.s.scanned == s.scanned + 1
    ensures Kept(s, r.s) && r.s.val == s.val && r.s.op == s.op
  {
    if s.cursor < s.scanned - 1 then
      Step(true, s.(cursor := s.cursor + 1))
    else
      var n := s.scanned;
      Step(n < |src.tokens|, s.(scanned := n + 1, cursor := n))
  }

  /** The session fields whatToken writes while classifying `t` as `k`: the
      operation of an operator, the value of an assigned variable or of a
      number. Only the check that succeeds writes anything, and an unassigned
      variable writes nothing. */
  function AfterClassify(s: Session, t: string, k: Kind): Session
    requires k == Classify(s.store, t)
  {
    if k == Op then s.(op := OperatorOf(t).value)
    else if IsVarNum(k) then s.(val := TokenValue(s.store, t))
    else s
  }

  /** A token read and classified. */
  datatype Scan = Scan(ok: bool, s: Session, tok: string, kind: Kind)

  /** getToken followed by whatToken on the token read, the pattern every
      grammar rule uses. */
  function Advance(src: Source, s: Session): (r: Scan)
    requires Valid(s)
    ensures Valid(r.s) && s.scanned <= r.s.scanned
    ensures Kept(s, r.s)
    ensures r.s.cursor == NextIndex(s)
    ensures r.ok <==> NextIndex(s) < s.scanned || NextIndex(s) < |src.tokens|
    ensures r.ok ==> r.tok == TokenAt(src, NextIndex(s)) && r.kind == Classify(s.store, r.tok)
    ensures r.ok ==> NextIndex(r.s) == NextIndex(s) + 1
    ensures r.ok ==> Max(r.s.scanned, |src.tokens|) == Max(s.scanned, |src.tokens|)
    ensures r.ok && IsVarNum(r.kind) ==> r.s.val == TokenValue(s.store, r.tok)
    ensures r.ok && !IsVarNum(r.kind) ==> r.s.val == s.val
    ensures r.ok && r.kind == Op ==> r.s.op == OperatorOf(r.tok).value
    ensures r.ok && r.kind != Op ==> r.s.op == s.op
    ensures !r.ok || (!IsVarNum(r.kind) && r.kind != Op) ==> r.s == Moved(s)
  {
    var g := GetToken(src, s);
    if !g.ok then Scan(false, g.s, "", NoToken)
    else
      var t := Current(src, g.s);
      var k := Classify(g.s.store, t);
      Scan(true, AfterClassify(g.s, t, k), t, k)
  }

  /** Reads `n` tokens one after another, returning them and whether every
      read succeeded. */
  function ReadTokens(src: Source, s: Session, n: nat): (bool, seq<string>, Session)
    requires Valid(s)
    decreases n
  {
    if n == 0 then (true, [], s)
    else
      var g := GetToken(src, s);
      if !g.ok then (false, [], g.s)
      else
        var rest := ReadTokens(src, g.s, n - 1);
        (rest.0, [Current(src, g.s)] + rest.1, rest.2)
  }

  /** Reading returns the file's tokens from the cursor on, and succeeds
      while the file lasts, whatever part of it was scanned before. */
  lemma {:induction false} ReadTokensFollowSource(src: Source, s: Session, n: nat)
    requires Valid(s)
    ensures NextIndex(s) + n <= |src.tokens| ==> ReadTokens(src, s, n).0
    ensures ReadTokens(src, s, n).0 ==>
              |ReadTokens(src, s, n).1| == n &&
              forall i :: 0 <= i < n ==> ReadTokens(src, s, n).1[i] == TokenAt(src, NextIndex(s) + i)
    decreases n
  {
    if n > 0 {
      var g := GetToken(src, s);
      if g.ok {
        ReadTokensFollowSource(src, g.s, n - 1);
      }
    }
  }

  /** Inside the token array, reading never scans and returns the cached
      tokens. */
  lemma {:induction false} ReadTokensStayInCache(src: Source, s: Session, n: nat)
    requires Valid(s)
    requires NextIndex(s) + n <= s.scanned
    ensures ReadTokens(src, s, n).0
    ensures ReadTokens(src, s, n).2.scanned == s.scanned
    ensures ReadTokens(src, s, n).1 == Cache(src, s)[NextIndex(s)..NextIndex(s) + n]
    decreases n
  {
    if n > 0 {
      var g := GetToken(src, s);
      ReadTokensStayInCache(src, g.s, n - 1);
      var c := Cache(src, s);
      assert c == Cache(src, g.s);
      assert c[NextIndex(s)..NextIndex(s) + n] == [c[NextIndex(s)]] + c[NextIndex(g.s)..NextIndex(g.s) + (n - 1)];
    }
  }

  /** Rewinding the cursor to an earlier index (a loop going back to its
      first token) and reading again returns the same tokens as the first
      pass, without scanning. */
  lemma {:induction false} RewindReplays(src: Source, s: Session, k: nat, n: nat)
    requires Valid(s)
    requires k + n < s.scanned
    ensures ReadTokens(src, s.(cursor := k), n).0
    ensures ReadTokens(src, s.(cursor := k), n).2.scanned == s.scanned
    ensures ReadTokens(src, s.(cursor := k), n).1 == Cache(src, s)[k + 1..k + n + 1]
  {
    ReadTokensStayInCache(src, s.(cursor := k), n);
  }
}
