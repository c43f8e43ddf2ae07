/** Token classification (whatToken). Classification runs in two stages: the
    lexical shape of the text, which never changes, and the semantic kind,
    which for a single letter depends on the variable store at the moment of
    the call. */
module Lexicon {
  import opened Optional
  import opened Numbers
  import opened VariableStore

  /** The kinds whatToken can return. */
  datatype Kind =
    | Fd | Lt | Rt | SetWord | DoWord | BkStep | Pen | Clr
    | From | To | OpenBrace | CloseBrace | Semicolon | Becomes
    | WhileWord | LessThan | MoreThan | Rand | Adv
    | Op | AssignedVar | UnassignedVar | Num | NoToken

  datatype Colour = White | Red | Blue | Green | Yellow | Purple

  /** The lexical shape of a token. */
  datatype Shape =
    | Word(kind: Kind)
    | Operator(op: MathOp)
    | Letter(name: char)
    | Number(n: real)
    | Junk

  /** How many fixed spellings there are. */
  const KeywordCount := 19

  /** The fixed spellings with their kinds, numbered in the order whatToken
      tries them. */
  function KeywordAt(i: nat): (string, Kind)
    requires i < KeywordCount
  {
    match i
    case 0 => ("FD", Fd)
    case 1 => ("LT", Lt)
    case 2 => ("RT", Rt)
    case 3 => ("SET", SetWord)
    case 4 => ("DO", DoWord)
    case 5 => ("BKSTP", BkStep)
    case 6 => ("PN", Pen)
    case 7 => ("CLR", Clr)
    case 8 => ("FROM", From)
    case 9 => ("TO", To)
    case 10 => ("{", OpenBrace)
    case 11 => ("}", CloseBrace)
    case 12 => (";", Semicolon)
    case 13 => (":=", Becomes)
    case 14 => ("WHILE", WhileWord)
    case 15 => ("<", LessThan)
    case 16 => (">", MoreThan)
    case 17 => ("RAND", Rand)
    case _ => ("ADV", Adv)
  }

  /** checkForValidOperator: only a one-character token can be an operator,
      so "-5" is never read as a minus sign. */
  function OperatorOf(t: string): (r: Option<MathOp>)
    ensures r.Some? <==> t in {"+", "-", "*", "/"}
  {
    if |t| != 1 then None
    else
      assert t == [t[0]];
      if t[0] == '+' then Some(Add)
      else if t[0] == '-' then Some(Subtract)
      else if t[0] == '/' then Some(Divide)
      else if t[0] == '*' then Some(Multiply)
      else None
  }

  /** The one-character token that spells operator `o`: checkForValidOperator
      reads it back as `o`, so "+" selects add, "-" subtract, "*" multiply
      and "/" divide. */
  function OperatorSymbol(o: MathOp): (t: string)
    ensures |t| == 1
    ensures OperatorOf(t) == Some(o)
  {
    match o
    case Add => "+"
    case Subtract => "-"
    case Multiply => "*"
    case Divide => "/"
  }

  /** The shape of a token that is none of the fixed spellings: an
      operator, a variable letter, a number or nothing known. */
  function LooseShape(t: string): (sh: Shape)
    ensures !sh.Word?
    ensures sh.Operator? <==> OperatorOf(t).Some?
    ensures |t| == 1 && IsVariable(t[0]) ==> sh == Letter(t[0])
    ensures sh.Letter? ==> |t| == 1 && sh.name == t[0] && IsVariable(t[0])
    ensures sh.Number? ==> ParseNumber(t) == Some(sh.n)
  {
    match OperatorOf(t)
    case Some(o) => Operator(o)
    case None =>
      if |t| == 1 && IsVariable(t[0]) then Letter(t[0])
      else match ParseNumber(t)
        case Some(n) => Number(n)
        case None => Junk
  }

  /** Tries the fixed spellings from number `i` on, in order, then the
      loose shapes. */
  function ShapeFrom(t: string, i: nat): Shape
    decreases KeywordCount - i
  {
    if i >= KeywordCount then LooseShape(t)
    else if KeywordAt(i).0 == t then Word(KeywordAt(i).1)
    else ShapeFrom(t, i + 1)
  }

  function ShapeOf(t: string): Shape
  {
    ShapeFrom(t, 0)
  }

  /** A fixed spelling is only ever read as its own kind, and a token that
      matches none is read by its loose shape. */
  lemma {:induction false} ShapeFromFacts(t: string, i: nat)
    ensures ShapeFrom(t, i).Word? ==>
              exists j :: i <= j < KeywordCount && KeywordAt(j) == (t, ShapeFrom(t, i).kind)
    ensures !ShapeFrom(t, i).Word? ==> ShapeFrom(t, i) == LooseShape(t)
    decreases KeywordCount - i
  {
    if i < KeywordCount && KeywordAt(i).0 != t {
      ShapeFromFacts(t, i + 1);
    }
  }

  /** The first spelling from number `i` on equal to `t` decides its kind. */
  lemma {:induction false} ShapeFromFirst(t: string, i: nat, j: nat)
    requires i <= j < KeywordCount && KeywordAt(j).0 == t
    requires forall m :: i <= m < j ==> KeywordAt(m).0 != t
    ensures ShapeFrom(t, i) == Word(KeywordAt(j).1)
    decreases j - i
  {
    if i < j {
      ShapeFromFirst(t, i + 1, j);
    }
  }

  /** The braces and the semicolon are read as themselves. */
  lemma BracesAreKeywords(t: string)
    ensures t == "{" ==> ShapeOf(t) == Word(OpenBrace)
    ensures t == "}" ==> ShapeOf(t) == Word(CloseBrace)
    ensures t == ";" ==> ShapeOf(t) == Word(Semicolon)
  {
    if t == "{" { ShapeFromFirst(t, 0, 10); }
    if t == "}" { ShapeFromFirst(t, 0, 11); }
    if t == ";" { ShapeFromFirst(t, 0, 12); }
  }

  /** A fixed spelling is no operator and no variable letter, and only the
      braces and the semicolon have their kinds. */
  lemma KeywordEntry(t: string, k: Kind)
    requires exists j :: 0 <= j < KeywordCount && KeywordAt(j) == (t, k)
    ensures k != Op && k != AssignedVar && k != UnassignedVar && k != Num
    ensures OperatorOf(t).None? && !(|t| == 1 && IsVariable(t[0]))
    ensures k == OpenBrace <==> t == "{"
    ensures k == CloseBrace <==> t == "}"
    ensures k == Semicolon <==> t == ";"
  {
  }

  /** The number of a fixed spelling's kind in the table, and 19 for the
      kinds no spelling has. */
  function KindNumber(k: Kind): nat
  {
    match k
    case Fd => 0 case Lt => 1 case Rt => 2 case SetWord => 3 case DoWord => 4
    case BkStep => 5 case Pen => 6 case Clr => 7 case From => 8 case To => 9
    case OpenBrace => 10 case CloseBrace => 11 case Semicolon => 12 case Becomes => 13
    case WhileWord => 14 case LessThan => 15 case MoreThan => 16 case Rand => 17
    case Adv => 18
    case _ => 19
  }

  /** The number of a fixed spelling in the table, and 19 for any other text. */
  function SpellingNumber(t: string): nat
  {
    if t == "FD" then 0 else if t == "LT" then 1 else if t == "RT" then 2
    else if t == "SET" then 3 else if t == "DO" then 4 else if t == "BKSTP" then 5
    else if t == "PN" then 6 else if t == "CLR" then 7 else if t == "FROM" then 8
    else if t == "TO" then 9 else if t == "{" then 10 else if t == "}" then 11
    else if t == ";" then 12 else if t == ":=" then 13 else if t == "WHILE" then 14
    else if t == "<" then 15 else if t == ">" then 16 else if t == "RAND" then 17
    else if t == "ADV" then 18 else 19
  }

  /** No two entries of the table share a kind. */
  lemma KindNumbers(i: nat)
    requires i < KeywordCount
    ensures KindNumber(KeywordAt(i).1) == i
  {
  }

  /** No two entries of the table share a spelling. */
  lemma SpellingNumbers(i: nat)
    requires i < KeywordCount
    ensures SpellingNumber(KeywordAt(i).0) == i
  {
  }

  /** Each fixed spelling is read as its own kind whatever the store, and no
      other text is read as that kind. */
  lemma WordKind(st: Store, t: string, j: nat)
    requires j < KeywordCount
    ensures Classify(st, t) == KeywordAt(j).1 <==> t == KeywordAt(j).0
  {
    ShapeFromFacts(t, 0);
    KindNumbers(j);
    var sh := ShapeOf(t);
    if sh.Word? {
      var m :| 0 <= m < KeywordCount && KeywordAt(m) == (t, sh.kind);
      KindNumbers(m);
    }
    if t == KeywordAt(j).0 {
      forall m | 0 <= m < j
        ensures KeywordAt(m).0 != t
      {
        SpellingNumbers(m);
        SpellingNumbers(j);
      }
      ShapeFromFirst(t, 0, j);
    }
  }

  function KindOf(st: Store, sh: Shape): Kind
  {
    match sh
    case Word(k) => k
    case Operator(_) => Op
    case Letter(c) => if IsVariable(c) && IsAssigned(st, c) then AssignedVar else UnassignedVar
    case Number(_) => Num
    case Junk => NoToken
  }

  /** whatToken: the kind of `t` under the store `st`. */
  function Classify(st: Store, t: string): (k: Kind)
    ensures k == Op <==> OperatorOf(t).Some?
    ensures (k == AssignedVar || k == UnassignedVar) <==> |t| == 1 && IsVariable(t[0])
    ensures k == AssignedVar <==> |t| == 1 && IsVariable(t[0]) && IsAssigned(st, t[0])
    ensures k == Num ==> ParseNumber(t).Some?
    ensures k == OpenBrace <==> t == "{"
    ensures k == CloseBrace <==> t == "}"
    ensures k == Semicolon <==> t == ";"
  {
    ShapeFromFacts(t, 0);
    BracesAreKeywords(t);
    var sh := ShapeOf(t);
    if sh.Word? then KeywordEntry(t, sh.kind); KindOf(st, sh)
    else KindOf(st, sh)
  }

  predicate IsVarNum(k: Kind)
  {
    k == AssignedVar || k == Num
  }

  predicate IsAnyVar(k: Kind)
  {
    k == AssignedVar || k == UnassignedVar
  }

  /** checkForInstruction */
  predicate IsInstruction(k: Kind)
  {
    k in {Fd, Lt, Rt, SetWord, DoWord, WhileWord, BkStep, Pen, Clr}
  }

  /** The spellings of the nine instruction keywords. */
  const InstructionWords: set<string> := {"FD", "LT", "RT", "SET", "DO", "WHILE", "BKSTP", "PN", "CLR"}

  /** The kind of a fixed spelling, and NoToken for any other text. */
  function SpelledKind(t: string): Kind
  {
    var j := SpellingNumber(t);
    if j < KeywordCount then KeywordAt(j).1 else NoToken
  }

  /** checkForInstruction on the text: whatever the store, a token is an
      instruction exactly when it spells one of the nine instruction
      keywords, and it is then read as that keyword. */
  lemma InstructionWordKind(st: Store, t: string)
    ensures IsInstruction(Classify(st, t)) <==> t in InstructionWords
    ensures t in InstructionWords ==> Classify(st, t) == SpelledKind(t)
  {
    InstructionKinds(st, t);
    SpelledInstructions();
    KindsMatchWords(Classify(st, t), t);
  }

  /** A kind that is each instruction kind exactly when `t` is its
      spelling is an instruction kind exactly when `t` is an instruction
      spelling. */
  lemma KindsMatchWords(k: Kind, t: string)
    requires (k == Fd <==> t == "FD") && (k == Lt <==> t == "LT") && (k == Rt <==> t == "RT")
    requires (k == SetWord <==> t == "SET") && (k == DoWord <==> t == "DO") && (k == BkStep <==> t == "BKSTP")
    requires (k == Pen <==> t == "PN") && (k == Clr <==> t == "CLR") && (k == WhileWord <==> t == "WHILE")
    ensures IsInstruction(k) <==> t in InstructionWords
  {
  }

  /** Each instruction kind is read from its own spelling and no other. */
  lemma InstructionKinds(st: Store, t: string)
    ensures Classify(st, t) == Fd <==> t == "FD"
    ensures Classify(st, t) == Lt <==> t == "LT"
    ensures Classify(st, t) == Rt <==> t == "RT"
    ensures Classify(st, t) == SetWord <==> t == "SET"
    ensures Classify(st, t) == DoWord <==> t == "DO"
    ensures Classify(st, t) == BkStep <==> t == "BKSTP"
    ensures Classify(st, t) == Pen <==> t == "PN"
    ensures Classify(st, t) == Clr <==> t == "CLR"
    ensures Classify(st, t) == WhileWord <==> t == "WHILE"
  {
    WordKind(st, t, 0);
    WordKind(st, t, 1);
    WordKind(st, t, 2);
    WordKind(st, t, 3);
    WordKind(st, t, 4);
    WordKind(st, t, 5);
    WordKind(st, t, 6);
    WordKind(st, t, 7);
    WordKind(st, t, 14);
  }

  /** The kinds the nine instruction spellings stand for. */
  lemma SpelledInstructions()
    ensures SpelledKind("FD") == Fd && SpelledKind("LT") == Lt && SpelledKind("RT") == Rt
    ensures SpelledKind("SET") == SetWord && SpelledKind("DO") == DoWord && SpelledKind("BKSTP") == BkStep
    ensures SpelledKind("PN") == Pen && SpelledKind("CLR") == Clr && SpelledKind("WHILE") == WhileWord
  {
    SpelledDrawing();
    SpelledLoops();
  }

  /** The kinds of FD, LT, RT, PN and CLR. */
  lemma SpelledDrawing()
    ensures SpelledKind("FD") == Fd && SpelledKind("LT") == Lt && SpelledKind("RT") == Rt
    ensures SpelledKind("PN") == Pen && SpelledKind("CLR") == Clr
  {
  }

  /** The kinds of SET, DO, BKSTP and WHILE. */
  lemma SpelledLoops()
    ensures SpelledKind("SET") == SetWord && SpelledKind("DO") == DoWord && SpelledKind("BKSTP") == BkStep
    ensures SpelledKind("WHILE") == WhileWord
  {
  }

  /** The spelling of each colour. */
  function ColourName(c: Colour): string
  {
    match c
    case White => "WHTE"
    case Red => "RED"
    case Blue => "BLUE"
    case Green => "GREEN"
    case Yellow => "YLLW"
    case Purple => "PRPL"
  }

  /** checkForColour: the six colour spellings, each naming its own colour. */
  function ColourNamed(t: string): (r: Option<Colour>)
    ensures r.Some? ==> ColourName(r.value) == t
    ensures forall c :: t == ColourName(c) ==> r == Some(c)
  {
    if t == "WHTE" then Some(White)
    else if t == "RED" then Some(Red)
    else if t == "BLUE" then Some(Blue)
    else if t == "GREEN" then Some(Green)
    else if t == "YLLW" then Some(Yellow)
    else if t == "PRPL" then Some(Purple)
    else None
  }

  /** The words CLR accepts. */
  const ColourWords: set<string> := {"ADV", "RAND", "WHTE", "RED", "BLUE", "GREEN", "YLLW", "PRPL"}

  /** A number or assigned-variable token has the shape of one. */
  lemma VarNumShape(st: Store, t: string)
    requires IsVarNum(Classify(st, t))
    ensures Classify(st, t) == AssignedVar ==> ShapeOf(t) == Letter(t[0])
    ensures Classify(st, t) == Num ==> ShapeOf(t).Number? && ParseNumber(t) == Some(ShapeOf(t).n)
  {
    ShapeFromFacts(t, 0);
    if ShapeOf(t).Word? {
      KeywordEntry(t, ShapeOf(t).kind);
    }
  }

  /** getCurrentTokenVal: the number a VarNum token stands for, which is the
      literal's value or the variable's current value. */
  function TokenValue(st: Store, t: string): (v: real)
    requires IsVarNum(Classify(st, t))
    ensures Classify(st, t) == AssignedVar ==> v == Value(st, t[0])
    ensures Classify(st, t) == Num ==> ParseNumber(t) == Some(v)
  {
    VarNumShape(st, t);
    match ShapeOf(t)
    case Number(n) => n
    case Letter(c) => Value(st, c)
    case _ => 0.0
  }

  /** checkForVarNum stated on the text alone: a numeric literal, or a
      single letter naming an assigned variable. */
  predicate IsOperand(st: Store, t: string)
  {
    ParseNumber(t).Some? || (|t| == 1 && IsVariable(t[0]) && IsAssigned(st, t[0]))
  }

  /** The number an operand stands for. */
  function OperandValue(st: Store, t: string): real
    requires IsOperand(st, t)
  {
    match ParseNumber(t)
    case Some(v) => v
    case None => Value(st, t[0])
  }

  /** No fixed spelling is a numeric literal. */
  lemma KeywordsAreNotNumbers(j: nat)
    requires j < KeywordCount
    ensures ParseNumber(KeywordAt(j).0).None?
  {
  }

  /** A single character is a numeric literal only when it is a digit. */
  lemma OneCharNumber(t: string)
    requires |t| == 1 && ParseNumber(t).Some?
    ensures IsDigit(t[0])
  {
  }

  /** An operator is never an operand. */
  lemma OperatorIsNoOperand(st: Store, t: string)
    requires OperatorOf(t).Some?
    ensures !IsOperand(st, t)
  {
    if ParseNumber(t).Some? {
      OneCharNumber(t);
    }
  }

  /** whatToken returns a VarNum kind exactly for an operand, and
      getCurrentTokenVal then yields the operand's value. */
  lemma OperandKind(st: Store, t: string)
    ensures IsVarNum(Classify(st, t)) <==> IsOperand(st, t)
    ensures IsOperand(st, t) ==> TokenValue(st, t) == OperandValue(st, t)
  {
    ShapeFromFacts(t, 0);
    var sh := ShapeOf(t);
    if sh.Word? {
      var m :| 0 <= m < KeywordCount && KeywordAt(m) == (t, sh.kind);
      KeywordsAreNotNumbers(m);
      KeywordEntry(t, sh.kind);
    } else if |t| == 1 && ParseNumber(t).Some? {
      OneCharNumber(t);
    }
  }
}
