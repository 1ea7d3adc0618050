/**
 `closeTruncatedJSON`: when the repair of a cut-off text succeeds, and what it keeps.
 */
module JsonRepair {
  import opened JsonScan
  import opened Texts
  import opened JsonAutomaton
  import opened JsonGrammar

  // ---------------------------------------------------------------- the operation

  /** The result: the candidate if it is valid JSON, else the empty object. */
  function Repaired(s: string): string {
    if Valid(Candidate(s)) then Candidate(s) else "{}"
  }

  method ScanText(s: string) returns (stack: string, inStr: bool, esc: bool)
    ensures Run(START, s) == Scan(inStr, esc, stack)
  {
    stack, inStr, esc := [], false, false;
    for i := 0 to |s|
      invariant Run(START, s[..i]) == Scan(inStr, esc, stack)
    {
      var c := s[i];
      RunSnoc(START, s, i);
      if inStr {
        if esc {
          esc := false;
        } else if c == '\\' {
          esc := true;
        } else if c == '"' {
          inStr := false;
        }
      } else if c == '"' {
        inStr := true;
      } else if c == '{' {
        stack := stack + ['}'];
      } else if c == '[' {
        stack := stack + [']'];
      } else if c == '}' || c == ']' {
        if |stack| > 0 {
          stack := stack[..|stack| - 1];
        }
      }
      EscInString(START, s[..i]);
    }
    assert s[..|s|] == s;
  }

  lemma {:induction false} ClosersSnoc(stack: string, i: nat)
    requires i < |stack|
    ensures Closers(stack[..i + 1]) == [stack[i]] + Closers(stack[..i])
  {
    assert stack[..i + 1][..i] == stack[..i];
  }

  /** Appends the owed closers, innermost first. */
  method AppendClosers(text: string, stack: string) returns (out: string)
    ensures out == text + Closers(stack)
  {
    out := text;
    var i := |stack|;
    assert stack[..|stack|] == stack;
    while i > 0
      invariant 0 <= i <= |stack|
      invariant out + Closers(stack[..i]) == text + Closers(stack)
    {
      ClosersSnoc(stack, i - 1);
      Glue3(out, [stack[i - 1]], Closers(stack[..i - 1]));
      out := out + [stack[i - 1]];
      i := i - 1;
    }
  }

  method CloseTruncatedJson(s: string) returns (r: string)
    ensures r == Repaired(s)
  {
    var stack, inStr, esc := ScanText(s);
    EscInString(START, s);
    var out := s;
    if esc {
      out := out[..|out| - 1];
    }
    if inStr {
      out := out + "\"";
    }
    var trimmed := TrimRight(out);
    if |trimmed| > 0 && trimmed[|trimmed| - 1] == ',' {
      out := trimmed[..|trimmed| - 1];
    } else if |trimmed| > 0 && trimmed[|trimmed| - 1] == ':' {
      out := trimmed + "null";
    }
    out := AppendClosers(out, stack);
    if !Valid(out) {
      return "{}";
    }
    return out;
  }

  /** Whatever comes in, valid JSON comes out. */
  lemma {:induction false} RepairedValid(s: string)
    ensures Valid(Repaired(s))
  {
    if !Valid(Candidate(s)) {
      var o := Auto(OpenObj, "}");
      assert "{}" == ['{'] + [] + ['}'];
      FeedBracketed(INIT, '{', [], '}', o);
    }
  }

  // ---------------------------------------------------------------- automaton against scanner

  predicate InString(m: Mode) {
    m.InStr? || m.InEsc? || m.InHex?
  }

  /** While the automaton is not stuck, the scanner's flags and stack are the automaton's. */
  predicate Agree(a: Auto, e: Scan) {
    a.mode != Bad ==> e == Scan(InString(a.mode), a.mode.InEsc?, a.stack)
  }

  predicate Letters(s: string) {
    s != [] && forall i :: 0 <= i < |s| ==> 'a' <= s[i] <= 'z'
  }

  predicate TopIs(k: string, c: char) {
    k != [] && k[|k| - 1] == c
  }

  /** What a reachable automaton state owes its stack. */
  predicate Sane(a: Auto) {
    && (forall i :: 0 <= i < |a.stack| ==> a.stack[i] == '}' || a.stack[i] == ']')
    && (a.mode == OpenArr ==> TopIs(a.stack, ']'))
    && (a.mode == OpenObj || a.mode == BeginKey || a.mode == AfterKey ==> TopIs(a.stack, '}'))
    && (InString(a.mode) && a.mode.key ==> TopIs(a.stack, '}'))
    && (a.mode.InWord? ==> Letters(a.mode.rest))
  }

  lemma {:induction false} AgreeStep(a: Auto, e: Scan, c: char)
    requires Sane(a) && Agree(a, e) && Next(a, c).mode != Bad
    ensures Agree(Next(a, c), Step(e, c))
  {
  }

  lemma {:induction false} SaneStep(a: Auto, c: char)
    requires Sane(a)
    ensures Sane(Next(a, c))
  {
  }

  lemma {:induction false} SaneFeed(a: Auto, s: string)
    requires Sane(a)
    ensures Sane(Feed(a, s))
    decreases s
  {
    if s != [] {
      SaneStep(a, s[0]);
      SaneFeed(Next(a, s[0]), s[1..]);
    }
  }

  lemma {:induction false} AgreeFeed(a: Auto, e: Scan, s: string)
    requires Sane(a) && Agree(a, e)
    ensures Agree(Feed(a, s), Run(e, s))
    decreases s
  {
    if s != [] {
      SaneStep(a, s[0]);
      if Next(a, s[0]).mode == Bad {
        BadStays(Next(a, s[0]), s[1..]);
      } else {
        AgreeStep(a, e, s[0]);
        AgreeFeed(Next(a, s[0]), Step(e, s[0]), s[1..]);
      }
    }
  }

  /** Where the automaton can be after `s`, against the scanner and its own stack. */
  lemma {:induction false} Reach(s: string)
    ensures Sane(Feed(INIT, s)) && Agree(Feed(INIT, s), Run(START, s))
  {
    SaneFeed(INIT, s);
    AgreeFeed(INIT, START, s);
  }

  lemma {:induction false} FeedLast(s: string)
    requires s != []
    ensures Feed(INIT, s) == Next(Feed(INIT, s[..|s| - 1]), s[|s| - 1])
  {
    assert s == s[..|s| - 1] + [s[|s| - 1]];
    FeedSnoc(INIT, s[..|s| - 1], s[|s| - 1]);
  }

  /** The last character before trailing whitespace is `c`. */
  predicate Ends(s: string, c: char) {
    var t := TrimRight(s);
    t != [] && t[|t| - 1] == c
  }

  /**
   How the mode shows in the last token of the text read: whether that is a comma or a colon,
   or whether there is none.
   */
  predicate Shows(a: Auto, comma: bool, colon: bool, blank: bool) {
    match a.mode
    case BeginValue => if a.stack == [] then blank else comma || colon
    case BeginKey => comma
    case Bad => true
    case InStr(_) => true
    case InEsc(_) => true
    case InHex(_, _) => true
    case _ => !comma && !colon
  }

  predicate Tail(a: Auto, s: string) {
    Shows(a, Ends(s, ','), Ends(s, ':'), TrimRight(s) == [])
  }

  lemma {:induction false} TailSnoc(s: string, c: char, x: char)
    requires !IsWs(x)
    ensures Ends(s + [c], x) <==> if IsWs(c) then Ends(s, x) else c == x
    ensures TrimRight(s + [c]) == [] <==> IsWs(c) && TrimRight(s) == []
  {
    assert (s + [c])[..|s|] == s;
  }

  lemma {:induction false} ShowsWs(a: Auto, c: char, comma: bool, colon: bool, blank: bool)
    requires Sane(a) && IsWs(c) && Shows(a, comma, colon, blank) && (blank ==> !comma && !colon)
    ensures Shows(Next(a, c), comma, colon, blank)
  {
  }

  lemma {:induction false} ShowsToken(a: Auto, c: char, comma: bool, colon: bool, blank: bool)
    requires Sane(a) && !IsWs(c) && Shows(a, comma, colon, blank)
    ensures Shows(Next(a, c), c == ',', c == ':', false)
  {
  }

  lemma {:induction false} TailStep(a: Auto, s: string, c: char)
    requires Sane(a) && Tail(a, s)
    ensures Tail(Next(a, c), s + [c])
  {
    TailSnoc(s, c, ',');
    TailSnoc(s, c, ':');
    if IsWs(c) {
      ShowsWs(a, c, Ends(s, ','), Ends(s, ':'), TrimRight(s) == []);
    } else {
      ShowsToken(a, c, Ends(s, ','), Ends(s, ':'), TrimRight(s) == []);
    }
  }

  lemma {:induction false} TailFeed(s: string)
    ensures Tail(Feed(INIT, s), s)
    decreases s
  {
    if s != [] {
      var p, c := s[..|s| - 1], s[|s| - 1];
      TailFeed(p);
      FeedLast(s);
      Reach(p);
      TailStep(Feed(INIT, p), p, c);
      assert s == p + [c];
    }
  }

  // ---------------------------------------------------------------- the candidate, by mode

  lemma {:induction false} CandidateClosed(s: string)
    requires Feed(INIT, s).mode != Bad && !InString(Feed(INIT, s).mode) && !Ends(s, ',') && !Ends(s, ':')
    ensures Candidate(s) == s + Closers(Feed(INIT, s).stack)
  {
    Reach(s);
    assert CloseString(s) == s;
  }

  predicate Closable(m: Mode) {
    Complete(m) || m == OpenArr || m == OpenObj
  }

  lemma {:induction false} CandidateClosable(s: string)
    requires Closable(Feed(INIT, s).mode)
    ensures Candidate(s) == s + Closers(Feed(INIT, s).stack)
  {
    TailFeed(s);
    CandidateClosed(s);
  }

  lemma {:induction false} TrimRightQuote(s: string)
    ensures TrimRight(s + "\"") == s + "\""
  {
  }

  lemma {:induction false} CandidateInString(s: string)
    requires Feed(INIT, s).mode.InStr? || Feed(INIT, s).mode.InHex?
    ensures Candidate(s) == s + "\"" + Closers(Feed(INIT, s).stack)
  {
    Reach(s);
    TrimRightQuote(s);
  }

  lemma {:induction false} EscapeEntered(a: Auto, c: char)
    requires Next(a, c).mode.InEsc?
    ensures a == Auto(InStr(Next(a, c).mode.key), Next(a, c).stack)
  {
  }

  lemma {:induction false} CandidateInEscape(s: string)
    requires Feed(INIT, s).mode.InEsc?
    ensures s != [] && Feed(INIT, s[..|s| - 1]) == Auto(InStr(Feed(INIT, s).mode.key), Feed(INIT, s).stack)
    ensures Base(s) == s[..|s| - 1] + "\""
    ensures Candidate(s) == s[..|s| - 1] + "\"" + Closers(Feed(INIT, s).stack)
  {
    Reach(s);
    FeedLast(s);
    EscapeEntered(Feed(INIT, s[..|s| - 1]), s[|s| - 1]);
    TrimRightQuote(s[..|s| - 1]);
  }

  lemma {:induction false} TrimRightOver(s: string, c: char, w: string)
    requires AllWs(w) && !IsWs(c)
    ensures TrimRight(s + [c] + w) == s + [c]
    decreases w
  {
    if w == [] {
      assert s + [c] + w == s + [c];
    } else {
      assert (s + [c] + w)[..|s + [c] + w| - 1] == s + [c] + w[..|w| - 1];
      TrimRightOver(s, c, w[..|w| - 1]);
    }
  }

  lemma {:induction false} CandidateComma(s: string, w: string)
    requires AllWs(w) && !Run(START, s + [','] + w).inStr
    ensures Candidate(s + [','] + w) == s + Closers(Run(START, s + [','] + w).stack)
  {
    EscInString(START, s + [','] + w);
    TrimRightOver(s, ',', w);
    assert CloseString(s + [','] + w) == s + [','] + w;
    assert (s + [','])[..|s + [',']| - 1] == s;
  }

  lemma {:induction false} CandidateColon(s: string, w: string)
    requires AllWs(w) && !Run(START, s + [':'] + w).inStr
    ensures Candidate(s + [':'] + w) == s + [':'] + "null" + Closers(Run(START, s + [':'] + w).stack)
  {
    EscInString(START, s + [':'] + w);
    TrimRightOver(s, ':', w);
    assert CloseString(s + [':'] + w) == s + [':'] + w;
  }

  // ---------------------------------------------------------------- when the repair succeeds

  lemma {:induction false} FeedClosers(a: Auto)
    requires Sane(a) && Closable(a.mode)
    ensures Accepting(Feed(a, Closers(a.stack)))
    decreases |a.stack|
  {
    if a.stack != [] {
      var k := a.stack[..|a.stack| - 1];
      var c := a.stack[|a.stack| - 1];
      assert a.stack == k + [c];
      CloseStep(a, k, c);
      FeedClosers(Auto(AfterValue, k));
      assert Closers(a.stack)[1..] == Closers(k);
    }
  }

  lemma {:induction false} ClosersStuck(a: Auto)
    requires Sane(a) && !Closable(a.mode) && !InString(a.mode)
    ensures !Accepting(Feed(a, Closers(a.stack)))
  {
    if a.stack != [] {
      var c := Closers(a.stack)[0];
      assert c == a.stack[|a.stack| - 1];
      assert Next(a, c).mode == Bad;
      BadStays(Next(a, c), Closers(a.stack)[1..]);
    }
  }

  /** On any bytes, the repair succeeds exactly when the text before the closers could be closed. */
  lemma {:induction false} BaseDecides(s: string)
    ensures Valid(Candidate(s)) <==> Closable(Feed(INIT, Base(s)).mode)
  {
    var b := Feed(INIT, Base(s));
    var k := Run(START, s).stack;
    Reach(Base(s));
    BaseRuns(s);
    FeedCat(INIT, Base(s), Closers(k));
    if b.mode == Bad {
      BadStays(b, Closers(k));
    } else if Closable(b.mode) {
      FeedClosers(b);
    } else {
      ClosersStuck(b);
    }
  }

  /** The cuts the repair can mend, read off the validator's state at the cut. */
  predicate Mendable(a: Auto) {
    match a.mode
    case BeginValue => a.stack != []
    case BeginKey => true
    case InStr(key) => !key
    case InEsc(key) => !key
    case m => Closable(m)
  }

  /** A text the validator already rejects is mended only by dropping a final comma. */
  predicate StrayComma(s: string) {
    !Run(START, s).inStr && Ends(s, ',') && Closable(Feed(INIT, TrimRight(s)[..|TrimRight(s)| - 1]).mode)
  }

  /** Modes that whitespace can only stay in. */
  predicate Settled(m: Mode) {
    m == BeginValue || m == OpenArr || m == OpenObj || m == BeginKey || m == AfterKey
  }

  lemma {:induction false} WsBack(a: Auto, w: string)
    requires AllWs(w) && Settled(Feed(a, w).mode)
    ensures Feed(a, w) == a
    decreases w
  {
    if w != [] {
      WsBack(Next(a, w[0]), w[1..]);
    }
  }

  lemma {:induction false} FeedTrim(s: string)
    requires Settled(Feed(INIT, s).mode)
    ensures Feed(INIT, TrimRight(s)) == Feed(INIT, s)
  {
    var t := TrimRight(s);
    assert s == t + s[|t|..];
    FeedCat(INIT, t, s[|t|..]);
    WsBack(Feed(INIT, t), s[|t|..]);
  }

  lemma {:induction false} MendsSettled(s: string)
    requires Feed(INIT, s).mode == BeginValue || Feed(INIT, s).mode == BeginKey
    ensures Closable(Feed(INIT, Base(s)).mode) <==> Feed(INIT, s).stack != []
  {
    var a := Feed(INIT, s);
    var t := TrimRight(s);
    Reach(s);
    TailFeed(s);
    FeedTrim(s);
    assert CloseString(s) == s;
    if a.stack == [] {
      assert Base(s) == s;
    } else if Ends(s, ':') {
      FeedCat(INIT, t, "null");
      FeedWord(a, "null");
    } else {
      assert Base(s) == t[..|t| - 1];
      FeedLast(t);
      CommaEntered(Feed(INIT, t[..|t| - 1]));
    }
  }

  lemma {:induction false} CommaEntered(a: Auto)
    requires Next(a, ',').mode == BeginKey || Next(a, ',').mode == BeginValue
    ensures Complete(a.mode)
  {
  }

  lemma {:induction false} MendsInString(s: string)
    requires InString(Feed(INIT, s).mode)
    ensures Closable(Feed(INIT, Base(s)).mode) <==> Mendable(Feed(INIT, s))
  {
    var a := Feed(INIT, s);
    Reach(s);
    if a.mode.InEsc? {
      CandidateInEscape(s);
      FeedCat(INIT, s[..|s| - 1], "\"");
      FeedOne(Feed(INIT, s[..|s| - 1]), '"');
    } else {
      TrimRightQuote(s);
      assert Base(s) == s + "\"";
      FeedCat(INIT, s, "\"");
      FeedOne(a, '"');
    }
  }

  lemma {:induction false} MendsStuck(s: string)
    requires Feed(INIT, s).mode == Bad
    ensures Closable(Feed(INIT, Base(s)).mode) <==> StrayComma(s)
  {
    var e := Run(START, s);
    EscInString(START, s);
    if e.inStr {
      StuckInString(s);
    } else {
      assert CloseString(s) == s;
      if Ends(s, ':') {
        StuckColon(s);
      }
    }
  }

  lemma {:induction false} StuckInString(s: string)
    requires Feed(INIT, s).mode == Bad && Run(START, s).inStr
    ensures Feed(INIT, Base(s)).mode == Bad
  {
    if Run(START, s).esc {
      var p := s[..|s| - 1];
      assert s != [];
      FeedLast(s);
      EscapeRead(s);
      Reach(p);
      StuckEscape(Feed(INIT, p));
      TrimRightQuote(p);
      assert Base(s) == p + ['"'];
      FeedSnoc(INIT, p, '"');
    } else {
      TrimRightQuote(s);
      assert Base(s) == s + ['"'];
      FeedSnoc(INIT, s, '"');
    }
  }

  lemma {:induction false} EscapeRead(s: string)
    requires Run(START, s).esc
    ensures s != [] && s[|s| - 1] == '\\'
    ensures Run(START, s[..|s| - 1]).inStr && !Run(START, s[..|s| - 1]).esc
  {
    assert s != [];
    RunSnoc(START, s, |s| - 1);
    assert s[..|s| - 1 + 1] == s;
    EscInString(START, s[..|s| - 1]);
  }

  lemma {:induction false} StuckEscape(a: Auto)
    requires Next(a, '\\').mode == Bad && (a.mode == Bad || a.mode.InStr? || a.mode.InHex?)
    ensures Next(a, '"').mode == Bad
  {
  }

  lemma {:induction false} StuckColon(s: string)
    requires Feed(INIT, s).mode == Bad && !Run(START, s).inStr && Ends(s, ':')
    ensures Feed(INIT, TrimRight(s) + "null").mode == Bad
  {
    var t := TrimRight(s);
    var w := s[|t|..];
    assert s == t + w;
    TrimRightRuns(s);
    FeedCat(INIT, t, w);
    FeedCat(INIT, t, "null");
    var b := Feed(INIT, t);
    if b.mode == Bad {
      BadStays(b, "null");
    } else {
      FeedLast(t);
      Reach(t);
      Reach(t[..|t| - 1]);
      ColonEntered(Feed(INIT, t[..|t| - 1]));
      FeedWs(b, w);
      assert false;
    }
  }

  lemma {:induction false} ColonEntered(a: Auto)
    requires Sane(a) && Next(a, ':').mode != Bad && !InString(Next(a, ':').mode)
    ensures Next(a, ':').mode == BeginValue
  {
  }

  /**
   For every byte string the repair succeeds if and only if the validator's state at the end
   of it is mendable, or the text is beyond repair but for a stray final comma.
   */
  lemma {:induction false} RepairSucceeds(s: string)
    ensures Valid(Candidate(s)) <==> Mendable(Feed(INIT, s)) || (Feed(INIT, s).mode == Bad && StrayComma(s))
  {
    var a := Feed(INIT, s);
    BaseDecides(s);
    Reach(s);
    TailFeed(s);
    if a.mode == Bad {
      MendsStuck(s);
    } else if InString(a.mode) {
      MendsInString(s);
    } else if a.mode == BeginValue || a.mode == BeginKey {
      MendsSettled(s);
    } else {
      assert Base(s) == s;
    }
  }

  /** A text that is already valid is left as it is. */
  lemma {:induction false} RepairKeepsValid(s: string)
    requires Valid(s)
    ensures Repaired(s) == s
  {
    CandidateClosable(s);
    assert Closers("") == [] && s + [] == s;
  }
}
