/**
 The result of the repair, for every byte string, by the grammar alone: the text that is kept,
 whatever completes its last token, and closing brackets; or the empty object.
 */
module JsonMended {
  import opened JsonScan
  import opened Options
  import opened Texts
  import opened JsonGrammar
  import opened JsonAutomaton
  import opened JsonSound
  import opened JsonRepair
  import opened Canonical

  /** The object without members. */
  const NOTHING := Item("", EmptyObj(""), "")

  /** What the validator cannot be brought to accept. */
  predicate Broken(s: string) {
    var a := Feed(INIT, s);
    !Mendable(a) && !(a.mode == Bad && StrayComma(s))
  }

  /** What completes the last token: a quote inside a string, a value after a colon. */
  function Link(s: string): string {
    if InString(Feed(INIT, s).mode) then "\"" else if Ends(s, ':') then "null" else ""
  }

  predicate Brackets(q: string) {
    forall i :: 0 <= i < |q| ==> q[i] == '}' || q[i] == ']'
  }

  /** `r` is a document that begins with the kept part of `s`, its last token completed, and has only brackets after it. */
  ghost predicate Completes(s: string, r: string, q: string) {
    r == Kept(s) + Link(s) + q && Brackets(q) && IsJson(r)
  }

  ghost predicate Mended(s: string, r: string) {
    if Broken(s) then r == ItemText(NOTHING) else exists q :: Completes(s, r, q)
  }

  // ---------------------------------------------------------------- the repair mends

  lemma {:induction false} NothingText()
    ensures WfItem(NOTHING) && ItemText(NOTHING) == "{}"
  {
  }

  lemma {:induction false} ClosersAre(stack: string)
    requires Brackets(stack)
    ensures Brackets(Closers(stack))
    decreases stack
  {
    if stack != [] {
      ClosersAre(stack[..|stack| - 1]);
    }
  }

  lemma {:induction false} BaseInString(s: string)
    requires Run(START, s).inStr
    ensures Base(s) == Kept(s) + "\""
  {
    EscInString(START, s);
    var out := CloseString(s);
    assert out[|out| - 1] == '"';
    assert TrimRight(out) == out;
  }

  lemma {:induction false} BaseOutside(s: string)
    requires !Run(START, s).inStr
    ensures Base(s) == Kept(s) + if Ends(s, ':') then "null" else ""
  {
    EscInString(START, s);
    assert CloseString(s) == s;
    Empty(Kept(s));
  }

  lemma {:induction false} BaseIs(s: string)
    requires !Broken(s)
    ensures Base(s) == Kept(s) + Link(s)
  {
    Reach(s);
    if Run(START, s).inStr {
      BaseInString(s);
    } else {
      BaseOutside(s);
    }
  }

  /**
   For every byte string: what comes out begins with the part that is kept, followed by what
   completes its last token and brackets only, and is a document; and where the validator's
   state allows no such completion, it is the empty object.
   */
  lemma {:induction false} RepairMends(s: string)
    ensures Mended(s, Repaired(s))
  {
    RepairSucceeds(s);
    if Broken(s) {
      NothingText();
    } else {
      var k := Run(START, s).stack;
      BaseIs(s);
      StackIsClosers(START, s);
      ClosersAre(k);
      ValidIffJson(Candidate(s));
      assert Completes(s, Candidate(s), Closers(k));
    }
  }

  // ---------------------------------------------------------------- only one text does

  lemma {:induction false} StringSwallows(a: Auto, q: string)
    requires Brackets(q) && InString(a.mode)
    ensures !Accepting(Feed(a, q))
    decreases q
  {
    if q != [] {
      if a.mode.InStr? {
        StringSwallows(Next(a, q[0]), q[1..]);
      } else {
        BadStays(Next(a, q[0]), q[1..]);
      }
    }
  }

  lemma {:induction false} BracketPops(a: Auto, c: char)
    requires Sane(a) && !InString(a.mode) && (c == '}' || c == ']') && Next(a, c).mode != Bad
    ensures a.stack != [] && c == a.stack[|a.stack| - 1] && Next(a, c).stack == a.stack[..|a.stack| - 1]
  {
  }

  /** Brackets that lead to acceptance are the ones owed. */
  lemma {:induction false} OwedOnly(a: Auto, q: string)
    requires Sane(a) && Brackets(q) && Accepting(Feed(a, q))
    ensures q == Closers(a.stack)
    decreases q
  {
    if InString(a.mode) {
      StringSwallows(a, q);
    } else if q != [] {
      var b := Next(a, q[0]);
      assert b.mode != Bad by {
        if b.mode == Bad {
          BadStays(b, q[1..]);
        }
      }
      BracketPops(a, q[0]);
      SaneStep(a, q[0]);
      OwedOnly(b, q[1..]);
      assert q == [q[0]] + q[1..];
    }
  }

  lemma {:induction false} OneCompletion(s: string, r: string, q: string, r1: string, q1: string)
    requires Completes(s, r, q) && Completes(s, r1, q1)
    ensures r == r1
  {
    var x := Kept(s) + Link(s);
    ValidIffJson(r);
    ValidIffJson(r1);
    FeedCat(INIT, x, q);
    FeedCat(INIT, x, q1);
    Reach(x);
    OwedOnly(Feed(INIT, x), q);
    OwedOnly(Feed(INIT, x), q1);
  }

  /** So these properties determine the result. */
  lemma {:induction false} MendedUnique(s: string, r: string)
    requires Mended(s, r)
    ensures r == Repaired(s)
  {
    RepairMends(s);
    if !Broken(s) {
      var q :| Completes(s, r, q);
      var q1 :| Completes(s, Repaired(s), q1);
      OneCompletion(s, r, q, Repaired(s), q1);
    }
  }

  /** A text that cannot be completed is read as an object without members. */
  lemma {:induction false} BrokenMeansNothing(fl: Floats, s: string)
    requires Broken(s)
    ensures Unmarshal(fl, Repaired(s)) == Some(Dict(map[]))
  {
    RepairMends(s);
    NothingText();
    UnmarshalText(fl, NOTHING);
  }
}
