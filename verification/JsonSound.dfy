/**
 The automaton accepts nothing but JSON: from an accepting run the concrete syntax tree is
 rebuilt, so `Valid` decides the grammar exactly.
 */
module JsonSound {
  import opened JsonScan
  import opened Texts
  import opened JsonGrammar
  import opened JsonAutomaton

  /** An accepting run that cannot stop here goes on with a character the automaton allows. */
  lemma {:induction false} AcceptHead(a: Auto, s: string)
    requires Accepting(Feed(a, s)) && (!Complete(a.mode) || a.stack != [])
    ensures s != [] && Next(a, s[0]).mode != Bad && Accepting(Feed(Next(a, s[0]), s[1..]))
  {
    if s != [] && Next(a, s[0]).mode == Bad {
      BadStays(Next(a, s[0]), s[1..]);
    }
  }

  lemma {:induction false} Glue4(a: string, b: string, c: string, d: string)
    ensures a + (b + (c + d)) == a + b + c + d
  {
  }

  lemma {:induction false} Glue5(a: string, b: string, c: string, d: string, e: string)
    ensures a + (b + (c + (d + e))) == a + b + c + d + e
  {
  }

  lemma {:induction false} TakeWs(s: string) returns (w: string, r: string)
    ensures s == w + r && AllWs(w) && (r == [] || !IsWs(r[0]))
  {
    if s == [] || !IsWs(s[0]) {
      w, r := [], s;
    } else {
      w, r := TakeWs(s[1..]);
      w := [s[0]] + w;
    }
  }

  /** Skipping leading whitespace leaves an accepting run accepting. */
  lemma {:induction false} SkipWs(a: Auto, s: string) returns (w: string, r: string)
    requires Patient(a.mode) && Accepting(Feed(a, s))
    ensures s == w + r && AllWs(w) && (r == [] || !IsWs(r[0]))
    ensures Accepting(Feed(a, r))
  {
    w, r := TakeWs(s);
    FeedCat(a, w, r);
    FeedWs(a, w);
  }

  lemma {:induction false} ParseUnits(key: bool, k: string, s: string) returns (us: seq<Unit>, r: string)
    requires Accepting(Feed(Auto(InStr(key), k), s))
    ensures WfUnits(us) && s == UnitsText(us) + ['"'] + r
    ensures Accepting(Feed(Auto(if key then AfterKey else AfterValue, k), r))
    decreases s
  {
    var a := Auto(InStr(key), k);
    AcceptHead(a, s);
    if s[0] == '"' {
      us, r := [], s[1..];
    } else {
      var u, n := ParseUnit(key, k, s);
      var vs;
      vs, r := ParseUnits(key, k, s[n..]);
      us := [u] + vs;
      assert us[1..] == vs;
      assert s == UnitText(u) + s[n..];
    }
  }

  lemma {:induction false} ParseUnit(key: bool, k: string, s: string) returns (u: Unit, n: nat)
    requires Accepting(Feed(Auto(InStr(key), k), s)) && s != [] && s[0] != '"'
    ensures 0 < n <= |s| && WfUnit(u) && UnitText(u) == s[..n]
    ensures Accepting(Feed(Auto(InStr(key), k), s[n..]))
  {
    AcceptHead(Auto(InStr(key), k), s);
    if s[0] != '\\' {
      u, n := Plain(s[0]), 1;
    } else {
      AcceptHead(Auto(InEsc(key), k), s[1..]);
      if s[1] != 'u' {
        u, n := Short(s[1]), 2;
        assert s[1..][1..] == s[2..];
      } else {
        n := 6;
        ParseHex(key, k, s[1..][1..]);
        assert s[1..][1..][4..] == s[6..];
        u := Hex(s[2..6]);
        assert s[1..][1..][..4] == s[2..6];
      }
    }
  }

  lemma {:induction false} ParseHex(key: bool, k: string, s: string)
    requires Accepting(Feed(Auto(InHex(key, 4), k), s))
    ensures |s| >= 4 && WfUnit(Hex(s[..4])) && Accepting(Feed(Auto(InStr(key), k), s[4..]))
  {
    AcceptHead(Auto(InHex(key, 4), k), s);
    AcceptHead(Auto(InHex(key, 3), k), s[1..]);
    AcceptHead(Auto(InHex(key, 2), k), s[1..][1..]);
    AcceptHead(Auto(InHex(key, 1), k), s[1..][1..][1..]);
    assert s[1..][1..][1..][1..] == s[4..];
  }

  lemma {:induction false} NumberEnds(p: Phase, k: string, s: string)
    requires Accepting(Feed(Auto(InNum(p), k), s)) && Final(p) && (s == [] || NextPhase(p, s[0]) == [])
    ensures Accepting(Feed(Auto(AfterValue, k), s))
  {
  }

  lemma {:induction false} ParseDigits(p: Phase, k: string, s: string) returns (ds: string, r: string)
    requires p == Int || p == Frac || p == Power
    ensures s == ds + r && AllDigits(ds) && (r == [] || !IsDigit(r[0]))
    ensures Feed(Auto(InNum(p), k), s) == Feed(Auto(InNum(p), k), r)
    decreases s
  {
    if s == [] || !IsDigit(s[0]) {
      ds, r := [], s;
    } else {
      ds, r := ParseDigits(p, k, s[1..]);
      ds := [s[0]] + ds;
    }
  }

  /** At least one digit, read in a mode that insists on one. */
  lemma {:induction false} ParseDigits1(p: Phase, q: Phase, k: string, s: string) returns (ds: string, r: string)
    requires (p == Point && q == Frac) || (p == Mark && q == Power && (s == [] || (s[0] != '+' && s[0] != '-'))) || (p == Sign && q == Power)
    requires Accepting(Feed(Auto(InNum(p), k), s))
    ensures s == ds + r && ds != [] && AllDigits(ds) && (r == [] || !IsDigit(r[0]))
    ensures Accepting(Feed(Auto(InNum(q), k), r))
  {
    AcceptHead(Auto(InNum(p), k), s);
    var more;
    more, r := ParseDigits(q, k, s[1..]);
    ds := [s[0]] + more;
    HeadGlue(s, more, r);
  }

  lemma {:induction false} HeadGlue(s: string, t: string, r: string)
    requires s != [] && s[1..] == t + r
    ensures s == [s[0]] + t + r
  {
  }

  lemma {:induction false} ParseExpo(p: Phase, k: string, s: string) returns (e: Expo, r: string)
    requires p == Zero || p == Int || p == Frac
    requires Accepting(Feed(Auto(InNum(p), k), s)) && (s == [] || NextPhase(p, s[0]) == [] || NextPhase(p, s[0]) == [Mark])
    ensures s == ExpoText(e) + r && WfNumber(Number(false, "0", "", e))
    ensures Accepting(Feed(Auto(AfterValue, k), r))
  {
    if s == [] || NextPhase(p, s[0]) == [] {
      e, r := NoExpo, s;
      NumberEnds(p, k, s);
    } else {
      var sign, ds;
      sign, ds, r := ParseSigned(k, s[1..]);
      e := Expo(s[0], sign, ds);
      NumberEnds(Power, k, r);
      assert s == [s[0]] + s[1..];
      Glue4([s[0]], sign, ds, r);
    }
  }

  lemma {:induction false} ParseSigned(k: string, s: string) returns (sign: string, ds: string, r: string)
    requires Accepting(Feed(Auto(InNum(Mark), k), s))
    ensures s == sign + (ds + r) && (sign == [] || sign == ['+'] || sign == ['-'])
    ensures ds != [] && AllDigits(ds) && (r == [] || !IsDigit(r[0])) && Accepting(Feed(Auto(InNum(Power), k), r))
  {
    AcceptHead(Auto(InNum(Mark), k), s);
    if s[0] == '+' || s[0] == '-' {
      sign := [s[0]];
      ds, r := ParseDigits1(Sign, Power, k, s[1..]);
    } else {
      sign := [];
      ds, r := ParseDigits1(Mark, Power, k, s);
    }
  }

  lemma {:induction false} ParseFraction(p: Phase, k: string, s: string) returns (f: string, e: Expo, r: string)
    requires (p == Zero || p == Int) && Accepting(Feed(Auto(InNum(p), k), s)) && (s == [] || NextPhase(p, s[0]) != [Int])
    ensures AllDigits(f) && s == (if f == [] then [] else ['.'] + f) + (ExpoText(e) + r)
    ensures WfNumber(Number(false, "0", "", e)) && Accepting(Feed(Auto(AfterValue, k), r))
  {
    if s != [] && s[0] == '.' {
      var t;
      f, t := ParseDigits1(Point, Frac, k, s[1..]);
      e, r := ParseExpo(Frac, k, t);
      assert s == ['.'] + s[1..];
      Glue3(['.'], f, ExpoText(e) + r);
    } else {
      f := [];
      e, r := ParseExpo(p, k, s);
    }
  }

  /** What the first digit of a number leads to. */
  lemma {:induction false} FirstDigit(a: Auto, s: string, neg: bool)
    requires if neg then a.mode == InNum(Minus) else WantsValue(a.mode) && s != [] && IsDigit(s[0])
    requires Accepting(Feed(a, s))
    ensures s != [] && IsDigit(s[0])
    ensures Accepting(Feed(Auto(InNum(if s[0] == '0' then Zero else Int), a.stack), s[1..]))
  {
    AcceptHead(a, s);
  }

  lemma {:induction false} ParseWhole(a: Auto, s: string, neg: bool) returns (w: string, p: Phase, r: string)
    requires if neg then a.mode == InNum(Minus) else WantsValue(a.mode) && s != [] && IsDigit(s[0])
    requires Accepting(Feed(a, s))
    ensures s == w + r && w != [] && AllDigits(w) && (w[0] == '0' ==> |w| == 1)
    ensures (p == Zero || p == Int) && (r == [] || NextPhase(p, r[0]) != [Int])
    ensures Accepting(Feed(Auto(InNum(p), a.stack), r))
  {
    FirstDigit(a, s, neg);
    if s[0] == '0' {
      w, p, r := [s[0]], Zero, s[1..];
    } else {
      var ds;
      ds, r := ParseDigits(Int, a.stack, s[1..]);
      w, p := [s[0]] + ds, Int;
      HeadGlue(s, ds, r);
    }
  }

  lemma {:induction false} ParseNumber(a: Auto, s: string) returns (n: Number, r: string)
    requires WantsValue(a.mode) && s != [] && (s[0] == '-' || IsDigit(s[0])) && Accepting(Feed(a, s))
    ensures WfNumber(n) && s == NumberText(n) + r && Accepting(Feed(Auto(AfterValue, a.stack), r))
  {
    var neg := s[0] == '-';
    var b := if neg then Auto(InNum(Minus), a.stack) else a;
    var s1 := if neg then s[1..] else s;
    var w, p, t := ParseWhole(b, s1, neg);
    var f, e;
    f, e, r := ParseFraction(p, a.stack, t);
    n := Number(neg, w, f, e);
    assert s == (if neg then ['-'] else []) + s1;
    Glue5(if neg then ['-'] else [], w, if f == [] then [] else ['.'] + f, ExpoText(e), r);
  }

  lemma {:induction false} ParseLetters(rest: string, k: string, s: string) returns (r: string)
    requires rest != [] && Accepting(Feed(Auto(InWord(rest), k), s))
    ensures s == rest + r && Accepting(Feed(Auto(AfterValue, k), r))
    decreases rest
  {
    AcceptHead(Auto(InWord(rest), k), s);
    if |rest| == 1 {
      r := s[1..];
    } else {
      r := ParseLetters(rest[1..], k, s[1..]);
    }
  }

  function WordRest(c: char): string {
    if c == 'n' then "ull" else if c == 't' then "rue" else "alse"
  }

  lemma {:induction false} WordBegins(a: Auto, s: string)
    requires WantsValue(a.mode) && Accepting(Feed(a, s))
    requires s != [] && (s[0] == 'n' || s[0] == 't' || s[0] == 'f')
    ensures Accepting(Feed(Auto(InWord(WordRest(s[0])), a.stack), s[1..]))
  {
  }

  lemma {:induction false} WordWhole(c: char)
    requires c == 'n' || c == 't' || c == 'f'
    ensures WfValue(Word([c] + WordRest(c)))
  {
    assert c == 'n' ==> [c] + WordRest(c) == "null";
    assert c == 't' ==> [c] + WordRest(c) == "true";
    assert c == 'f' ==> [c] + WordRest(c) == "false";
  }

  lemma {:induction false} ParseWord(a: Auto, s: string) returns (w: string, r: string)
    requires WantsValue(a.mode) && Accepting(Feed(a, s))
    requires s != [] && (s[0] == 'n' || s[0] == 't' || s[0] == 'f')
    ensures WfValue(Word(w)) && s == w + r && Accepting(Feed(Auto(AfterValue, a.stack), r))
  {
    WordBegins(a, s);
    r := ParseLetters(WordRest(s[0]), a.stack, s[1..]);
    w := [s[0]] + WordRest(s[0]);
    WordWhole(s[0]);
    HeadGlue(s, WordRest(s[0]), r);
  }

  lemma {:induction false} ParseValue(a: Auto, s: string) returns (v: Value, r: string)
    requires WantsValue(a.mode) && Accepting(Feed(a, s))
    requires s != [] && !IsWs(s[0]) && !(a.mode == OpenArr && s[0] == ']')
    ensures WfValue(v) && s == Text(v) + r && Accepting(Feed(Auto(AfterValue, a.stack), r))
    ensures |r| < |s|
    decreases |s|, 0
  {
    AcceptHead(a, s);
    var c := s[0];
    if c == '"' {
      var us;
      us, r := ParseUnits(false, a.stack, s[1..]);
      v := Str(us);
      assert s == ['"'] + s[1..];
    } else if c == '[' {
      v, r := ParseArr(a.stack, s[1..]);
      assert s == ['['] + s[1..];
    } else if c == '{' {
      v, r := ParseObj(a.stack, s[1..]);
      assert s == ['{'] + s[1..];
    } else if c == '-' || IsDigit(c) {
      var n;
      n, r := ParseNumber(a, s);
      v := Num(n);
    } else {
      var w;
      w, r := ParseWord(a, s);
      v := Word(w);
    }
  }

  /** The closing bracket of a list without elements. */
  lemma {:induction false} CloseArr(k: string, t: string)
    requires t != [] && t[0] == ']' && Accepting(Feed(Auto(OpenArr, k + "]"), t))
    ensures Accepting(Feed(Auto(AfterValue, k), t[1..]))
  {
    assert (k + "]")[..|k + "]"| - 1] == k;
  }

  lemma {:induction false} EmptyGlue(open: char, w: string, t: string, close: char)
    requires t != [] && t[0] == close
    ensures [open] + (w + t) == [open] + w + [close] + t[1..]
  {
    assert t == [close] + t[1..];
  }

  lemma {:induction false} FullGlue(open: char, s: string, a: string, u: string, b: string, close: string, r: string)
    requires s == a + u && u == b + close + r
    ensures [open] + s == [open] + a + b + close + r
  {
  }

  lemma {:induction false} ParseArr(k: string, s: string) returns (v: Value, r: string)
    requires Accepting(Feed(Auto(OpenArr, k + "]"), s))
    ensures WfValue(v) && ['['] + s == Text(v) + r && Accepting(Feed(Auto(AfterValue, k), r))
    ensures |r| <= |s|
    decreases |s|, 2
  {
    var o := Auto(OpenArr, k + "]");
    var w, t := SkipWs(o, s);
    AcceptHead(o, t);
    if t[0] == ']' {
      v, r := EmptyArr(w), t[1..];
      CloseArr(k, t);
      EmptyGlue('[', w, t, ']');
    } else {
      var first, u := ParseItem(o, w, t);
      var rest;
      rest, r := ParseItems(k + "]", u);
      v := Arr(first, rest);
      assert (k + "]")[..|k + "]"| - 1] == k;
      FullGlue('[', s, ItemText(first), u, ItemsText(rest), [']'], r);
    }
  }

  lemma {:induction false} ParseItem(a: Auto, w: string, s: string) returns (it: Item, r: string)
    requires WantsValue(a.mode) && AllWs(w) && Accepting(Feed(a, s))
    requires s != [] && !IsWs(s[0]) && !(a.mode == OpenArr && s[0] == ']')
    ensures WfItem(it) && w + s == ItemText(it) + r && (r == [] || !IsWs(r[0]))
    ensures Accepting(Feed(Auto(AfterValue, a.stack), r)) && |r| < |s|
    decreases |s|, 1
  {
    var v, u := ParseValue(a, s);
    var x;
    x, r := SkipWs(Auto(AfterValue, a.stack), u);
    it := Item(w, v, x);
    Glue4(w, Text(v), x, r);
  }

  lemma {:induction false} CloseGlue(s: string, r: string)
    requires s != [] && r == s[1..]
    ensures s == [] + [s[0]] + r
  {
  }

  lemma {:induction false} MoreGlue(s: string, h: string, u: string, t: string, c: string, r: string)
    requires s != [] && s[0] == ',' && s[1..] == h + u && u == t + c + r
    ensures s == [','] + h + t + c + r
  {
    assert s == [','] + s[1..];
  }

  lemma {:induction false} ParseItems(k: string, s: string) returns (its: Items, r: string)
    requires k != [] && k[|k| - 1] == ']' && (s == [] || !IsWs(s[0])) && Accepting(Feed(Auto(AfterValue, k), s))
    ensures WfItems(its) && s == ItemsText(its) + [']'] + r
    ensures Accepting(Feed(Auto(AfterValue, k[..|k| - 1]), r))
    decreases |s|, 2
  {
    AcceptHead(Auto(AfterValue, k), s);
    if s[0] == ']' {
      its, r := NoItems, s[1..];
      CloseGlue(s, r);
    } else {
      var b := Auto(BeginValue, k);
      var w, t := SkipWs(b, s[1..]);
      AcceptHead(b, t);
      var head, u := ParseItem(b, w, t);
      var tail;
      tail, r := ParseItems(k, u);
      its := Items(head, tail);
      MoreGlue(s, ItemText(head), u, ItemsText(tail), [']'], r);
    }
  }

  /** The closing bracket of an object without members. */
  lemma {:induction false} CloseObj(k: string, t: string)
    requires t != [] && t[0] == '}' && Accepting(Feed(Auto(OpenObj, k + "}"), t))
    ensures Accepting(Feed(Auto(AfterValue, k), t[1..]))
  {
    assert (k + "}")[..|k + "}"| - 1] == k;
  }

  lemma {:induction false} ParseObj(k: string, s: string) returns (v: Value, r: string)
    requires Accepting(Feed(Auto(OpenObj, k + "}"), s))
    ensures WfValue(v) && ['{'] + s == Text(v) + r && Accepting(Feed(Auto(AfterValue, k), r))
    ensures |r| <= |s|
    decreases |s|, 2
  {
    var o := Auto(OpenObj, k + "}");
    var w, t := SkipWs(o, s);
    AcceptHead(o, t);
    if t[0] == '}' {
      v, r := EmptyObj(w), t[1..];
      CloseObj(k, t);
      EmptyGlue('{', w, t, '}');
    } else {
      var m, u := ParseMember(o, w, t);
      var more;
      more, r := ParseMembers(k + "}", u);
      v := Obj(m, more);
      assert (k + "}")[..|k + "}"| - 1] == k;
      FullGlue('{', s, MemberText(m), u, MembersText(more), ['}'], r);
    }
  }

  lemma {:induction false} ParseMember(a: Auto, w: string, s: string) returns (m: Member, r: string)
    requires (a.mode == OpenObj || a.mode == BeginKey) && AllWs(w) && s != [] && s[0] == '"' && Accepting(Feed(a, s))
    ensures WfMember(m) && w + s == MemberText(m) + r && (r == [] || !IsWs(r[0]))
    ensures Accepting(Feed(Auto(AfterValue, a.stack), r)) && |r| < |s|
    decreases |s|, 1
  {
    var h := Auto(AfterKey, a.stack);
    var us, t := ParseUnits(true, a.stack, s[1..]);
    var x, u := SkipWs(h, t);
    AcceptHead(h, u);
    var b := Auto(BeginValue, a.stack);
    var y, z := SkipWs(b, u[1..]);
    AcceptHead(b, z);
    var it;
    it, r := ParseItem(b, y, z);
    m := Member(w, us, x, it);
    MemberGlue(w, us, x, it, s, t, u, r);
  }

  lemma {:induction false} MemberGlue(w: string, us: seq<Unit>, x: string, it: Item, s: string, t: string, u: string, r: string)
    requires s != [] && s[0] == '"' && s[1..] == UnitsText(us) + ['"'] + t
    requires t == x + u && u != [] && u[0] == ':' && u[1..] == ItemText(it) + r
    ensures w + s == MemberText(Member(w, us, x, it)) + r
  {
    assert s == Quoted(us) + t && u == [':'] + u[1..];
    Glue5(w, Quoted(us), x, [':'], ItemText(it) + r);
    Glue3(w + Quoted(us) + x + [':'], ItemText(it), r);
  }

  lemma {:induction false} ParseMembers(k: string, s: string) returns (ms: Members, r: string)
    requires k != [] && k[|k| - 1] == '}' && (s == [] || !IsWs(s[0])) && Accepting(Feed(Auto(AfterValue, k), s))
    ensures WfMembers(ms) && s == MembersText(ms) + ['}'] + r
    ensures Accepting(Feed(Auto(AfterValue, k[..|k| - 1]), r))
    decreases |s|, 2
  {
    AcceptHead(Auto(AfterValue, k), s);
    if s[0] == '}' {
      ms, r := NoMembers, s[1..];
      CloseGlue(s, r);
    } else {
      var b := Auto(BeginKey, k);
      var w, t := SkipWs(b, s[1..]);
      AcceptHead(b, t);
      var head, u := ParseMember(b, w, t);
      var tail;
      tail, r := ParseMembers(k, u);
      ms := Members(head, tail);
      MoreGlue(s, MemberText(head), u, MembersText(tail), ['}'], r);
    }
  }

  /** `json.Valid` accepts exactly the texts of RFC 8259. */
  lemma {:induction false} ValidIffJson(s: string)
    ensures Valid(s) <==> IsJson(s)
  {
    if Valid(s) {
      var w, t := SkipWs(INIT, s);
      AcceptHead(INIT, t);
      var it, r := ParseItem(INIT, w, t);
      if r != [] {
        assert Next(Auto(AfterValue, ""), r[0]).mode == Bad;
        BadStays(Next(Auto(AfterValue, ""), r[0]), r[1..]);
        assert false;
      }
      assert ItemText(it) == s;
    }
    if IsJson(s) {
      var it :| WfItem(it) && ItemText(it) == s;
      FeedItem(INIT, it);
    }
  }
}
