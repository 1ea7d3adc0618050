/**
 `json.Valid` as the pushdown automaton that Go's JSON scanner is: one mode per expected
 token, and a stack of owed closers.  The automaton decides the grammar of RFC 8259.
 */
module JsonAutomaton {
  import opened JsonScan
  import opened JsonGrammar

  datatype Phase = Minus | Zero | Int | Point | Frac | Mark | Sign | Power

  datatype Mode =
    | BeginValue
    | OpenArr
    | OpenObj
    | BeginKey
    | AfterKey
    | AfterValue
    | InStr(key: bool)
    | InEsc(key: bool)
    | InHex(key: bool, left: nat)
    | InNum(phase: Phase)
    | InWord(rest: string)
    | Bad

  datatype Auto = Auto(mode: Mode, stack: string)

  const INIT := Auto(BeginValue, "")

  predicate Final(p: Phase) {
    p == Zero || p == Int || p == Frac || p == Power
  }

  /** The phase after reading `c` in a number, or the same phase's end when `c` does not continue it. */
  function NextPhase(p: Phase, c: char): (r: seq<Phase>)
    ensures |r| <= 1
  {
    match p
    case Minus => if c == '0' then [Zero] else if IsDigit(c) then [Int] else []
    case Zero => if c == '.' then [Point] else if c == 'e' || c == 'E' then [Mark] else []
    case Int => if IsDigit(c) then [Int] else if c == '.' then [Point] else if c == 'e' || c == 'E' then [Mark] else []
    case Point => if IsDigit(c) then [Frac] else []
    case Frac => if IsDigit(c) then [Frac] else if c == 'e' || c == 'E' then [Mark] else []
    case Mark => if c == '+' || c == '-' then [Sign] else if IsDigit(c) then [Power] else []
    case Sign => if IsDigit(c) then [Power] else []
    case Power => if IsDigit(c) then [Power] else []
  }

  function StartValue(c: char, k: string): Auto {
    if c == '"' then Auto(InStr(false), k)
    else if c == '[' then Auto(OpenArr, k + "]")
    else if c == '{' then Auto(OpenObj, k + "}")
    else if c == '-' then Auto(InNum(Minus), k)
    else if c == '0' then Auto(InNum(Zero), k)
    else if IsDigit(c) then Auto(InNum(Int), k)
    else if c == 'n' then Auto(InWord("ull"), k)
    else if c == 't' then Auto(InWord("rue"), k)
    else if c == 'f' then Auto(InWord("alse"), k)
    else Auto(Bad, k)
  }

  function EndValue(c: char, k: string): Auto {
    if IsWs(c) then Auto(AfterValue, k)
    else if k == [] then Auto(Bad, k)
    else if c == ',' then Auto(if k[|k| - 1] == '}' then BeginKey else BeginValue, k)
    else if c == k[|k| - 1] then Auto(AfterValue, k[..|k| - 1])
    else Auto(Bad, k)
  }

  function Next(a: Auto, c: char): Auto {
    match a.mode
    case BeginValue => if IsWs(c) then a else StartValue(c, a.stack)
    case OpenArr => if IsWs(c) then a else if c == ']' then EndValue(c, a.stack) else StartValue(c, a.stack)
    case OpenObj =>
      if IsWs(c) then a
      else if c == '"' then a.(mode := InStr(true))
      else if c == '}' then EndValue(c, a.stack)
      else a.(mode := Bad)
    case BeginKey => if IsWs(c) then a else if c == '"' then a.(mode := InStr(true)) else a.(mode := Bad)
    case AfterKey => if IsWs(c) then a else if c == ':' then a.(mode := BeginValue) else a.(mode := Bad)
    case AfterValue => EndValue(c, a.stack)
    case InStr(key) =>
      if c == '"' then a.(mode := if key then AfterKey else AfterValue)
      else if c == '\\' then a.(mode := InEsc(key))
      else if c < ' ' then a.(mode := Bad)
      else a
    case InEsc(key) =>
      if c == 'u' then a.(mode := InHex(key, 4))
      else if IsShort(c) then a.(mode := InStr(key))
      else a.(mode := Bad)
    case InHex(key, left) =>
      if !IsHex(c) then a.(mode := Bad)
      else if left <= 1 then a.(mode := InStr(key))
      else a.(mode := InHex(key, left - 1))
    case InNum(p) =>
      var n := NextPhase(p, c);
      if n != [] then a.(mode := InNum(n[0]))
      else if Final(p) then EndValue(c, a.stack)
      else a.(mode := Bad)
    case InWord(rest) =>
      if rest == [] || c != rest[0] then a.(mode := Bad)
      else a.(mode := if |rest| == 1 then AfterValue else InWord(rest[1..]))
    case Bad => a
  }

  function Feed(a: Auto, s: string): Auto
    decreases s
  {
    if s == [] then a else Feed(Next(a, s[0]), s[1..])
  }

  /** A complete value has been read; only whitespace, a comma or a closer may follow. */
  predicate Complete(m: Mode) {
    m == AfterValue || (m.InNum? && Final(m.phase))
  }

  predicate Accepting(a: Auto) {
    Complete(a.mode) && a.stack == []
  }

  /** `json.Valid` */
  predicate Valid(s: string) {
    Accepting(Feed(INIT, s))
  }

  lemma {:induction false} FeedCat(a: Auto, s: string, t: string)
    ensures Feed(a, s + t) == Feed(Feed(a, s), t)
    decreases s
  {
    if s == [] {
      assert s + t == t;
    } else {
      assert (s + t)[1..] == s[1..] + t;
      FeedCat(Next(a, s[0]), s[1..], t);
    }
  }

  lemma {:induction false} FeedOne(a: Auto, c: char)
    ensures Feed(a, [c]) == Next(a, c)
  {
    assert Feed(Next(a, c), [c][1..]) == Next(a, c);
  }

  lemma {:induction false} FeedCons(a: Auto, c: char, s: string)
    ensures Feed(a, [c] + s) == Feed(Next(a, c), s)
  {
    assert ([c] + s)[1..] == s;
  }

  lemma {:induction false} FeedSnoc(a: Auto, s: string, c: char)
    ensures Feed(a, s + [c]) == Next(Feed(a, s), c)
  {
    FeedCat(a, s, [c]);
    FeedOne(Feed(a, s), c);
  }

  lemma {:induction false} BadStays(a: Auto, s: string)
    requires a.mode == Bad
    ensures Feed(a, s) == a
    decreases s
  {
    if s != [] {
      BadStays(a, s[1..]);
    }
  }

  predicate Patient(m: Mode) {
    m == BeginValue || m == OpenArr || m == OpenObj || m == BeginKey || m == AfterKey || m == AfterValue
  }

  /** Whitespace between tokens changes nothing. */
  lemma {:induction false} FeedWs(a: Auto, w: string)
    requires Patient(a.mode) && AllWs(w)
    ensures Feed(a, w) == a
    decreases w
  {
    if w != [] {
      FeedWs(a, w[1..]);
    }
  }

  lemma {:induction false} CompleteWs(a: Auto, w: string)
    requires Complete(a.mode) && AllWs(w)
    ensures Complete(Feed(a, w).mode) && Feed(a, w).stack == a.stack
  {
    if w != [] {
      FeedWs(Auto(AfterValue, a.stack), w[1..]);
    }
  }

  // ---------------------------------------------------------------- every tree is accepted

  lemma {:induction false} FeedUnits(key: bool, k: string, us: seq<Unit>)
    requires WfUnits(us)
    ensures Feed(Auto(InStr(key), k), UnitsText(us)) == Auto(InStr(key), k)
    decreases us
  {
    if us != [] {
      var a := Auto(InStr(key), k);
      FeedUnits(key, k, us[1..]);
      FeedCat(a, UnitText(us[0]), UnitsText(us[1..]));
      FeedUnit(key, k, us[0]);
    }
  }

  lemma {:induction false} FeedHex(key: bool, n: nat, k: string, h: string)
    requires 1 <= n <= 4 && |h| == n && forall i :: 0 <= i < n ==> IsHex(h[i])
    ensures Feed(Auto(InHex(key, n), k), h) == Auto(InStr(key), k)
    decreases n
  {
    assert h == [h[0]] + h[1..];
    if n == 1 {
      FeedOne(Auto(InHex(key, n), k), h[0]);
    } else {
      FeedCons(Auto(InHex(key, n), k), h[0], h[1..]);
      FeedHex(key, n - 1, k, h[1..]);
    }
  }

  lemma {:induction false} FeedEscape(key: bool, k: string, c: char, t: string)
    ensures Feed(Auto(InStr(key), k), ['\\', c] + t) == Feed(Next(Auto(InEsc(key), k), c), t)
  {
    assert ['\\', c] + t == ['\\'] + ([c] + t);
    FeedCons(Auto(InStr(key), k), '\\', [c] + t);
    FeedCons(Auto(InEsc(key), k), c, t);
  }

  lemma {:induction false} FeedUnit(key: bool, k: string, u: Unit)
    requires WfUnit(u)
    ensures Feed(Auto(InStr(key), k), UnitText(u)) == Auto(InStr(key), k)
  {
    match u
    case Plain(c) => FeedOne(Auto(InStr(key), k), c);
    case Short(c) =>
      assert UnitText(u) == ['\\', c] + [];
      FeedEscape(key, k, c, []);
    case Hex(h) =>
      assert UnitText(u) == ['\\', 'u'] + h;
      FeedEscape(key, k, 'u', h);
      FeedHex(key, 4, k, h);
  }

  lemma {:induction false} FeedQuoted(a: Auto, key: bool, us: seq<Unit>)
    requires WfUnits(us) && Next(a, '"') == Auto(InStr(key), a.stack)
    ensures Feed(a, Quoted(us)) == Auto(if key then AfterKey else AfterValue, a.stack)
  {
    assert Quoted(us) == ['"'] + (UnitsText(us) + ['"']);
    FeedCons(a, '"', UnitsText(us) + ['"']);
    FeedUnits(key, a.stack, us);
    FeedCat(Auto(InStr(key), a.stack), UnitsText(us), ['"']);
    FeedOne(Auto(InStr(key), a.stack), '"');
  }

  lemma {:induction false} FeedDigits(p: Phase, k: string, ds: string)
    requires AllDigits(ds) && (p == Int || p == Frac || p == Power)
    ensures Feed(Auto(InNum(p), k), ds) == Auto(InNum(p), k)
    decreases ds
  {
    if ds != [] {
      FeedDigits(p, k, ds[1..]);
    }
  }

  predicate WantsValue(m: Mode) {
    m == BeginValue || m == OpenArr
  }

  lemma {:induction false} FeedInt(a: Auto, n: Number)
    requires WantsValue(a.mode) && WfNumber(n)
    ensures var t := (if n.neg then ['-'] else []) + n.whole;
            Feed(a, t) == Auto(InNum(if n.whole[0] == '0' then Zero else Int), a.stack)
  {
    var b := if n.neg then Auto(InNum(Minus), a.stack) else a;
    var t := (if n.neg then ['-'] else []) + n.whole;
    if n.neg {
      FeedCons(a, '-', n.whole);
    } else {
      assert t == n.whole;
    }
    assert n.whole == [n.whole[0]] + n.whole[1..];
    FeedCons(b, n.whole[0], n.whole[1..]);
    if n.whole[0] != '0' {
      FeedDigits(Int, a.stack, n.whole[1..]);
    }
  }

  lemma {:induction false} FeedFrac(a: Auto, ds: string)
    requires a.mode == InNum(Zero) || a.mode == InNum(Int)
    requires AllDigits(ds)
    ensures Feed(a, if ds == [] then [] else ['.'] + ds) == (if ds == [] then a else Auto(InNum(Frac), a.stack))
  {
    if ds != [] {
      FeedCons(a, '.', ds);
      assert ds == [ds[0]] + ds[1..];
      FeedCons(Auto(InNum(Point), a.stack), ds[0], ds[1..]);
      FeedDigits(Frac, a.stack, ds[1..]);
    }
  }

  lemma {:induction false} FeedExpo(a: Auto, e: Expo)
    requires a.mode == InNum(Zero) || a.mode == InNum(Int) || a.mode == InNum(Frac)
    requires WfNumber(Number(false, "0", "", e))
    ensures Feed(a, ExpoText(e)) == (if e == NoExpo then a else Auto(InNum(Power), a.stack))
  {
    if e.Expo? {
      var b := Auto(InNum(Mark), a.stack);
      FeedSign(b, e.sign);
      FeedPower(Feed(b, e.sign), e.digits);
      FeedOne(a, e.mark);
      FeedCat(a, [e.mark], e.sign);
      FeedCat(a, [e.mark] + e.sign, e.digits);
    }
  }

  lemma {:induction false} FeedSign(a: Auto, sign: string)
    requires a.mode == InNum(Mark) && (sign == [] || sign == ['+'] || sign == ['-'])
    ensures Feed(a, sign) == (if sign == [] then a else Auto(InNum(Sign), a.stack))
  {
    if sign != [] {
      FeedOne(a, sign[0]);
    }
  }

  lemma {:induction false} FeedPower(a: Auto, ds: string)
    requires (a.mode == InNum(Mark) || a.mode == InNum(Sign)) && ds != [] && AllDigits(ds)
    ensures Feed(a, ds) == Auto(InNum(Power), a.stack)
  {
    FeedDigits(Power, a.stack, ds[1..]);
  }

  lemma {:induction false} FeedNumber(a: Auto, n: Number)
    requires WantsValue(a.mode) && WfNumber(n)
    ensures Complete(Feed(a, NumberText(n)).mode) && Feed(a, NumberText(n)).stack == a.stack
  {
    var i := (if n.neg then ['-'] else []) + n.whole;
    var f := if n.frac == [] then [] else ['.'] + n.frac;
    FeedInt(a, n);
    FeedFrac(Feed(a, i), n.frac);
    FeedExpo(Feed(Feed(a, i), f), n.expo);
    FeedCat(a, i, f);
    FeedCat(a, i + f, ExpoText(n.expo));
  }

  lemma {:induction false} FeedWord(a: Auto, w: string)
    requires WantsValue(a.mode) && (w == "null" || w == "true" || w == "false")
    ensures Feed(a, w) == Auto(AfterValue, a.stack)
  {
    var k := a.stack;
    if w == "null" {
      FeedLetters("ull", k);
    } else if w == "true" {
      FeedLetters("rue", k);
    } else {
      FeedLetters("alse", k);
    }
  }

  lemma {:induction false} FeedLetters(rest: string, k: string)
    requires rest != []
    ensures Feed(Auto(InWord(rest), k), rest) == Auto(AfterValue, k)
    decreases rest
  {
    if |rest| > 1 {
      FeedLetters(rest[1..], k);
    } else {
      assert rest == [rest[0]];
      FeedOne(Auto(InWord(rest), k), rest[0]);
    }
  }

  predicate Finished(a: Auto, k: string) {
    Complete(a.mode) && a.stack == k
  }

  lemma {:induction false} FeedValue(a: Auto, v: Value)
    requires WantsValue(a.mode) && WfValue(v)
    ensures Finished(Feed(a, Text(v)), a.stack)
    decreases v
  {
    var k := a.stack;
    match v
    case Word(text) => FeedWord(a, text);
    case Num(number) => FeedNumber(a, number);
    case Str(units) => FeedQuoted(a, false, units);
    case EmptyArr(pad) =>
      var o := Auto(OpenArr, k + "]");
      FeedWs(o, pad);
      FeedBracketed(a, '[', pad, ']', o);
    case EmptyObj(pad) =>
      var o := Auto(OpenObj, k + "}");
      FeedWs(o, pad);
      FeedBracketed(a, '{', pad, '}', o);
    case Arr(first, rest) => FeedArr(a, first, rest);
    case Obj(member, more) => FeedObj(a, member, more);
  }

  lemma {:induction false} Enclosed(open: string, a: string, b: string, close: string)
    ensures open + a + b + close == open + (a + b) + close
    ensures open + a + b == open + (a + b)
  {
  }

  lemma {:induction false} FeedArr(a: Auto, first: Item, rest: Items)
    requires WantsValue(a.mode) && WfItem(first) && WfItems(rest)
    ensures Feed(a, Text(Arr(first, rest))) == Auto(AfterValue, a.stack)
    decreases Arr(first, rest), 0
  {
    var o := Auto(OpenArr, a.stack + "]");
    FeedItem(o, first);
    FeedItems(Feed(o, ItemText(first)), rest);
    FeedCat(o, ItemText(first), ItemsText(rest));
    FeedBracketed(a, '[', ItemText(first) + ItemsText(rest), ']', o);
    Enclosed(['['], ItemText(first), ItemsText(rest), [']']);
  }

  lemma {:induction false} FeedObj(a: Auto, member: Member, more: Members)
    requires WantsValue(a.mode) && WfMember(member) && WfMembers(more)
    ensures Feed(a, Text(Obj(member, more))) == Auto(AfterValue, a.stack)
    decreases Obj(member, more), 0
  {
    var o := Auto(OpenObj, a.stack + "}");
    FeedMember(o, member);
    FeedMembers(Feed(o, MemberText(member)), more);
    FeedCat(o, MemberText(member), MembersText(more));
    FeedBracketed(a, '{', MemberText(member) + MembersText(more), '}', o);
    Enclosed(['{'], MemberText(member), MembersText(more), ['}']);
  }

  /** Once everything inside a bracket has been read, its closer ends the bracketed value. */
  lemma {:induction false} CloseStep(a: Auto, k: string, close: char)
    requires (close == ']' || close == '}') && a.stack == k + [close]
    requires Complete(a.mode) || (a.mode == OpenArr && close == ']') || (a.mode == OpenObj && close == '}')
    ensures Next(a, close) == Auto(AfterValue, k)
  {
    assert a.stack[..|a.stack| - 1] == k;
  }

  lemma {:induction false} FeedBracketed(a: Auto, open: char, body: string, close: char, o: Auto)
    requires Next(a, open) == o && (close == ']' || close == '}') && o.stack == a.stack + [close]
    requires var b := Feed(o, body);
             b.stack == o.stack &&
             (Complete(b.mode) || (b.mode == OpenArr && close == ']') || (b.mode == OpenObj && close == '}'))
    ensures Feed(a, [open] + body + [close]) == Auto(AfterValue, a.stack)
  {
    assert [open] + body + [close] == [open] + (body + [close]);
    FeedCons(a, open, body + [close]);
    FeedCat(o, body, [close]);
    FeedOne(Feed(o, body), close);
    CloseStep(Feed(o, body), a.stack, close);
  }

  lemma {:induction false} FeedItem(a: Auto, it: Item)
    requires WantsValue(a.mode) && WfItem(it)
    ensures Finished(Feed(a, ItemText(it)), a.stack)
    decreases it
  {
    FeedWs(a, it.before);
    FeedValue(a, it.value);
    CompleteWs(Feed(a, Text(it.value)), it.after);
    FeedCat(a, it.before, Text(it.value));
    FeedCat(a, it.before + Text(it.value), it.after);
  }

  lemma {:induction false} FeedItems(a: Auto, its: Items)
    requires Complete(a.mode) && a.stack != [] && a.stack[|a.stack| - 1] == ']' && WfItems(its)
    ensures Finished(Feed(a, ItemsText(its)), a.stack)
    decreases its
  {
    if its.Items? {
      var b := Auto(BeginValue, a.stack);
      Enclosed([','], ItemText(its.head), ItemsText(its.tail), []);
      FeedCons(a, ',', ItemText(its.head) + ItemsText(its.tail));
      FeedItem(b, its.head);
      FeedItems(Feed(b, ItemText(its.head)), its.tail);
      FeedCat(b, ItemText(its.head), ItemsText(its.tail));
    }
  }

  lemma {:induction false} FeedMember(a: Auto, m: Member)
    requires (a.mode == OpenObj || a.mode == BeginKey) && WfMember(m)
    ensures Finished(Feed(a, MemberText(m)), a.stack)
    decreases m
  {
    FeedMemberKey(a, m);
    FeedItem(Auto(BeginValue, a.stack), m.item);
    FeedCat(a, m.before + Quoted(m.key) + m.between + [':'], ItemText(m.item));
  }

  lemma {:induction false} FeedMemberKey(a: Auto, m: Member)
    requires (a.mode == OpenObj || a.mode == BeginKey) && WfMember(m)
    ensures Feed(a, m.before + Quoted(m.key) + m.between + [':']) == Auto(BeginValue, a.stack)
  {
    var h := Auto(AfterKey, a.stack);
    FeedWs(a, m.before);
    FeedQuoted(a, true, m.key);
    FeedWs(h, m.between);
    FeedOne(h, ':');
    FeedCat(a, m.before, Quoted(m.key));
    FeedCat(a, m.before + Quoted(m.key), m.between);
    FeedCat(a, m.before + Quoted(m.key) + m.between, [':']);
  }

  lemma {:induction false} FeedMembers(a: Auto, ms: Members)
    requires Complete(a.mode) && a.stack != [] && a.stack[|a.stack| - 1] == '}' && WfMembers(ms)
    ensures Finished(Feed(a, MembersText(ms)), a.stack)
    decreases ms
  {
    if ms.Members? {
      var b := Auto(BeginKey, a.stack);
      Enclosed([','], MemberText(ms.head), MembersText(ms.tail), []);
      FeedCons(a, ',', MemberText(ms.head) + MembersText(ms.tail));
      FeedMember(b, ms.head);
      FeedMembers(Feed(b, MemberText(ms.head)), ms.tail);
      FeedCat(b, MemberText(ms.head), MembersText(ms.tail));
    }
  }
}
