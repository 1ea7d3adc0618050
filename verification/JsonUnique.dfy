/**
 The JSON grammar is unambiguous: a text has at most one concrete syntax tree, so the
 document behind a text is well defined.
 */
module JsonUnique {
  import opened JsonScan
  import opened Texts
  import opened JsonGrammar

  /** What can follow a value, and what can follow a value and its whitespace. */
  predicate Stop(r: string) {
    r == [] || IsWs(r[0]) || End(r)
  }

  predicate End(r: string) {
    r == [] || r[0] == ',' || r[0] == ']' || r[0] == '}'
  }

  lemma Cancel(a: string, b: string, c: string)
    requires a + b == a + c
    ensures b == c
  {
    assert b == (a + b)[|a|..];
    assert c == (a + c)[|a|..];
  }

  lemma {:induction false} SplitWs(w: string, t: string, x: string, u: string)
    requires w + t == x + u && AllWs(w) && AllWs(x)
    requires (t == [] || !IsWs(t[0])) && (u == [] || !IsWs(u[0]))
    ensures w == x && t == u
    decreases w
  {
    if w == [] || x == [] {
      assert w == [] ==> t == x + u;
      assert x == [] ==> w + t == u;
    } else {
      assert w[0] == (w + t)[0] == x[0];
      assert w[1..] + t == (w + t)[1..] && x[1..] + u == (x + u)[1..];
      SplitWs(w[1..], t, x[1..], u);
    }
  }

  lemma {:induction false} SplitDigits(w: string, t: string, x: string, u: string)
    requires w + t == x + u && AllDigits(w) && AllDigits(x)
    requires (t == [] || !IsDigit(t[0])) && (u == [] || !IsDigit(u[0]))
    ensures w == x && t == u
    decreases w
  {
    if w == [] || x == [] {
      assert w == [] ==> t == x + u;
      assert x == [] ==> w + t == u;
    } else {
      assert w[0] == (w + t)[0] == x[0];
      assert w[1..] + t == (w + t)[1..] && x[1..] + u == (x + u)[1..];
      SplitDigits(w[1..], t, x[1..], u);
    }
  }

  lemma {:induction false} UniqueUnit(u: Unit, r: string, v: Unit, s: string)
    requires WfUnit(u) && WfUnit(v) && UnitText(u) + r == UnitText(v) + s
    ensures u == v && r == s
  {
    var t := UnitText(u) + r;
    assert t[0] == UnitText(u)[0] == UnitText(v)[0];
    if !u.Plain? {
      assert t[1] == UnitText(u)[1] == UnitText(v)[1];
      if u.Hex? {
        assert u.h == t[2..6] && v.h == t[2..6];
      }
    }
    Cancel(UnitText(u), r, s);
  }

  /** A quote right away means no units. */
  lemma {:induction false} UnitsHead(us: seq<Unit>, r: string)
    requires WfUnits(us)
    ensures (UnitsText(us) + (['"'] + r))[0] == '"' <==> us == []
  {
    if us != [] {
      assert (UnitsText(us) + (['"'] + r))[0] == UnitText(us[0])[0];
    }
  }

  lemma {:induction false} UniqueUnits(us: seq<Unit>, r: string, vs: seq<Unit>, s: string)
    requires WfUnits(us) && WfUnits(vs) && UnitsText(us) + (['"'] + r) == UnitsText(vs) + (['"'] + s)
    ensures us == vs && r == s
    decreases us
  {
    if us == [] || vs == [] {
      UnitsHead(us, r);
      UnitsHead(vs, s);
      assert UnitsText([]) + (['"'] + r) == ['"'] + r && UnitsText([]) + (['"'] + s) == ['"'] + s;
      Cancel(['"'], r, s);
    } else {
      Glue3(UnitText(us[0]), UnitsText(us[1..]), ['"'] + r);
      Glue3(UnitText(vs[0]), UnitsText(vs[1..]), ['"'] + s);
      UniqueUnit(us[0], UnitsText(us[1..]) + (['"'] + r), vs[0], UnitsText(vs[1..]) + (['"'] + s));
      UniqueUnits(us[1..], r, vs[1..], s);
    }
  }

  lemma {:induction false} QuotedText(us: seq<Unit>, r: string)
    ensures Quoted(us) + r == ['"'] + (UnitsText(us) + (['"'] + r))
  {
    Glue3(['"'] + UnitsText(us), ['"'], r);
    Glue3(['"'], UnitsText(us), ['"'] + r);
  }

  lemma {:induction false} UniqueQuoted(us: seq<Unit>, r: string, vs: seq<Unit>, s: string)
    requires WfUnits(us) && WfUnits(vs) && Quoted(us) + r == Quoted(vs) + s
    ensures us == vs && r == s
  {
    QuotedText(us, r);
    QuotedText(vs, s);
    Cancel(['"'], UnitsText(us) + (['"'] + r), UnitsText(vs) + (['"'] + s));
    UniqueUnits(us, r, vs, s);
  }

  // ---------------------------------------------------------------- numbers

  function Fraction(f: string): string {
    if f == [] then [] else ['.'] + f
  }

  lemma {:induction false} UniqueExpo(e: Expo, r: string, f: Expo, s: string)
    requires WfExpo(e) && WfExpo(f) && Stop(r) && Stop(s) && ExpoText(e) + r == ExpoText(f) + s
    ensures e == f && r == s
  {
    var t := ExpoText(e) + r;
    assert e.Expo? ==> t[0] == e.mark;
    assert f.Expo? ==> t[0] == f.mark;
    if e.NoExpo? || f.NoExpo? {
      assert e.NoExpo? ==> t == r;
      assert f.NoExpo? ==> t == s;
    } else {
      Glue3([e.mark], e.sign, e.digits);
      Glue3([f.mark], f.sign, f.digits);
      Glue3([e.mark], e.sign + e.digits, r);
      Glue3([f.mark], f.sign + f.digits, s);
      Cancel([e.mark], e.sign + e.digits + r, f.sign + f.digits + s);
      UniqueSigned(e.sign, e.digits, r, f.sign, f.digits, s);
    }
  }

  lemma {:induction false} UniqueSigned(a: string, d: string, r: string, b: string, f: string, s: string)
    requires (a == [] || a == ['+'] || a == ['-']) && (b == [] || b == ['+'] || b == ['-'])
    requires d != [] && AllDigits(d) && f != [] && AllDigits(f) && Stop(r) && Stop(s)
    requires a + d + r == b + f + s
    ensures a == b && d == f && r == s
  {
    var t := a + d + r;
    assert t[0] == if a == [] then d[0] else a[0];
    assert t[0] == if b == [] then f[0] else b[0];
    Glue3(a, d, r);
    Glue3(b, f, s);
    Cancel(a, d + r, f + s);
    SplitDigits(d, r, f, s);
  }

  lemma {:induction false} UniqueFraction(f: string, e: Expo, r: string, g: string, h: Expo, s: string)
    requires AllDigits(f) && AllDigits(g) && WfExpo(e) && WfExpo(h) && Stop(r) && Stop(s)
    requires Fraction(f) + (ExpoText(e) + r) == Fraction(g) + (ExpoText(h) + s)
    ensures f == g && e == h && r == s
  {
    var a, b := ExpoText(e) + r, ExpoText(h) + s;
    assert f == [] ==> Fraction(f) + a == a;
    assert g == [] ==> Fraction(g) + b == b;
    assert a == [] || (a[0] != '.' && !IsDigit(a[0]));
    assert b == [] || (b[0] != '.' && !IsDigit(b[0]));
    if f != [] && g != [] {
      Glue3(['.'], f, a);
      Glue3(['.'], g, b);
      Cancel(['.'], f + a, g + b);
      SplitDigits(f, a, g, b);
    }
    UniqueExpo(e, r, h, s);
  }

  lemma {:induction false} UniqueNumber(m: Number, r: string, n: Number, s: string)
    requires WfNumber(m) && WfNumber(n) && Stop(r) && Stop(s) && NumberText(m) + r == NumberText(n) + s
    ensures m == n && r == s
  {
    NumberSplit(m, r);
    NumberSplit(n, s);
    var a, b := AfterWhole(m, r), AfterWhole(n, s);
    UniqueWhole(m.neg, m.whole, a, n.neg, n.whole, b);
    UniqueFraction(m.frac, m.expo, r, n.frac, n.expo, s);
  }

  function Minus(neg: bool): string {
    if neg then ['-'] else []
  }

  function AfterWhole(n: Number, r: string): string {
    Fraction(n.frac) + (ExpoText(n.expo) + r)
  }

  lemma {:induction false} NumberSplit(n: Number, r: string)
    requires WfNumber(n) && Stop(r)
    ensures NumberText(n) + r == Minus(n.neg) + (n.whole + AfterWhole(n, r))
    ensures AfterWhole(n, r) == [] || !IsDigit(AfterWhole(n, r)[0])
  {
    var f, e := Fraction(n.frac), ExpoText(n.expo);
    Glue3(Minus(n.neg) + n.whole + f, e, r);
    Glue3(Minus(n.neg) + n.whole, f, e + r);
    Glue3(Minus(n.neg), n.whole, f + (e + r));
  }

  lemma {:induction false} UniqueWhole(p: bool, w: string, a: string, q: bool, x: string, b: string)
    requires w != [] && AllDigits(w) && x != [] && AllDigits(x)
    requires (a == [] || !IsDigit(a[0])) && (b == [] || !IsDigit(b[0]))
    requires Minus(p) + (w + a) == Minus(q) + (x + b)
    ensures p == q && w == x && a == b
  {
    var t := Minus(p) + (w + a);
    assert t[0] == if p then '-' else w[0];
    assert t[0] == if q then '-' else x[0];
    Cancel(Minus(p), w + a, x + b);
    SplitDigits(w, a, x, b);
  }

  // ---------------------------------------------------------------- values

  /** The first character of a value tells which kind of value it is. */
  function Kind(c: char): nat {
    if c == '"' then 0 else if c == '[' then 1 else if c == '{' then 2 else if c == '-' || IsDigit(c) then 3 else 4
  }

  function KindOf(v: Value): nat {
    match v
    case Word(_) => 4
    case Num(_) => 3
    case Str(_) => 0
    case EmptyArr(_) => 1
    case Arr(_, _) => 1
    case EmptyObj(_) => 2
    case Obj(_, _) => 2
  }

  lemma {:induction false} TextHead(v: Value)
    requires WfValue(v)
    ensures Text(v) != [] && Kind(Text(v)[0]) == KindOf(v) && !IsWs(Text(v)[0])
    ensures Text(v)[0] != ',' && Text(v)[0] != ']' && Text(v)[0] != '}'
  {
  }

  lemma {:induction false} UniqueWord(w: string, r: string, x: string, s: string)
    requires WfValue(Word(w)) && WfValue(Word(x)) && w + r == x + s
    ensures w == x && r == s
  {
    assert (w + r)[0] == w[0] == x[0];
    Cancel(w, r, s);
  }

  lemma {:induction false} UniqueValue(a: Value, r: string, b: Value, s: string)
    requires WfValue(a) && WfValue(b) && Stop(r) && Stop(s) && Text(a) + r == Text(b) + s
    ensures a == b && r == s
    decreases |Text(a)|, 0
  {
    TextHead(a);
    TextHead(b);
    assert (Text(a) + r)[0] == Text(a)[0] == Text(b)[0];
    match a
    case Word(w) => UniqueWord(w, r, b.text, s);
    case Num(n) => UniqueNumber(n, r, b.number, s);
    case Str(us) => UniqueQuoted(us, r, b.units, s);
    case EmptyArr(_) => UniqueArr(a, r, b, s);
    case Arr(_, _) => UniqueArr(a, r, b, s);
    case EmptyObj(_) => UniqueObj(a, r, b, s);
    case Obj(_, _) => UniqueObj(a, r, b, s);
  }

  /** The text of a bracketed value after its opening bracket. */
  function ArrTail(v: Value): string
    requires v.EmptyArr? || v.Arr?
  {
    if v.EmptyArr? then v.pad + [']'] else ItemText(v.first) + (ItemsText(v.rest) + [']'])
  }

  lemma {:induction false} BracketText(o: string, a: string, b: string, c: string)
    ensures o + a + b + c == o + (a + (b + c))
  {
  }

  lemma {:induction false} ArrText(v: Value, r: string)
    requires v.EmptyArr? || v.Arr?
    ensures Text(v) + r == ['['] + (ArrTail(v) + r) && |Text(v)| == 1 + |ArrTail(v)|
  {
    if v.Arr? {
      BracketText(['['], ItemText(v.first), ItemsText(v.rest), [']']);
    } else {
      Glue3(['['], v.pad, [']']);
    }
    Glue3(['['], ArrTail(v), r);
  }

  lemma {:induction false} UniqueArr(a: Value, r: string, b: Value, s: string)
    requires WfValue(a) && WfValue(b) && (a.EmptyArr? || a.Arr?) && (b.EmptyArr? || b.Arr?)
    requires Stop(r) && Stop(s) && Text(a) + r == Text(b) + s
    ensures a == b && r == s
    decreases |Text(a)| - 1, 3
  {
    ArrText(a, r);
    ArrText(b, s);
    Cancel(['['], ArrTail(a) + r, ArrTail(b) + s);
    if a.EmptyArr? {
      Glue3(a.pad, [']'], r);
      if b.EmptyArr? {
        Glue3(b.pad, [']'], s);
        SplitWs(a.pad, [']'] + r, b.pad, [']'] + s);
        Cancel([']'], r, s);
      } else {
        NotEmpty(a.pad, ']', r, b.first, ItemsText(b.rest) + [']'], s);
        assert false;
      }
    } else if b.EmptyArr? {
      Glue3(b.pad, [']'], s);
      NotEmpty(b.pad, ']', s, a.first, ItemsText(a.rest) + [']'], r);
      assert false;
    } else {
      var x, y := ItemsText(a.rest) + [']'] + r, ItemsText(b.rest) + [']'] + s;
      Glue3(ItemText(a.first), ItemsText(a.rest) + [']'], r);
      Glue3(ItemText(b.first), ItemsText(b.rest) + [']'], s);
      UniqueItem(a.first, x, b.first, y);
      Glue3(ItemsText(a.rest), [']'], r);
      Glue3(ItemsText(b.rest), [']'], s);
      UniqueItems(a.rest, r, b.rest, s);
    }
  }

  /** Padding and a closer are never the start of an item. */
  lemma {:induction false} NotEmpty(pad: string, c: char, r: string, it: Item, x: string, s: string)
    requires AllWs(pad) && (c == ']' || c == '}') && WfItem(it)
    ensures pad + ([c] + r) != ItemText(it) + x + s
  {
    var t := Text(it.value) + (it.after + x + s);
    TextHead(it.value);
    assert ItemText(it) + x + s == it.before + t;
    if pad + ([c] + r) == it.before + t {
      SplitWs(pad, [c] + r, it.before, t);
      assert false;
    }
  }

  lemma {:induction false} UniqueItem(a: Item, r: string, b: Item, s: string)
    requires WfItem(a) && WfItem(b) && End(r) && End(s) && ItemText(a) + r == ItemText(b) + s
    ensures a == b && r == s
    decreases |ItemText(a)|, 1
  {
    TextHead(a.value);
    TextHead(b.value);
    var x, y := a.after + r, b.after + s;
    Glue3(a.before + Text(a.value), a.after, r);
    Glue3(b.before + Text(b.value), b.after, s);
    Glue3(a.before, Text(a.value), x);
    Glue3(b.before, Text(b.value), y);
    SplitWs(a.before, Text(a.value) + x, b.before, Text(b.value) + y);
    assert Stop(x) && Stop(y);
    UniqueValue(a.value, x, b.value, y);
    SplitWs(a.after, r, b.after, s);
  }

  lemma {:induction false} UniqueItems(a: Items, r: string, b: Items, s: string)
    requires WfItems(a) && WfItems(b) && ItemsText(a) + ([']'] + r) == ItemsText(b) + ([']'] + s)
    ensures a == b && r == s
    decreases |ItemsText(a)|, 2
  {
    var t := ItemsText(a) + ([']'] + r);
    assert t[0] == if a.NoItems? then ']' else ',';
    assert t[0] == if b.NoItems? then ']' else ',';
    if a.NoItems? {
      assert t == [']'] + r && t == [']'] + s;
      Cancel([']'], r, s);
    } else {
      var x, y := ItemsText(a.tail) + ([']'] + r), ItemsText(b.tail) + ([']'] + s);
      assert t == [','] + (ItemText(a.head) + x);
      assert t == [','] + (ItemText(b.head) + y);
      Cancel([','], ItemText(a.head) + x, ItemText(b.head) + y);
      UniqueItem(a.head, x, b.head, y);
      UniqueItems(a.tail, r, b.tail, s);
    }
  }

  function ObjTail(v: Value): string
    requires v.EmptyObj? || v.Obj?
  {
    if v.EmptyObj? then v.pad + ['}'] else MemberText(v.member) + (MembersText(v.more) + ['}'])
  }

  lemma {:induction false} ObjText(v: Value, r: string)
    requires v.EmptyObj? || v.Obj?
    ensures Text(v) + r == ['{'] + (ObjTail(v) + r) && |Text(v)| == 1 + |ObjTail(v)|
  {
    if v.Obj? {
      BracketText(['{'], MemberText(v.member), MembersText(v.more), ['}']);
    } else {
      Glue3(['{'], v.pad, ['}']);
    }
    Glue3(['{'], ObjTail(v), r);
  }

  lemma {:induction false} UniqueObj(a: Value, r: string, b: Value, s: string)
    requires WfValue(a) && WfValue(b) && (a.EmptyObj? || a.Obj?) && (b.EmptyObj? || b.Obj?)
    requires Stop(r) && Stop(s) && Text(a) + r == Text(b) + s
    ensures a == b && r == s
    decreases |Text(a)| - 1, 3
  {
    ObjText(a, r);
    ObjText(b, s);
    Cancel(['{'], ObjTail(a) + r, ObjTail(b) + s);
    if a.EmptyObj? {
      Glue3(a.pad, ['}'], r);
      if b.EmptyObj? {
        Glue3(b.pad, ['}'], s);
        SplitWs(a.pad, ['}'] + r, b.pad, ['}'] + s);
        Cancel(['}'], r, s);
      } else {
        NotEmptyObj(a.pad, r, b.member, MembersText(b.more) + ['}'], s);
        assert false;
      }
    } else if b.EmptyObj? {
      Glue3(b.pad, ['}'], s);
      NotEmptyObj(b.pad, s, a.member, MembersText(a.more) + ['}'], r);
      assert false;
    } else {
      var x, y := MembersText(a.more) + ['}'] + r, MembersText(b.more) + ['}'] + s;
      Glue3(MemberText(a.member), MembersText(a.more) + ['}'], r);
      Glue3(MemberText(b.member), MembersText(b.more) + ['}'], s);
      UniqueMember(a.member, x, b.member, y);
      Glue3(MembersText(a.more), ['}'], r);
      Glue3(MembersText(b.more), ['}'], s);
      UniqueMembers(a.more, r, b.more, s);
    }
  }

  /** The text of a member after its leading whitespace. */
  function MemberTail(m: Member, r: string): string {
    Quoted(m.key) + (m.between + ([':'] + (ItemText(m.item) + r)))
  }

  lemma {:induction false} MemberSplit(m: Member, r: string)
    ensures MemberText(m) + r == m.before + MemberTail(m, r)
    ensures MemberTail(m, r)[0] == '"'
  {
    var i := ItemText(m.item);
    Glue3(m.before + Quoted(m.key) + m.between + [':'], i, r);
    Glue3(m.before + Quoted(m.key) + m.between, [':'], i + r);
    Glue3(m.before + Quoted(m.key), m.between, [':'] + (i + r));
    Glue3(m.before, Quoted(m.key), m.between + ([':'] + (i + r)));
  }

  lemma {:induction false} NotEmptyObj(pad: string, r: string, m: Member, x: string, s: string)
    requires AllWs(pad) && WfMember(m)
    ensures pad + (['}'] + r) != MemberText(m) + x + s
  {
    Glue3(MemberText(m), x, s);
    MemberSplit(m, x + s);
    if pad + (['}'] + r) == m.before + MemberTail(m, x + s) {
      SplitWs(pad, ['}'] + r, m.before, MemberTail(m, x + s));
      assert false;
    }
  }

  lemma {:induction false} UniqueMember(a: Member, r: string, b: Member, s: string)
    requires WfMember(a) && WfMember(b) && End(r) && End(s) && MemberText(a) + r == MemberText(b) + s
    ensures a == b && r == s
    decreases |MemberText(a)|, 1
  {
    MemberSplit(a, r);
    MemberSplit(b, s);
    SplitWs(a.before, MemberTail(a, r), b.before, MemberTail(b, s));
    var x, y := [':'] + (ItemText(a.item) + r), [':'] + (ItemText(b.item) + s);
    UniqueQuoted(a.key, a.between + x, b.key, b.between + y);
    SplitWs(a.between, x, b.between, y);
    Cancel([':'], ItemText(a.item) + r, ItemText(b.item) + s);
    UniqueItem(a.item, r, b.item, s);
  }

  lemma {:induction false} UniqueMembers(a: Members, r: string, b: Members, s: string)
    requires WfMembers(a) && WfMembers(b) && MembersText(a) + (['}'] + r) == MembersText(b) + (['}'] + s)
    ensures a == b && r == s
    decreases |MembersText(a)|, 2
  {
    var t := MembersText(a) + (['}'] + r);
    assert t[0] == if a.NoMembers? then '}' else ',';
    assert t[0] == if b.NoMembers? then '}' else ',';
    if a.NoMembers? {
      assert t == ['}'] + r && t == ['}'] + s;
      Cancel(['}'], r, s);
    } else {
      var x, y := MembersText(a.tail) + (['}'] + r), MembersText(b.tail) + (['}'] + s);
      assert t == [','] + (MemberText(a.head) + x);
      assert t == [','] + (MemberText(b.head) + y);
      Cancel([','], MemberText(a.head) + x, MemberText(b.head) + y);
      UniqueMember(a.head, x, b.head, y);
      UniqueMembers(a.tail, r, b.tail, s);
    }
  }

  /** A text is the text of at most one document. */
  lemma {:induction false} UniqueDocument(a: Item, b: Item)
    requires WfItem(a) && WfItem(b) && ItemText(a) == ItemText(b)
    ensures a == b
  {
    assert ItemText(a) + [] == ItemText(a) && ItemText(b) + [] == ItemText(b);
    UniqueItem(a, [], b, []);
  }
}
