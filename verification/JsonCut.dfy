/**
 What the repair of a cut-off document means: the mended text is the text of the same
 document with everything after the cut left off.
 */
module JsonCut {
  import opened JsonScan
  import opened Texts
  import opened JsonGrammar
  import opened JsonAutomaton
  import opened JsonSound
  import opened JsonRepair
  import opened JsonMended

  // ---------------------------------------------------------------- truncated documents

  /** `u` is `v` with its end left off: a shorter string or number, or fewer elements, the last itself cut. */
  ghost predicate CutValue(u: Value, v: Value)
    decreases |Text(u)|, 0
  {
    match u
    case Word(_) => u == v
    case Num(n) => v.Num? && NumberText(n) <= NumberText(v.number)
    case Str(units) => v.Str? && units <= v.units
    case EmptyArr(pad) => (v.EmptyArr? && pad <= v.pad) || (v.Arr? && pad <= v.first.before)
    case Arr(first, rest) => v.Arr? && CutItems(first, rest, v.first, v.rest)
    case EmptyObj(pad) => (v.EmptyObj? && pad <= v.pad) || (v.Obj? && pad <= v.member.before)
    case Obj(member, more) => v.Obj? && CutMembers(member, more, v.member, v.more)
  }

  ghost predicate CutItem(u: Item, v: Item)
    decreases |ItemText(u)|, 1
  {
    u.before == v.before && CutValue(u.value, v.value) && u.after <= v.after
  }

  ghost predicate CutItems(f: Item, r: Items, f': Item, r': Items)
    decreases |ItemText(f)| + |ItemsText(r)|, 2
  {
    match r
    case NoItems => CutItem(f, f')
    case Items(head, tail) => f == f' && r'.Items? && CutItems(head, tail, r'.head, r'.tail)
  }

  const NULL_ITEM := Item("", Word("null"), "")

  /** A member keeps its key; a value cut off entirely reads `null`. */
  ghost predicate CutMember(u: Member, v: Member)
    decreases |MemberText(u)|, 1
  {
    u.before == v.before && u.key == v.key && u.between == v.between
    && (u.item == NULL_ITEM || CutItem(u.item, v.item))
  }

  ghost predicate CutMembers(f: Member, r: Members, f': Member, r': Members)
    decreases |MemberText(f)| + |MembersText(r)|, 2
  {
    match r
    case NoMembers => CutMember(f, f')
    case Members(head, tail) => f == f' && r'.Members? && CutMembers(head, tail, r'.head, r'.tail)
  }

  lemma {:induction false} CutRefl(v: Value)
    ensures CutValue(v, v)
    decreases |Text(v)|, 0
  {
    match v
    case Arr(first, rest) => CutItemsRefl(first, rest);
    case Obj(member, more) => CutMembersRefl(member, more);
    case _ =>
  }

  lemma {:induction false} CutItemsRefl(f: Item, r: Items)
    ensures CutItems(f, r, f, r)
    decreases |ItemText(f)| + |ItemsText(r)|, 2
  {
    match r
    case NoItems => CutRefl(f.value);
    case Items(head, tail) => CutItemsRefl(head, tail);
  }

  lemma {:induction false} CutMembersRefl(f: Member, r: Members)
    ensures CutMembers(f, r, f, r)
    decreases |MemberText(f)| + |MembersText(r)|, 2
  {
    match r
    case NoMembers =>
      assert |ItemText(f.item)| <= |MemberText(f)|;
      CutRefl(f.item.value);
    case Members(head, tail) => CutMembersRefl(head, tail);
  }

  // ---------------------------------------------------------------- slices

  /** A cut inside `a + b`. */
  lemma SliceCat(a: string, b: string, j: nat)
    requires j <= |a| + |b|
    ensures (a + b)[..j] == if j <= |a| then a[..j] else a + b[..j - |a|]
  {
  }

  lemma EmptyRight(a: string)
    ensures a + [] == a
  {
  }

  lemma ItemBlank(it: Item, rest: string, i: nat)
    requires i <= |it.before|
    ensures (ItemText(it) + rest)[..i] == it.before[..i]
  {
  }

  lemma MemberBlank(m: Member, rest: string, i: nat)
    requires i <= |m.before|
    ensures (MemberText(m) + rest)[..i] == m.before[..i]
  {
  }

  lemma Regroup(a: string, b: string, c: string, d: string)
    ensures a + b + (c + d) == a + (b + c) + d
  {
  }

  // ---------------------------------------------------------------- cuts inside tokens

  lemma {:induction false} WordPrefix(rest: string, k: string, m: nat)
    requires m < |rest|
    ensures Feed(Auto(InWord(rest), k), rest[..m]).mode.InWord?
    decreases rest
  {
    if m > 0 {
      assert rest[..m][1..] == rest[1..][..m - 1];
      WordPrefix(rest[1..], k, m - 1);
    }
  }

  lemma {:induction false} CutWord(a: Auto, w: string, m: nat)
    requires WantsValue(a.mode) && WfValue(Word(w)) && 0 < m < |w|
    ensures Feed(a, w[..m]).mode.InWord?
  {
    assert w[..m] == [w[0]] + w[1..][..m - 1];
    FeedCons(a, w[0], w[1..][..m - 1]);
    WordPrefix(w[1..], a.stack, m - 1);
    assert w[0] == 'n' ==> w[1..] == "ull";
    assert w[0] == 't' ==> w[1..] == "rue";
    assert w[0] == 'f' ==> w[1..] == "alse";
  }

  /** The units wholly before position `j`, and how far into the next one it lies. */
  lemma {:induction false} SplitUnits(us: seq<Unit>, j: nat) returns (i: nat, x: nat)
    requires j <= |UnitsText(us)|
    ensures i <= |us| && (i == |us| ==> x == 0) && (i < |us| ==> x < |UnitText(us[i])|)
    ensures UnitsText(us)[..j] == UnitsText(us[..i]) + (if x == 0 then [] else UnitText(us[i])[..x])
    decreases us
  {
    if us == [] {
      i, x := 0, 0;
    } else {
      SliceCat(UnitText(us[0]), UnitsText(us[1..]), j);
      if j < |UnitText(us[0])| {
        i, x := 0, j;
      } else {
        i, x := SplitUnits(us[1..], j - |UnitText(us[0])|);
        assert us[..i + 1] == [us[0]] + us[1..][..i];
        assert us[..i + 1][1..] == us[1..][..i];
        Glue3(UnitText(us[0]), UnitsText(us[1..][..i]), if x == 0 then [] else UnitText(us[i + 1])[..x]);
        i := i + 1;
      }
    }
  }

  lemma {:induction false} UnitPrefix(key: bool, k: string, u: Unit, x: nat)
    requires WfUnit(u) && 0 < x < |UnitText(u)|
    ensures var m := Feed(Auto(InStr(key), k), UnitText(u)[..x]);
            m.stack == k && (if x == 1 then m.mode == InEsc(key) else m.mode.InHex?)
  {
    var a := Auto(InStr(key), k);
    var t := UnitText(u)[..x];
    assert t[0] == '\\';
    assert t == ['\\'] + t[1..];
    FeedCons(a, '\\', t[1..]);
    if x > 1 {
      assert t[1..] == ['u'] + t[2..];
      FeedCons(Auto(InEsc(key), k), 'u', t[2..]);
      assert t[2..] == u.h[..x - 2];
      HexPrefix(key, k, 4, t[2..]);
    }
  }

  lemma {:induction false} HexPrefix(key: bool, k: string, n: nat, h: string)
    requires |h| < n && forall i :: 0 <= i < |h| ==> IsHex(h[i])
    ensures var m := Feed(Auto(InHex(key, n), k), h); m.stack == k && m.mode.InHex?
    decreases h
  {
    if h != [] {
      HexPrefix(key, k, n - 1, h[1..]);
    }
  }

  /** The state at a cut inside a string, with `us[..i]` read whole. */
  lemma {:induction false} UnitsPrefix(key: bool, k: string, us: seq<Unit>, j: nat) returns (i: nat, x: nat)
    requires WfUnits(us) && j <= |UnitsText(us)|
    ensures i <= |us| && (i == |us| ==> x == 0) && (i < |us| ==> x < |UnitText(us[i])|)
    ensures UnitsText(us)[..j] == UnitsText(us[..i]) + (if x == 0 then [] else UnitText(us[i])[..x])
    ensures var m := Feed(Auto(InStr(key), k), UnitsText(us)[..j]);
            m.stack == k && (if x == 0 then m.mode == InStr(key) else if x == 1 then m.mode == InEsc(key) else m.mode.InHex?)
  {
    i, x := SplitUnits(us, j);
    var a := Auto(InStr(key), k);
    FeedUnits(key, k, us[..i]);
    FeedCat(a, UnitsText(us[..i]), if x == 0 then [] else UnitText(us[i])[..x]);
    if x > 0 {
      UnitPrefix(key, k, us[i], x);
    }
  }

  predicate Numeric(s: string) {
    forall i :: 0 <= i < |s| ==> IsDigit(s[i]) || s[i] == '.' || s[i] == 'e' || s[i] == 'E' || s[i] == '+' || s[i] == '-'
  }

  lemma {:induction false} NumberTextNumeric(n: Number)
    requires WfNumber(n)
    ensures Numeric(NumberText(n)) && NumberText(n) != []
    ensures NumberText(n)[0] == '-' || IsDigit(NumberText(n)[0])
  {
    assert Numeric(ExpoText(n.expo));
    assert Numeric(if n.frac == [] then [] else ['.'] + n.frac);
  }

  /** Reading numeric characters inside a number stays inside it or fails, whatever the stack. */
  lemma {:induction false} NumericRun(p: Phase, k: string, s: string)
    requires Numeric(s) && Sane(Auto(InNum(p), k))
    ensures var m := Feed(Auto(InNum(p), k), s);
            m.stack == k && m.mode == Feed(Auto(InNum(p), ""), s).mode && (m.mode.InNum? || m.mode == Bad)
    decreases s
  {
    if s != [] {
      var n := NextPhase(p, s[0]);
      if n == [] {
        BadStays(Auto(Bad, k), s[1..]);
        BadStays(Auto(Bad, ""), s[1..]);
      } else {
        NumericRun(n[0], k, s[1..]);
      }
    }
  }

  /** A number is read the same way under every stack. */
  lemma {:induction false} NumericSame(a: Auto, q: string)
    requires WantsValue(a.mode) && Sane(a) && q != [] && (q[0] == '-' || IsDigit(q[0])) && Numeric(q)
    ensures var m := Feed(a, q); m.stack == a.stack && Feed(INIT, q) == Auto(m.mode, "") && (m.mode.InNum? || m.mode == Bad)
  {
    assert q == [q[0]] + q[1..];
    FeedCons(a, q[0], q[1..]);
    FeedCons(INIT, q[0], q[1..]);
    var b := StartValue(q[0], a.stack);
    NumericRun(b.mode.phase, a.stack, q[1..]);
    NumericRun(b.mode.phase, "", q[1..]);
  }

  lemma {:induction false} CutNumber(a: Auto, n: Number, m: nat) returns (u: Number)
    requires WantsValue(a.mode) && Sane(a) && WfNumber(n) && 0 < m <= |NumberText(n)|
    requires Mendable(Feed(a, NumberText(n)[..m]))
    ensures WfNumber(u) && NumberText(u) == NumberText(n)[..m]
    ensures Finished(Feed(a, NumberText(n)[..m]), a.stack)
  {
    var q := NumberText(n)[..m];
    NumberTextNumeric(n);
    NumericSame(a, q);
    var r;
    u, r := ParseNumber(INIT, q);
    if r != [] {
      assert q[|NumberText(u)|] == r[0];
      BadStays(Next(Auto(AfterValue, ""), r[0]), r[1..]);
      assert false;
    }
  }

  // ---------------------------------------------------------------- cuts inside values

  lemma {:induction false} ClosersPush(k: string, c: char)
    ensures Closers(k + [c]) == [c] + Closers(k)
  {
    assert (k + [c])[..|k + [c]| - 1] == k;
  }

  lemma {:induction false} FeedOpen(a: Auto, open: char, pad: string, close: char)
    requires WantsValue(a.mode) && AllWs(pad)
    requires (open == '[' && close == ']') || (open == '{' && close == '}')
    ensures Closable(Feed(a, [open] + pad).mode) && Feed(a, [open] + pad).stack == a.stack + [close]
  {
    FeedCons(a, open, pad);
    FeedWs(Next(a, open), pad);
  }

  lemma {:induction false} CutClosable(pre: string, t: string, k: string, close: char)
    requires Closable(Feed(INIT, pre + t).mode) && Feed(INIT, pre + t).stack == k + [close]
    ensures Candidate(pre + t) == pre + (t + [close]) + Closers(k)
  {
    CandidateClosable(pre + t);
    ClosersPush(k, close);
    Regroup(pre, t, [close], Closers(k));
  }

  /** A cut in an open bracket before its first element. */
  lemma {:induction false} CutPad(pre: string, a: Auto, open: char, pad: string, close: char, p: string)
    requires Feed(INIT, pre) == a && WantsValue(a.mode) && AllWs(pad) && p == pre + ([open] + pad)
    requires (open == '[' && close == ']') || (open == '{' && close == '}')
    ensures Candidate(p) == pre + ([open] + pad + [close]) + Closers(a.stack)
  {
    FeedOpen(a, open, pad, close);
    FeedCat(INIT, pre, [open] + pad);
    CutClosable(pre, [open] + pad, a.stack, close);
  }

  lemma {:induction false} CutString(pre: string, a: Auto, us: seq<Unit>, j: nat, p: string) returns (vs: seq<Unit>)
    requires Feed(INIT, pre) == a && WantsValue(a.mode) && WfUnits(us) && j <= |UnitsText(us)|
    requires p == pre + (['"'] + UnitsText(us)[..j]) && Mendable(Feed(INIT, p))
    ensures WfUnits(vs) && vs <= us && Candidate(p) == pre + Quoted(vs) + Closers(a.stack)
  {
    var q := UnitsText(us)[..j];
    var i, x := UnitsPrefix(false, a.stack, us, j);
    FeedCat(INIT, pre, ['"'] + q);
    FeedCons(a, '"', q);
    vs := us[..i];
    if x == 0 {
      assert q == UnitsText(vs);
      CutPlain(pre, a.stack, UnitsText(vs), p);
    } else {
      assert q == UnitsText(vs) + ['\\'];
      CutEscape(pre, a.stack, UnitsText(vs), p);
    }
  }

  lemma {:induction false} CutPlain(pre: string, k: string, t: string, p: string)
    requires Feed(INIT, p) == Auto(InStr(false), k) && p == pre + (['"'] + t)
    ensures Candidate(p) == pre + (['"'] + t + ['"']) + Closers(k)
  {
    CandidateInString(p);
    QuoteGlue(pre, t, Closers(k));
  }

  lemma {:induction false} CutEscape(pre: string, k: string, t: string, p: string)
    requires Feed(INIT, p) == Auto(InEsc(false), k) && p == pre + (['"'] + (t + ['\\']))
    ensures Candidate(p) == pre + (['"'] + t + ['"']) + Closers(k)
  {
    CandidateInEscape(p);
    DropLast(pre, t, '\\', p);
    QuoteGlue(pre, t, Closers(k));
  }

  lemma DropLast(pre: string, t: string, c: char, p: string)
    requires p == pre + (['"'] + (t + [c]))
    ensures p != [] && p[..|p| - 1] == pre + (['"'] + t)
  {
  }

  lemma QuoteGlue(pre: string, t: string, k: string)
    ensures pre + (['"'] + t) + ['"'] + k == pre + (['"'] + t + ['"']) + k
  {
  }

  /** A value read whole. */
  lemma {:induction false} CutWhole(pre: string, a: Auto, v: Value, p: string)
    requires Feed(INIT, pre) == a && WantsValue(a.mode) && WfValue(v) && p == pre + Text(v)
    ensures Candidate(p) == pre + Text(v) + Closers(a.stack)
  {
    FeedValue(a, v);
    FeedCat(INIT, pre, Text(v));
    CandidateClosable(p);
  }

  lemma {:induction false} CutAtNumber(pre: string, a: Auto, number: Number, m: nat, p: string) returns (u: Value)
    requires Feed(INIT, pre) == a && WantsValue(a.mode) && WfNumber(number) && 0 < m <= |NumberText(number)|
    requires p == pre + NumberText(number)[..m] && Mendable(Feed(INIT, p))
    ensures WfValue(u) && CutValue(u, Num(number)) && Candidate(p) == pre + Text(u) + Closers(a.stack)
  {
    FeedCat(INIT, pre, NumberText(number)[..m]);
    Reach(pre);
    var n := CutNumber(a, number, m);
    u := Num(n);
    CandidateClosable(p);
  }

  lemma {:induction false} CutAtString(pre: string, a: Auto, units: seq<Unit>, m: nat, p: string) returns (u: Value)
    requires Feed(INIT, pre) == a && WantsValue(a.mode) && WfUnits(units) && 0 < m < |Quoted(units)|
    requires p == pre + Quoted(units)[..m] && Mendable(Feed(INIT, p))
    ensures WfValue(u) && CutValue(u, Str(units)) && Candidate(p) == pre + Text(u) + Closers(a.stack)
  {
    QuotedPrefix(units, m);
    var vs := CutString(pre, a, units, m - 1, p);
    u := Str(vs);
  }

  lemma {:induction false} CutAtEmptyArr(pre: string, a: Auto, pad: string, m: nat, p: string) returns (u: Value)
    requires Feed(INIT, pre) == a && WantsValue(a.mode) && AllWs(pad) && 0 < m <= |pad| + 1 && p == pre + Text(EmptyArr(pad))[..m]
    ensures WfValue(u) && CutValue(u, EmptyArr(pad)) && Candidate(p) == pre + Text(u) + Closers(a.stack)
  {
    PadPrefix('[', pad, ']', m);
    u := EmptyArr(pad[..m - 1]);
    CutPad(pre, a, '[', pad[..m - 1], ']', p);
  }

  lemma {:induction false} CutAtEmptyObj(pre: string, a: Auto, pad: string, m: nat, p: string) returns (u: Value)
    requires Feed(INIT, pre) == a && WantsValue(a.mode) && AllWs(pad) && 0 < m <= |pad| + 1 && p == pre + Text(EmptyObj(pad))[..m]
    ensures WfValue(u) && CutValue(u, EmptyObj(pad)) && Candidate(p) == pre + Text(u) + Closers(a.stack)
  {
    PadPrefix('{', pad, '}', m);
    u := EmptyObj(pad[..m - 1]);
    CutPad(pre, a, '{', pad[..m - 1], '}', p);
  }

  lemma {:induction false} CutAtWord(pre: string, a: Auto, text: string, m: nat)
    requires Feed(INIT, pre) == a && WantsValue(a.mode) && WfValue(Word(text)) && 0 < m < |text|
    ensures !Mendable(Feed(INIT, pre + text[..m]))
  {
    FeedCat(INIT, pre, text[..m]);
    CutWord(a, text, m);
  }

  lemma {:induction false} CutAtValue(pre: string, a: Auto, v: Value, m: nat, p: string) returns (u: Value)
    requires Feed(INIT, pre) == a && WantsValue(a.mode) && WfValue(v) && 0 < m <= |Text(v)|
    requires p == pre + Text(v)[..m] && Mendable(Feed(INIT, p))
    ensures WfValue(u) && CutValue(u, v) && Candidate(p) == pre + Text(u) + Closers(a.stack)
    decreases |Text(v)|, 0
  {
    if m == |Text(v)| {
      u := v;
      assert Text(v)[..m] == Text(v);
      CutRefl(v);
      CutWhole(pre, a, v, p);
    } else {
      match v
      case Word(text) =>
        CutAtWord(pre, a, text, m);
        assert false;
      case Num(number) => u := CutAtNumber(pre, a, number, m, p);
      case Str(units) => u := CutAtString(pre, a, units, m, p);
      case EmptyArr(pad) => u := CutAtEmptyArr(pre, a, pad, m, p);
      case EmptyObj(pad) => u := CutAtEmptyObj(pre, a, pad, m, p);
      case Arr(first, rest) => u := CutAtArr(pre, a, first, rest, m, p);
      case Obj(member, more) => u := CutAtObj(pre, a, member, more, m, p);
    }
  }

  lemma QuotedPrefix(us: seq<Unit>, m: nat)
    requires 0 < m < |Quoted(us)|
    ensures m - 1 <= |UnitsText(us)| && Quoted(us)[..m] == ['"'] + UnitsText(us)[..m - 1]
  {
  }

  lemma PadPrefix(open: char, pad: string, close: char, m: nat)
    requires 0 < m <= |pad| + 1
    ensures ([open] + pad + [close])[..m] == [open] + pad[..m - 1]
  {
  }

  lemma {:induction false} CutAtArr(pre: string, a: Auto, first: Item, rest: Items, m: nat, p: string) returns (u: Value)
    requires Feed(INIT, pre) == a && WantsValue(a.mode) && WfValue(Arr(first, rest)) && 0 < m < |Text(Arr(first, rest))|
    requires p == pre + Text(Arr(first, rest))[..m] && Mendable(Feed(INIT, p))
    ensures WfValue(u) && CutValue(u, Arr(first, rest)) && Candidate(p) == pre + Text(u) + Closers(a.stack)
    decreases |ItemText(first)| + |ItemsText(rest)|, 3
  {
    var inner := ItemText(first) + ItemsText(rest);
    Enclosed(['['], ItemText(first), ItemsText(rest), [']']);
    PadPrefix('[', inner, ']', m);
    var j := m - 1;
    if j <= |first.before| {
      assert inner[..j] == first.before[..j];
      u := EmptyArr(first.before[..j]);
      CutPad(pre, a, '[', first.before[..j], ']', p);
    } else {
      var o := Auto(OpenArr, a.stack + "]");
      FeedSnoc(INIT, pre, '[');
      Glue3(pre, ['['], inner[..j]);
      var f, r := CutAtItems(pre + ['['], o, first, rest, j, p);
      u := Arr(f, r);
      ClosersPush(a.stack, ']');
      BracketGlue(pre, ['['], ItemText(f), ItemsText(r), [']'], Closers(a.stack));
    }
  }

  lemma BracketGlue(pre: string, o: string, f: string, r: string, c: string, k: string)
    ensures pre + o + (f + r) + (c + k) == pre + (o + f + r + c) + k
  {
  }

  /** A cut inside the value of an item or the whitespace after it. */
  lemma {:induction false} CutAtItem(pre: string, a: Auto, it: Item, j: nat, p: string) returns (u: Item)
    requires Feed(INIT, pre) == a && WantsValue(a.mode) && WfItem(it) && |it.before| < j <= |ItemText(it)|
    requires p == pre + ItemText(it)[..j] && Mendable(Feed(INIT, p))
    ensures WfItem(u) && CutItem(u, it) && Candidate(p) == pre + ItemText(u) + Closers(a.stack)
    decreases |ItemText(it)|, 1
  {
    var w, t, x := it.before, Text(it.value), it.after;
    FeedCat(INIT, pre, w);
    FeedWs(a, w);
    if j <= |w| + |t| {
      ItemPrefix(pre, w, t, x, j);
      var v := CutAtValue(pre + w, a, it.value, j - |w|, p);
      u := Item(w, v, []);
      ItemGlue(pre, w, Text(v), Closers(a.stack));
    } else {
      var i := j - |w| - |t|;
      u := Item(w, it.value, x[..i]);
      CutRefl(it.value);
      assert ItemText(it)[..j] == ItemText(u);
      FeedItem(a, u);
      FeedCat(INIT, pre, ItemText(u));
      CandidateClosable(p);
    }
  }

  lemma ItemPrefix(pre: string, w: string, t: string, x: string, j: nat)
    requires |w| < j <= |w| + |t|
    ensures pre + (w + t + x)[..j] == pre + w + t[..j - |w|]
  {
  }

  lemma ItemGlue(pre: string, w: string, t: string, k: string)
    ensures pre + w + t + k == pre + (w + t + []) + k
  {
  }

  lemma {:induction false} CutAtItems(pre: string, a: Auto, f: Item, r: Items, j: nat, p: string) returns (f': Item, r': Items)
    requires Feed(INIT, pre) == a && WantsValue(a.mode) && TopIs(a.stack, ']') && WfItem(f) && WfItems(r)
    requires |f.before| < j <= |ItemText(f)| + |ItemsText(r)|
    requires p == pre + (ItemText(f) + ItemsText(r))[..j] && Mendable(Feed(INIT, p))
    ensures WfItem(f') && WfItems(r') && CutItems(f', r', f, r)
    ensures Candidate(p) == pre + (ItemText(f') + ItemsText(r')) + Closers(a.stack)
    decreases |ItemText(f)| + |ItemsText(r)|, 2
  {
    SliceCat(ItemText(f), ItemsText(r), j);
    if j <= |ItemText(f)| {
      f' := CutAtItem(pre, a, f, j, p);
      r' := NoItems;
      EmptyRight(ItemText(f'));
    } else {
      f' := f;
      var i := j - |ItemText(f)| - 1;
      var inner := ItemText(r.head) + ItemsText(r.tail);
      Glue3([','], ItemText(r.head), ItemsText(r.tail));
      ListPrefix(pre, ItemText(f), inner, i);
      r' := CutAtItemsTail(pre, a, f, r.head, r.tail, i, p);
      if r'.NoItems? {
        CutItemsRefl(f, NoItems);
      }
    }
  }

  /** The same, for a cut `i` characters after the comma that follows the first element. */
  lemma {:induction false} CutAtItemsTail(pre: string, a: Auto, f: Item, h: Item, t: Items, i: nat, p: string) returns (r': Items)
    requires Feed(INIT, pre) == a && WantsValue(a.mode) && TopIs(a.stack, ']')
    requires WfItem(f) && WfItem(h) && WfItems(t) && i <= |ItemText(h)| + |ItemsText(t)|
    requires p == pre + ItemText(f) + [','] + (ItemText(h) + ItemsText(t))[..i] && Mendable(Feed(INIT, p))
    ensures WfItems(r') && (r'.Items? ==> CutItems(r'.head, r'.tail, h, t))
    ensures Candidate(p) == pre + (ItemText(f) + ItemsText(r')) + Closers(a.stack)
    decreases |ItemText(h)| + |ItemsText(t)|, 3
  {
    var b := AfterItem(pre, a, f);
    if i <= |h.before| {
      r' := NoItems;
      ItemBlank(h, ItemsText(t), i);
      CutBlank(pre + ItemText(f), b, h.before[..i], p);
      EmptyRight(ItemText(f));
    } else {
      var h', t' := CutAtItems(pre + ItemText(f) + [','], b, h, t, i, p);
      r' := Items(h', t');
      ListGlue(pre, ItemText(f), ItemText(h') + ItemsText(t'), Closers(a.stack));
      Glue3([','], ItemText(h'), ItemsText(t'));
    }
  }

  lemma {:induction false} AfterItem(pre: string, a: Auto, f: Item) returns (b: Auto)
    requires Feed(INIT, pre) == a && WantsValue(a.mode) && TopIs(a.stack, ']') && WfItem(f)
    ensures b == Auto(BeginValue, a.stack) && Feed(INIT, pre + ItemText(f) + [',']) == b
  {
    b := Auto(BeginValue, a.stack);
    FeedItem(a, f);
    FeedCat(INIT, pre, ItemText(f));
    FeedSnoc(INIT, pre + ItemText(f), ',');
  }

  /** The tail of a list cut `i` characters after its comma. */
  lemma ListPrefix(pre: string, f: string, rest: string, i: nat)
    requires i <= |rest|
    ensures pre + (f + ([','] + rest)[..i + 1]) == pre + f + [','] + rest[..i]
  {
    assert ([','] + rest)[..i + 1] == [','] + rest[..i];
  }

  lemma ListGlue(pre: string, f: string, rest: string, k: string)
    ensures pre + f + [','] + rest + k == pre + (f + ([','] + rest)) + k
  {
  }

  /** A cut right after a comma and whitespace drops the comma. */
  lemma {:induction false} CutBlank(s: string, b: Auto, w: string, p: string)
    requires Feed(INIT, s + [',']) == b && (b.mode == BeginValue || b.mode == BeginKey) && AllWs(w) && p == s + [','] + w
    ensures Candidate(p) == s + Closers(b.stack)
  {
    FeedCat(INIT, s + [','], w);
    FeedWs(b, w);
    Reach(p);
    CandidateComma(s, w);
  }

  // ---------------------------------------------------------------- cuts inside objects

  lemma {:induction false} CutAtObj(pre: string, a: Auto, member: Member, more: Members, m: nat, p: string) returns (u: Value)
    requires Feed(INIT, pre) == a && WantsValue(a.mode) && WfValue(Obj(member, more)) && 0 < m < |Text(Obj(member, more))|
    requires p == pre + Text(Obj(member, more))[..m] && Mendable(Feed(INIT, p))
    ensures WfValue(u) && CutValue(u, Obj(member, more)) && Candidate(p) == pre + Text(u) + Closers(a.stack)
    decreases |MemberText(member)| + |MembersText(more)|, 3
  {
    var inner := MemberText(member) + MembersText(more);
    Enclosed(['{'], MemberText(member), MembersText(more), ['}']);
    PadPrefix('{', inner, '}', m);
    var j := m - 1;
    if j <= |member.before| {
      assert inner[..j] == member.before[..j];
      u := EmptyObj(member.before[..j]);
      CutPad(pre, a, '{', member.before[..j], '}', p);
    } else {
      var o := Auto(OpenObj, a.stack + "}");
      FeedSnoc(INIT, pre, '{');
      Glue3(pre, ['{'], inner[..j]);
      var f, r := CutAtMembers(pre + ['{'], o, member, more, j, p);
      u := Obj(f, r);
      ClosersPush(a.stack, '}');
      BracketGlue(pre, ['{'], MemberText(f), MembersText(r), ['}'], Closers(a.stack));
    }
  }

  function Head(m: Member): string {
    m.before + Quoted(m.key) + m.between + [':']
  }

  lemma {:induction false} CutInKey(a: Auto, w: string, key: seq<Unit>, i: nat)
    requires (a.mode == OpenObj || a.mode == BeginKey) && AllWs(w) && WfUnits(key) && i <= |UnitsText(key)|
    ensures !Mendable(Feed(a, w + (['"'] + UnitsText(key)[..i])))
  {
    FeedWs(a, w);
    FeedCat(a, w, ['"'] + UnitsText(key)[..i]);
    FeedCons(a, '"', UnitsText(key)[..i]);
    var n, x := UnitsPrefix(true, a.stack, key, i);
  }

  lemma {:induction false} CutAfterKey(a: Auto, w: string, key: seq<Unit>, b: string)
    requires (a.mode == OpenObj || a.mode == BeginKey) && AllWs(w) && WfUnits(key) && AllWs(b)
    ensures !Mendable(Feed(a, w + Quoted(key) + b))
  {
    FeedWs(a, w);
    FeedCat(a, w, Quoted(key));
    FeedQuoted(a, true, key);
    FeedCat(a, w + Quoted(key), b);
    FeedWs(Auto(AfterKey, a.stack), b);
  }

  /** No cut inside a key, or between a key and its colon, can be mended. */
  lemma {:induction false} CutKey(a: Auto, m: Member, j: nat)
    requires (a.mode == OpenObj || a.mode == BeginKey) && WfMember(m) && |m.before| < j < |Head(m)|
    ensures !Mendable(Feed(a, Head(m)[..j]))
  {
    var w, t := m.before, Quoted(m.key);
    if j < |w| + |t| {
      var i := j - |w| - 1;
      assert Head(m)[..j] == w + (['"'] + UnitsText(m.key)[..i]);
      CutInKey(a, w, m.key, i);
    } else {
      var b := m.between[..j - |w| - |t|];
      assert Head(m)[..j] == w + t + b;
      CutAfterKey(a, w, m.key, b);
    }
  }

  lemma {:induction false} CutAtMember(pre: string, a: Auto, m: Member, j: nat, p: string) returns (u: Member)
    requires Feed(INIT, pre) == a && (a.mode == OpenObj || a.mode == BeginKey) && WfMember(m)
    requires |m.before| < j <= |MemberText(m)|
    requires p == pre + MemberText(m)[..j] && Mendable(Feed(INIT, p))
    ensures WfMember(u) && CutMember(u, m) && Candidate(p) == pre + MemberText(u) + Closers(a.stack)
    decreases |MemberText(m)|, 1
  {
    FeedCat(INIT, pre, MemberText(m)[..j]);
    SliceCat(Head(m), ItemText(m.item), j);
    if j < |Head(m)| {
      CutKey(a, m, j);
      assert false;
    } else {
      var i := j - |Head(m)|;
      var b := Auto(BeginValue, a.stack);
      FeedMemberKey(a, m);
      FeedCat(INIT, pre, Head(m));
      Glue3(pre, Head(m), ItemText(m.item)[..i]);
      if i <= |m.item.before| {
        u := m.(item := NULL_ITEM);
        assert ItemText(m.item)[..i] == m.item.before[..i];
        CutNull(pre, m, b, m.item.before[..i], p);
      } else {
        var it := CutAtItem(pre + Head(m), b, m.item, i, p);
        u := m.(item := it);
        Glue3(pre, Head(m), ItemText(it));
      }
    }
  }

  /** A cut right after a colon and whitespace puts `null` for the value. */
  lemma {:induction false} CutNull(pre: string, m: Member, b: Auto, w: string, p: string)
    requires Feed(INIT, pre + Head(m)) == b && b.mode == BeginValue && AllWs(w) && p == pre + Head(m) + w
    ensures Candidate(p) == pre + MemberText(m.(item := NULL_ITEM)) + Closers(b.stack)
  {
    var s := pre + (m.before + Quoted(m.key) + m.between);
    assert pre + Head(m) == s + [':'];
    FeedCat(INIT, pre + Head(m), w);
    FeedWs(b, w);
    Reach(p);
    CandidateColon(s, w);
    assert ItemText(NULL_ITEM) == "null";
    Glue3(pre, Head(m), "null");
  }

  lemma {:induction false} CutAtMembers(pre: string, a: Auto, f: Member, r: Members, j: nat, p: string) returns (f': Member, r': Members)
    requires Feed(INIT, pre) == a && (a.mode == OpenObj || a.mode == BeginKey) && TopIs(a.stack, '}') && WfMember(f) && WfMembers(r)
    requires |f.before| < j <= |MemberText(f)| + |MembersText(r)|
    requires p == pre + (MemberText(f) + MembersText(r))[..j] && Mendable(Feed(INIT, p))
    ensures WfMember(f') && WfMembers(r') && CutMembers(f', r', f, r)
    ensures Candidate(p) == pre + (MemberText(f') + MembersText(r')) + Closers(a.stack)
    decreases |MemberText(f)| + |MembersText(r)|, 2
  {
    SliceCat(MemberText(f), MembersText(r), j);
    if j <= |MemberText(f)| {
      f' := CutAtMember(pre, a, f, j, p);
      r' := NoMembers;
      EmptyRight(MemberText(f'));
    } else {
      f' := f;
      var i := j - |MemberText(f)| - 1;
      var inner := MemberText(r.head) + MembersText(r.tail);
      Glue3([','], MemberText(r.head), MembersText(r.tail));
      ListPrefix(pre, MemberText(f), inner, i);
      r' := CutAtMembersTail(pre, a, f, r.head, r.tail, i, p);
      if r'.NoMembers? {
        CutMembersRefl(f, NoMembers);
      }
    }
  }

  /** The same, for a cut `i` characters after the comma that follows the first element. */
  lemma {:induction false} CutAtMembersTail(pre: string, a: Auto, f: Member, h: Member, t: Members, i: nat, p: string) returns (r': Members)
    requires Feed(INIT, pre) == a && (a.mode == OpenObj || a.mode == BeginKey) && TopIs(a.stack, '}')
    requires WfMember(f) && WfMember(h) && WfMembers(t) && i <= |MemberText(h)| + |MembersText(t)|
    requires p == pre + MemberText(f) + [','] + (MemberText(h) + MembersText(t))[..i] && Mendable(Feed(INIT, p))
    ensures WfMembers(r') && (r'.Members? ==> CutMembers(r'.head, r'.tail, h, t))
    ensures Candidate(p) == pre + (MemberText(f) + MembersText(r')) + Closers(a.stack)
    decreases |MemberText(h)| + |MembersText(t)|, 3
  {
    var b := AfterMember(pre, a, f);
    if i <= |h.before| {
      r' := NoMembers;
      MemberBlank(h, MembersText(t), i);
      CutBlank(pre + MemberText(f), b, h.before[..i], p);
      EmptyRight(MemberText(f));
    } else {
      var h', t' := CutAtMembers(pre + MemberText(f) + [','], b, h, t, i, p);
      r' := Members(h', t');
      ListGlue(pre, MemberText(f), MemberText(h') + MembersText(t'), Closers(a.stack));
      Glue3([','], MemberText(h'), MembersText(t'));
    }
  }

  lemma {:induction false} AfterMember(pre: string, a: Auto, f: Member) returns (b: Auto)
    requires Feed(INIT, pre) == a && (a.mode == OpenObj || a.mode == BeginKey) && TopIs(a.stack, '}') && WfMember(f)
    ensures b == Auto(BeginKey, a.stack) && Feed(INIT, pre + MemberText(f) + [',']) == b
  {
    b := Auto(BeginKey, a.stack);
    FeedMember(a, f);
    FeedCat(INIT, pre, MemberText(f));
    FeedSnoc(INIT, pre + MemberText(f), ',');
  }

  // ---------------------------------------------------------------- the theorem

  lemma {:induction false} CutNotBad(it: Item, n: nat)
    requires WfItem(it) && n <= |ItemText(it)|
    ensures Feed(INIT, ItemText(it)[..n]).mode != Bad
  {
    var t := ItemText(it);
    assert t == t[..n] + t[n..];
    FeedCat(INIT, t[..n], t[n..]);
    FeedItem(INIT, it);
    if Feed(INIT, t[..n]).mode == Bad {
      BadStays(Feed(INIT, t[..n]), t[n..]);
    }
  }

  /** Cut within the whitespace before it, a document is not mendable. */
  lemma {:induction false} CutBefore(it: Item, n: nat)
    requires WfItem(it) && n <= |it.before|
    ensures !Mendable(Feed(INIT, ItemText(it)[..n]))
  {
    assert ItemText(it)[..n] == it.before[..n];
    FeedWs(INIT, it.before[..n]);
  }

  lemma {:induction false} CutDocument(it: Item, n: nat, p: string) returns (u: Item)
    requires WfItem(it) && |it.before| < n <= |ItemText(it)| && p == ItemText(it)[..n] && Mendable(Feed(INIT, p))
    ensures WfItem(u) && CutItem(u, it) && ItemText(u) == Candidate(p)
  {
    assert p == [] + p;
    u := CutAtItem([], INIT, it, n, p);
    assert [] + ItemText(u) + Closers("") == ItemText(u);
  }

  lemma {:induction false} MendableCut(it: Item, n: nat, p: string) returns (u: Item)
    requires WfItem(it) && n <= |ItemText(it)| && p == ItemText(it)[..n] && Mendable(Feed(INIT, p)) && Valid(Candidate(p))
    ensures MendedTo(p, u, it)
  {
    if n <= |it.before| {
      CutBefore(it, n);
    }
    CandidateKeeps(p);
    u := CutDocument(it, n, p);
  }

  /**
   Every cut of every document: the repair falls back to the empty object exactly at the cuts
   the validator's state marks as unmendable.  At all the others its result is the text of the
   same document with its end left off, and begins with the text before the cut, of which at
   most a dangling backslash, a final comma with whitespace, or the whitespace after a final
   colon is missing.
   */
  lemma {:induction false} RepairOfCut(it: Item, n: nat)
    requires WfItem(it) && n <= |ItemText(it)|
    ensures var p := ItemText(it)[..n];
            && (Valid(Candidate(p)) <==> Mendable(Feed(INIT, p)))
            && Kept(p) <= p && Trifle(p[|Kept(p)|..])
            && (Mendable(Feed(INIT, p)) ==> exists u :: MendedTo(p, u, it))
            && (!Mendable(Feed(INIT, p)) ==> Repaired(p) == ItemText(NOTHING))
  {
    var p := ItemText(it)[..n];
    CutNotBad(it, n);
    RepairSucceeds(p);
    CandidateKeeps(p);
    if Mendable(Feed(INIT, p)) {
      var u := MendableCut(it, n, p);
    } else {
      RepairMends(p);
    }
  }

  /** The text `p` of the beginning of `it` is mended to the document `u`. */
  ghost predicate MendedTo(p: string, u: Item, it: Item) {
    WfItem(u) && CutItem(u, it) && ItemText(u) == Repaired(p) && Kept(p) <= ItemText(u)
  }
}
