/**
 `compressJSONArray` on JSON texts: whatever the whitespace between tokens, the result is the
 compact printing of the same document.
 */
module JsonCompact {
  import opened JsonScan
  import opened JsonGrammar
  import opened JsonAutomaton
  import opened JsonSound

  // ---------------------------------------------------------------- documents without whitespace

  function Compact(v: Value): Value {
    match v
    case EmptyArr(_) => EmptyArr("")
    case Arr(first, rest) => Arr(CompactItem(first), CompactItems(rest))
    case EmptyObj(_) => EmptyObj("")
    case Obj(member, more) => Obj(CompactMember(member), CompactMembers(more))
    case _ => v
  }

  function CompactItem(it: Item): Item {
    Item("", Compact(it.value), "")
  }

  function CompactItems(its: Items): Items {
    match its
    case NoItems => NoItems
    case Items(head, tail) => Items(CompactItem(head), CompactItems(tail))
  }

  function CompactMember(m: Member): Member {
    Member("", m.key, "", CompactItem(m.item))
  }

  function CompactMembers(ms: Members): Members {
    match ms
    case NoMembers => NoMembers
    case Members(head, tail) => Members(CompactMember(head), CompactMembers(tail))
  }

  // ---------------------------------------------------------------- squeezing tokens

  function Out(k: string): Scan {
    Scan(false, false, k)
  }

  /** Squeezing `s` from outside a string gives `c` and comes back outside. */
  ghost predicate Squeezes(k: string, s: string, c: string) {
    Squeeze(Out(k), s) == c && Run(Out(k), s) == Out(k)
  }

  lemma {:induction false} SqueezesCat(k: string, a: string, b: string, c: string, d: string)
    requires Squeezes(k, a, c) && Squeezes(k, b, d)
    ensures Squeezes(k, a + b, c + d)
  {
    SqueezeCat(Out(k), a, b);
    RunCat(Out(k), a, b);
  }

  lemma {:induction false} SqueezesWs(k: string, w: string)
    requires AllWs(w)
    ensures Squeezes(k, w, "")
    decreases w
  {
    if w != [] {
      SqueezesWs(k, w[1..]);
    }
  }

  lemma {:induction false} SqueezesPlain(k: string, s: string)
    requires forall i :: 0 <= i < |s| ==> Neutral(s[i]) && !IsWs(s[i])
    ensures Squeezes(k, s, s)
    decreases s
  {
    if s != [] {
      SqueezesPlain(k, s[1..]);
    }
  }

  lemma {:induction false} SqueezeInside(k: string, us: seq<Unit>)
    requires WfUnits(us)
    ensures Squeeze(Scan(true, false, k), UnitsText(us)) == UnitsText(us)
    ensures Run(Scan(true, false, k), UnitsText(us)) == Scan(true, false, k)
    decreases us
  {
    if us != [] {
      var st := Scan(true, false, k);
      SqueezeUnit(k, us[0]);
      SqueezeInside(k, us[1..]);
      SqueezeCat(st, UnitText(us[0]), UnitsText(us[1..]));
      RunCat(st, UnitText(us[0]), UnitsText(us[1..]));
    }
  }

  lemma {:induction false} SqueezeUnit(k: string, u: Unit)
    requires WfUnit(u)
    ensures Squeeze(Scan(true, false, k), UnitText(u)) == UnitText(u)
    ensures Run(Scan(true, false, k), UnitText(u)) == Scan(true, false, k)
  {
    var st := Scan(true, false, k);
    match u
    case Plain(c) => SqueezeSmall(st, c);
    case Short(c) =>
      SqueezeSmall(st, '\\');
      SqueezeSmall(Scan(true, true, k), c);
      assert UnitText(u) == ['\\'] + [c];
      SqueezeCat(st, ['\\'], [c]);
      RunCat(st, ['\\'], [c]);
    case Hex(h) =>
      SqueezeSmall(st, '\\');
      SqueezeSmall(Scan(true, true, k), 'u');
      SqueezeHex(k, h);
      assert UnitText(u) == ['\\'] + (['u'] + h);
      SqueezeCat(st, ['\\'], ['u'] + h);
      RunCat(st, ['\\'], ['u'] + h);
      SqueezeCat(Scan(true, true, k), ['u'], h);
      RunCat(Scan(true, true, k), ['u'], h);
  }

  lemma {:induction false} SqueezeSmall(st: Scan, c: char)
    requires st.inStr
    ensures Squeeze(st, [c]) == [c] && Run(st, [c]) == Step(st, c)
  {
    RunOne(st, c);
    assert Squeeze(Step(st, c), [c][1..]) == [];
  }

  lemma {:induction false} SqueezeHex(k: string, h: string)
    requires forall i :: 0 <= i < |h| ==> IsHex(h[i])
    ensures Squeeze(Scan(true, false, k), h) == h && Run(Scan(true, false, k), h) == Scan(true, false, k)
    decreases h
  {
    if h != [] {
      SqueezeHex(k, h[1..]);
    }
  }

  lemma {:induction false} SqueezesQuoted(k: string, us: seq<Unit>)
    requires WfUnits(us)
    ensures Squeezes(k, Quoted(us), Quoted(us))
  {
    var st, inner := Out(k), Scan(true, false, k);
    SqueezeInside(k, us);
    SqueezeSmall(inner, '"');
    RunOne(st, '"');
    assert Squeeze(Step(st, '"'), ['"'][1..]) == [];
    SqueezeCat(st, ['"'], UnitsText(us));
    RunCat(st, ['"'], UnitsText(us));
    SqueezeCat(st, ['"'] + UnitsText(us), ['"']);
    RunCat(st, ['"'] + UnitsText(us), ['"']);
  }

  // ---------------------------------------------------------------- squeezing documents

  lemma {:induction false} SqueezesBracket(k: string, open: char, body: string, close: char, c: string)
    requires (open == '[' && close == ']') || (open == '{' && close == '}')
    requires Squeezes(k + [close], body, c)
    ensures Squeezes(k, [open] + body + [close], [open] + c + [close])
  {
    var st, o := Out(k), Out(k + [close]);
    RunOne(st, open);
    RunOne(o, close);
    assert (k + [close])[..|k + [close]| - 1] == k;
    assert Squeeze(Step(st, open), [open][1..]) == [] && Squeeze(Step(o, close), [close][1..]) == [];
    SqueezeCat(st, [open], body);
    RunCat(st, [open], body);
    SqueezeCat(st, [open] + body, [close]);
    RunCat(st, [open] + body, [close]);
  }

  lemma {:induction false} WordPlain(w: string)
    requires WfValue(Word(w))
    ensures forall i :: 0 <= i < |w| ==> Neutral(w[i]) && !IsWs(w[i])
  {
  }

  lemma {:induction false} NumberPlain(n: Number)
    requires WfNumber(n)
    ensures forall i :: 0 <= i < |NumberText(n)| ==> Neutral(NumberText(n)[i]) && !IsWs(NumberText(n)[i])
  {
    var e := ExpoText(n.expo);
    assert forall i :: 0 <= i < |e| ==> Neutral(e[i]) && !IsWs(e[i]);
  }

  lemma {:induction false} SqueezesValue(k: string, v: Value)
    requires WfValue(v)
    ensures Squeezes(k, Text(v), Text(Compact(v)))
    decreases v
  {
    match v
    case Word(text) => WordPlain(text); SqueezesPlain(k, text);
    case Num(number) => NumberPlain(number); SqueezesPlain(k, NumberText(number));
    case Str(units) => SqueezesQuoted(k, units);
    case EmptyArr(pad) =>
      SqueezesWs(k + "]", pad);
      SqueezesBracket(k, '[', pad, ']', "");
    case EmptyObj(pad) =>
      SqueezesWs(k + "}", pad);
      SqueezesBracket(k, '{', pad, '}', "");
    case Arr(first, rest) =>
      SqueezesItem(k + "]", first);
      SqueezesItems(k + "]", rest);
      SqueezesCat(k + "]", ItemText(first), ItemsText(rest), ItemText(CompactItem(first)), ItemsText(CompactItems(rest)));
      SqueezesBracket(k, '[', ItemText(first) + ItemsText(rest), ']', ItemText(CompactItem(first)) + ItemsText(CompactItems(rest)));
      Glue4(['['], ItemText(first), ItemsText(rest), [']']);
      Regroup4('[', ItemText(first), ItemsText(rest), ']');
      Regroup4('[', ItemText(CompactItem(first)), ItemsText(CompactItems(rest)), ']');
    case Obj(member, more) =>
      SqueezesMember(k + "}", member);
      SqueezesMembers(k + "}", more);
      SqueezesCat(k + "}", MemberText(member), MembersText(more), MemberText(CompactMember(member)), MembersText(CompactMembers(more)));
      SqueezesBracket(k, '{', MemberText(member) + MembersText(more), '}', MemberText(CompactMember(member)) + MembersText(CompactMembers(more)));
      Regroup4('{', MemberText(member), MembersText(more), '}');
      Regroup4('{', MemberText(CompactMember(member)), MembersText(CompactMembers(more)), '}');
  }

  lemma Regroup4(o: char, a: string, b: string, c: char)
    ensures [o] + (a + b) + [c] == [o] + a + b + [c]
  {
  }

  lemma {:induction false} SqueezesItem(k: string, it: Item)
    requires WfItem(it)
    ensures Squeezes(k, ItemText(it), ItemText(CompactItem(it)))
    decreases it
  {
    var t := Text(Compact(it.value));
    SqueezesWs(k, it.before);
    SqueezesValue(k, it.value);
    SqueezesWs(k, it.after);
    SqueezesCat(k, it.before, Text(it.value), "", t);
    SqueezesCat(k, it.before + Text(it.value), it.after, "" + t, "");
  }

  lemma {:induction false} SqueezesItems(k: string, its: Items)
    requires WfItems(its)
    ensures Squeezes(k, ItemsText(its), ItemsText(CompactItems(its)))
    decreases its
  {
    match its
    case NoItems =>
    case Items(head, tail) =>
      SqueezesPlain(k, [',']);
      SqueezesItem(k, head);
      SqueezesItems(k, tail);
      SqueezesCat(k, [','], ItemText(head), [','], ItemText(CompactItem(head)));
      SqueezesCat(k, [','] + ItemText(head), ItemsText(tail), [','] + ItemText(CompactItem(head)), ItemsText(CompactItems(tail)));
  }

  lemma {:induction false} SqueezesMember(k: string, m: Member)
    requires WfMember(m)
    ensures Squeezes(k, MemberText(m), MemberText(CompactMember(m)))
    decreases m
  {
    var q := Quoted(m.key);
    SqueezesWs(k, m.before);
    SqueezesQuoted(k, m.key);
    SqueezesWs(k, m.between);
    SqueezesPlain(k, [':']);
    SqueezesItem(k, m.item);
    SqueezesCat(k, m.before, q, "", q);
    SqueezesCat(k, m.before + q, m.between, "" + q, "");
    SqueezesCat(k, m.before + q + m.between, [':'], "" + q + "", [':']);
    SqueezesCat(k, m.before + q + m.between + [':'], ItemText(m.item), "" + q + "" + [':'], ItemText(CompactItem(m.item)));
  }

  lemma {:induction false} SqueezesMembers(k: string, ms: Members)
    requires WfMembers(ms)
    ensures Squeezes(k, MembersText(ms), MembersText(CompactMembers(ms)))
    decreases ms
  {
    match ms
    case NoMembers =>
    case Members(head, tail) =>
      SqueezesPlain(k, [',']);
      SqueezesMember(k, head);
      SqueezesMembers(k, tail);
      SqueezesCat(k, [','], MemberText(head), [','], MemberText(CompactMember(head)));
      SqueezesCat(k, [','] + MemberText(head), MembersText(tail), [','] + MemberText(CompactMember(head)), MembersText(CompactMembers(tail)));
  }

  lemma {:induction false} CompactWf(v: Value)
    requires WfValue(v)
    ensures WfValue(Compact(v))
    decreases v
  {
    match v
    case Arr(first, rest) => CompactWf(first.value); CompactItemsWf(rest);
    case Obj(member, more) => CompactMemberWf(member); CompactMembersWf(more);
    case _ =>
  }

  lemma {:induction false} CompactItemsWf(its: Items)
    requires WfItems(its)
    ensures WfItems(CompactItems(its))
    decreases its
  {
    if its.Items? {
      CompactWf(its.head.value);
      CompactItemsWf(its.tail);
    }
  }

  lemma {:induction false} CompactMemberWf(m: Member)
    requires WfMember(m)
    ensures WfMember(CompactMember(m))
    decreases m
  {
    assert WfItem(m.item);
    CompactWf(m.item.value);
    assert WfItem(CompactItem(m.item));
  }

  lemma {:induction false} CompactMembersWf(ms: Members)
    requires WfMembers(ms)
    ensures WfMembers(CompactMembers(ms))
    decreases ms
  {
    if ms.Members? {
      CompactMemberWf(ms.head);
      CompactMembersWf(ms.tail);
    }
  }

  /**
   For every document and every placement of insignificant whitespace (section 2 of RFC 8259)
   the compressor returns the compact printing of the document.
   */
  lemma {:induction false} CompressPrintsCompact(it: Item)
    requires WfItem(it)
    ensures Squeeze(START, ItemText(it)) == Text(Compact(it.value))
    ensures Valid(Squeeze(START, ItemText(it)))
  {
    SqueezesItem("", it);
    CompactWf(it.value);
    assert ItemText(CompactItem(it)) == Text(Compact(it.value));
    FeedItem(INIT, CompactItem(it));
  }

  /** Compression never breaks a valid text. */
  lemma {:induction false} CompressKeepsValid(s: string)
    requires Valid(s)
    ensures Valid(Squeeze(START, s))
  {
    ValidIffJson(s);
    var it :| WfItem(it) && ItemText(it) == s;
    CompressPrintsCompact(it);
  }
}
