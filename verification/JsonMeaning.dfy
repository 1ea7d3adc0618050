/**
 Compression against decoding: the compressed text means what the original meant.
 */
module JsonMeaning {
  import opened JsonScan
  import opened JsonGrammar
  import opened JsonCompact
  import opened Canonical

  ghost predicate Same(fl: Floats, v: Value) {
    WfValue(v) && WfValue(Compact(v)) && (Fits(fl, Compact(v)) <==> Fits(fl, v)) && Denote(fl, Compact(v)) == Denote(fl, v)
  }

  lemma {:induction false} SameValue(fl: Floats, v: Value)
    requires WfValue(v)
    ensures Same(fl, v)
    decreases v
  {
    CompactWf(v);
    match v
    case Arr(first, rest) =>
      SameItem(fl, first);
      SameItems(fl, rest);
    case Obj(member, more) =>
      SameMember(fl, member);
      SameMembers(fl, more, map[KeyOf(member) := DenoteMember(fl, member)]);
    case _ =>
  }

  lemma {:induction false} SameItem(fl: Floats, it: Item)
    requires WfItem(it)
    ensures Same(fl, it.value)
    decreases it
  {
    SameValue(fl, it.value);
  }

  lemma {:induction false} SameItems(fl: Floats, its: Items)
    requires WfItems(its)
    ensures WfItems(CompactItems(its)) && (FitsItems(fl, CompactItems(its)) <==> FitsItems(fl, its))
    ensures DenoteItems(fl, CompactItems(its)) == DenoteItems(fl, its)
    decreases its
  {
    if its.Items? {
      SameItem(fl, its.head);
      SameItems(fl, its.tail);
    }
  }

  lemma {:induction false} SameMember(fl: Floats, m: Member)
    requires WfMember(m)
    ensures WfMember(CompactMember(m)) && (Fits(fl, CompactMember(m).item.value) <==> Fits(fl, m.item.value))
    ensures DenoteMember(fl, CompactMember(m)) == DenoteMember(fl, m) && KeyOf(CompactMember(m)) == KeyOf(m)
    decreases m
  {
    CompactMemberWf(m);
    assert WfItem(m.item);
    SameItem(fl, m.item);
  }

  lemma {:induction false} SameMembers(fl: Floats, ms: Members, acc: map<string, Any>)
    requires WfMembers(ms)
    ensures WfMembers(CompactMembers(ms)) && (FitsMembers(fl, CompactMembers(ms)) <==> FitsMembers(fl, ms))
    ensures DenoteMembers(fl, CompactMembers(ms), acc) == DenoteMembers(fl, ms, acc)
    decreases ms
  {
    if ms.Members? {
      SameMember(fl, ms.head);
      SameMembers(fl, ms.tail, acc[KeyOf(ms.head) := DenoteMember(fl, ms.head)]);
    }
  }

  /** A text that decodes still decodes, to the same value, after compression. */
  lemma {:induction false} CompressKeepsMeaning(fl: Floats, raw: string)
    requires Unmarshal(fl, raw).Some?
    ensures Unmarshal(fl, Squeeze(START, raw)) == Unmarshal(fl, raw)
  {
    var it := Parse(fl, raw);
    SameItem(fl, it);
    CompressPrintsCompact(it);
    var c := CompactItem(it);
    assert ItemText(c) == Text(Compact(it.value));
    UnmarshalText(fl, c);
  }

  // ---------------------------------------------------------------- canonical texts

  lemma {:induction false} TreeCompact(v: Any)
    ensures Compact(Tree(v)) == Tree(v)
    decreases v, 0
  {
    match v
    case List(elems) =>
      if elems != [] {
        TreeCompact(elems[0]);
        ItemsCompact(elems[1..]);
      }
    case Dict(fields) =>
      var ks := SortedKeys(fields.Keys);
      if ks != [] {
        MemberCompact(v, ks[0]);
        MembersCompact(v, ks[1..]);
      }
    case _ =>
  }

  lemma {:induction false} ItemsCompact(es: seq<Any>)
    ensures CompactItems(TreeItems(es)) == TreeItems(es)
    decreases es, 0
  {
    if es != [] {
      TreeCompact(es[0]);
      ItemsCompact(es[1..]);
    }
  }

  lemma {:induction false} MemberCompact(v: Any, k: string)
    requires v.Dict? && k in v.fields
    ensures CompactMember(TreeMember(v, k)) == TreeMember(v, k)
    decreases v.fields[k], 1
  {
    TreeCompact(v.fields[k]);
  }

  lemma {:induction false} MembersCompact(v: Any, ks: seq<string>)
    requires v.Dict? && forall k :: k in ks ==> k in v.fields
    ensures CompactMembers(TreeMembers(v, ks)) == TreeMembers(v, ks)
    decreases v, 0, ks
  {
    if ks != [] {
      assert ks[0] in v.fields && v == Dict(v.fields);
      MemberCompact(v, ks[0]);
      MembersCompact(v, ks[1..]);
    }
  }

  /** A canonical text has no whitespace outside strings: there is nothing left to compress. */
  lemma {:induction false} CanonCompact(fl: Floats, v: Any)
    requires Printable(fl, v)
    ensures Squeeze(START, Canon(v)) == Canon(v)
  {
    var it := Item("", Tree(v), "");
    TreeFaith(fl, v);
    TreeCompact(v);
    CompressPrintsCompact(it);
    assert ItemText(it) == Canon(v);
  }
}
