/**
 `sortSchemaKeys`: decode a JSON schema and print it back with the keys of every object in
 ascending order.  Go's decoded value is `Any`; a number is kept as the token that Go prints
 for the float it decodes to, and `fl` maps a number token to that token (or to nothing when
 the number is out of range).
 */
module Canonical {
  import opened JsonScan
  import opened Texts
  import opened JsonGrammar
  import opened JsonUnique
  import opened Options

  /** Go's `any` as filled by `json.Unmarshal`. */
  datatype Any =
    | Nil
    | Flag(b: bool)
    | Float(n: Number)
    | Chars(s: string)
    | List(elems: seq<Any>)
    | Dict(fields: map<string, Any>)

  // ---------------------------------------------------------------- ascending keys

  /** `sort.Strings` order. */
  predicate Less(a: string, b: string) {
    b != [] && (a == [] || a[0] < b[0] || (a[0] == b[0] && Less(a[1..], b[1..])))
  }

  lemma {:induction false} LessTrans(a: string, b: string, c: string)
    requires Less(a, b) && Less(b, c)
    ensures Less(a, c)
    decreases a
  {
    if a != [] && a[0] == b[0] && b[0] == c[0] {
      LessTrans(a[1..], b[1..], c[1..]);
    }
  }

  lemma {:induction false} LessTotal(a: string, b: string)
    ensures a == b || Less(a, b) || Less(b, a)
    ensures !(Less(a, b) && Less(b, a)) && !Less(a, a)
    decreases a
  {
    if a != [] {
      LessTotal(a[1..], a[1..]);
      if b != [] && a[0] == b[0] {
        LessTotal(a[1..], b[1..]);
        assert a == [a[0]] + a[1..] && b == [b[0]] + b[1..];
      }
    }
  }

  /** Where two strings first differ: the character there decides, and the end comes before all characters. */
  predicate DifferAt(a: string, b: string, i: nat) {
    i <= |a| && i < |b| && a[..i] == b[..i] && (i == |a| || a[i] < b[i])
  }

  /** The order is that of the first difference. */
  lemma {:induction false} LessIff(a: string, b: string)
    ensures Less(a, b) <==> exists i :: DifferAt(a, b, i)
    decreases a
  {
    if Less(a, b) {
      if a == [] || a[0] < b[0] {
        assert DifferAt(a, b, 0);
      } else {
        LessIff(a[1..], b[1..]);
        var i: nat :| DifferAt(a[1..], b[1..], i);
        assert a[..i + 1] == [a[0]] + a[1..][..i] && b[..i + 1] == [b[0]] + b[1..][..i];
        assert DifferAt(a, b, i + 1);
      }
    } else if i: nat :| DifferAt(a, b, i) {
      if i > 0 {
        assert a[0] == a[..i][0] == b[..i][0] == b[0];
        assert a[1..][..i - 1] == a[..i][1..] && b[1..][..i - 1] == b[..i][1..];
        assert DifferAt(a[1..], b[1..], i - 1);
        LessIff(a[1..], b[1..]);
      }
    }
  }

  predicate Ascending(ks: seq<string>) {
    forall i, j :: 0 <= i < j < |ks| ==> Less(ks[i], ks[j])
  }

  function Insert(k: string, ks: seq<string>): (r: seq<string>)
    requires Ascending(ks) && k !in ks
    ensures Ascending(r) && (forall x :: x in r <==> x == k || x in ks)
  {
    if ks == [] then [k]
    else
      LessTotal(k, ks[0]);
      if Less(k, ks[0]) then
        InsertFront(k, ks);
        [k] + ks
      else
        var t := Insert(k, ks[1..]);
        assert ks == [ks[0]] + ks[1..];
        assert forall i :: 0 <= i < |t| ==> t[i] in t;
        [ks[0]] + t
  }

  lemma {:induction false} InsertFront(k: string, ks: seq<string>)
    requires Ascending(ks) && ks != [] && Less(k, ks[0])
    ensures Ascending([k] + ks)
  {
    forall j | 0 < j < |ks| ensures Less(k, ks[j]) {
      LessTrans(k, ks[0], ks[j]);
    }
  }

  /** `sort.Strings`, on keys of a map and so without repetitions. */
  function SortStrings(ks: seq<string>): (r: seq<string>)
    requires forall i, j :: 0 <= i < j < |ks| ==> ks[i] != ks[j]
    ensures Ascending(r) && (forall x :: x in r <==> x in ks)
  {
    if ks == [] then []
    else
      assert ks == [ks[0]] + ks[1..];
      Insert(ks[0], SortStrings(ks[1..]))
  }

  ghost function SortedKeys(s: set<string>): (r: seq<string>)
    ensures Ascending(r) && (forall x :: x in r <==> x in s)
  {
    if s == {} then [] else var k :| k in s; Insert(k, SortedKeys(s - {k}))
  }

  lemma {:induction false} AscendingHead(a: seq<string>, b: seq<string>)
    requires Ascending(a) && Ascending(b) && (forall x :: x in a <==> x in b) && a != []
    ensures b != [] && a[0] == b[0]
  {
    assert a[0] in b;
    assert b[0] in a;
    var i :| 0 <= i < |a| && a[i] == b[0];
    var j :| 0 <= j < |b| && b[j] == a[0];
    if i > 0 && j > 0 {
      LessTotal(a[0], b[0]);
    }
  }

  /** There is one ascending listing of a set of keys, whatever order they were met in. */
  lemma {:induction false} AscendingUnique(a: seq<string>, b: seq<string>)
    requires Ascending(a) && Ascending(b) && (forall x :: x in a <==> x in b)
    ensures a == b
    decreases a
  {
    if a != [] || b != [] {
      if a != [] {
        AscendingHead(a, b);
      } else {
        AscendingHead(b, a);
      }
      AscendingTail(a);
      AscendingTail(b);
      AscendingUnique(a[1..], b[1..]);
      assert a == [a[0]] + a[1..] && b == [b[0]] + b[1..];
    }
  }

  lemma {:induction false} AscendingTail(a: seq<string>)
    requires Ascending(a) && a != []
    ensures Ascending(a[1..]) && (forall x :: x in a[1..] <==> x in a && x != a[0])
  {
    LessTotal(a[0], a[0]);
    assert a == [a[0]] + a[1..];
    forall i | 0 <= i < |a[1..]| ensures a[1..][i] != a[0] {
      assert Less(a[0], a[i + 1]);
    }
  }

  // ---------------------------------------------------------------- strings

  function HexChar(n: nat): char
    requires n < 16
  {
    "0123456789abcdef"[n]
  }

  function HexVal(c: char): (n: nat)
    requires IsHex(c)
    ensures n < 16
  {
    if IsDigit(c) then c as int - '0' as int
    else if 'a' <= c <= 'f' then c as int - 'a' as int + 10
    else c as int - 'A' as int + 10
  }

  lemma HexValChar(n: nat)
    requires n < 16
    ensures IsHex(HexChar(n)) && HexVal(HexChar(n)) == n
  {
  }

  function HexCode(h: string): (n: nat)
    requires WfUnit(Hex(h))
    ensures n < 0x10000
  {
    HexVal(h[0]) * 4096 + HexVal(h[1]) * 256 + HexVal(h[2]) * 16 + HexVal(h[3])
  }

  lemma DigitSum(v: nat)
    requires v < 0x10000
    ensures v / 4096 < 16 && v / 4096 * 4096 + v / 256 % 16 * 256 + v / 16 % 16 * 16 + v % 16 == v
  {
    var p, q := v / 16, v / 256;
    assert p / 16 == q && q / 16 == v / 4096;
  }

  function HexOf(v: nat): (h: string)
    requires v < 0x10000
    ensures WfUnit(Hex(h)) && HexCode(h) == v
  {
    DigitSum(v);
    HexValChar(v / 4096); HexValChar(v / 256 % 16); HexValChar(v / 16 % 16); HexValChar(v % 16);
    [HexChar(v / 4096), HexChar(v / 256 % 16), HexChar(v / 16 % 16), HexChar(v % 16)]
  }

  /** How `json.Marshal` writes one character, HTML-sensitive ones escaped. */
  function EncodeChar(c: char): (u: Unit)
    ensures WfUnit(u)
  {
    if c == '"' || c == '\\' then Short(c)
    else if c == '\U{8}' then Short('b')
    else if c == '\U{C}' then Short('f')
    else if c == '\n' then Short('n')
    else if c == '\r' then Short('r')
    else if c == '\t' then Short('t')
    else if c < ' ' || c == '<' || c == '>' || c == '&' || c == '\U{2028}' || c == '\U{2029}' then
      Hex(HexOf(c as int))
    else Plain(c)
  }

  function Encode(s: string): (us: seq<Unit>)
    ensures WfUnits(us)
  {
    if s == [] then [] else [EncodeChar(s[0])] + Encode(s[1..])
  }

  /** Characters that HTML gives a meaning, line separators and control characters. */
  predicate Sensitive(c: char) {
    c < ' ' || c == '<' || c == '>' || c == '&' || c == '\U{2028}' || c == '\U{2029}'
  }

  /** None of them is ever printed as it is. */
  lemma {:induction false} EncodedSafe(s: string)
    ensures forall i :: 0 <= i < |UnitsText(Encode(s))| ==> !Sensitive(UnitsText(Encode(s))[i])
    decreases s
  {
    if s != [] {
      CharSafe(s[0]);
      EncodedSafe(s[1..]);
      assert UnitsText(Encode(s)) == UnitText(EncodeChar(s[0])) + UnitsText(Encode(s[1..])) by {
        assert Encode(s)[0] == EncodeChar(s[0]) && Encode(s)[1..] == Encode(s[1..]);
      }
    }
  }

  lemma {:induction false} CharSafe(c: char)
    ensures forall i :: 0 <= i < |UnitText(EncodeChar(c))| ==> !Sensitive(UnitText(EncodeChar(c))[i])
  {
    var u := EncodeChar(c);
    if u.Hex? {
      assert forall i :: 0 <= i < 4 ==> IsHex(u.h[i]);
    }
  }

  function Unshort(c: char): char {
    match c
    case 'b' => '\U{8}'
    case 'f' => '\U{C}'
    case 'n' => '\n'
    case 'r' => '\r'
    case 't' => '\t'
    case _ => c
  }

  predicate Surrogate(v: nat) { 0xD800 <= v < 0xE000 }

  /** How `json.Unmarshal` reads a string back; a lone surrogate becomes U+FFFD. */
  function Decode(us: seq<Unit>): string
    requires WfUnits(us)
  {
    if us == [] then []
    else
      match us[0]
      case Plain(c) => [c] + Decode(us[1..])
      case Short(c) => [Unshort(c)] + Decode(us[1..])
      case Hex(h) =>
        var v := HexCode(h);
        if !Surrogate(v) then [v as char] + Decode(us[1..])
        else if v < 0xDC00 && |us| > 1 && us[1].Hex? && 0xDC00 <= HexCode(us[1].h) < 0xE000 then
          [(0x10000 + (v - 0xD800) * 0x400 + (HexCode(us[1].h) - 0xDC00)) as char] + Decode(us[2..])
        else ['\U{FFFD}'] + Decode(us[1..])
  }

  lemma {:induction false} DecodeChar(c: char, us: seq<Unit>)
    requires WfUnits(us)
    ensures Decode([EncodeChar(c)] + us) == [c] + Decode(us)
  {
    var u := EncodeChar(c);
    var all := [u] + us;
    assert all[1..] == us;
    if u.Hex? {
      assert HexCode(u.h) == c as int;
    }
  }

  /** Strings survive the trip out and back. */
  lemma {:induction false} DecodeEncode(s: string)
    ensures Decode(Encode(s)) == s
    decreases s
  {
    if s != [] {
      DecodeEncode(s[1..]);
      DecodeChar(s[0], Encode(s[1..]));
    }
  }

  // ---------------------------------------------------------------- decoding

  type Floats = Number -> Option<Number>

  /** Every number of the document is in range. */
  ghost predicate Fits(fl: Floats, v: Value) {
    match v
    case Num(n) => fl(n).Some?
    case Arr(first, rest) => Fits(fl, first.value) && FitsItems(fl, rest)
    case Obj(member, more) => Fits(fl, member.item.value) && FitsMembers(fl, more)
    case _ => true
  }

  ghost predicate FitsItems(fl: Floats, its: Items) {
    its.Items? ==> Fits(fl, its.head.value) && FitsItems(fl, its.tail)
  }

  ghost predicate FitsMembers(fl: Floats, ms: Members) {
    ms.Members? ==> Fits(fl, ms.head.item.value) && FitsMembers(fl, ms.tail)
  }

  /** The decoded value of a document; of repeated keys the last wins. */
  ghost function Denote(fl: Floats, v: Value): Any
    requires WfValue(v)
    decreases v
  {
    match v
    case Word(text) => if text == "null" then Nil else Flag(text == "true")
    case Num(n) => Float(if fl(n).Some? then fl(n).value else n)
    case Str(units) => Chars(Decode(units))
    case EmptyArr(_) => List([])
    case Arr(first, rest) => List([DenoteItem(fl, first)] + DenoteItems(fl, rest))
    case EmptyObj(_) => Dict(map[])
    case Obj(member, more) =>
      Dict(DenoteMembers(fl, more, map[KeyOf(member) := DenoteMember(fl, member)]))
  }

  ghost function DenoteItem(fl: Floats, it: Item): Any
    requires WfItem(it)
    decreases it
  {
    Denote(fl, it.value)
  }

  ghost function DenoteItems(fl: Floats, its: Items): seq<Any>
    requires WfItems(its)
    decreases its
  {
    match its
    case NoItems => []
    case Items(head, tail) => [DenoteItem(fl, head)] + DenoteItems(fl, tail)
  }

  function KeyOf(m: Member): string
    requires WfMember(m)
  {
    Decode(m.key)
  }

  ghost function DenoteMember(fl: Floats, m: Member): Any
    requires WfMember(m)
    decreases m
  {
    DenoteItem(fl, m.item)
  }

  ghost function DenoteMembers(fl: Floats, ms: Members, acc: map<string, Any>): map<string, Any>
    requires WfMembers(ms)
    decreases ms
  {
    match ms
    case NoMembers => acc
    case Members(head, tail) => DenoteMembers(fl, tail, acc[KeyOf(head) := DenoteMember(fl, head)])
  }

  ghost predicate Decodes(fl: Floats, raw: string, it: Item) {
    WfItem(it) && ItemText(it) == raw && Fits(fl, it.value)
  }

  ghost function Parse(fl: Floats, raw: string): (it: Item)
    requires exists it :: Decodes(fl, raw, it)
    ensures Decodes(fl, raw, it)
  {
    var it :| Decodes(fl, raw, it); it
  }

  /** `json.Unmarshal` into an `any`. */
  ghost function Unmarshal(fl: Floats, raw: string): Option<Any> {
    if exists it :: Decodes(fl, raw, it) then Some(DenoteItem(fl, Parse(fl, raw))) else None
  }

  lemma {:induction false} UnmarshalText(fl: Floats, it: Item)
    requires WfItem(it) && Fits(fl, it.value)
    ensures Unmarshal(fl, ItemText(it)) == Some(DenoteItem(fl, it))
  {
    assert Decodes(fl, ItemText(it), it);
    UniqueDocument(it, Parse(fl, ItemText(it)));
  }

  // ---------------------------------------------------------------- printing

  /** The document printed for a value: no whitespace, keys ascending. */
  ghost function Tree(v: Any): Value
    decreases v, 0
  {
    match v
    case Nil => Word("null")
    case Flag(b) => Word(if b then "true" else "false")
    case Float(n) => Num(n)
    case Chars(s) => Str(Encode(s))
    case List(elems) =>
      if elems == [] then EmptyArr("") else Arr(Item("", Tree(elems[0]), ""), TreeItems(elems[1..]))
    case Dict(fields) =>
      var ks := SortedKeys(fields.Keys);
      if ks == [] then EmptyObj("") else Obj(TreeMember(v, ks[0]), TreeMembers(v, ks[1..]))
  }

  ghost function TreeItems(es: seq<Any>): Items
    decreases es, 0
  {
    if es == [] then NoItems else Items(Item("", Tree(es[0]), ""), TreeItems(es[1..]))
  }

  ghost function TreeMember(v: Any, k: string): Member
    requires v.Dict? && k in v.fields
    decreases v.fields[k], 1
  {
    Member("", Encode(k), "", Item("", Tree(v.fields[k]), ""))
  }

  ghost function TreeMembers(v: Any, ks: seq<string>): Members
    requires v.Dict? && forall k :: k in ks ==> k in v.fields
    decreases v, 0, ks
  {
    if ks == [] then NoMembers else Members(TreeMember(v, ks[0]), TreeMembers(v, ks[1..]))
  }

  ghost function Canon(v: Any): string {
    Text(Tree(v))
  }

  // ---------------------------------------------------------------- the operation

  lemma {:induction false} ItemsSnoc(es: seq<Any>, i: nat)
    requires i < |es|
    ensures ItemsText(TreeItems(es[..i + 1])) == ItemsText(TreeItems(es[..i])) + ([','] + Canon(es[i]))
    decreases i
  {
    var a, b := es[..i + 1], es[..i];
    if i == 0 {
      assert a[1..] == [] && b == [];
      assert ItemText(Item("", Tree(es[0]), "")) == Canon(es[0]);
    } else {
      assert a[1..] == es[1..][..i] && b[1..] == es[1..][..i - 1];
      ItemsSnoc(es[1..], i - 1);
      var h := [','] + ItemText(Item("", Tree(es[0]), ""));
      assert ItemsText(TreeItems(a)) == h + ItemsText(TreeItems(a[1..]));
      assert ItemsText(TreeItems(b)) == h + ItemsText(TreeItems(b[1..]));
      Glue3(h, ItemsText(TreeItems(b[1..])), [','] + Canon(es[i]));
    }
  }

  /** The text of one member, as it is written out. */
  ghost function FieldText(v: Any, k: string): string
    requires v.Dict? && k in v.fields
  {
    Quoted(Encode(k)) + [':'] + Canon(v.fields[k])
  }

  lemma {:induction false} FieldIsMember(v: Any, k: string)
    requires v.Dict? && k in v.fields
    ensures MemberText(TreeMember(v, k)) == FieldText(v, k)
  {
    var m := TreeMember(v, k);
    assert ItemText(m.item) == Canon(v.fields[k]);
    assert m.before + Quoted(m.key) + m.between + [':'] == Quoted(Encode(k)) + [':'];
  }

  lemma {:induction false} MembersHead(v: Any, ks: seq<string>)
    requires v.Dict? && (forall k :: k in ks ==> k in v.fields) && ks != []
    ensures MembersText(TreeMembers(v, ks)) == [','] + MemberText(TreeMember(v, ks[0])) + MembersText(TreeMembers(v, ks[1..]))
  {
  }

  lemma {:induction false} MembersSnoc(v: Any, ks: seq<string>, i: nat)
    requires v.Dict? && (forall k :: k in ks ==> k in v.fields) && i < |ks|
    ensures MembersText(TreeMembers(v, ks[..i + 1])) == MembersText(TreeMembers(v, ks[..i])) + ([','] + FieldText(v, ks[i]))
    decreases i
  {
    var a, b := ks[..i + 1], ks[..i];
    if i == 0 {
      assert a[1..] == [] && b == [];
      FieldIsMember(v, ks[0]);
    } else {
      assert a[1..] == ks[1..][..i] && b[1..] == ks[1..][..i - 1];
      MembersSnoc(v, ks[1..], i - 1);
      var h := [','] + MemberText(TreeMember(v, ks[0]));
      MembersHead(v, a);
      MembersHead(v, b);
      Glue3(h, MembersText(TreeMembers(v, b[1..])), [','] + FieldText(v, ks[i]));
    }
  }

  /** What has been written of a list after `i` elements. */
  ghost function ListSoFar(es: seq<Any>, i: nat): string
    requires i <= |es|
  {
    if i == 0 then ['['] else ['['] + Canon(es[0]) + ItemsText(TreeItems(es[1..][..i - 1]))
  }

  ghost function DictSoFar(v: Any, ks: seq<string>, i: nat): string
    requires v.Dict? && (forall k :: k in ks ==> k in v.fields) && i <= |ks|
  {
    if i == 0 then ['{'] else ['{'] + FieldText(v, ks[0]) + MembersText(TreeMembers(v, ks[1..][..i - 1]))
  }

  /** Gathers the keys of a map in whatever order the map yields them. */
  method CollectKeys(fields: map<string, Any>) returns (keys: seq<string>)
    ensures forall i, j :: 0 <= i < j < |keys| ==> keys[i] != keys[j]
    ensures forall k :: k in keys <==> k in fields
  {
    keys := [];
    var todo := fields.Keys;
    while todo != {}
      invariant forall i, j :: 0 <= i < j < |keys| ==> keys[i] != keys[j]
      invariant forall k :: k in fields <==> k in keys || k in todo
      invariant forall k :: k in keys ==> k !in todo
      decreases |todo|
    {
      var k :| k in todo;
      keys := keys + [k];
      todo := todo - {k};
    }
  }

  method SortKeysRecursive(v: Any) returns (text: string)
    ensures text == Canon(v)
    decreases v
  {
    match v
    case Dict(fields) =>
      var found := CollectKeys(fields);
      var keys := SortStrings(found);
      AscendingUnique(keys, SortedKeys(fields.Keys));
      text := ['{'];
      for i := 0 to |keys|
        invariant text == DictSoFar(v, keys, i)
      {
        if i > 0 {
          text := text + [','];
        }
        var inner := SortKeysRecursive(fields[keys[i]]);
        DictStep(v, keys, i);
        text := text + (Quoted(Encode(keys[i])) + [':'] + inner);
      }
      text := text + ['}'];
      DictDone(v, keys);
    case List(elems) =>
      text := ['['];
      for i := 0 to |elems|
        invariant text == ListSoFar(elems, i)
      {
        if i > 0 {
          text := text + [','];
        }
        var inner := SortKeysRecursive(elems[i]);
        ListStep(elems, i);
        text := text + inner;
      }
      text := text + [']'];
      ListDone(elems);
    case Nil => text := "null";
    case Flag(b) => text := if b then "true" else "false";
    case Float(n) => text := NumberText(n);
    case Chars(s) => text := Quoted(Encode(s));
  }

  lemma {:induction false} DictStep(v: Any, ks: seq<string>, i: nat)
    requires v.Dict? && (forall k :: k in ks ==> k in v.fields) && i < |ks|
    ensures DictSoFar(v, ks, i + 1) == DictSoFar(v, ks, i) + (if i == 0 then [] else [',']) + FieldText(v, ks[i])
  {
    if i == 0 {
      assert ks[1..][..0] == [];
      EmptyBetween(['{'], FieldText(v, ks[0]));
    } else {
      MembersSnoc(v, ks[1..], i - 1);
      assert ks[1..][i - 1] == ks[i];
      Regroup(['{'] + FieldText(v, ks[0]), MembersText(TreeMembers(v, ks[1..][..i - 1])), [','], FieldText(v, ks[i]));
    }
  }

  lemma {:induction false} EmptyBetween(a: string, b: string)
    ensures a + b + [] == a + [] + b
  {
  }

  lemma {:induction false} Regroup(h: string, t: string, c: string, f: string)
    ensures h + (t + (c + f)) == h + t + c + f
  {
  }

  lemma {:induction false} DictDone(v: Any, ks: seq<string>)
    requires v.Dict? && ks == SortedKeys(v.fields.Keys)
    ensures DictSoFar(v, ks, |ks|) + ['}'] == Canon(v)
  {
    if ks == [] {
      assert Text(EmptyObj("")) == ['{'] + ['}'];
    } else {
      assert ks[1..][..|ks| - 1] == ks[1..];
      FieldIsMember(v, ks[0]);
      ObjPrint(TreeMember(v, ks[0]), TreeMembers(v, ks[1..]));
    }
  }

  lemma {:induction false} ObjPrint(m: Member, ms: Members)
    ensures Text(Obj(m, ms)) == ['{'] + MemberText(m) + MembersText(ms) + ['}']
  {
  }

  lemma {:induction false} ListStep(es: seq<Any>, i: nat)
    requires i < |es|
    ensures ListSoFar(es, i + 1) == ListSoFar(es, i) + (if i == 0 then [] else [',']) + Canon(es[i])
  {
    if i == 0 {
      assert es[1..][..0] == [];
      assert ['['] + Canon(es[0]) + [] == ['['] + [] + Canon(es[0]);
    } else {
      ItemsSnoc(es[1..], i - 1);
      var h, t := ['['] + Canon(es[0]), ItemsText(TreeItems(es[1..][..i - 1]));
      Glue3(h, t, [','] + Canon(es[i]));
      Glue3(h + t, [','], Canon(es[i]));
    }
  }

  lemma {:induction false} ListDone(es: seq<Any>)
    ensures ListSoFar(es, |es|) + [']'] == Canon(List(es))
  {
    if es == [] {
      assert Text(EmptyArr("")) == ['['] + [']'];
    } else {
      assert es[1..][..|es| - 1] == es[1..];
      assert ItemText(Item("", Tree(es[0]), "")) == Canon(es[0]);
    }
  }

  // ---------------------------------------------------------------- round trip

  /** `fl` is a float printer: what it prints is a number that it prints again as itself. */
  ghost predicate Faithful(fl: Floats) {
    forall n :: WfNumber(n) && fl(n).Some? ==> WfNumber(fl(n).value) && fl(fl(n).value) == fl(n)
  }

  /** A value as decoding yields it: every number is one that Go prints. */
  ghost predicate Printable(fl: Floats, v: Any) {
    match v
    case Float(n) => WfNumber(n) && fl(n) == Some(n)
    case List(elems) => forall i :: 0 <= i < |elems| ==> Printable(fl, elems[i])
    case Dict(fields) => forall k :: k in fields ==> Printable(fl, fields[k])
    case _ => true
  }

  /** What printing gives is well formed, in range, and decodes to what was printed. */
  ghost predicate Faith(fl: Floats, t: Value, v: Any) {
    WfValue(t) && Fits(fl, t) && Denote(fl, t) == v
  }

  lemma {:induction false} TreeFaith(fl: Floats, v: Any)
    requires Printable(fl, v)
    ensures Faith(fl, Tree(v), v)
    decreases v, 1
  {
    match v
    case Chars(s) => DecodeEncode(s);
    case List(elems) =>
      if elems != [] {
        TreeFaith(fl, elems[0]);
        ItemsFaith(fl, elems[1..]);
        assert [elems[0]] + elems[1..] == elems;
      }
    case Dict(fields) => DictFaith(fl, v);
    case _ =>
  }

  lemma {:induction false} ItemsFaith(fl: Floats, es: seq<Any>)
    requires forall i :: 0 <= i < |es| ==> Printable(fl, es[i])
    ensures WfItems(TreeItems(es)) && FitsItems(fl, TreeItems(es)) && DenoteItems(fl, TreeItems(es)) == es
    decreases es, 0
  {
    if es != [] {
      TreeFaith(fl, es[0]);
      ItemsFaith(fl, es[1..]);
      assert WfItem(Item("", Tree(es[0]), ""));
    }
  }

  lemma {:induction false} MemberFaith(fl: Floats, v: Any, k: string)
    requires v.Dict? && k in v.fields && Printable(fl, v)
    ensures var m := TreeMember(v, k);
            WfMember(m) && Fits(fl, m.item.value) && KeyOf(m) == k && DenoteMember(fl, m) == v.fields[k]
    decreases v, 0, 0, 0
  {
    TreeFaith(fl, v.fields[k]);
    DecodeEncode(k);
    assert WfItem(TreeMember(v, k).item);
  }

  lemma {:induction false} MembersFaith(fl: Floats, v: Any, ks: seq<string>, acc: map<string, Any>)
    requires v.Dict? && (forall k :: k in ks ==> k in v.fields) && Printable(fl, v)
    requires forall k :: k in acc ==> k in v.fields && acc[k] == v.fields[k]
    ensures WfMembers(TreeMembers(v, ks)) && FitsMembers(fl, TreeMembers(v, ks))
    ensures var d := DenoteMembers(fl, TreeMembers(v, ks), acc);
            && (forall k :: k in d <==> k in acc || k in ks)
            && (forall k :: k in d ==> k in v.fields && d[k] == v.fields[k])
    decreases v, 0, |ks|, 1
  {
    if ks != [] {
      MemberFaith(fl, v, ks[0]);
      MembersFaith(fl, v, ks[1..], acc[ks[0] := v.fields[ks[0]]]);
    }
  }

  lemma {:induction false} DictFaith(fl: Floats, v: Any)
    requires v.Dict? && Printable(fl, v)
    ensures Faith(fl, Tree(v), v)
    decreases v, 0
  {
    var ks := SortedKeys(v.fields.Keys);
    if ks == [] {
      assert forall k :: k in v.fields ==> k in ks;
      assert v.fields == map[];
    } else {
      MemberFaith(fl, v, ks[0]);
      MembersFaith(fl, v, ks[1..], map[ks[0] := v.fields[ks[0]]]);
      assert ks == [ks[0]] + ks[1..];
      ObjFaith(fl, v, TreeMember(v, ks[0]), TreeMembers(v, ks[1..]));
    }
  }

  lemma {:induction false} ObjFaith(fl: Floats, v: Any, m: Member, ms: Members)
    requires v.Dict? && WfMember(m) && Fits(fl, m.item.value) && WfMembers(ms) && FitsMembers(fl, ms)
    requires var d := DenoteMembers(fl, ms, map[KeyOf(m) := DenoteMember(fl, m)]);
             (forall k :: k in d <==> k in v.fields) && (forall k :: k in d ==> d[k] == v.fields[k])
    ensures Faith(fl, Obj(m, ms), v)
  {
    assert DenoteMembers(fl, ms, map[KeyOf(m) := DenoteMember(fl, m)]) == v.fields;
  }

  /** Decoding the canonical text of a value gives the value back. */
  lemma {:induction false} CanonRoundTrip(fl: Floats, v: Any)
    requires Printable(fl, v)
    ensures Unmarshal(fl, Canon(v)) == Some(v)
  {
    TreeFaith(fl, v);
    var it := Item("", Tree(v), "");
    assert ItemText(it) == Canon(v);
    UnmarshalText(fl, it);
  }

  /** Different values have different canonical texts. */
  lemma {:induction false} CanonInjective(fl: Floats, v: Any, w: Any)
    requires Printable(fl, v) && Printable(fl, w) && Canon(v) == Canon(w)
    ensures v == w
  {
    CanonRoundTrip(fl, v);
    CanonRoundTrip(fl, w);
  }

  // ---------------------------------------------------------------- decoded values are printable

  lemma {:induction false} DenotePrintable(fl: Floats, v: Value)
    requires Faithful(fl) && WfValue(v) && Fits(fl, v)
    ensures Printable(fl, Denote(fl, v))
    decreases v
  {
    match v
    case Arr(first, rest) =>
      DenotePrintable(fl, first.value);
      ItemsPrintable(fl, rest);
    case Obj(member, more) =>
      MemberPrintable(fl, member);
      MembersPrintable(fl, more, map[KeyOf(member) := DenoteMember(fl, member)]);
    case _ =>
  }

  lemma {:induction false} ItemsPrintable(fl: Floats, its: Items)
    requires Faithful(fl) && WfItems(its) && FitsItems(fl, its)
    ensures forall i :: 0 <= i < |DenoteItems(fl, its)| ==> Printable(fl, DenoteItems(fl, its)[i])
    decreases its
  {
    if its.Items? {
      DenotePrintable(fl, its.head.value);
      ItemsPrintable(fl, its.tail);
    }
  }

  lemma {:induction false} MemberPrintable(fl: Floats, m: Member)
    requires Faithful(fl) && WfMember(m) && Fits(fl, m.item.value)
    ensures Printable(fl, DenoteMember(fl, m))
    decreases m
  {
    assert WfItem(m.item);
    DenotePrintable(fl, m.item.value);
  }

  lemma {:induction false} MembersPrintable(fl: Floats, ms: Members, acc: map<string, Any>)
    requires Faithful(fl) && WfMembers(ms) && FitsMembers(fl, ms)
    requires forall k :: k in acc ==> Printable(fl, acc[k])
    ensures forall k :: k in DenoteMembers(fl, ms, acc) ==> Printable(fl, DenoteMembers(fl, ms, acc)[k])
    decreases ms
  {
    if ms.Members? {
      MemberPrintable(fl, ms.head);
      MembersPrintable(fl, ms.tail, acc[KeyOf(ms.head) := DenoteMember(fl, ms.head)]);
    }
  }

  // ---------------------------------------------------------------- sortSchemaKeys

  /** Canonical text of a schema; a schema that does not decode is passed on as it is. */
  ghost function SortSchemaKeys(fl: Floats, raw: string): string {
    match Unmarshal(fl, raw)
    case None => raw
    case Some(v) => Canon(v)
  }

  /** Canonicalising keeps the meaning of a schema, and doing it again changes nothing. */
  lemma {:induction false} SortSchemaKeysStable(fl: Floats, raw: string)
    requires Faithful(fl)
    ensures Unmarshal(fl, SortSchemaKeys(fl, raw)) == Unmarshal(fl, raw)
    ensures SortSchemaKeys(fl, SortSchemaKeys(fl, raw)) == SortSchemaKeys(fl, raw)
  {
    if Unmarshal(fl, raw).Some? {
      var it := Parse(fl, raw);
      DenotePrintable(fl, it.value);
      CanonRoundTrip(fl, Unmarshal(fl, raw).value);
    }
  }

  /** Schemas that decode have the same canonical text exactly when they mean the same. */
  lemma {:induction false} SortSchemaKeysDecides(fl: Floats, a: string, b: string)
    requires Faithful(fl) && Unmarshal(fl, a).Some? && Unmarshal(fl, b).Some?
    ensures SortSchemaKeys(fl, a) == SortSchemaKeys(fl, b) <==> Unmarshal(fl, a) == Unmarshal(fl, b)
  {
    SortSchemaKeysStable(fl, a);
    SortSchemaKeysStable(fl, b);
  }

  // ---------------------------------------------------------------- sorted at every depth

  ghost function KeysOf(ms: Members): seq<string>
    requires WfMembers(ms)
  {
    if ms.NoMembers? then [] else [KeyOf(ms.head)] + KeysOf(ms.tail)
  }

  /** In every object of the document the keys ascend, so none repeats. */
  ghost predicate SortedDeep(v: Value)
    requires WfValue(v)
    decreases v
  {
    match v
    case Arr(first, rest) => SortedItem(first) && SortedItems(rest)
    case Obj(member, more) =>
      Ascending([KeyOf(member)] + KeysOf(more)) && SortedMember(member) && SortedMembers(more)
    case _ => true
  }

  ghost predicate SortedItem(it: Item)
    requires WfItem(it)
    decreases it
  {
    SortedDeep(it.value)
  }

  ghost predicate SortedItems(its: Items)
    requires WfItems(its)
    decreases its
  {
    its.Items? ==> SortedItem(its.head) && SortedItems(its.tail)
  }

  ghost predicate SortedMember(m: Member)
    requires WfMember(m)
    decreases m
  {
    SortedItem(m.item)
  }

  ghost predicate SortedMembers(ms: Members)
    requires WfMembers(ms)
    decreases ms
  {
    ms.Members? ==> SortedMember(ms.head) && SortedMembers(ms.tail)
  }

  lemma {:induction false} TreeSorted(fl: Floats, v: Any)
    requires Printable(fl, v)
    ensures WfValue(Tree(v)) && SortedDeep(Tree(v))
    decreases v, 1
  {
    TreeFaith(fl, v);
    match v
    case List(elems) =>
      if elems != [] {
        TreeSorted(fl, elems[0]);
        ItemsFaith(fl, elems[1..]);
        ItemsSorted(fl, elems[1..]);
      }
    case Dict(fields) =>
      var ks := SortedKeys(fields.Keys);
      if ks != [] {
        MembersFaith(fl, v, ks[1..], map[]);
        MemberFaith(fl, v, ks[0]);
        TreeSorted(fl, fields[ks[0]]);
        MembersSorted(fl, v, ks[1..]);
        assert [ks[0]] + ks[1..] == ks;
      }
    case _ =>
  }

  lemma {:induction false} ItemsSorted(fl: Floats, es: seq<Any>)
    requires forall i :: 0 <= i < |es| ==> Printable(fl, es[i])
    ensures WfItems(TreeItems(es)) && SortedItems(TreeItems(es))
    decreases es, 0
  {
    ItemsFaith(fl, es);
    if es != [] {
      TreeSorted(fl, es[0]);
      ItemsSorted(fl, es[1..]);
    }
  }

  lemma {:induction false} MembersSorted(fl: Floats, v: Any, ks: seq<string>)
    requires v.Dict? && (forall k :: k in ks ==> k in v.fields) && Printable(fl, v)
    ensures var ms := TreeMembers(v, ks); WfMembers(ms) && KeysOf(ms) == ks && SortedMembers(ms)
    decreases v, 0, ks
  {
    MembersFaith(fl, v, ks, map[]);
    if ks != [] {
      MemberFaith(fl, v, ks[0]);
      TreeSorted(fl, v.fields[ks[0]]);
      MembersSorted(fl, v, ks[1..]);
    }
  }
}
