/**
 The JSON grammar of RFC 8259 as concrete syntax trees.  A tree records every byte of the
 text, whitespace included, so `ItemText` is the text and well-formed trees are the
 documents (sections 2 to 7 of RFC 8259).
 */
module JsonGrammar {
  import opened JsonScan

  /** One character of a string: as itself, as a two-character escape, or as `\uXXXX`. */
  datatype Unit = Plain(c: char) | Short(c: char) | Hex(h: string)

  datatype Expo = NoExpo | Expo(mark: char, sign: string, digits: string)

  /** `frac` is the digits after the point, empty when there is no point. */
  datatype Number = Number(neg: bool, whole: string, frac: string, expo: Expo)

  datatype Value =
    | Word(text: string)
    | Num(number: Number)
    | Str(units: seq<Unit>)
    | EmptyArr(pad: string)
    | Arr(first: Item, rest: Items)
    | EmptyObj(pad: string)
    | Obj(member: Member, more: Members)

  /** A value with the whitespace around it; also a whole document. */
  datatype Item = Item(before: string, value: Value, after: string)
  datatype Items = NoItems | Items(head: Item, tail: Items)
  datatype Member = Member(before: string, key: seq<Unit>, between: string, item: Item)
  datatype Members = NoMembers | Members(head: Member, tail: Members)

  predicate IsDigit(c: char) { '0' <= c <= '9' }

  predicate AllDigits(s: string) {
    forall i :: 0 <= i < |s| ==> IsDigit(s[i])
  }

  predicate IsHex(c: char) {
    IsDigit(c) || 'a' <= c <= 'f' || 'A' <= c <= 'F'
  }

  predicate IsShort(c: char) {
    c == '"' || c == '\\' || c == '/' || c == 'b' || c == 'f' || c == 'n' || c == 'r' || c == 't'
  }

  predicate IsPlain(c: char) {
    c >= ' ' && c != '"' && c != '\\'
  }

  // ---------------------------------------------------------------- texts

  function UnitText(u: Unit): string {
    match u
    case Plain(c) => [c]
    case Short(c) => ['\\', c]
    case Hex(h) => ['\\', 'u'] + h
  }

  function UnitsText(us: seq<Unit>): string {
    if us == [] then [] else UnitText(us[0]) + UnitsText(us[1..])
  }

  function Quoted(us: seq<Unit>): string {
    ['"'] + UnitsText(us) + ['"']
  }

  function ExpoText(e: Expo): string {
    match e
    case NoExpo => []
    case Expo(mark, sign, digits) => [mark] + sign + digits
  }

  function NumberText(n: Number): string {
    (if n.neg then ['-'] else []) + n.whole + (if n.frac == [] then [] else ['.'] + n.frac) + ExpoText(n.expo)
  }

  function Text(v: Value): string {
    match v
    case Word(text) => text
    case Num(number) => NumberText(number)
    case Str(units) => Quoted(units)
    case EmptyArr(pad) => ['['] + pad + [']']
    case Arr(first, rest) => ['['] + ItemText(first) + ItemsText(rest) + [']']
    case EmptyObj(pad) => ['{'] + pad + ['}']
    case Obj(member, more) => ['{'] + MemberText(member) + MembersText(more) + ['}']
  }

  function ItemText(it: Item): string {
    it.before + Text(it.value) + it.after
  }

  function ItemsText(its: Items): string {
    match its
    case NoItems => []
    case Items(head, tail) => [','] + ItemText(head) + ItemsText(tail)
  }

  function MemberText(m: Member): string {
    m.before + Quoted(m.key) + m.between + [':'] + ItemText(m.item)
  }

  function MembersText(ms: Members): string {
    match ms
    case NoMembers => []
    case Members(head, tail) => [','] + MemberText(head) + MembersText(tail)
  }

  // ---------------------------------------------------------------- well-formed trees

  predicate WfUnit(u: Unit) {
    match u
    case Plain(c) => IsPlain(c)
    case Short(c) => IsShort(c)
    case Hex(h) => |h| == 4 && IsHex(h[0]) && IsHex(h[1]) && IsHex(h[2]) && IsHex(h[3])
  }

  predicate WfUnits(us: seq<Unit>) {
    forall i :: 0 <= i < |us| ==> WfUnit(us[i])
  }

  predicate WfNumber(n: Number) {
    && n.whole != [] && AllDigits(n.whole) && (n.whole[0] == '0' ==> |n.whole| == 1)
    && AllDigits(n.frac) && WfExpo(n.expo)
  }

  predicate WfExpo(e: Expo) {
    e.Expo? ==>
      && (e.mark == 'e' || e.mark == 'E')
      && (e.sign == [] || e.sign == ['+'] || e.sign == ['-'])
      && e.digits != [] && AllDigits(e.digits)
  }

  predicate WfValue(v: Value) {
    match v
    case Word(text) => text == "null" || text == "true" || text == "false"
    case Num(number) => WfNumber(number)
    case Str(units) => WfUnits(units)
    case EmptyArr(pad) => AllWs(pad)
    case Arr(first, rest) => WfItem(first) && WfItems(rest)
    case EmptyObj(pad) => AllWs(pad)
    case Obj(member, more) => WfMember(member) && WfMembers(more)
  }

  predicate WfItem(it: Item) {
    AllWs(it.before) && AllWs(it.after) && WfValue(it.value)
  }

  predicate WfItems(its: Items) {
    match its
    case NoItems => true
    case Items(head, tail) => WfItem(head) && WfItems(tail)
  }

  predicate WfMember(m: Member) {
    AllWs(m.before) && WfUnits(m.key) && AllWs(m.between) && WfItem(m.item)
  }

  predicate WfMembers(ms: Members) {
    match ms
    case NoMembers => true
    case Members(head, tail) => WfMember(head) && WfMembers(tail)
  }

  /** `s` is a JSON text: some well-formed tree prints to it. */
  ghost predicate IsJson(s: string) {
    exists it :: WfItem(it) && ItemText(it) == s
  }
}
