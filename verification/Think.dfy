/**
 The think splitter: separates `<think>...</think>` reasoning from visible text in a stream
 of text fragments.
 */
module Think {
  import opened Texts

  datatype State = Probe | Inside | Passthrough

  const OPEN := "<think"
  const CLOSE := "</think>"

  // ---------------------------------------------------------------- the Go string library

  predicate Occurs(s: string, sub: string, i: int) {
    0 <= i && i + |sub| <= |s| && s[i..i + |sub|] == sub
  }

  /** `strings.Index` from position `i` on. */
  function IndexFrom(s: string, sub: string, i: nat): (r: int)
    requires i <= |s|
    ensures r >= 0 ==> i <= r && Occurs(s, sub, r) && forall j :: i <= j < r ==> !Occurs(s, sub, j)
    ensures r < 0 ==> forall j :: i <= j ==> !Occurs(s, sub, j)
    decreases |s| - i
  {
    if Occurs(s, sub, i) then i else if i == |s| then -1 else IndexFrom(s, sub, i + 1)
  }

  function Index(s: string, sub: string): (r: int)
    ensures r >= 0 ==> Occurs(s, sub, r) && forall j :: 0 <= j < r ==> !Occurs(s, sub, j)
    ensures r < 0 ==> forall j :: 0 <= j ==> !Occurs(s, sub, j)
  {
    IndexFrom(s, sub, 0)
  }

  // ---------------------------------------------------------------- specification

  datatype Splitter = Splitter(state: State, buf: string, depth: int)

  const FRESH := Splitter(Probe, "", 0)

  /**
   How a fragment was taken apart: visible text, thought, an opening tag and a closing tag that
   were dropped, or the end of a stream.
   */
  datatype Piece = Vis(s: string) | Thk(s: string) | Opened(tag: string) | Closed | Ended

  datatype Out = Out(next: Splitter, thought: string, visible: string, pieces: seq<Piece>)

  /** `extractThinkTag`: the opening tag that `text` starts with, or nothing. */
  function ThinkTag(text: string): (r: string)
    ensures r <= text && (r != "" ==> OPEN <= r && r[|r| - 1] == '>')
  {
    if "<think>" <= text then "<think>"
    else if "<think " <= text then
      var end := Index(text[7..], ">");
      if end >= 0 then
        assert text[7..][end] == '>';
        text[..7 + end + 1]
      else ""
    else ""
  }

  /** What the text after an opening tag does. */
  function Emit(st: Splitter, text: string, before: string, head: seq<Piece>): Out {
    var i := Index(text, CLOSE);
    if i >= 0 then
      var d := st.depth - 1;
      var t := st.buf + text[..i];
      var rest := text[i + |CLOSE|..];
      Out(Splitter(if d == 0 then Probe else st.state, "", d), t, before + rest, head + [Thk(t), Closed, Vis(rest)])
    else Out(st.(buf := st.buf + text), "", before, head)
  }

  function Pushed(st: Splitter, text: string): Out {
    match st.state
    case Probe =>
      var tag := ThinkTag(text);
      var inside := Splitter(Inside, st.buf, st.depth + 1);
      if tag != "" then Emit(inside, text[|tag|..], "", [Opened(tag)])
      else
        var i := Index(text, OPEN);
        if i >= 0 then
          var inner := text[i + |OPEN|..];
          if ">" <= inner then Emit(inside, inner[1..], text[..i], [Vis(text[..i]), Opened("<think>")])
          else Out(inside.(buf := st.buf + inner), "", text[..i], [Vis(text[..i]), Opened(OPEN)])
        else Out(st.(state := Passthrough), "", text, [Vis(text)])
    case Inside => Emit(st, text, "", [])
    case Passthrough => Out(st, "", text, [Vis(text)])
  }

  function Flushed(st: Splitter): Out {
    Out(FRESH, st.buf, "", if st.buf == "" then [Ended] else [Thk(st.buf), Ended])
  }

  /** The same but for the pieces, which only the proofs look at. */
  ghost predicate Alike(a: Out, b: Out) {
    a.next == b.next && a.thought == b.thought && a.visible == b.visible
  }

  lemma {:induction false} PushedTag(st: Splitter, text: string)
    requires st.state == Probe && ThinkTag(text) != ""
    ensures Alike(Pushed(st, text), Emit(Splitter(Inside, st.buf, st.depth + 1), text[|ThinkTag(text)|..], "", []))
  {
  }

  lemma {:induction false} PushedOpen(st: Splitter, text: string, i: nat)
    requires st.state == Probe && ThinkTag(text) == "" && i == Index(text, OPEN)
    ensures var inside, inner := Splitter(Inside, st.buf, st.depth + 1), text[i + |OPEN|..];
            Alike(Pushed(st, text), if ">" <= inner then Emit(inside, inner[1..], text[..i], [])
                                    else Out(inside.(buf := st.buf + inner), "", text[..i], []))
  {
  }

  // ---------------------------------------------------------------- the object

  class ThinkSplitter {
    var state: State
    var buf: string
    var depth: int

    function Now(): Splitter
      reads this
    {
      Splitter(state, buf, depth)
    }

    constructor ()
      ensures Now() == FRESH
    {
      state, buf, depth := Probe, "", 0;
    }

    method ExtractAndEmit(text: string, thought0: string, visible0: string) returns (thought: string, visible: string)
      modifies this
      ensures var o := Emit(old(Now()), text, visible0, []);
              Now() == o.next && visible == o.visible
              && thought == if Index(text, CLOSE) >= 0 then o.thought else thought0
    {
      thought, visible := thought0, visible0;
      var i := Index(text, CLOSE);
      if i >= 0 {
        depth := depth - 1;
        if depth == 0 {
          state := Probe;
        }
        if |buf| > 0 {
          buf := buf + text[..i];
          thought := buf;
          buf := "";
        } else {
          thought := text[..i];
        }
        visible := visible + text[i + |CLOSE|..];
        return;
      }
      buf := buf + text;
    }

    method Push(text: string) returns (thought: string, visible: string)
      modifies this
      ensures var o := Pushed(old(Now()), text);
              Now() == o.next && thought == o.thought && visible == o.visible
    {
      thought, visible := "", "";
      ghost var st := Now();
      match state
      case Probe =>
        var tag := ThinkTag(text);
        if tag != "" {
          depth := depth + 1;
          state := Inside;
          PushedTag(st, text);
          thought, visible := ExtractAndEmit(text[|tag|..], thought, visible);
          return;
        }
        var i := Index(text, OPEN);
        if i >= 0 {
          PushedOpen(st, text, i);
          visible := text[..i];
          state := Inside;
          depth := depth + 1;
          var inner := text[i + |OPEN|..];
          if ">" <= inner {
            thought, visible := ExtractAndEmit(inner[1..], thought, visible);
          } else {
            buf := buf + inner;
          }
          return;
        }
        state := Passthrough;
        visible := text;
      case Inside =>
        var i := Index(text, CLOSE);
        if i >= 0 {
          depth := depth - 1;
          if depth == 0 {
            state := Probe;
          }
          if |buf| > 0 {
            buf := buf + text[..i];
            thought := buf;
            buf := "";
          } else {
            thought := text[..i];
          }
          visible := text[i + |CLOSE|..];
          return;
        }
        buf := buf + text;
      case Passthrough =>
        visible := text;
    }

    method Flush() returns (thought: string, visible: string)
      modifies this
      ensures var o := Flushed(old(Now()));
              Now() == o.next && thought == o.thought && visible == o.visible
    {
      thought, visible := "", "";
      if |buf| > 0 {
        thought := buf;
        buf := "";
      }
      state := Probe;
      depth := 0;
    }
  }

  // ---------------------------------------------------------------- whole runs

  datatype Op = Push(text: string) | Flush

  function Step(st: Splitter, op: Op): Out {
    match op
    case Push(text) => Pushed(st, text)
    case Flush => Flushed(st)
  }

  /** Everything a run emits: the final state, all thought, all visible text, all pieces. */
  function Run(st: Splitter, ops: seq<Op>): Out {
    if ops == [] then Out(st, "", "", [])
    else
      var r := Run(st, ops[..|ops| - 1]);
      var o := Step(r.next, ops[|ops| - 1]);
      Out(o.next, r.thought + o.thought, r.visible + o.visible, r.pieces + o.pieces)
  }

  function Input(ops: seq<Op>): string {
    if ops == [] then ""
    else Input(ops[..|ops| - 1]) + (if ops[|ops| - 1].Push? then ops[|ops| - 1].text else "")
  }

  /** The text the pieces were taken from, the dropped tags put back. */
  function Flatten(ps: seq<Piece>): string {
    if ps == [] then "" else Taken(ps[0]) + Flatten(ps[1..])
  }

  function Taken(p: Piece): string {
    match p
    case Vis(s) => s
    case Thk(s) => s
    case Opened(tag) => tag
    case Closed => CLOSE
    case Ended => ""
  }

  function Thoughts(ps: seq<Piece>): string {
    if ps == [] then "" else (if ps[0].Thk? then ps[0].s else "") + Thoughts(ps[1..])
  }

  function Visibles(ps: seq<Piece>): string {
    if ps == [] then "" else (if ps[0].Vis? then ps[0].s else "") + Visibles(ps[1..])
  }

  /** Whether the pieces are properly bracketed, and which side of a tag they end on. */
  datatype Side = Outer | Inner(thought: bool) | Broken

  function Bracket(side: Side, p: Piece): Side {
    match p
    case Vis(_) => if side.Outer? then Outer else Broken
    case Opened(tag) => if side.Outer? && OPEN <= tag then Inner(false) else Broken
    case Thk(_) => if side == Inner(false) then Inner(true) else Broken
    case Closed => if side == Inner(true) then Outer else Broken
    case Ended => if side.Broken? then Broken else Outer
  }

  function Brackets(side: Side, ps: seq<Piece>): Side {
    if ps == [] then side else Bracket(Brackets(side, ps[..|ps| - 1]), ps[|ps| - 1])
  }

  predicate Inv(st: Splitter) {
    st.depth == (if st.state == Inside then 1 else 0) && (st.buf != "" ==> st.state == Inside)
  }

  lemma {:induction false} TakenCat(a: seq<Piece>, b: seq<Piece>)
    ensures Flatten(a + b) == Flatten(a) + Flatten(b)
    decreases a
  {
    if a == [] {
      assert a + b == b;
    } else {
      assert (a + b)[1..] == a[1..] + b;
      TakenCat(a[1..], b);
      Glue3(Taken(a[0]), Flatten(a[1..]), Flatten(b));
    }
  }

  lemma {:induction false} ThoughtsCat(a: seq<Piece>, b: seq<Piece>)
    ensures Thoughts(a + b) == Thoughts(a) + Thoughts(b)
    decreases a
  {
    if a == [] {
      assert a + b == b;
    } else {
      assert (a + b)[1..] == a[1..] + b;
      ThoughtsCat(a[1..], b);
      Glue3(if a[0].Thk? then a[0].s else "", Thoughts(a[1..]), Thoughts(b));
    }
  }

  lemma {:induction false} VisiblesCat(a: seq<Piece>, b: seq<Piece>)
    ensures Visibles(a + b) == Visibles(a) + Visibles(b)
    decreases a
  {
    if a == [] {
      assert a + b == b;
    } else {
      assert (a + b)[1..] == a[1..] + b;
      VisiblesCat(a[1..], b);
      Glue3(if a[0].Vis? then a[0].s else "", Visibles(a[1..]), Visibles(b));
    }
  }

  lemma {:induction false} FlattenCat(a: seq<Piece>, b: seq<Piece>)
    ensures Flatten(a + b) == Flatten(a) + Flatten(b)
    ensures Thoughts(a + b) == Thoughts(a) + Thoughts(b)
    ensures Visibles(a + b) == Visibles(a) + Visibles(b)
  {
    TakenCat(a, b);
    ThoughtsCat(a, b);
    VisiblesCat(a, b);
  }

  lemma {:induction false} BracketsCat(side: Side, a: seq<Piece>, b: seq<Piece>)
    ensures Brackets(side, a + b) == Brackets(Brackets(side, a), b)
    decreases b
  {
    if b == [] {
      assert a + b == a;
    } else {
      assert (a + b)[..|a + b| - 1] == a + b[..|b| - 1];
      BracketsCat(side, a, b[..|b| - 1]);
    }
  }

  function SideOf(st: Splitter): Side {
    if st.state == Inside then Inner(false) else Outer
  }

  /** One step is lossless. */
  predicate Exact(st: Splitter, text: string, o: Out) {
    && st.buf + text == Flatten(o.pieces) + o.next.buf
    && o.thought == Thoughts(o.pieces) && o.visible == Visibles(o.pieces)
    && Brackets(SideOf(st), o.pieces) == SideOf(o.next)
    && Inv(o.next)
  }

  lemma CutGlue(buf: string, text: string, sub: string, i: nat)
    requires Occurs(text, sub, i)
    ensures buf + text == buf + text[..i] + sub + text[i + |sub|..]
  {
    assert text == text[..i] + sub + text[i + |sub|..];
  }

  lemma {:induction false} One(p: Piece)
    ensures Flatten([p]) == Taken(p)
    ensures Thoughts([p]) == (if p.Thk? then p.s else "") && Visibles([p]) == (if p.Vis? then p.s else "")
    ensures forall side :: Brackets(side, [p]) == Bracket(side, p)
  {
    assert [p][1..] == [] && [p][..0] == [];
  }

  lemma {:induction false} Tail3(t: string, rest: string)
    ensures var ps := [Thk(t), Closed, Vis(rest)];
            Flatten(ps) == t + CLOSE + rest && Thoughts(ps) == t && Visibles(ps) == rest && Brackets(Inner(false), ps) == Outer
  {
    One(Thk(t)); One(Closed); One(Vis(rest));
    FlattenCat([Thk(t)], [Closed]);
    FlattenCat([Thk(t)] + [Closed], [Vis(rest)]);
    BracketsCat(Inner(false), [Thk(t)], [Closed]);
    BracketsCat(Inner(false), [Thk(t)] + [Closed], [Vis(rest)]);
    assert [Thk(t)] + [Closed] + [Vis(rest)] == [Thk(t), Closed, Vis(rest)];
  }

  /** After an opening tag, or with text already held back. */
  lemma {:induction false} EmitExact(st: Splitter, text: string, before: string, head: seq<Piece>, side: Side)
    requires st.state == Inside && st.depth == 1
    requires Thoughts(head) == "" && Visibles(head) == before && Brackets(side, head) == Inner(false)
    ensures var o := Emit(st, text, before, head);
            && Flatten(head) + (st.buf + text) == Flatten(o.pieces) + o.next.buf
            && o.thought == Thoughts(o.pieces) && o.visible == Visibles(o.pieces)
            && Brackets(side, o.pieces) == SideOf(o.next) && Inv(o.next)
  {
    var i := Index(text, CLOSE);
    if i >= 0 {
      var t, rest := st.buf + text[..i], text[i + |CLOSE|..];
      ClosedTail(head, t, rest, side);
      CutGlue(st.buf, text, CLOSE, i);
      Empty(Flatten(head) + (t + CLOSE + rest));
    }
  }

  lemma {:induction false} ClosedTail(head: seq<Piece>, t: string, rest: string, side: Side)
    requires Thoughts(head) == "" && Brackets(side, head) == Inner(false)
    ensures var ps := head + [Thk(t), Closed, Vis(rest)];
            && Flatten(ps) == Flatten(head) + (t + CLOSE + rest)
            && Thoughts(ps) == t && Visibles(ps) == Visibles(head) + rest && Brackets(side, ps) == Outer
  {
    Tail3(t, rest);
    FlattenCat(head, [Thk(t), Closed, Vis(rest)]);
    BracketsCat(side, head, [Thk(t), Closed, Vis(rest)]);
    Empty(t);
  }

  lemma {:induction false} Pair(p: Piece, q: Piece, side: Side)
    ensures Flatten([p, q]) == Flatten([p]) + Flatten([q])
    ensures Thoughts([p, q]) == Thoughts([p]) + Thoughts([q]) && Visibles([p, q]) == Visibles([p]) + Visibles([q])
    ensures Brackets(side, [p, q]) == Bracket(Bracket(side, p), q)
  {
    One(p); One(q);
    FlattenCat([p], [q]);
    BracketsCat(side, [p], [q]);
    assert [p] + [q] == [p, q];
  }

  /** An opening tag at the start of the text. */
  lemma {:induction false} ProbeTag(st: Splitter, text: string)
    requires Inv(st) && st.state == Probe && ThinkTag(text) != ""
    ensures Exact(st, text, Pushed(st, text))
  {
    var tag := ThinkTag(text);
    One(Opened(tag));
    EmitExact(Splitter(Inside, st.buf, st.depth + 1), text[|tag|..], "", [Opened(tag)], Outer);
    assert text == tag + text[|tag|..];
    Empty(text);
    Empty(text[|tag|..]);
  }

  lemma {:induction false} ProbePlain(st: Splitter, text: string)
    requires Inv(st) && st.state == Probe && ThinkTag(text) == "" && Index(text, OPEN) < 0
    ensures Exact(st, text, Pushed(st, text))
  {
    One(Vis(text));
    Empty(text);
  }

  lemma {:induction false} ProbeExact(st: Splitter, text: string)
    requires Inv(st) && st.state == Probe
    ensures Exact(st, text, Pushed(st, text))
  {
    var i := Index(text, OPEN);
    if ThinkTag(text) != "" {
      ProbeTag(st, text);
    } else if i < 0 {
      ProbePlain(st, text);
    } else if ">" <= text[i + |OPEN|..] {
      ProbeWhole(st, text, i);
    } else {
      ProbeInner(st, text, i);
    }
  }

  /** A whole opening tag further on in the text. */
  lemma {:induction false} ProbeWhole(st: Splitter, text: string, i: nat)
    requires Inv(st) && st.state == Probe && ThinkTag(text) == "" && i == Index(text, OPEN) && ">" <= text[i + |OPEN|..]
    ensures Exact(st, text, Pushed(st, text))
  {
    var before, inner := text[..i], text[i + |OPEN|..];
    var inside := Splitter(Inside, st.buf, st.depth + 1);
    Empty(text);
    CutGlue("", text, OPEN, i);
    Empty(before);
    One(Vis(before)); One(Opened("<think>"));
    Pair(Vis(before), Opened("<think>"), Outer);
    EmitExact(inside, inner[1..], before, [Vis(before), Opened("<think>")], Outer);
    TagGlue(before, inner);
    Empty(inner[1..]);
  }

  /** Text and the beginning of a tag, and what comes after it put aside. */
  lemma {:induction false} HeldBack(st: Splitter, before: string, tag: string, inner: string, o: Out)
    requires Inv(st) && st.state == Probe && OPEN <= tag && o.pieces == [Vis(before), Opened(tag)]
    requires o.next == Splitter(Inside, st.buf + inner, st.depth + 1) && o.thought == "" && o.visible == before
    ensures Exact(st, before + tag + inner, o)
  {
    Empty(before);
    Empty(inner);
    Empty(before + tag + inner);
    One(Vis(before)); One(Opened(tag));
    Pair(Vis(before), Opened(tag), Outer);
  }

  /** An opening tag without its bracket. */
  lemma {:induction false} ProbeInner(st: Splitter, text: string, i: nat)
    requires Inv(st) && st.state == Probe && ThinkTag(text) == "" && i == Index(text, OPEN) && !(">" <= text[i + |OPEN|..])
    ensures Exact(st, text, Pushed(st, text))
  {
    assert text == text[..i] + OPEN + text[i + |OPEN|..];
    HeldBack(st, text[..i], OPEN, text[i + |OPEN|..], Pushed(st, text));
  }

  lemma TagGlue(before: string, inner: string)
    requires ">" <= inner
    ensures before + OPEN + inner == before + "<think>" + inner[1..]
  {
    assert inner == ">" + inner[1..];
    assert OPEN + ">" == "<think>";
    Glue3(before + OPEN, ">", inner[1..]);
    Glue3(before, OPEN, ">");
  }

  lemma {:induction false} PushExact(st: Splitter, text: string)
    requires Inv(st)
    ensures Exact(st, text, Pushed(st, text))
  {
    match st.state
    case Probe => ProbeExact(st, text);
    case Inside =>
      assert Brackets(Inner(false), []) == Inner(false);
      EmitExact(st, text, "", [], Inner(false));
    case Passthrough => One(Vis(text));
  }

  lemma {:induction false} FlushExact(st: Splitter)
    requires Inv(st)
    ensures Exact(st, "", Flushed(st))
  {
    One(Thk(st.buf)); One(Ended);
    Pair(Thk(st.buf), Ended, SideOf(st));
    Empty(st.buf);
  }

  /**
   For every sequence of pushes and flushes: putting the dropped tags back between the emitted
   segments, and the text still held back at the end, gives the input exactly; the emitted
   thought and visible text are those segments; the segments are properly bracketed by tags;
   and the depth is 1 exactly while inside a tag, where alone text is held back.
   */
  lemma {:induction false} Lossless(ops: seq<Op>)
    ensures var r := Run(FRESH, ops);
            && Flatten(r.pieces) + r.next.buf == Input(ops)
            && Thoughts(r.pieces) == r.thought && Visibles(r.pieces) == r.visible
            && Brackets(Outer, r.pieces) == SideOf(r.next)
            && Inv(r.next)
    decreases ops
  {
    if ops != [] {
      var front, op := ops[..|ops| - 1], ops[|ops| - 1];
      Lossless(front);
      var r := Run(FRESH, front);
      var text := if op.Push? then op.text else "";
      if op.Push? {
        PushExact(r.next, text);
      } else {
        FlushExact(r.next);
      }
      var o := Step(r.next, op);
      FlattenCat(r.pieces, o.pieces);
      BracketsCat(Outer, r.pieces, o.pieces);
      Glue3(Flatten(r.pieces), r.next.buf, text);
      Glue3(Flatten(r.pieces), Flatten(o.pieces), o.next.buf);
    }
  }

  /** A tag cut in two by a fragment boundary is not recognised, although the whole of it is. */
  lemma {:induction false} SplitTagMissed()
    ensures Run(FRESH, [Push("<thi"), Push("nk>x</think>y")]).thought == ""
    ensures Run(FRESH, [Push("<think>x</think>y")]).thought == "x"
  {
    var a, b := "<thi", "nk>x</think>y";
    assert forall j :: 0 <= j ==> !Occurs(a, OPEN, j);
    var one := Run(FRESH, [Push(a)]);
    assert [Push(a)][..0] == [];
    assert [Push(a), Push(b)][..1] == [Push(a)];
    assert ThinkTag(a) == "" && Index(a, OPEN) < 0;
    assert one == Out(FRESH.(state := Passthrough), "" + "", "" + a, [] + [Vis(a)]) by {
      assert Run(FRESH, []) == Out(FRESH, "", "", []);
      assert Step(FRESH, Push(a)) == Pushed(FRESH, a);
    }
    var c := "<think>x</think>y";
    assert [Push(c)][..0] == [];
    assert ThinkTag(c) == "<think>";
    var d := c[7..];
    assert d == "x</think>y";
    assert d[1..9] == CLOSE;
    assert Occurs(d, CLOSE, 1);
    assert !Occurs(d, CLOSE, 0) by { assert d[0] == 'x'; }
    assert Index(d, CLOSE) == 1;
    assert d[..1] == "x";
  }

  lemma {:induction false} VisiblesShorter(ps: seq<Piece>)
    ensures |Visibles(ps)| <= |Flatten(ps)|
    decreases ps
  {
    if ps != [] {
      VisiblesShorter(ps[1..]);
    }
  }

  lemma {:induction false} TagHidden(ps: seq<Piece>, i: nat)
    requires i < |ps| && ps[i].Opened? && ps[i].tag != ""
    ensures |Visibles(ps)| < |Flatten(ps)|
    decreases ps
  {
    if i == 0 {
      VisiblesShorter(ps[1..]);
    } else {
      TagHidden(ps[1..], i - 1);
    }
  }

  /** An opening tag was dropped, and stays dropped. */
  lemma {:induction false} TagDropped(ops: seq<Op>) returns (i: nat)
    requires ops != [] && ops[0].Push? && Index(ops[0].text, OPEN) >= 0
    ensures var ps := Run(FRESH, ops).pieces; i < |ps| && ps[i].Opened? && ps[i].tag != ""
    decreases ops
  {
    var front := ops[..|ops| - 1];
    if front == [] {
      assert Run(FRESH, ops).pieces == [] + Pushed(FRESH, ops[0].text).pieces;
      i := if ThinkTag(ops[0].text) != "" then 0 else 1;
    } else {
      i := TagDropped(front);
    }
  }

  lemma {:induction false} AllThrough(ops: seq<Op>)
    requires ops != [] && (forall k :: 0 <= k < |ops| ==> ops[k].Push?) && Index(ops[0].text, OPEN) < 0
    ensures var r := Run(FRESH, ops); r.next.state == Passthrough && r.thought == "" && r.visible == Input(ops)
    decreases ops
  {
    var front := ops[..|ops| - 1];
    if front == [] {
      NoTag(ops[0].text);
    } else {
      AllThrough(front);
    }
  }

  lemma {:induction false} NoTag(text: string)
    requires Index(text, OPEN) < 0
    ensures ThinkTag(text) == ""
  {
    if ThinkTag(text) != "" {
      assert Occurs(text, OPEN, 0);
    }
  }

  /**
   The first fragment decides: the stream is shown untouched, tags and all, exactly when its
   first fragment has no opening tag in it, whatever the later ones hold.
   */
  lemma {:induction false} FirstFragmentDecides(ops: seq<Op>)
    requires ops != [] && forall k :: 0 <= k < |ops| ==> ops[k].Push?
    ensures Run(FRESH, ops).visible == Input(ops) <==> Index(ops[0].text, OPEN) < 0
  {
    if Index(ops[0].text, OPEN) < 0 {
      AllThrough(ops);
    } else {
      Lossless(ops);
      var i := TagDropped(ops);
      TagHidden(Run(FRESH, ops).pieces, i);
    }
  }

  // ---------------------------------------------------------------- opening tags

  /** An opening tag: up to the first bracket, with attributes after a space. */
  predicate IsTag(s: string) {
    |s| >= 7 && OPEN <= s && (s[6] == '>' || s[6] == ' ') && s[|s| - 1] == '>' && forall k :: 0 <= k < |s| - 1 ==> s[k] != '>'
  }

  /** The opening tag that a text starts with is found, if there is one. */
  lemma {:induction false} ThinkTagExact(text: string, n: nat)
    requires n <= |text|
    ensures IsTag(text[..n]) <==> (ThinkTag(text) != "" && ThinkTag(text) == text[..n])
  {
    var r, p := ThinkTag(text), text[..n];
    assert forall k :: 0 <= k < n ==> p[k] == text[k];
    if r != "" {
      FoundIsTag(text);
      assert forall k :: 0 <= k < |r| ==> r[k] == text[k];
    } else if IsTag(p) {
      MissedTag(text, n);
    }
  }

  lemma {:induction false} FoundIsTag(text: string)
    requires ThinkTag(text) != ""
    ensures IsTag(ThinkTag(text))
  {
    if !("<think>" <= text) {
      var rest := text[7..];
      var end := Index(rest, ">");
      forall k | 0 <= k < end ensures rest[k] != '>' {
        assert !Occurs(rest, ">", k);
        assert rest[k..k + 1] == [rest[k]];
      }
      var r := ThinkTag(text);
      assert forall k :: 7 <= k < |r| ==> r[k] == rest[k - 7];
    }
  }

  lemma {:induction false} MissedTag(text: string, n: nat)
    requires n <= |text| && IsTag(text[..n])
    ensures ThinkTag(text) != ""
  {
    var p := text[..n];
    assert text[..7] == OPEN + [p[6]];
    if p[6] == '>' {
      assert "<think>" <= text;
    } else {
      assert text[..7] == "<think ";
      assert text[7..][n - 8] == p[n - 1];
      assert text[7..][n - 8..n - 7] == ">";
      assert Occurs(text[7..], ">", n - 8);
    }
  }
}
