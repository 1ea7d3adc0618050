/**
 Which ways of cutting a stream into fragments the think splitter survives.
 */
module ThinkCuts {
  import opened Texts
  import opened Think

  // ---------------------------------------------------------------- inside a tag

  function Cat(fs: seq<string>): string {
    if fs == [] then "" else Cat(fs[..|fs| - 1]) + fs[|fs| - 1]
  }

  function Pushes(fs: seq<string>): (ops: seq<Op>)
    ensures |ops| == |fs|
  {
    seq(|fs|, k requires 0 <= k < |fs| => Push(fs[k]))
  }

  lemma {:induction false} PushMore(st: Splitter, fs: seq<string>, f: string)
    ensures Then(Run(st, Pushes(fs)), f, Run(st, Pushes(fs + [f])))
    ensures Cat(fs + [f]) == Cat(fs) + f
  {
    var ops := Pushes(fs + [f]);
    assert ops[..|ops| - 1] == Pushes(fs);
    assert (fs + [f])[..|fs|] == fs;
  }

  /** The text inside the tag ends where the first closing tag begins. */
  predicate Marks(t: string) {
    Index(t + CLOSE, CLOSE) == |t|
  }

  function Body(t: string, v: string): string {
    t + CLOSE + v
  }

  lemma {:induction false} SliceOfSlice(b: string, i: nat, j: nat, k: nat, l: nat)
    requires i <= j <= |b| && k <= l <= j - i
    ensures b[i..j][k..l] == b[i + k..i + l]
  {
    var s := b[i..j];
    assert forall x :: 0 <= x < |s| ==> s[x] == b[i + x];
    assert forall x :: 0 <= x < l - k ==> s[k..l][x] == s[k + x];
  }

  /** What occurs in a slice occurs in the whole, and the other way round. */
  lemma {:induction false} SliceOccurs(b: string, sub: string, i: nat, j: nat, k: nat)
    requires i <= j <= |b|
    ensures Occurs(b[i..j], sub, k) <==> (i + k + |sub| <= j && Occurs(b, sub, i + k))
  {
    if i + k + |sub| <= j {
      SliceOfSlice(b, i, j, k, k + |sub|);
    }
  }

  lemma {:induction false} BodyParts(t: string, v: string)
    ensures Body(t, v)[0..|t| + |CLOSE|] == t + CLOSE && Body(t, v)[|t| + |CLOSE|..|Body(t, v)|] == v
    ensures Body(t, v)[..|t|] == t && Occurs(Body(t, v), CLOSE, |t|)
  {
  }

  /** The closing tag after `t` is the first in the whole text. */
  lemma {:induction false} CloseNotBefore(t: string, v: string, k: nat)
    requires Marks(t) && k < |t|
    ensures !Occurs(Body(t, v), CLOSE, k)
  {
    BodyParts(t, v);
    SliceOccurs(Body(t, v), CLOSE, 0, |t| + |CLOSE|, k);
  }

  lemma {:induction false} NoCloseYet(t: string, v: string, i: nat, j: nat)
    requires Marks(t) && i <= j < |t| + |CLOSE|
    ensures j <= |Body(t, v)| && Index(Body(t, v)[i..j], CLOSE) < 0
  {
    var k := Index(Body(t, v)[i..j], CLOSE);
    if k >= 0 {
      SliceOccurs(Body(t, v), CLOSE, i, j, k);
      CloseNotBefore(t, v, i + k);
    }
  }

  lemma {:induction false} CloseHere(t: string, v: string, i: nat, j: nat)
    requires Marks(t) && i <= |t| && |t| + |CLOSE| <= j <= |Body(t, v)|
    ensures Index(Body(t, v)[i..j], CLOSE) == |t| - i
  {
    var k := Index(Body(t, v)[i..j], CLOSE);
    BodyParts(t, v);
    SliceOccurs(Body(t, v), CLOSE, i, j, |t| - i);
    if 0 <= k < |t| - i {
      SliceOccurs(Body(t, v), CLOSE, i, j, k);
      CloseNotBefore(t, v, i + k);
    }
  }

  lemma {:induction false} NoOpenLater(t: string, v: string, i: nat, j: nat)
    requires Index(v, OPEN) < 0 && |t| + |CLOSE| <= i <= j <= |Body(t, v)|
    ensures Index(Body(t, v)[i..j], OPEN) < 0
  {
    var b, k := Body(t, v), Index(Body(t, v)[i..j], OPEN);
    BodyParts(t, v);
    if k >= 0 {
      SliceOccurs(b, OPEN, i, j, k);
      SliceOccurs(b, OPEN, |t| + |CLOSE|, |b|, i + k - |t| - |CLOSE|);
    }
  }

  const INSIDE := Splitter(Inside, "", 1)

  /** A boundary lies strictly inside the closing tag, which begins at `at`. */
  ghost predicate Severs(fs: seq<string>, at: nat) {
    exists k :: 0 <= k <= |fs| && at < |Cat(fs[..k])| < at + |CLOSE|
  }

  /** Inside a tag, after the first `m` characters; `cut` says whether the closing tag was cut in two. */
  ghost predicate Stage(t: string, v: string, m: nat, cut: bool, o: Out) {
    && m <= |Body(t, v)|
    && (if m < |t| + |CLOSE| then Held(Body(t, v), m, o) && (cut ==> m > |t|)
        else if cut then |o.thought| + |o.next.buf| > |t|
        else Shown(t, v, m, o))
  }

  /** Everything so far is held back. */
  ghost predicate Held(b: string, m: nat, o: Out) {
    m <= |b| && o.next == Splitter(Inside, b[..m], 1) && o.thought == "" && o.visible == ""
  }

  /** The closing tag was found. */
  ghost predicate Shown(t: string, v: string, m: nat, o: Out) {
    && |t| + |CLOSE| <= m <= |Body(t, v)|
    && o.next.state != Inside && o.next.buf == "" && o.thought == t && o.visible == Body(t, v)[|t| + |CLOSE|..m]
  }

  /** `all` is the outcome after one more fragment. */
  predicate Then(o: Out, f: string, all: Out) {
    var q := Pushed(o.next, f);
    all.next == q.next && all.thought == o.thought + q.thought && all.visible == o.visible + q.visible
  }

  lemma {:induction false} PushHeld(buf: string, f: string)
    requires Index(f, CLOSE) < 0
    ensures var q := Pushed(Splitter(Inside, buf, 1), f);
            q.next == Splitter(Inside, buf + f, 1) && q.thought == "" && q.visible == ""
  {
  }

  /** Still before the end of the closing tag. */
  lemma {:induction false} HeldMore(t: string, v: string, i: nat, j: nat, o: Out, f: string, all: Out)
    requires Marks(t) && i <= j < |t| + |CLOSE| && f == Body(t, v)[i..j] && Held(Body(t, v), i, o) && Then(o, f, all)
    ensures Held(Body(t, v), j, all)
  {
    var b := Body(t, v);
    NoCloseYet(t, v, i, j);
    PushHeld(b[..i], f);
    assert b[..i] + b[i..j] == b[..j];
    Empty("");
  }

  /** Where a fragment with the whole closing tag is cut. */
  lemma {:induction false} ClosedParts(t: string, v: string, i: nat, j: nat)
    requires i <= |t| && |t| + |CLOSE| <= j <= |Body(t, v)|
    ensures var b := Body(t, v);
            b[..i] + b[i..j][..|t| - i] == t && b[i..j][|t| - i + |CLOSE|..] == b[|t| + |CLOSE|..j]
  {
    var b := Body(t, v);
    BodyParts(t, v);
    SliceOfSlice(b, i, j, 0, |t| - i);
    SliceOfSlice(b, i, j, |t| - i + |CLOSE|, j - i);
    assert b[..i] + b[i..|t|] == b[..|t|];
  }

  lemma {:induction false} PushClosing(buf: string, f: string, i: nat)
    requires Index(f, CLOSE) == i
    ensures var q := Pushed(Splitter(Inside, buf, 1), f);
            q.next == Splitter(Probe, "", 0) && q.thought == buf + f[..i] && q.visible == f[i + |CLOSE|..]
  {
    Empty(f[i + |CLOSE|..]);
  }

  /** A fragment that has the whole closing tag in it. */
  lemma {:induction false} ShownNow(t: string, v: string, i: nat, j: nat, o: Out, f: string, all: Out)
    requires Marks(t) && i <= |t| && |t| + |CLOSE| <= j <= |Body(t, v)| && f == Body(t, v)[i..j]
    requires Held(Body(t, v), i, o) && Then(o, f, all)
    ensures Shown(t, v, j, all)
  {
    CloseHere(t, v, i, j);
    PushClosing(Body(t, v)[..i], f, |t| - i);
    ClosedParts(t, v, i, j);
    Empty(t);
    Empty(Body(t, v)[|t| + |CLOSE|..j]);
  }

  lemma {:induction false} PushShown(st: Splitter, f: string)
    requires st.state != Inside && Index(f, OPEN) < 0
    ensures Pushed(st, f).next == st.(state := Passthrough) && Pushed(st, f).thought == "" && Pushed(st, f).visible == f
  {
    NoTag(f);
  }

  /** After the tag everything is shown. */
  lemma {:induction false} ShownMore(t: string, v: string, i: nat, j: nat, o: Out, f: string, all: Out)
    requires Index(v, OPEN) < 0 && Shown(t, v, i, o) && i <= j <= |Body(t, v)| && f == Body(t, v)[i..j] && Then(o, f, all)
    ensures Shown(t, v, j, all)
  {
    var b := Body(t, v);
    NoOpenLater(t, v, i, j);
    PushShown(o.next, f);
    assert b[|t| + |CLOSE|..i] + b[i..j] == b[|t| + |CLOSE|..j];
    Empty(t);
  }

  /** What is thought or held back is never taken back. */
  lemma {:induction false} NeverLess(o: Out, f: string, all: Out)
    requires Then(o, f, all)
    ensures |all.thought| + |all.next.buf| >= |o.thought| + |o.next.buf|
  {
  }

  lemma {:induction false} StageStep(t: string, v: string, i: nat, j: nat, cut: bool, o: Out, f: string, all: Out)
    requires Marks(t) && Index(v, OPEN) < 0 && Stage(t, v, i, cut, o)
    requires i <= j <= |Body(t, v)| && f == Body(t, v)[i..j] && Then(o, f, all) && (|t| < i < |t| + |CLOSE| ==> cut)
    ensures Stage(t, v, j, cut || |t| < j < |t| + |CLOSE|, all)
  {
    if j < |t| + |CLOSE| {
      HeldMore(t, v, i, j, o, f, all);
    } else if cut {
      NeverLess(o, f, all);
    } else if i <= |t| {
      ShownNow(t, v, i, j, o, f, all);
    } else {
      ShownMore(t, v, i, j, o, f, all);
    }
  }

  lemma {:induction false} SeversMore(fs: seq<string>, f: string, at: nat)
    ensures Severs(fs + [f], at) <==> (Severs(fs, at) || at < |Cat(fs + [f])| < at + |CLOSE|)
    ensures at < |Cat(fs)| < at + |CLOSE| ==> Severs(fs, at)
  {
    var all := fs + [f];
    assert all[..|all|] == all && fs[..|fs|] == fs;
    assert forall k :: 0 <= k <= |fs| ==> all[..k] == fs[..k];
  }

  lemma {:induction false} TailOf(a: string, f: string, b: string)
    requires a + f <= b
    ensures f == b[|a|..|a| + |f|] && a <= b
  {
    assert (a + f)[..|a|] == a && (a + f)[|a|..] == f;
  }

  lemma {:induction false} CatPrefix(fs: seq<string>, k: nat)
    requires k <= |fs|
    ensures Cat(fs[..k]) <= Cat(fs)
    decreases fs
  {
    if k == |fs| {
      assert fs[..k] == fs;
    } else {
      assert fs[..|fs| - 1][..k] == fs[..k];
      CatPrefix(fs[..|fs| - 1], k);
    }
  }

  lemma {:induction false} StageAfter(t: string, v: string, a: string, f: string, cut: bool, more: bool, o: Out, all: Out)
    requires Marks(t) && Index(v, OPEN) < 0 && a + f <= Body(t, v) && Stage(t, v, |a|, cut, o) && Then(o, f, all)
    requires (|t| < |a| < |t| + |CLOSE| ==> cut) && (more <==> (cut || |t| < |a + f| < |t| + |CLOSE|))
    ensures Stage(t, v, |a + f|, more, all)
  {
    TailOf(a, f, Body(t, v));
    StageStep(t, v, |a|, |a + f|, cut, o, f, all);
  }

  lemma {:induction false} StageSnoc(t: string, v: string, p: seq<string>, f: string)
    requires Marks(t) && Index(v, OPEN) < 0 && Cat(p + [f]) <= Body(t, v)
    requires Stage(t, v, |Cat(p)|, Severs(p, |t|), Run(INSIDE, Pushes(p)))
    ensures Stage(t, v, |Cat(p + [f])|, Severs(p + [f], |t|), Run(INSIDE, Pushes(p + [f])))
  {
    PushMore(INSIDE, p, f);
    SeversMore(p, f, |t|);
    StageAfter(t, v, Cat(p), f, Severs(p, |t|), Severs(p + [f], |t|), Run(INSIDE, Pushes(p)), Run(INSIDE, Pushes(p + [f])));
  }

  lemma {:induction false} StageNone(t: string, v: string)
    ensures Stage(t, v, |Cat([])|, Severs([], |t|), Run(INSIDE, Pushes([])))
  {
    assert Pushes([]) == [] && Body(t, v)[..0] == "";
  }

  lemma {:induction false} StageAll(t: string, v: string, fs: seq<string>)
    requires Marks(t) && Index(v, OPEN) < 0 && Cat(fs) <= Body(t, v)
    ensures Stage(t, v, |Cat(fs)|, Severs(fs, |t|), Run(INSIDE, Pushes(fs)))
    decreases fs
  {
    if fs == [] {
      StageNone(t, v);
    } else {
      var p, f := fs[..|fs| - 1], fs[|fs| - 1];
      assert p + [f] == fs;
      CatPrefix(fs, |fs| - 1);
      StageAll(t, v, p);
      StageSnoc(t, v, p, f);
    }
  }

  /** Held back, or already more than `n` characters thought or held back. */
  ghost predicate Long(b: string, m: nat, n: nat, o: Out) {
    Held(b, m, o) || |o.thought| + |o.next.buf| >= n
  }

  lemma {:induction false} LongStep(b: string, i: nat, j: nat, n: nat, o: Out, f: string, all: Out)
    requires Long(b, i, n, o) && i <= j <= |b| && f == b[i..j] && Then(o, f, all)
    requires forall k :: i <= k < n ==> !Occurs(b, CLOSE, k)
    ensures Long(b, j, n, all)
  {
    if |o.thought| + |o.next.buf| >= n {
      NeverLess(o, f, all);
    } else if Index(f, CLOSE) < 0 {
      PushHeld(b[..i], f);
      assert b[..i] + b[i..j] == b[..j];
      Empty("");
    } else {
      var k := Index(f, CLOSE);
      PushClosing(b[..i], f, k);
      SliceOccurs(b, CLOSE, i, j, k);
    }
  }

  lemma {:induction false} LongAll(b: string, a: string, n: nat, rest: seq<string>)
    requires a + Cat(rest) <= b && forall k :: |a| <= k < n ==> !Occurs(b, CLOSE, k)
    ensures Long(b, |a + Cat(rest)|, n, Run(Splitter(Inside, a, 1), Pushes(rest)))
    decreases rest
  {
    var st := Splitter(Inside, a, 1);
    if rest == [] {
      assert Pushes(rest) == [];
      Empty(a);
      assert b[..|a|] == a;
    } else {
      var p, f := rest[..|rest| - 1], rest[|rest| - 1];
      assert rest == p + [f];
      PushMore(st, p, f);
      Glue3(a, Cat(p), f);
      TailOf(a + Cat(p), f, b);
      LongAll(b, a, n, p);
      LongStep(b, |a + Cat(p)|, |a + Cat(rest)|, n, Run(st, Pushes(p)), f, Run(st, Pushes(rest)));
    }
  }

  // ---------------------------------------------------------------- the first fragment

  /** The first run shows `u` and then all that the second shows; otherwise they come out alike. */
  ghost predicate Prefixed(u: string, a: Out, b: Out) {
    a.next == b.next && a.thought == b.thought && a.visible == u + b.visible
  }

  lemma {:induction false} PrefixedMore(u: string, o: Out, q: Out, f: string, all: Out, more: Out)
    requires Prefixed(u, o, q) && Then(o, f, all) && Then(q, f, more)
    ensures Prefixed(u, all, more)
  {
    Glue3(u, q.visible, Pushed(q.next, f).visible);
  }

  lemma {:induction false} PrefixedSnoc(u: string, st: Splitter, p: seq<string>, su: Splitter, q: seq<string>, f: string)
    requires Prefixed(u, Run(st, Pushes(p)), Run(su, Pushes(q)))
    ensures Prefixed(u, Run(st, Pushes(p + [f])), Run(su, Pushes(q + [f])))
  {
    PushMore(st, p, f);
    PushMore(su, q, f);
    PrefixedMore(u, Run(st, Pushes(p)), Run(su, Pushes(q)), f, Run(st, Pushes(p + [f])), Run(su, Pushes(q + [f])));
  }

  lemma {:induction false} LastApart(p: seq<string>, rest: seq<string>)
    requires rest != []
    ensures p + rest == p + rest[..|rest| - 1] + [rest[|rest| - 1]]
  {
  }

  lemma {:induction false} PrefixedRun(u: string, st: Splitter, p: seq<string>, su: Splitter, q: seq<string>, rest: seq<string>)
    requires Prefixed(u, Run(st, Pushes(p)), Run(su, Pushes(q)))
    ensures Prefixed(u, Run(st, Pushes(p + rest)), Run(su, Pushes(q + rest)))
    decreases rest
  {
    if rest == [] {
      assert p + rest == p && q + rest == q;
    } else {
      var r, f := rest[..|rest| - 1], rest[|rest| - 1];
      PrefixedRun(u, st, p, su, q, r);
      LastApart(p, rest);
      LastApart(q, rest);
      PrefixedSnoc(u, st, p + r, su, q + r, f);
    }
  }

  lemma {:induction false} AfterNothing(o: Out, f: string, all: Out)
    requires Then(o, f, all) && o.thought == "" && o.visible == ""
    ensures var q := Pushed(o.next, f); all.next == q.next && all.thought == q.thought && all.visible == q.visible
  {
    Empty(Pushed(o.next, f).thought);
    Empty(Pushed(o.next, f).visible);
  }

  lemma {:induction false} RunNone(st: Splitter, none: seq<string>)
    requires none == []
    ensures var r := Run(st, Pushes(none)); r.next == st && r.thought == "" && r.visible == ""
  {
  }

  lemma {:induction false} RunOne(st: Splitter, f: string, none: seq<string>)
    requires none == []
    ensures var r, q := Run(st, Pushes([f])), Pushed(st, f); r.next == q.next && r.thought == q.thought && r.visible == q.visible
  {
    PushMore(st, none, f);
    RunNone(st, none);
    assert none + [f] == [f];
    AfterNothing(Run(st, Pushes(none)), f, Run(st, Pushes([f])));
  }

  /** Text `u`, then an opening tag `h`, the first in the stream. */
  predicate Opens(u: string, h: string) {
    IsTag(h) && Index(u + h, OPEN) == |u|
  }

  /** Where the first fragment has its first opening tag. */
  lemma {:induction false} FirstOpen(u: string, h: string, b: string, f: string)
    requires Opens(u, h) && f <= u + h + b
    ensures Index(f, OPEN) == if |f| >= |u| + |OPEN| then |u| else -1
  {
    var s := u + h + b;
    assert s[0..|u + h|] == u + h && s[0..|f|] == f;
    forall k | 0 <= k < |u|
      ensures !Occurs(s, OPEN, k)
    {
      SliceOccurs(s, OPEN, 0, |u + h|, k);
    }
    SliceOccurs(s, OPEN, 0, |u + h|, |u|);
    forall k: nat
      ensures Occurs(f, OPEN, k) <==> (k + |OPEN| <= |f| && Occurs(s, OPEN, k))
    {
      SliceOccurs(s, OPEN, 0, |f|, k);
    }
    if |f| >= |u| + |OPEN| {
      IndexIs(f, OPEN, |u|);
    } else {
      IndexNone(f, OPEN);
    }
  }

  lemma {:induction false} IndexIs(s: string, sub: string, n: nat)
    requires Occurs(s, sub, n) && forall k :: 0 <= k < n ==> !Occurs(s, sub, k)
    ensures Index(s, sub) == n
  {
  }

  lemma {:induction false} IndexNone(s: string, sub: string)
    requires forall k :: 0 <= k ==> !Occurs(s, sub, k)
    ensures Index(s, sub) == -1
  {
    NoneFrom(s, sub, 0);
  }

  lemma {:induction false} NoneFrom(s: string, sub: string, i: nat)
    requires i <= |s| && forall k :: i <= k ==> !Occurs(s, sub, k)
    ensures IndexFrom(s, sub, i) == -1
    decreases |s| - i
  {
    if i < |s| {
      NoneFrom(s, sub, i + 1);
    }
  }

  lemma {:induction false} TagBegins(f: string)
    ensures ThinkTag(f) != "" ==> Occurs(f, OPEN, 0)
  {
    if ThinkTag(f) != "" {
      assert f[0..|OPEN|] == ThinkTag(f)[0..|OPEN|];
    }
  }

  /** Only a text that begins with one has an opening tag for `extractThinkTag`. */
  lemma {:induction false} TagAtStart(f: string)
    requires Index(f, OPEN) > 0
    ensures ThinkTag(f) == ""
  {
    TagBegins(f);
  }

  /** The splitter looks for the closing tag in the fragment that opens it. */
  predicate Searched(u: string, h: string) {
    u == "" || h == "<think>"
  }

  lemma {:induction false} TagPushed(h: string, a: string)
    requires IsTag(h)
    ensures Prefixed("", Pushed(FRESH, h + a), Pushed(INSIDE, a))
  {
    assert (h + a)[..|h|] == h && (h + a)[|h|..] == a;
    ThinkTagExact(h + a, |h|);
    Empty(Pushed(INSIDE, a).visible);
  }

  lemma {:induction false} LaterPushed(u: string, a: string)
    requires u != "" && Index(u + "<think>" + a, OPEN) == |u|
    ensures Prefixed(u, Pushed(FRESH, u + "<think>" + a), Pushed(INSIDE, a))
  {
    var f := u + "<think>" + a;
    TagAtStart(f);
    assert f[..|u|] == u && f[|u| + |OPEN|..] == ">" + a && (">" + a)[1..] == a;
    EmitPrefixed(u, a);
  }

  lemma {:induction false} OpeningPushed(u: string, h: string, a: string)
    requires Opens(u, h) && Searched(u, h)
    ensures Prefixed(u, Pushed(FRESH, u + h + a), Pushed(INSIDE, a))
  {
    if u == "" {
      Empty(h);
      TagPushed(h, a);
    } else {
      FirstOpen(u, h, a, u + h + a);
      LaterPushed(u, a);
    }
  }

  lemma {:induction false} EmitPrefixed(u: string, a: string)
    ensures Prefixed(u, Emit(INSIDE, a, u, [Vis(u), Opened("<think>")]), Pushed(INSIDE, a))
  {
    Empty(u);
    if Index(a, CLOSE) >= 0 {
      Empty(a[Index(a, CLOSE) + |CLOSE|..]);
    }
  }

  lemma {:induction false} CatFirst(h: string, a: string, rest: seq<string>)
    ensures Cat([h + a] + rest) == h + Cat([a] + rest)
    decreases rest
  {
    if rest == [] {
      assert ([h + a] + rest)[..0] == [] && ([a] + rest)[..0] == [];
      Empty(h + a);
      Empty(a);
    } else {
      var p, f := rest[..|rest| - 1], rest[|rest| - 1];
      CatFirst(h, a, p);
      assert ([h + a] + rest)[..|rest|] == [h + a] + p && ([a] + rest)[..|rest|] == [a] + p;
      Glue3(h, Cat([a] + p), f);
    }
  }

  lemma {:induction false} SeversFirst(h: string, a: string, rest: seq<string>, at: nat)
    ensures Severs([h + a] + rest, |h| + at) <==> Severs([a] + rest, at)
  {
    var x, y := [h + a] + rest, [a] + rest;
    forall k | 0 < k <= |x|
      ensures |Cat(x[..k])| == |h| + |Cat(y[..k])|
    {
      assert x[..k] == [h + a] + rest[..k - 1] && y[..k] == [a] + rest[..k - 1];
      CatFirst(h, a, rest[..k - 1]);
    }
    assert Cat(x[..0]) == "" && Cat(y[..0]) == "";
    if k :| 0 <= k <= |x| && |h| + at < |Cat(x[..k])| < |h| + at + |CLOSE| {
      assert |Cat(y[..k])| == |Cat(x[..k])| - |h|;
    }
    if k :| 0 <= k <= |y| && at < |Cat(y[..k])| < at + |CLOSE| {
      assert |Cat(x[..k])| == |Cat(y[..k])| + |h|;
    }
  }

  /** The whole stream, flushed at its end. */
  function Stream(fs: seq<string>): Out {
    Run(FRESH, Pushes(fs) + [Flush])
  }

  lemma {:induction false} StreamIs(fs: seq<string>)
    ensures var r := Run(FRESH, Pushes(fs)); Stream(fs).thought == r.thought + r.next.buf && Stream(fs).visible == r.visible
  {
    var ops := Pushes(fs) + [Flush];
    assert ops[..|ops| - 1] == Pushes(fs);
    Empty(Run(FRESH, Pushes(fs)).visible);
  }

  /** After an opening tag read whole, where the closing tag is looked for. */
  lemma {:induction false} OpenedOutcome(u: string, h: string, a: string, rest: seq<string>, t: string, v: string)
    requires Opens(u, h) && Searched(u, h) && Marks(t) && Index(v, OPEN) < 0 && Cat([u + h + a] + rest) == u + h + Body(t, v)
    ensures var o := Stream([u + h + a] + rest);
            if Severs([u + h + a] + rest, |u + h| + |t|) then |o.thought| > |t| else o.thought == t && o.visible == u + v
  {
    var fs, gs := [u + h + a] + rest, [a] + rest;
    CatFirst(u + h, a, rest);
    assert Cat(gs) == Body(t, v) by {
      assert (u + h + Cat(gs))[|u + h|..] == Cat(gs) && (u + h + Body(t, v))[|u + h|..] == Body(t, v);
    }
    StageAll(t, v, gs);
    OpeningPushed(u, h, a);
    RunOne(FRESH, u + h + a, []);
    RunOne(INSIDE, a, []);
    PrefixedRun(u, FRESH, [u + h + a], INSIDE, [a], rest);
    SeversFirst(u + h, a, rest, |t|);
    StreamIs(fs);
    BodyParts(t, v);
    Empty(t);
  }

  lemma {:induction false} HeadOf(fs: seq<string>)
    requires fs != []
    ensures fs[0] <= Cat(fs)
  {
    CatPrefix(fs, 1);
    assert fs[..1] == [fs[0]] && [fs[0]][..0] == [];
    Empty(fs[0]);
  }

  lemma {:induction false} InputIs(fs: seq<string>)
    ensures Input(Pushes(fs)) == Cat(fs)
    decreases fs
  {
    if fs != [] {
      InputIs(fs[..|fs| - 1]);
      assert Pushes(fs)[..|fs| - 1] == Pushes(fs[..|fs| - 1]);
    }
  }

  lemma {:induction false} PrefixesOf(f: string, h: string, b: string)
    requires f <= h + b
    ensures if |f| < |h| then f == h[..|f|] else f == h + f[|h|..]
  {
    assert f == (h + b)[..|f|];
    assert forall k :: 0 <= k < |f| && k < |h| ==> f[k] == (h + b)[k] == h[k];
  }

  /** An opening tag cut up early is not seen at all, and everything is shown. */
  lemma {:induction false} TagCutUp(fs: seq<string>, u: string, h: string, t: string, v: string)
    requires Opens(u, h) && Cat(fs) == u + h + Body(t, v) && fs != [] && |fs[0]| < |u| + |OPEN|
    ensures |Stream(fs).visible| > |u + v|
  {
    HeadOf(fs);
    FirstOpen(u, h, Body(t, v), fs[0]);
    StreamIs(fs);
    AllThrough(Pushes(fs));
    InputIs(fs);
  }

  /** What follows `<think` is held back without a look for the closing tag. */
  lemma {:induction false} HeldPushed(u: string, a: string)
    requires var f := u + OPEN + a; Index(f, OPEN) == |u| && ThinkTag(f) == "" && !(">" <= a)
    ensures Prefixed(u, Pushed(FRESH, u + OPEN + a), Out(Splitter(Inside, a, 1), "", "", []))
  {
    var f := u + OPEN + a;
    assert f[..|u|] == u && f[|u| + |OPEN|..] == a;
    Empty(a);
    Empty(u);
  }

  lemma {:induction false} HeldOutcome(u: string, a: string, rest: seq<string>, b: string, n: nat)
    requires var f := u + OPEN + a; Index(f, OPEN) == |u| && ThinkTag(f) == "" && !(">" <= a)
    requires a + Cat(rest) == b && n <= |b| && forall k :: |a| <= k < n ==> !Occurs(b, CLOSE, k)
    ensures |Stream([u + OPEN + a] + rest).thought| >= n
  {
    var f, st := u + OPEN + a, Splitter(Inside, a, 1);
    HeldPushed(u, a);
    RunOne(FRESH, f, []);
    assert Pushes([]) == [] && [] + rest == rest;
    PrefixedRun(u, FRESH, [f], st, [], rest);
    LongAll(b, a, n, rest);
    StreamIs([f] + rest);
  }

  /** No closing tag begins in an opening tag that has none in it, nor in the thought after it. */
  lemma {:induction false} NoCloseInTag(h: string, t: string, v: string, k: nat)
    requires IsTag(h) && Marks(t) && k < |h| - |OPEN| + |t| && (k < |h| - |OPEN| ==> Index(h, CLOSE) < 0)
    ensures !Occurs(h[|OPEN|..] + Body(t, v), CLOSE, k)
  {
    var g, b := h[|OPEN|..], h[|OPEN|..] + Body(t, v);
    if k >= |g| {
      assert b[|g|..|b|] == Body(t, v);
      SliceOccurs(b, CLOSE, |g|, |b|, k - |g|);
      CloseNotBefore(t, v, k - |g|);
    } else if k + |CLOSE| <= |g| {
      assert b[0..|g|] == g && h[|OPEN|..|h|] == g;
      SliceOccurs(b, CLOSE, 0, |g|, k);
      SliceOccurs(h, CLOSE, |OPEN|, |h|, k);
    } else {
      Straddles(b, k, |g| - 1);
    }
  }

  lemma {:induction false} Straddles(b: string, k: nat, m: nat)
    requires k <= m < k + |CLOSE| - 1 && m < |b| && b[m] == '>'
    ensures !Occurs(b, CLOSE, k)
  {
    if k + |CLOSE| <= |b| {
      assert b[k..k + |CLOSE|][m - k] == '>';
      assert CLOSE[m - k] != '>';
    }
  }

  /** A tag has a bracket right after `<think` only if it has no attributes. */
  lemma {:induction false} PlainTag(h: string)
    requires IsTag(h)
    ensures h == OPEN + h[|OPEN|..] && (h[|OPEN|] == '>' <==> h == "<think>")
  {
    if h[|OPEN|] == '>' {
      assert |h| == 7;
      assert h == OPEN + ">";
    }
  }

  /** The first fragment ends in the opening tag, or has it with attributes after other text. */
  predicate Misread(f: string, u: string, h: string) {
    |u| + |OPEN| <= |f| && (|f| < |u + h| || !Searched(u, h))
  }

  /** How a first fragment that is misread continues after `<think`. */
  lemma {:induction false} MisreadHead(f: string, u: string, h: string, b: string)
    requires Opens(u, h) && f <= u + h + b && Misread(f, u, h)
    ensures var a := f[|u| + |OPEN|..];
            f == u + OPEN + a && Index(f, OPEN) == |u| && ThinkTag(f) == "" && !(">" <= a)
  {
    var s := u + h + b;
    PlainTag(h);
    FirstOpen(u, h, b, f);
    assert forall k :: 0 <= k < |f| ==> f[k] == s[k];
    assert s[..|u| + |OPEN|] == u + OPEN;
    assert f == f[..|u| + |OPEN|] + f[|u| + |OPEN|..];
    if |f| > |u| + |OPEN| {
      assert f[|u| + |OPEN|..][0] == s[|u| + |OPEN|] == h[|OPEN|];
    }
    if u != "" {
      TagAtStart(f);
    } else {
      assert forall k :: 0 <= k < |f| ==> f[k] == h[k];
      NoBracketYet(f);
    }
  }

  lemma {:induction false} NoBracketYet(f: string)
    requires forall k :: 0 <= k < |f| ==> f[k] != '>'
    ensures ThinkTag(f) == ""
  {
  }

  lemma {:induction false} MisreadOutcome(fs: seq<string>, u: string, h: string, t: string, v: string)
    requires Opens(u, h) && Marks(t) && Cat(fs) == u + h + Body(t, v) && fs != [] && Misread(fs[0], u, h)
    requires |fs[0]| < |u + h| ==> Index(h, CLOSE) < 0
    ensures |Stream(fs).thought| > |t|
  {
    var f, rest, b := fs[0], fs[1..], h[|OPEN|..] + Body(t, v);
    HeadOf(fs);
    MisreadHead(f, u, h, Body(t, v));
    var a := f[|u| + |OPEN|..];
    assert fs == [u + OPEN + a] + rest;
    CatRest(u, a, rest, h, Body(t, v));
    forall k | |a| <= k < |h| - |OPEN| + |t|
      ensures !Occurs(b, CLOSE, k)
    {
      NoCloseInTag(h, t, v, k);
    }
    HeldOutcome(u, a, rest, b, |h| - |OPEN| + |t|);
  }

  lemma {:induction false} CatCons(f: string, rest: seq<string>)
    ensures Cat([f] + rest) == f + Cat(rest)
    decreases rest
  {
    if rest == [] {
      assert [f] + rest == [f] && [f][..0] == [];
      Empty(f);
    } else {
      var p, g := rest[..|rest| - 1], rest[|rest| - 1];
      CatCons(f, p);
      assert ([f] + rest)[..|rest|] == [f] + p;
      Glue3(f, Cat(p), g);
    }
  }

  lemma {:induction false} CancelLeft(x: string, a: string, b: string)
    requires x + a == x + b
    ensures a == b
  {
    assert (x + a)[|x|..] == a && (x + b)[|x|..] == b;
  }

  lemma {:induction false} CatRest(u: string, a: string, rest: seq<string>, h: string, b: string)
    requires IsTag(h) && Cat([u + OPEN + a] + rest) == u + h + b
    ensures a + Cat(rest) == h[|OPEN|..] + b
  {
    var g := h[|OPEN|..];
    PlainTag(h);
    CatCons(u + OPEN + a, rest);
    Glue3(u + OPEN, a, Cat(rest));
    Glue3(u, OPEN, g);
    Glue3(u + OPEN, g, b);
    CancelLeft(u + OPEN, a + Cat(rest), g + b);
  }

  // ---------------------------------------------------------------- the theorem

  /** The first fragment has all of a tag that is searched, and the closing tag is not cut. */
  ghost predicate Survives(fs: seq<string>, u: string, h: string, t: string) {
    fs != [] && |fs[0]| >= |u + h| && Searched(u, h) && !Severs(fs, |u + h| + |t|)
  }

  /** The thought is taken out and the rest is shown. */
  predicate Split(fs: seq<string>, u: string, t: string, v: string) {
    Stream(fs).thought == t && Stream(fs).visible == u + v
  }

  lemma {:induction false} WholeTag(fs: seq<string>, u: string, h: string, t: string, v: string)
    requires Opens(u, h) && Searched(u, h) && Marks(t) && Index(v, OPEN) < 0 && Cat(fs) == u + h + Body(t, v)
    requires fs != [] && |fs[0]| >= |u + h|
    ensures Split(fs, u, t, v) <==> !Severs(fs, |u + h| + |t|)
  {
    HeadOf(fs);
    PrefixesOf(fs[0], u + h, Body(t, v));
    var a := fs[0][|u + h|..];
    assert fs == [u + h + a] + fs[1..];
    OpenedOutcome(u, h, a, fs[1..], t, v);
  }

  /**
   For every text `u`, opening tag `h`, thought `t` and text `v` without another tag, and every
   way of cutting the stream into fragments: exactly `t` is taken for thought and exactly `u + v`
   is shown if and only if the first fragment has the whole opening tag, which has attributes
   only at the very start, and no boundary lies inside the closing tag.  A tag that ends with
   the closing tag itself is the one exception to "only if".
   */
  lemma {:induction false} TagRecognised(fs: seq<string>, u: string, h: string, t: string, v: string)
    requires Opens(u, h) && Marks(t) && Index(v, OPEN) < 0 && Cat(fs) == u + h + Body(t, v)
    ensures Survives(fs, u, h, t) ==> Split(fs, u, t, v)
    ensures Index(h, CLOSE) < 0 ==> (Split(fs, u, t, v) <==> Survives(fs, u, h, t))
  {
    assert fs != [];
    if |fs[0]| < |u| + |OPEN| {
      TagCutUp(fs, u, h, t, v);
    } else if Misread(fs[0], u, h) {
      if |fs[0]| >= |u + h| || Index(h, CLOSE) < 0 {
        MisreadOutcome(fs, u, h, t, v);
      }
    } else {
      WholeTag(fs, u, h, t, v);
    }
  }

  /** Whatever comes after the closing tag in its fragment is shown, other tags included. */
  lemma {:induction false} OneFragment(u: string, h: string, t: string, v: string)
    requires Opens(u, h) && Searched(u, h) && Marks(t)
    ensures Split([u + h + Body(t, v)], u, t, v)
  {
    var b := Body(t, v);
    OpeningPushed(u, h, b);
    RunOne(FRESH, u + h + b, []);
    StreamIs([u + h + b]);
    CloseHere(t, v, 0, |b|);
    assert b[0..|b|] == b;
    PushClosing("", b, |t|);
    ClosedParts(t, v, 0, |b|);
    BodyParts(t, v);
    Empty(t);
  }

  // ---------------------------------------------------------------- the exception

  const SELF_MID := " <think" + CLOSE
  const SELF := OPEN + SELF_MID
  const SELF_NEXT := "<think " + CLOSE
  const SELF_THOUGHT := " " + "<think "

  lemma {:induction false} SelfOpens()
    ensures Opens("", SELF)
  {
    Empty(SELF);
    assert OPEN <= SELF && IsTag(SELF);
    assert Occurs(SELF, OPEN, 0);
    IndexIs(SELF, OPEN, 0);
  }

  /** A closing tag begins only where its second character follows. */
  lemma {:induction false} CloseSecond(s: string, n: nat)
    requires Occurs(s, CLOSE, n) && forall k :: 0 < k <= n ==> s[k] != '/'
    ensures Index(s, CLOSE) == n
  {
    forall k | 0 <= k < n ensures !Occurs(s, CLOSE, k) {
      assert s[k..k + |CLOSE|][1] == s[k + 1];
    }
    IndexIs(s, CLOSE, n);
  }

  lemma {:induction false} SelfMarks()
    ensures Marks(SELF_THOUGHT)
  {
    CloseSecond(SELF_THOUGHT + CLOSE, 8);
  }

  lemma {:induction false} CatThree(a: string, b: string, c: string)
    ensures Cat([a, b, c]) == a + b + c
  {
    assert [] + [a] == [a] && [a] + [b] == [a, b] && [a, b] + [c] == [a, b, c];
    PushMore(FRESH, [], a);
    PushMore(FRESH, [a], b);
    PushMore(FRESH, [a, b], c);
    Empty(a);
  }

  lemma {:induction false} Regroup(o: string, m: string, s: string, n: string, c: string)
    ensures o + (m + s) + (n + c + s) == o + m + (s + n + c + s)
  {
  }

  lemma {:induction false} SelfCat()
    ensures Cat([OPEN, SELF_MID + " ", SELF_NEXT + " "]) == "" + SELF + Body(SELF_THOUGHT, " ")
  {
    CatThree(OPEN, SELF_MID + " ", SELF_NEXT + " ");
    Regroup(OPEN, SELF_MID, " ", "<think ", CLOSE);
    Empty(SELF);
  }

  predicate Gives(st: Splitter, f: string, next: Splitter, thought: string, visible: string) {
    var q := Pushed(st, f);
    q.next == next && q.thought == thought && q.visible == visible
  }

  lemma {:induction false} StreamThree(a: string, b: string, c: string, p: Splitter, q: Splitter, r: Splitter, ts: seq<string>, vs: seq<string>)
    requires |ts| == |vs| == 3
    requires Gives(FRESH, a, p, ts[0], vs[0]) && Gives(p, b, q, ts[1], vs[1]) && Gives(q, c, r, ts[2], vs[2])
    ensures Stream([a, b, c]).thought == ts[0] + ts[1] + ts[2] + r.buf && Stream([a, b, c]).visible == vs[0] + vs[1] + vs[2]
  {
    RunOne(FRESH, a, []);
    assert [a] + [b] == [a, b] && [a, b] + [c] == [a, b, c];
    PushMore(FRESH, [a], b);
    PushMore(FRESH, [a, b], c);
    StreamIs([a, b, c]);
  }

  lemma {:induction false} SelfBegins(a: string)
    requires a == OPEN
    ensures Gives(FRESH, a, INSIDE, "", "")
  {
    assert Occurs(a, OPEN, 0);
    IndexIs(a, OPEN, 0);
    NoBracketYet(a);
    assert "" + OPEN + "" == a;
    HeldPushed("", "");
  }

  lemma {:induction false} SelfCloses(b: string)
    requires b == SELF_MID + " "
    ensures Gives(INSIDE, b, FRESH, " <think", " ")
  {
    CloseSecond(b, 7);
    PushClosing("", b, 7);
    assert b[..7] == " <think" && b[7 + |CLOSE|..] == " ";
    Empty(" <think");
  }

  lemma {:induction false} SelfSwallows(c: string)
    requires c == SELF_NEXT + " "
    ensures Gives(FRESH, c, Splitter(Inside, " ", 1), "", "")
  {
    assert OPEN <= SELF_NEXT && IsTag(SELF_NEXT);
    TagPushed(SELF_NEXT, " ");
    IndexNone(" ", CLOSE);
    PushHeld("", " ");
    Empty(" ");
  }

  lemma {:induction false} StreamMiddle(a: string, b: string, c: string, p: Splitter, q: Splitter, r: Splitter, t: string, v: string)
    requires Gives(FRESH, a, p, "", "") && Gives(p, b, q, t, v) && Gives(q, c, r, "", "")
    ensures Split([a, b, c], "", t + r.buf, v)
  {
    StreamThree(a, b, c, p, q, r, ["", t, ""], ["", v, ""]);
    Empty(t);
    Empty(v);
  }

  lemma {:induction false} SelfThought()
    ensures " <think" + " " == SELF_THOUGHT
  {
  }

  lemma {:induction false} SelfAdds(a: string, b: string, c: string)
    requires Gives(FRESH, a, INSIDE, "", "") && Gives(INSIDE, b, FRESH, " <think", " ") && Gives(FRESH, c, Splitter(Inside, " ", 1), "", "")
    ensures Split([a, b, c], "", SELF_THOUGHT, " ")
  {
    StreamMiddle(a, b, c, INSIDE, FRESH, Splitter(Inside, " ", 1), " <think", " ");
    SelfThought();
  }

  /**
   The exception: cut after `<think`, this tag closes itself, and what is split off then happens
   to add up to the same thought and the same text.
   */
  lemma {:induction false} SelfClosingTag(a: string, b: string, c: string)
    requires a == OPEN && b == SELF_MID + " " && c == SELF_NEXT + " "
    ensures Opens("", SELF) && Marks(SELF_THOUGHT) && Index(" ", OPEN) < 0 && Cat([a, b, c]) == "" + SELF + Body(SELF_THOUGHT, " ")
    ensures !Survives([a, b, c], "", SELF, SELF_THOUGHT) && Split([a, b, c], "", SELF_THOUGHT, " ")
  {
    SelfOpens();
    SelfMarks();
    SelfCat();
    IndexNone(" ", OPEN);
    SelfBegins(a);
    SelfCloses(b);
    SelfSwallows(c);
    SelfAdds(a, b, c);
  }
}
