/**
 The byte scanner shared by `closeTruncatedJSON` and `compressJSONArray`: it knows only
 about string quotes, escapes and brackets, all of them ASCII characters.
 */
module JsonScan {

  /** `stack` holds the closers still owed, the innermost last. */
  datatype Scan = Scan(inStr: bool, esc: bool, stack: string)

  const START := Scan(false, false, "")

  predicate IsWs(c: char) {
    c == ' ' || c == '\t' || c == '\n' || c == '\r'
  }

  predicate AllWs(s: string) {
    forall i :: 0 <= i < |s| ==> IsWs(s[i])
  }

  function Step(st: Scan, c: char): Scan {
    if st.inStr then
      if st.esc then st.(esc := false)
      else if c == '\\' then st.(esc := true)
      else if c == '"' then st.(inStr := false)
      else st
    else if c == '"' then st.(inStr := true)
    else if c == '{' then st.(stack := st.stack + "}")
    else if c == '[' then st.(stack := st.stack + "]")
    else if (c == '}' || c == ']') && |st.stack| > 0 then st.(stack := st.stack[..|st.stack| - 1])
    else st
  }

  function Run(st: Scan, s: string): Scan
    decreases s
  {
    if s == [] then st else Run(Step(st, s[0]), s[1..])
  }

  lemma {:induction false} RunCat(st: Scan, a: string, b: string)
    ensures Run(st, a + b) == Run(Run(st, a), b)
    decreases a
  {
    if a == [] {
      assert a + b == b;
    } else {
      assert (a + b)[1..] == a[1..] + b;
      RunCat(Step(st, a[0]), a[1..], b);
    }
  }

  lemma {:induction false} RunOne(st: Scan, c: char)
    ensures Run(st, [c]) == Step(st, c)
  {
    assert Run(Step(st, c), [c][1..]) == Step(st, c);
  }

  lemma {:induction false} RunSnoc(st: Scan, s: string, i: nat)
    requires i < |s|
    ensures Run(st, s[..i + 1]) == Step(Run(st, s[..i]), s[i])
  {
    assert s[..i + 1] == s[..i] + [s[i]];
    RunCat(st, s[..i], [s[i]]);
    RunOne(Run(st, s[..i]), s[i]);
  }

  /** The escape flag is only ever set inside a string. */
  lemma {:induction false} EscInString(st: Scan, s: string)
    requires st.esc ==> st.inStr
    ensures Run(st, s).esc ==> Run(st, s).inStr
    decreases s
  {
    if s != [] {
      EscInString(Step(st, s[0]), s[1..]);
    }
  }

  /** `strings.TrimRight(s, " \t\r\n")` */
  function TrimRight(s: string): (r: string)
    ensures r <= s && AllWs(s[|r|..])
    ensures r == [] || !IsWs(r[|r| - 1])
  {
    if s == [] || !IsWs(s[|s| - 1]) then s
    else
      var p := s[..|s| - 1];
      var r := TrimRight(p);
      assert s[|r|..] == p[|r|..] + [s[|s| - 1]];
      r
  }

  function Closers(stack: string): (r: string)
    ensures |r| == |stack|
  {
    if stack == [] then [] else [stack[|stack| - 1]] + Closers(stack[..|stack| - 1])
  }

  // ---------------------------------------------------------------- compressJSONArray

  /** What compression keeps of `s` when scanning starts in `st`. */
  function Squeeze(st: Scan, s: string): string
    decreases s
  {
    if s == [] then []
    else (if !st.inStr && IsWs(s[0]) then [] else [s[0]]) + Squeeze(Step(st, s[0]), s[1..])
  }

  lemma {:induction false} SqueezeCat(st: Scan, a: string, b: string)
    ensures Squeeze(st, a + b) == Squeeze(st, a) + Squeeze(Run(st, a), b)
    decreases a
  {
    if a == [] {
      assert a + b == b;
    } else {
      assert (a + b)[1..] == a[1..] + b;
      SqueezeCat(Step(st, a[0]), a[1..], b);
    }
  }

  lemma {:induction false} SqueezeSnoc(st: Scan, s: string, i: nat)
    requires i < |s|
    ensures Squeeze(st, s[..i + 1])
         == Squeeze(st, s[..i]) + (if !Run(st, s[..i]).inStr && IsWs(s[i]) then [] else [s[i]])
  {
    assert s[..i + 1] == s[..i] + [s[i]];
    SqueezeCat(st, s[..i], [s[i]]);
    var m := Run(st, s[..i]);
    assert Squeeze(Step(m, s[i]), [s[i]][1..]) == [];
  }

  /** The loop of `compressJSONArray`, byte by byte. */
  method CompressJsonArray(content: string) returns (b: string)
    ensures b == Squeeze(START, content)
  {
    b := [];
    var inStr, esc := false, false;
    for i := 0 to |content|
      invariant b == Squeeze(START, content[..i])
      invariant inStr == Run(START, content[..i]).inStr
      invariant esc == Run(START, content[..i]).esc
      invariant esc ==> inStr
    {
      var c := content[i];
      SqueezeSnoc(START, content, i);
      RunSnoc(START, content, i);
      if inStr {
        b := b + [c];
        if esc {
          esc := false;
        } else if c == '\\' {
          esc := true;
        } else if c == '"' {
          inStr := false;
        }
      } else if c == '"' {
        inStr := true;
        b := b + [c];
      } else if !(c == ' ' || c == '\t' || c == '\n' || c == '\r') {
        b := b + [c];
      }
    }
    assert content[..|content|] == content;
  }

  /**
   The bytes of `s` that carry meaning, each marked with whether it lies inside a string:
   everything but whitespace between tokens.
   */
  function Significant(st: Scan, s: string): seq<(char, bool)>
    decreases s
  {
    if s == [] then []
    else (if !st.inStr && IsWs(s[0]) then [] else [(s[0], st.inStr)]) + Significant(Step(st, s[0]), s[1..])
  }

  ghost predicate NoLooseWs(st: Scan, s: string)
    decreases s
  {
    s == [] || ((st.inStr || !IsWs(s[0])) && NoLooseWs(Step(st, s[0]), s[1..]))
  }

  /** The compressor loses no significant byte, adds none, and leaves no whitespace between tokens. */
  lemma {:induction false} SqueezeMeaning(st: Scan, s: string)
    ensures Significant(st, Squeeze(st, s)) == Significant(st, s)
    ensures NoLooseWs(st, Squeeze(st, s))
    ensures Run(st, Squeeze(st, s)) == Run(st, s)
    ensures |Squeeze(st, s)| <= |s|
    decreases s
  {
    if s != [] {
      var rest := Squeeze(Step(st, s[0]), s[1..]);
      SqueezeMeaning(Step(st, s[0]), s[1..]);
      if !st.inStr && IsWs(s[0]) {
        assert Step(st, s[0]) == st;
        assert Squeeze(st, s) == rest;
      } else {
        assert ([s[0]] + rest)[1..] == rest;
      }
    }
  }

  lemma {:induction false} SqueezeFixed(st: Scan, s: string)
    requires NoLooseWs(st, s)
    ensures Squeeze(st, s) == s
    decreases s
  {
    if s != [] {
      SqueezeFixed(Step(st, s[0]), s[1..]);
    }
  }

  /** Compression is the unique normal form of a text under its significant bytes. */
  lemma {:induction false} NormalFormUnique(st: Scan, a: string, b: string)
    requires NoLooseWs(st, a) && NoLooseWs(st, b)
    requires Significant(st, a) == Significant(st, b)
    ensures a == b
    decreases a
  {
    if a == [] || b == [] {
    } else {
      assert Significant(st, a)[0].0 == a[0] && Significant(st, b)[0].0 == b[0];
      assert Significant(st, a)[1..] == Significant(Step(st, a[0]), a[1..]);
      assert Significant(st, b)[1..] == Significant(Step(st, b[0]), b[1..]);
      NormalFormUnique(Step(st, a[0]), a[1..], b[1..]);
    }
  }

  /** Compressing twice is compressing once, on arbitrary bytes. */
  lemma {:induction false} SqueezeIdempotent(s: string)
    ensures Squeeze(START, Squeeze(START, s)) == Squeeze(START, s)
  {
    SqueezeMeaning(START, s);
    SqueezeFixed(START, Squeeze(START, s));
  }

  // ---------------------------------------------------------------- closeTruncatedJSON

  /** The text with a dangling backslash dropped and an open string closed. */
  function CloseString(s: string): string {
    var e := Run(START, s);
    var out := if e.esc && s != [] then s[..|s| - 1] else s;
    if e.inStr then out + "\"" else out
  }

  /** The text that the owed closers are appended to. */
  function Base(s: string): string {
    var out := CloseString(s);
    var t := TrimRight(out);
    if t != [] && t[|t| - 1] == ',' then t[..|t| - 1]
    else if t != [] && t[|t| - 1] == ':' then t + "null"
    else out
  }

  /** What `closeTruncatedJSON` offers before the validity test. */
  function Candidate(s: string): string {
    Base(s) + Closers(Run(START, s).stack)
  }

  /** Whitespace never moves the scanner in or out of a string, and outside one it changes nothing. */
  lemma {:induction false} RunWs(st: Scan, w: string)
    requires AllWs(w)
    ensures Run(st, w).inStr == st.inStr
    ensures !st.inStr ==> Run(st, w) == st
    decreases w
  {
    if w != [] {
      RunWs(Step(st, w[0]), w[1..]);
    }
  }

  predicate Neutral(c: char) {
    c != '"' && c != '{' && c != '}' && c != '[' && c != ']'
  }

  lemma {:induction false} RunPlain(st: Scan, w: string)
    requires !st.inStr && forall i :: 0 <= i < |w| ==> Neutral(w[i])
    ensures Run(st, w) == st
    decreases w
  {
    if w != [] {
      RunPlain(Step(st, w[0]), w[1..]);
    }
  }

  lemma {:induction false} RunClosers(stack: string)
    requires forall i :: 0 <= i < |stack| ==> stack[i] == '}' || stack[i] == ']'
    ensures Run(Scan(false, false, stack), Closers(stack)) == START
  {
    if stack != [] {
      RunClosers(stack[..|stack| - 1]);
      assert Closers(stack)[1..] == Closers(stack[..|stack| - 1]);
    }
  }

  lemma {:induction false} StackIsClosers(st: Scan, s: string)
    requires forall i :: 0 <= i < |st.stack| ==> st.stack[i] == '}' || st.stack[i] == ']'
    ensures forall i :: 0 <= i < |Run(st, s).stack| ==> Run(st, s).stack[i] == '}' || Run(st, s).stack[i] == ']'
    decreases s
  {
    if s != [] {
      StackIsClosers(Step(st, s[0]), s[1..]);
    }
  }

  lemma {:induction false} CloseStringRuns(s: string)
    ensures Run(START, CloseString(s)) == Scan(false, false, Run(START, s).stack)
  {
    var e := Run(START, s);
    EscInString(START, s);
    if e.esc {
      assert s != [];
      RunSnoc(START, s, |s| - 1);
      assert s[..|s| - 1 + 1] == s;
      EscInString(START, s[..|s| - 1]);
      var d := Run(START, s[..|s| - 1]);
      assert d.inStr && !d.esc && d.stack == e.stack;
      RunCat(START, s[..|s| - 1], "\"");
      RunOne(d, '"');
    } else if e.inStr {
      RunCat(START, s, "\"");
      RunOne(e, '"');
    } else {
      assert CloseString(s) == s;
    }
  }

  lemma {:induction false} TrimRightRuns(s: string)
    requires !Run(START, s).inStr
    ensures Run(START, TrimRight(s)) == Run(START, s)
  {
    var t := TrimRight(s);
    assert s == t + s[|t|..];
    RunCat(START, t, s[|t|..]);
    RunWs(Run(START, t), s[|t|..]);
  }

  lemma {:induction false} BaseRuns(s: string)
    ensures Run(START, Base(s)) == Scan(false, false, Run(START, s).stack)
  {
    var out := CloseString(s);
    var t := TrimRight(out);
    CloseStringRuns(s);
    TrimRightRuns(out);
    if t != [] && t[|t| - 1] == ',' {
      RunSnoc(START, t, |t| - 1);
      assert t[..|t| - 1 + 1] == t;
      EscInString(START, t[..|t| - 1]);
    } else if t != [] && t[|t| - 1] == ':' {
      RunCat(START, t, "null");
      RunPlain(Run(START, t), "null");
    }
  }

  /**
   For every byte string the repair candidate rescans as balanced: no bracket owed, no
   string open, no escape pending.
   */
  lemma {:induction false} CandidateBalanced(s: string)
    ensures Run(START, Candidate(s)) == START
  {
    BaseRuns(s);
    var stack := Run(START, s).stack;
    RunCat(START, Base(s), Closers(stack));
    StackIsClosers(START, s);
    RunClosers(stack);
  }

  /**
   The part of a text that the repair keeps: all of it but a dangling backslash, a final comma
   with the whitespace after it, or the whitespace after a final colon.
   */
  function Kept(s: string): string {
    var e, t := Run(START, s), TrimRight(s);
    if e.esc && s != [] then s[..|s| - 1]
    else if e.inStr || t == [] then s
    else if t[|t| - 1] == ',' then t[..|t| - 1]
    else if t[|t| - 1] == ':' then t
    else s
  }

  /** What may be lost: nothing, whitespace, a backslash, or a comma and whitespace. */
  predicate Trifle(w: string) {
    AllWs(w) || w == "\\" || (w != [] && w[0] == ',' && AllWs(w[1..]))
  }

  lemma {:induction false} BackslashLast(s: string)
    requires s != [] && Run(START, s).esc
    ensures s[|s| - 1] == '\\'
  {
    RunSnoc(START, s, |s| - 1);
    EscInString(START, s[..|s| - 1]);
    assert s[..|s| - 1 + 1] == s;
  }

  /** The repair keeps `k` of `s`, and what it loses is a trifle. */
  predicate Keeps(s: string, k: string) {
    k <= Candidate(s) && k <= s && Trifle(s[|k|..])
  }

  lemma {:induction false} KeptPart(s: string, k: string, more: string, stack: string)
    requires Candidate(s) == k + more + Closers(stack) && k <= s && Trifle(s[|k|..])
    ensures Keeps(s, k)
  {
  }

  lemma {:induction false} CandidateOutside(s: string)
    requires !Run(START, s).inStr && !Run(START, s).esc
    ensures CloseString(s) == s && Candidate(s) == Base(s) + Closers(Run(START, s).stack)
  {
  }

  lemma {:induction false} KeepsComma(s: string, t: string)
    requires !Run(START, s).inStr && !Run(START, s).esc && t == TrimRight(s) && t != [] && t[|t| - 1] == ','
    ensures Keeps(s, t[..|t| - 1])
  {
    var k := t[..|t| - 1];
    CandidateOutside(s);
    assert s[|k|..][0] == ',' && s[|k|..][1..] == s[|t|..];
    assert Base(s) == k && k + "" == k;
    KeptPart(s, k, "", Run(START, s).stack);
  }

  lemma {:induction false} KeepsColon(s: string, t: string)
    requires !Run(START, s).inStr && !Run(START, s).esc && t == TrimRight(s) && t != [] && t[|t| - 1] == ':'
    ensures Keeps(s, t)
  {
    CandidateOutside(s);
    assert Base(s) == t + "null";
    KeptPart(s, t, "null", Run(START, s).stack);
  }

  lemma {:induction false} KeepsRest(s: string, t: string)
    requires !Run(START, s).inStr && !Run(START, s).esc && t == TrimRight(s)
    requires t == [] || (t[|t| - 1] != ',' && t[|t| - 1] != ':')
    ensures Keeps(s, s)
  {
    CandidateOutside(s);
    assert s[|s|..] == [] && s + "" == s && Base(s) == s;
    KeptPart(s, s, "", Run(START, s).stack);
  }

  /** For every byte string the repair adds to what it keeps, and loses no more than a trifle. */
  lemma {:induction false} CandidateKeeps(s: string)
    ensures Kept(s) <= Candidate(s) && Kept(s) <= s && Trifle(s[|Kept(s)|..])
  {
    var t := TrimRight(s);
    EscInString(START, s);
    if Run(START, s).inStr {
      KeepsString(s);
    } else if t != [] && t[|t| - 1] == ',' {
      KeepsComma(s, t);
    } else if t != [] && t[|t| - 1] == ':' {
      KeepsColon(s, t);
    } else {
      KeepsRest(s, t);
    }
  }

  lemma {:induction false} KeepsString(s: string)
    requires Run(START, s).inStr
    ensures Keeps(s, Kept(s))
  {
    var out := CloseString(s);
    assert out[|out| - 1] == '"';
    assert TrimRight(out) == out;
    if Run(START, s).esc && s != [] {
      BackslashLast(s);
      assert s[|s| - 1..] == "\\";
    }
  }
}
