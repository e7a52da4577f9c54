/**
  Quoting a dotted database name: a byte loop with two flags and two 8-bit counters.  Proved
  exactly: on which names, written from bare and quoted segments, it yields the fully
  quoted form.
 */
module QuoteTo {
  import opened Values

  const QUOTE: bv8 := 34
  const DOT: bv8 := 46

  /** Go's int8. */
  function Int8(x: int): (r: int)
    ensures -128 <= r <= 127 && (-128 <= x <= 127 ==> r == x)
  {
    (x + 128) % 256 - 128
  }

  datatype State = State(underQuoted: bool, selfQuoted: bool, continuousBacktick: int, shiftDelimiter: int)

  // ------------------------------------------------------------------ one byte

  function Doubled(n: int): (out: Bytes)
    decreases n
  {
    if n <= 0 then [] else [QUOTE, QUOTE] + Doubled(n - 1)
  }

  function Step(st: State, v: bv8): (r: (State, Bytes)) {
    var State(u, q, b, s) := st;
    if v == QUOTE then
      var b' := Int8(b + 1);
      if b' == 2 then (State(u, q, 0, Int8(s + 1)), [QUOTE, QUOTE]) else (State(u, q, b', Int8(s + 1)), [])
    else if v == DOT then
      if b > 0 || !q then (State(false, q, 0, 0), [QUOTE, DOT]) else (st, [DOT])
    else
      var opens := Int8(s - b) <= 0 && !u;
      var q' := if opens then b > 0 else q;
      var b' := if opens && q' then b - 1 else b;
      (State(u || opens, q', if b' > 0 then 0 else b', Int8(s + 1)),
       (if opens then [QUOTE] else []) + Doubled(b') + [v])
  }

  /** A machine that reads bytes and writes bytes: its state after some input, and its output. */
  function After<S>(step: (S, bv8) -> (S, Bytes), st: S, bytes: Bytes): (r: S)
    decreases |bytes|
  {
    if bytes == [] then st else After(step, step(st, bytes[0]).0, bytes[1..])
  }

  function Output<S>(step: (S, bv8) -> (S, Bytes), st: S, bytes: Bytes): (out: Bytes)
    decreases |bytes|
  {
    if bytes == [] then [] else step(st, bytes[0]).1 + Output(step, step(st, bytes[0]).0, bytes[1..])
  }

  lemma {:induction false} MachineConcat<S>(step: (S, bv8) -> (S, Bytes), st: S, a: Bytes, b: Bytes)
    ensures After(step, st, a + b) == After(step, After(step, st, a), b)
    ensures Output(step, st, a + b) == Output(step, st, a) + Output(step, After(step, st, a), b)
    decreases |a|
  {
    if a == [] {
      assert a + b == b;
    } else {
      MachineConcat(step, step(st, a[0]).0, a[1..], b);
      assert (a + b)[1..] == a[1..] + b;
    }
  }

  /** The state after some bytes, and what was written for them. */
  function Run(st: State, bytes: Bytes): (r: (State, Bytes)) {
    (After(Step, st, bytes), Output(Step, st, bytes))
  }

  function Ending(st: State): (out: Bytes) {
    if st.continuousBacktick > 0 && !st.selfQuoted then [QUOTE, QUOTE, QUOTE] else [QUOTE]
  }

  const START := State(false, false, 0, 0)

  function Quote(str: Bytes): (out: Bytes) {
    var (st, out) := Run(START, str);
    out + Ending(st)
  }

  lemma RunConcat(st: State, a: Bytes, b: Bytes)
    ensures Run(st, a + b) == (Run(Run(st, a).0, b).0, Run(st, a).1 + Run(Run(st, a).0, b).1)
  {
    MachineConcat(Step, st, a, b);
  }

  lemma RunOne(st: State, v: bv8)
    ensures Run(st, [v]) == Step(st, v)
  {
    var (st1, out1) := Step(st, v);
    assert [v][1..] == [] && out1 + [] == out1;
    assert After(Step, st1, []) == st1 && Output(Step, st1, []) == [];
    assert Run(st, [v]).0 == After(Step, st1, [v][1..]);
  }

  /** The body of the loop: what one byte does to the variables and what it writes. */
  method WriteByte(st: State, v: bv8) returns (st': State, out: Bytes)
    ensures (st', out) == Step(st, v)
  {
    var State(underQuoted, selfQuoted, continuousBacktick, shiftDelimiter) := st;
    out := [];
    if v == QUOTE {
      continuousBacktick := Int8(continuousBacktick + 1);
      if continuousBacktick == 2 {
        out := out + [QUOTE, QUOTE];
        continuousBacktick := 0;
      }
    } else if v == DOT {
      if continuousBacktick > 0 || !selfQuoted {
        shiftDelimiter := 0;
        underQuoted := false;
        continuousBacktick := 0;
        out := out + [QUOTE];
      }
      out := out + [v];
      st' := State(underQuoted, selfQuoted, continuousBacktick, shiftDelimiter);
      assert out == Step(st, v).1;
      return;
    } else {
      if Int8(shiftDelimiter - continuousBacktick) <= 0 && !underQuoted {
        out := out + [QUOTE];
        underQuoted := true;
        selfQuoted := continuousBacktick > 0;
        if selfQuoted {
          continuousBacktick := continuousBacktick - 1;
        }
      }
      ghost var before, b := out, continuousBacktick;
      while continuousBacktick > 0
        invariant if b > 0 then continuousBacktick >= 0 else continuousBacktick == b
        invariant out + Doubled(continuousBacktick) == before + Doubled(b)
      {
        out := out + [QUOTE, QUOTE];
        continuousBacktick := continuousBacktick - 1;
      }
      assert out == before + Doubled(b);
      out := out + [v];
    }
    shiftDelimiter := Int8(shiftDelimiter + 1);
    st' := State(underQuoted, selfQuoted, continuousBacktick, shiftDelimiter);
    assert out == Step(st, v).1;
    assert st' == Step(st, v).0;
  }

  /** The loop of the source. */
  method QuoteToWriter(str: Bytes) returns (out: Bytes)
    ensures out == Quote(str)
  {
    var st := START;
    out := [];
    for i := 0 to |str|
      invariant Run(START, str[..i]) == (st, out)
    {
      RunConcat(START, str[..i], [str[i]]);
      RunOne(st, str[i]);
      assert str[..i + 1] == str[..i] + [str[i]];
      var w;
      st, w := WriteByte(st, str[i]);
      out := out + w;
    }
    assert str[..|str|] == str;
    if st.continuousBacktick > 0 && !st.selfQuoted {
      out := out + [QUOTE, QUOTE];
    }
    out := out + [QUOTE];
  }

  // ------------------------------------------------------------------ names

  datatype Segment = Bare(text: Bytes) | Quoted(text: Bytes)

  /** Non-empty, no quotes inside, and no dots when written bare. */
  predicate Proper(seg: Segment) {
    seg.text != [] && QUOTE !in seg.text && (seg.Bare? ==> DOT !in seg.text)
  }

  predicate IsName(name: seq<Segment>) {
    name != [] && forall i :: 0 <= i < |name| ==> Proper(name[i])
  }

  function Enclosed(text: Bytes): (b: Bytes) {
    [QUOTE] + text + [QUOTE]
  }

  function Spelled(seg: Segment): (b: Bytes) {
    if seg.Bare? then seg.text else Enclosed(seg.text)
  }

  /** The name as written. */
  function Spelling(name: seq<Segment>): (b: Bytes)
    requires name != []
  {
    if |name| == 1 then Spelled(name[0]) else Spelled(name[0]) + [DOT] + Spelling(name[1..])
  }

  /** The fully quoted form. */
  function Canonical(name: seq<Segment>): (b: Bytes)
    requires name != []
  {
    if |name| == 1 then Enclosed(name[0].text) else Enclosed(name[0].text) + [DOT] + Canonical(name[1..])
  }

  predicate AllDots(text: Bytes) {
    forall i :: 0 <= i < |text| ==> text[i] == DOT
  }

  predicate NoDots(text: Bytes) {
    forall i :: 0 <= i < |text| ==> text[i] != DOT
  }

  // ------------------------------------------------------------------ inside a segment

  /** Between quotes: no pending quote, and either inside a quoted run or just after a dot. */
  predicate Inside(st: State) {
    st.continuousBacktick == 0 && (st.underQuoted || st.shiftDelimiter == 0)
  }

  /** The bytes are copied as they are. */
  predicate Copies(st: State, r: Bytes) {
    if st.underQuoted then st.selfQuoted || NoDots(r) else AllDots(r) && (st.selfQuoted || r == [])
  }

  lemma {:induction false} RunInside(st: State, r: Bytes)
    requires Inside(st) && QUOTE !in r
    ensures Inside(Run(st, r).0) && |Run(st, r).1| >= |r|
    ensures if Copies(st, r) then Run(st, r).1 == r else |Run(st, r).1| > |r|
    ensures Run(st, r).0.selfQuoted <==> st.selfQuoted && (st.underQuoted || AllDots(r))
    decreases |r|
  {
    if r != [] {
      var (st1, out1) := Step(st, r[0]);
      RunInside(st1, r[1..]);
    }
  }

  // ------------------------------------------------------------------ one segment

  /** Where a segment starts; selfQuoted is left over from the one before. */
  function SegmentStart(q: bool): (st: State) {
    State(false, q, 0, 0)
  }

  /** The segment is copied within quotes, so far as the closing one is still to come. */
  predicate Kept(q: bool, seg: Segment)
    requires Proper(seg)
  {
    seg.Bare? || seg.text[0] != DOT || (AllDots(seg.text) && (q || |seg.text| == 1))
  }

  /** selfQuoted after the segment. */
  function Leaves(q: bool, seg: Segment): (q': bool)
    requires Proper(seg)
  {
    seg.Quoted? && (seg.text[0] != DOT || (q && AllDots(seg.text)))
  }

  /** After a segment: one quote pending if it was quoted, and the next dot ends it. */
  predicate Ended(st: State, q: bool, seg: Segment)
    requires Proper(seg)
  {
    && st.continuousBacktick == (if seg.Quoted? then 1 else 0)
    && st.selfQuoted == Leaves(q, seg)
  }

  lemma {:induction false} RunBare(q: bool, text: Bytes)
    requires Proper(Bare(text))
    ensures Run(SegmentStart(q), text).1 == [QUOTE] + text
    ensures Ended(Run(SegmentStart(q), text).0, q, Bare(text))
  {
    RunFirst(SegmentStart(q), text);
    RunInside(Step(SegmentStart(q), text[0]).0, text[1..]);
    Prefixed(text);
  }

  /** Both quotes of a quoted segment are read without being written at once. */
  lemma {:induction false} RunEnclosed(st: State, text: Bytes)
    requires st.continuousBacktick == 0
    ensures var st1 := st.(continuousBacktick := 1, shiftDelimiter := Int8(st.shiftDelimiter + 1));
      var (st2, out) := Run(st1, text);
      Run(st, Enclosed(text)) == (Step(st2, QUOTE).0, out + Step(st2, QUOTE).1)
  {
    var (st1, out1) := Step(st, QUOTE);
    assert out1 == [] && [] + Run(st1, text).1 == Run(st1, text).1;
    RunOne(st, QUOTE);
    RunConcat(st, [QUOTE], text);
    RunConcat(st, [QUOTE] + text, [QUOTE]);
    RunOne(Run(st1, text).0, QUOTE);
  }

  lemma {:induction false} RunFirst(st: State, text: Bytes)
    requires text != []
    ensures var (st1, out1) := Step(st, text[0]);
      Run(st, text) == (Run(st1, text[1..]).0, out1 + Run(st1, text[1..]).1)
  {
    RunConcat(st, [text[0]], text[1..]);
    RunOne(st, text[0]);
    assert text == [text[0]] + text[1..];
  }

  lemma {:induction false} RunQuoted(q: bool, text: Bytes)
    requires Proper(Quoted(text))
    ensures Ended(Run(SegmentStart(q), Enclosed(text)).0, q, Quoted(text))
    ensures if Kept(q, Quoted(text)) then Run(SegmentStart(q), Enclosed(text)).1 == [QUOTE] + text
      else |Run(SegmentStart(q), Enclosed(text)).1| > 1 + |text|
  {
    RunEnclosed(SegmentStart(q), text);
    RunFirst(State(false, q, 1, 1), text);
    StepOpening(q, text[0]);
    var (st, out) := Step(State(false, q, 1, 1), text[0]);
    RunInside(st, text[1..]);
    StepClosing(Run(st, text[1..]).0);
    Prefixed(text);
  }

  lemma StepOpening(q: bool, v: bv8)
    requires v != QUOTE
    ensures Step(State(false, q, 1, 1), v) ==
      if v == DOT then (State(false, q, 0, 0), [QUOTE, DOT]) else (State(true, true, 0, 2), [QUOTE, v])
  {
    assert [QUOTE] + Doubled(0) + [v] == [QUOTE, v];
  }

  lemma StepClosing(st: State)
    requires st.continuousBacktick == 0
    ensures Step(st, QUOTE) == (st.(continuousBacktick := 1, shiftDelimiter := Int8(st.shiftDelimiter + 1)), [])
  {
  }

  lemma Prefixed(text: Bytes)
    requires text != []
    ensures [QUOTE] + text == [QUOTE, text[0]] + text[1..]
  {
  }

  // ------------------------------------------------------------------ whole names

  function QuoteFrom(q: bool, str: Bytes): (out: Bytes) {
    var (st, out) := Run(SegmentStart(q), str);
    out + Ending(st)
  }

  /**
    A quoted segment that starts with a dot must be all dots; it then needs a properly
    self-quoted segment before it, or to be a lone dot followed by a separator.
   */
  predicate Fine(q: bool, name: seq<Segment>)
    requires IsName(name)
    decreases |name|
  {
    if |name| == 1 then name[0].Bare? || Leaves(q, name[0])
    else Kept(q, name[0]) && Fine(Leaves(q, name[0]), name[1..])
  }

  lemma {:induction false} RunSegment(q: bool, seg: Segment)
    requires Proper(seg)
    ensures var (st, out) := Run(SegmentStart(q), Spelled(seg));
      Ended(st, q, seg) && if Kept(q, seg) then out == [QUOTE] + seg.text else |out| > 1 + |seg.text|
  {
    if seg.Bare? {
      RunBare(q, seg.text);
    } else {
      RunQuoted(q, seg.text);
    }
  }

  /** Whatever follows a separator is quoted on its own. */
  lemma {:induction false} QuoteSplits(q: bool, seg: Segment, rest: Bytes)
    requires Proper(seg)
    ensures QuoteFrom(q, Spelled(seg) + [DOT] + rest) ==
      Run(SegmentStart(q), Spelled(seg)).1 + [QUOTE, DOT] + QuoteFrom(Leaves(q, seg), rest)
  {
    RunSegment(q, seg);
    var (st, out) := Run(SegmentStart(q), Spelled(seg));
    var next := SegmentStart(Leaves(q, seg));
    RunOne(st, DOT);
    assert Step(st, DOT) == (next, [QUOTE, DOT]);
    RunConcat(SegmentStart(q), Spelled(seg), [DOT]);
    RunConcat(SegmentStart(q), Spelled(seg) + [DOT], rest);
    var (st2, out2) := Run(next, rest);
    assert out + [QUOTE, DOT] + out2 + Ending(st2) == out + [QUOTE, DOT] + (out2 + Ending(st2));
  }

  lemma {:induction false} QuoteName(q: bool, name: seq<Segment>)
    requires IsName(name)
    ensures if Fine(q, name) then QuoteFrom(q, Spelling(name)) == Canonical(name)
      else |QuoteFrom(q, Spelling(name))| > |Canonical(name)|
    decreases |name|
  {
    var seg := name[0];
    RunSegment(q, seg);
    if |name| > 1 {
      QuoteSplits(q, seg, Spelling(name[1..]));
      QuoteName(Leaves(q, seg), name[1..]);
      Rejoin(seg.text, Canonical(name[1..]));
    } else {
      QuoteLast(q, seg);
    }
  }

  lemma Rejoin(text: Bytes, rest: Bytes)
    ensures [QUOTE] + text + [QUOTE, DOT] + rest == Enclosed(text) + [DOT] + rest
  {
  }

  lemma {:induction false} QuoteLast(q: bool, seg: Segment)
    requires Proper(seg)
    ensures if seg.Bare? || Leaves(q, seg) then QuoteFrom(q, Spelled(seg)) == Enclosed(seg.text)
      else |QuoteFrom(q, Spelled(seg))| > |Enclosed(seg.text)|
  {
    RunSegment(q, seg);
  }

  /** Quoting yields the fully quoted form of the same segments exactly on the fine names. */
  lemma QuotesExactlyFineNames(name: seq<Segment>)
    requires IsName(name)
    ensures Quote(Spelling(name)) == Canonical(name) <==> Fine(false, name)
  {
    QuoteName(false, name);
    assert START == SegmentStart(false);
  }

  predicate NoLeadingDots(name: seq<Segment>) {
    forall i :: 0 <= i < |name| ==> name[i].text == [] || name[i].text[0] != DOT
  }

  lemma {:induction false} NoLeadingDotsFine(q: bool, name: seq<Segment>)
    requires IsName(name) && NoLeadingDots(name)
    ensures Fine(q, name)
    decreases |name|
  {
    if |name| > 1 {
      NoLeadingDotsFine(Leaves(q, name[0]), name[1..]);
    }
  }

  function Requoted(name: seq<Segment>): (r: seq<Segment>)
    ensures |r| == |name| && forall i :: 0 <= i < |r| ==> r[i] == Quoted(name[i].text)
  {
    seq(|name|, i requires 0 <= i < |name| => Quoted(name[i].text))
  }

  lemma {:induction false} CanonicalIsQuoted(name: seq<Segment>)
    requires name != []
    ensures Spelling(Requoted(name)) == Canonical(name) == Canonical(Requoted(name))
    decreases |name|
  {
    if |name| > 1 {
      CanonicalIsQuoted(name[1..]);
      assert Requoted(name)[1..] == Requoted(name[1..]);
    }
  }

  /** Names without leading dots: fully quoted, and quoting again changes nothing. */
  lemma QuotePreservesNames(name: seq<Segment>)
    requires IsName(name) && NoLeadingDots(name)
    ensures Quote(Spelling(name)) == Canonical(name)
    ensures Quote(Quote(Spelling(name))) == Quote(Spelling(name))
  {
    NoLeadingDotsFine(false, name);
    NoLeadingDotsFine(false, Requoted(name));
    QuotesExactlyFineNames(name);
    QuotesExactlyFineNames(Requoted(name));
    CanonicalIsQuoted(name);
  }

  /** A quoted segment that starts with a dot comes out with stray quotes. */
  lemma LeadingDotBreaks()
    ensures Quote(Enclosed([DOT, 97])) != Canonical([Quoted([DOT, 97])])
  {
    var name := [Quoted([DOT, 97])];
    assert Spelling(name) == Enclosed([DOT, 97]);
    QuotesExactlyFineNames(name);
  }

  // ------------------------------------------------------------------ quotes inside a bare name

  /** Quotes come in pairs: a pair stays as it is, a lone quote is doubled. */
  function Escaped(text: Bytes): (b: Bytes)
    decreases |text|
  {
    if text == [] then []
    else if text[0] != QUOTE then [text[0]] + Escaped(text[1..])
    else [QUOTE, QUOTE] + Escaped(if |text| > 1 && text[1] == QUOTE then text[2..] else text[1..])
  }

  /** What is written from a state on, to the end. */
  function WrittenFrom(st: State, text: Bytes): (b: Bytes) {
    Run(st, text).1 + Ending(Run(st, text).0)
  }

  lemma {:induction false} WrittenFirst(st: State, text: Bytes)
    requires text != []
    ensures WrittenFrom(st, text) == Step(st, text[0]).1 + WrittenFrom(Step(st, text[0]).0, text[1..])
  {
    RunFirst(st, text);
  }

  /** A byte in a bare name, after a lone quote or not. */
  lemma StepInName(b: nat, s: int, v: bv8)
    requires v != QUOTE && v != DOT && b <= 1
    ensures Step(State(true, false, b, s), v) == (State(true, false, 0, Int8(s + 1)), if b == 1 then [QUOTE, QUOTE, v] else [v])
  {
    var nothing: Bytes := [];
    assert Doubled(0) == [] && Doubled(1) == [QUOTE, QUOTE] + Doubled(0);
    assert nothing + Doubled(b) + [v] == if b == 1 then [QUOTE, QUOTE, v] else [v];
  }

  lemma StepFirst(v: bv8)
    requires v != QUOTE && v != DOT
    ensures Step(START, v) == (State(true, false, 0, 1), [QUOTE, v])
  {
    assert [QUOTE] + Doubled(0) + [v] == [QUOTE, v];
  }

  /** One byte in a bare name: a byte is written, a quote is kept back. */
  lemma WrittenByte(b: nat, s: int, text: Bytes)
    requires b <= 1 && text != [] && text[0] != QUOTE && text[0] != DOT
    ensures WrittenFrom(State(true, false, b, s), text) ==
      (if b == 1 then [QUOTE, QUOTE, text[0]] else [text[0]]) + WrittenFrom(State(true, false, 0, Int8(s + 1)), text[1..])
  {
    WrittenFirst(State(true, false, b, s), text);
    StepInName(b, s, text[0]);
  }

  /** The first quote of two writes nothing, the second both. */
  lemma WrittenQuote(b: nat, s: int, text: Bytes)
    requires b <= 1 && text != [] && text[0] == QUOTE
    ensures WrittenFrom(State(true, false, b, s), text) ==
      (if b == 1 then [QUOTE, QUOTE] else []) + WrittenFrom(State(true, false, 1 - b, Int8(s + 1)), text[1..])
  {
    WrittenFirst(State(true, false, b, s), text);
  }

  lemma WrittenEnd(b: nat, s: int)
    requires b <= 1
    ensures WrittenFrom(State(true, false, b, s), []) == if b == 1 then [QUOTE, QUOTE, QUOTE] else [QUOTE]
  {
    assert After(Step, State(true, false, b, s), []) == State(true, false, b, s);
  }

  /** What is still written for a text, when a lone quote has been kept back or not. */
  function EscapedFrom(b: nat, text: Bytes): (out: Bytes)
    requires b <= 1
  {
    if b == 0 then Escaped(text)
    else if text != [] && text[0] == QUOTE then [QUOTE, QUOTE] + Escaped(text[1..])
    else [QUOTE, QUOTE] + Escaped(text)
  }

  lemma Associate(a: Bytes, b: Bytes, c: Bytes)
    ensures a + (b + c) == a + b + c
  {
  }

  lemma {:induction false} RunEscapes(b: nat, s: int, text: Bytes)
    requires DOT !in text && b <= 1
    ensures WrittenFrom(State(true, false, b, s), text) == EscapedFrom(b, text) + [QUOTE]
    decreases |text|
  {
    if text == [] {
      WrittenEnd(b, s);
    } else if text[0] == QUOTE {
      WrittenQuote(b, s, text);
      RunEscapes(1 - b, Int8(s + 1), text[1..]);
      EscapesQuote(b, text);
      Associate(if b == 1 then [QUOTE, QUOTE] else [], EscapedFrom(1 - b, text[1..]), [QUOTE]);
    } else {
      WrittenByte(b, s, text);
      RunEscapes(0, Int8(s + 1), text[1..]);
      EscapesByte(b, text);
      Associate(if b == 1 then [QUOTE, QUOTE, text[0]] else [text[0]], Escaped(text[1..]), [QUOTE]);
    }
  }

  lemma EscapesQuote(b: nat, text: Bytes)
    requires b <= 1 && text != [] && text[0] == QUOTE
    ensures EscapedFrom(b, text) == (if b == 1 then [QUOTE, QUOTE] else []) + EscapedFrom(1 - b, text[1..])
  {
    if b == 0 && |text| > 1 && text[1] == QUOTE {
      assert text[1..][1..] == text[2..];
    }
  }

  lemma EscapesByte(b: nat, text: Bytes)
    requires b <= 1 && text != [] && text[0] != QUOTE
    ensures EscapedFrom(b, text) == (if b == 1 then [QUOTE, QUOTE, text[0]] else [text[0]]) + Escaped(text[1..])
  {
  }

  /** A name without dots that does not start with a quote is enclosed, and its quotes are paired. */
  lemma {:induction false} BareNamesAreEscaped(text: Bytes)
    requires text != [] && text[0] != QUOTE && DOT !in text
    ensures Quote(text) == [QUOTE] + Escaped(text) + [QUOTE]
  {
    WrittenFirst(START, text);
    StepFirst(text[0]);
    RunEscapes(0, 1, text[1..]);
    Prefixed(Escaped(text));
    assert Escaped(text)[1..] == Escaped(text[1..]);
  }

  /** Bytes other than quotes, and pairs of quotes. */
  predicate Paired(b: Bytes)
    decreases |b|
  {
    b == [] || (if b[0] != QUOTE then Paired(b[1..]) else |b| > 1 && b[1] == QUOTE && Paired(b[2..]))
  }

  /** Inside the enclosing quotes every quote has its partner, and quoting what is paired adds nothing. */
  lemma {:induction false} EscapedIsPaired(text: Bytes)
    ensures Paired(Escaped(text)) && (Paired(text) <==> Escaped(text) == text)
    decreases |text|
  {
    if text != [] {
      if text[0] != QUOTE {
        EscapedIsPaired(text[1..]);
        assert text == [text[0]] + text[1..];
      } else {
        var rest := if |text| > 1 && text[1] == QUOTE then text[2..] else text[1..];
        EscapedIsPaired(rest);
        EscapedGrows(rest);
        assert Escaped(text)[2..] == Escaped(rest);
        if |text| > 1 && text[1] == QUOTE {
          assert text == [QUOTE, QUOTE] + rest;
        }
      }
    }
  }

  lemma {:induction false} EscapedGrows(text: Bytes)
    ensures |Escaped(text)| >= |text|
    decreases |text|
  {
    if text != [] {
      if text[0] != QUOTE { EscapedGrows(text[1..]); }
      else { EscapedGrows(if |text| > 1 && text[1] == QUOTE then text[2..] else text[1..]); }
    }
  }

  /** A pair of quotes in front is taken for content, and the opening quote is missing. */
  lemma LeadingPairBreaks()
    ensures Quote([QUOTE, QUOTE, 97]) == [QUOTE, QUOTE, 97, QUOTE]
  {
    var text := [QUOTE, QUOTE, 97];
    WrittenFirst(START, text);
    WrittenFirst(State(false, false, 1, 1), text[1..]);
    WrittenFirst(State(false, false, 0, 2), text[2..]);
    assert text[1..][1..] == text[2..] && text[2..][1..] == [];
    var nothing: Bytes := [];
    assert nothing + Doubled(0) + [97] == [97];
    assert Step(State(false, false, 0, 2), 97) == (State(false, false, 0, 3), [97]);
  }

  // ------------------------------------------------------------------ the fully quoted form determines the segments

  function UntilQuote(s: Bytes): (n: nat) {
    if s == [] || s[0] == QUOTE then 0 else 1 + UntilQuote(s[1..])
  }

  lemma {:induction false} UntilQuoteIs(a: Bytes, r: Bytes)
    requires QUOTE !in a
    ensures UntilQuote(a + [QUOTE] + r) == |a|
  {
    if a != [] {
      UntilQuoteIs(a[1..], r);
      assert (a + [QUOTE] + r)[1..] == a[1..] + [QUOTE] + r;
    }
  }

  lemma FirstText(a: Bytes, b: Bytes, ra: Bytes, rb: Bytes)
    requires QUOTE !in a && QUOTE !in b && [QUOTE] + a + [QUOTE] + ra == [QUOTE] + b + [QUOTE] + rb
    ensures a == b && ra == rb
  {
    var x, y := a + [QUOTE] + ra, b + [QUOTE] + rb;
    assert [QUOTE] + a + [QUOTE] + ra == [QUOTE] + x && [QUOTE] + b + [QUOTE] + rb == [QUOTE] + y;
    assert x == ([QUOTE] + x)[1..] == y;
    UntilQuoteIs(a, ra);
    UntilQuoteIs(b, rb);
    assert a == x[..|a|] && b == y[..|b|];
    assert ra == x[|a| + 1..] && rb == y[|b| + 1..];
  }

  lemma {:induction false} CanonicalDetermines(a: seq<Segment>, b: seq<Segment>)
    requires IsName(a) && IsName(b) && Canonical(a) == Canonical(b)
    ensures Requoted(a) == Requoted(b)
    decreases |a|
  {
    var ra := if |a| == 1 then [] else [DOT] + Canonical(a[1..]);
    var rb := if |b| == 1 then [] else [DOT] + Canonical(b[1..]);
    assert Canonical(a) == [QUOTE] + a[0].text + [QUOTE] + ra;
    assert Canonical(b) == [QUOTE] + b[0].text + [QUOTE] + rb;
    FirstText(a[0].text, b[0].text, ra, rb);
    if |a| > 1 {
      assert Canonical(a[1..]) == ra[1..] && Canonical(b[1..]) == rb[1..];
      CanonicalDetermines(a[1..], b[1..]);
      assert Requoted(a) == [Quoted(a[0].text)] + Requoted(a[1..]);
      assert Requoted(b) == [Quoted(b[0].text)] + Requoted(b[1..]);
    }
  }
}
