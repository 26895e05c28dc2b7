// SequenceDetector of the digit-sequence example: the class, and what its handlers see of a whole string of symbols.
module Detection {

  // A registered sequence; its handler is named by its position in the registration order.
  type Sequences = seq<string>

  // Handler calls: a match (which sequence, which input), or the invalid-sequence handler, from Symbol or the timer.
  datatype Output = Match(handler: nat, input: string) | Invalid(input: string, fromTimer: bool)

  datatype State = State(
    sequences: Sequences, input: string, maxSize: nat, invalid: bool, armed: bool, out: seq<Output>)

  function MaxSize(ss: Sequences): nat {
    if ss == [] then 0
    else
      var m := MaxSize(ss[..|ss| - 1]);
      if |ss[|ss| - 1]| > m then |ss[|ss| - 1]| else m
  }

  lemma {:induction false} MaxSizeIsLongest(ss: Sequences)
    ensures forall i :: 0 <= i < |ss| ==> |ss[i]| <= MaxSize(ss)
    ensures if ss == [] then MaxSize(ss) == 0 else exists i :: 0 <= i < |ss| && |ss[i]| == MaxSize(ss)
    decreases |ss|
  {
    if ss != [] {
      var front, last := ss[..|ss| - 1], ss[|ss| - 1];
      MaxSizeIsLongest(front);
      assert forall i :: 0 <= i < |front| ==> front[i] == ss[i];
      if |last| >= MaxSize(front) {
        assert |ss[|ss| - 1]| == MaxSize(ss);
      } else {
        var i :| 0 <= i < |front| && |front[i]| == MaxSize(front);
        assert |ss[i]| == MaxSize(ss);
      }
    }
  }

  // The first sequence equal to the input, or the number of sequences.
  function FirstEqual(ss: Sequences, w: string): (k: nat)
    ensures k <= |ss|
    ensures k < |ss| ==> ss[k] == w
    ensures forall j :: 0 <= j < k ==> ss[j] != w
  {
    if ss == [] || ss[0] == w then 0 else 1 + FirstEqual(ss[1..], w)
  }

  function Reset(s: State): State {
    s.(invalid := false, input := "", armed := false)
  }

  function Symbol(s: State, c: char): State {
    if s.invalid then s
    else
      var t := s.(input := s.input + [c]);
      var k := FirstEqual(t.sequences, t.input);
      if k < |t.sequences| then t.(armed := false, out := t.out + [Match(k, t.input)])
      else if |t.input| >= t.maxSize then t.(invalid := true, out := t.out + [Invalid(t.input, false)])
      else t
  }

  // The wait completes only while the timer has not been cancelled.
  function TimerExpires(s: State): State {
    if !s.armed then s else s.(armed := false, invalid := true, out := s.out + [Invalid(s.input, true)])
  }

  class SequenceDetector {
    var sequences: Sequences
    var inputSequence: string
    var maxSeqSize: nat
    var invalid: bool
    var armed: bool
    var out: seq<Output>

    ghost function Abs(): State
      reads this
    {
      State(sequences, inputSequence, maxSeqSize, invalid, armed, out)
    }

    ghost predicate Valid()
      reads this
    {
      maxSeqSize == MaxSize(sequences)
    }

    constructor ()
      ensures Valid() && Abs() == State([], "", 0, false, false, [])
    {
      sequences, inputSequence, maxSeqSize, invalid, armed, out := [], "", 0, false, false, [];
    }

    method AddSequence(sequence: string)
      requires Valid()
      modifies this
      ensures Valid() && sequences == old(sequences) + [sequence]
      ensures Abs() == old(Abs()).(sequences := sequences, maxSize := maxSeqSize)
    {
      maxSeqSize := if |sequence| > maxSeqSize then |sequence| else maxSeqSize;
      sequences := sequences + [sequence];
      assert sequences[..|sequences| - 1] == old(sequences);
    }

    method DoReset()
      modifies this
      ensures Abs() == Reset(old(Abs()))
      ensures inputSequence == "" && !invalid && !armed
      ensures unchanged(`sequences, `maxSeqSize, `out)
    {
      invalid := false;
      inputSequence := "";
      armed := false;
    }

    method StartDetection()
      modifies this
      ensures Abs() == Reset(old(Abs())).(armed := true)
      ensures inputSequence == "" && !invalid && armed
      ensures unchanged(`sequences, `maxSeqSize, `out)
    {
      DoReset();
      armed := true;
    }

    method OnSymbol(s: char) returns (matched: bool)
      modifies this
      ensures Abs() == Symbol(old(Abs()), s)
      ensures matched <==> !old(invalid) && inputSequence in sequences
    {
      if invalid { return false; }
      inputSequence := inputSequence + [s];
      for k := 0 to |sequences|
        invariant unchanged(`sequences, `maxSeqSize, `invalid, `armed, `out)
        invariant inputSequence == old(inputSequence) + [s]
        invariant forall j :: 0 <= j < k ==> sequences[j] != inputSequence
      {
        if sequences[k] == inputSequence {
          armed := false;
          out := out + [Match(k, inputSequence)];
          return true;
        }
      }
      if |inputSequence| >= maxSeqSize { DoInvalid(false); }
      matched := false;
    }

    method OnTimer()
      modifies this
      ensures Abs() == TimerExpires(old(Abs()))
    {
      if !armed { return; }
      armed := false;
      DoInvalid(true);
    }

    method DoInvalid(fromTimer: bool)
      modifies this
      ensures Abs() == old(Abs()).(invalid := true, out := old(out) + [Invalid(old(inputSequence), fromTimer)])
    {
      invalid := true;
      out := out + [Invalid(inputSequence, fromTimer)];
    }
  }

  // ---- a string of symbols, timer aside ----

  function Symbols(s: State, w: string): State {
    if w == "" then s else Symbol(Symbols(s, w[..|w| - 1]), w[|w| - 1])
  }

  function Started(ss: Sequences): State {
    State(ss, "", MaxSize(ss), false, true, [])
  }

  // The prefix of length k is too long to become a sequence, and is not one.
  predicate Hopeless(ss: Sequences, w: string, k: nat)
    requires k <= |w|
  {
    k >= 1 && k >= MaxSize(ss) && w[..k] !in ss
  }

  // The length of the shortest hopeless prefix no shorter than j; |w| + 1 if there is none.
  function BreakdownFrom(ss: Sequences, w: string, j: nat): (k: nat)
    requires j <= |w| + 1
    ensures j <= k <= |w| + 1
    ensures k <= |w| ==> Hopeless(ss, w, k)
    ensures forall i :: j <= i < k && i <= |w| ==> !Hopeless(ss, w, i)
    decreases |w| + 1 - j
  {
    if j > |w| || Hopeless(ss, w, j) then j else BreakdownFrom(ss, w, j + 1)
  }

  function Breakdown(ss: Sequences, w: string): (k: nat)
    ensures 1 <= k <= |w| + 1
    ensures k <= |w| ==> Hopeless(ss, w, k)
    ensures forall i :: 0 <= i < k && i <= |w| ==> !Hopeless(ss, w, i)
  {
    BreakdownFrom(ss, w, 1)
  }

  // The matches among the non-empty prefixes of length at most n, shortest first.
  function Matches(ss: Sequences, w: string, n: nat): seq<Output>
    requires n <= |w|
  {
    if n == 0 then []
    else Matches(ss, w, n - 1) + (if w[..n] in ss then [Match(FirstEqual(ss, w[..n]), w[..n])] else [])
  }

  lemma {:induction false} MatchesOfPrefix(ss: Sequences, w: string, v: string, n: nat)
    requires n <= |v| <= |w| && v == w[..|v|]
    ensures Matches(ss, v, n) == Matches(ss, w, n)
  {
    if n > 0 {
      MatchesOfPrefix(ss, w, v, n - 1);
      assert v[..n] == w[..n];
    }
  }

  lemma {:induction false} LongestAtMost(ss: Sequences, x: string)
    requires x in ss
    ensures |x| <= MaxSize(ss)
    decreases |ss|
  {
    var front, last := ss[..|ss| - 1], ss[|ss| - 1];
    if x != last {
      assert x in front;
      LongestAtMost(front, x);
    }
  }

  // Adding a symbol keeps a breakdown there was, and adds one only at the new end.
  lemma BreakdownOfPrefix(ss: Sequences, v: string, c: char)
    ensures var w := v + [c];
      var k := Breakdown(ss, w);
      if Breakdown(ss, v) <= |v| then k == Breakdown(ss, v)
      else k == if Hopeless(ss, w, |w|) then |w| else |w| + 1
  {
    var w := v + [c];
    forall j | 0 <= j <= |v|
      ensures Hopeless(ss, w, j) <==> Hopeless(ss, v, j)
    {
      assert w[..j] == v[..j];
    }
    var k, m := Breakdown(ss, w), Breakdown(ss, v);
    if k <= |v| { assert Hopeless(ss, v, k); }
    if m <= |v| { assert Hopeless(ss, w, m); }
  }

  // While nothing is hopeless the input is no longer than the longest sequence.
  lemma NotLate(ss: Sequences, v: string)
    requires Breakdown(ss, v) > |v|
    ensures |v| <= MaxSize(ss)
  {
    if v != "" && |v| > MaxSize(ss) {
      assert v[..|v|] == v;
      assert !Hopeless(ss, v, |v|);
      LongestAtMost(ss, v);
    }
  }

  // What the detector is to look like after w.
  ghost predicate Detected(s: State, ss: Sequences, w: string) {
    var k := Breakdown(ss, w);
    && s.sequences == ss && s.maxSize == MaxSize(ss)
    && |s.input| <= MaxSize(ss) + 1
    && if k <= |w| then
         && s.out == Matches(ss, w, k) + [Invalid(w[..k], false)]
         && s.input == w[..k] && s.invalid && s.armed == (Matches(ss, w, k) == [])
       else
         && s.out == Matches(ss, w, |w|)
         && s.input == w && !s.invalid && s.armed == (Matches(ss, w, |w|) == [])
  }

  lemma IgnoresSymbol(s: State, ss: Sequences, v: string, c: char)
    requires Detected(s, ss, v) && Breakdown(ss, v) <= |v|
    ensures Detected(Symbol(s, c), ss, v + [c])
  {
    BreakdownOfPrefix(ss, v, c);
    var k := Breakdown(ss, v);
    assert (v + [c])[..|v|] == v && (v + [c])[..k] == v[..k];
    MatchesOfPrefix(ss, v + [c], v, k);
  }

  lemma TakesSymbol(s: State, ss: Sequences, v: string, c: char)
    requires Detected(s, ss, v) && Breakdown(ss, v) > |v|
    ensures Detected(Symbol(s, c), ss, v + [c])
  {
    var w := v + [c];
    BreakdownOfPrefix(ss, v, c);
    NotLate(ss, v);
    assert w[..|v|] == v && w[..|w|] == w;
    MatchesOfPrefix(ss, w, v, |v|);
    assert Matches(ss, w, |w|) == Matches(ss, w, |v|) + (if w in ss then [Match(FirstEqual(ss, w), w)] else []);
    assert w in ss <==> FirstEqual(ss, w) < |ss|;
  }

  // For every string of symbols after StartDetection: a handler runs for each prefix that is a registered
  // sequence, shortest first, the first registered on duplicates, up to the shortest hopeless prefix; there the
  // invalid handler runs, once, and all later symbols are ignored. The stored input is that prefix, and
  // never longer than the longest sequence plus one.
  lemma {:induction false} DetectsPrefixes(ss: Sequences, w: string)
    ensures Detected(Symbols(Started(ss), w), ss, w)
    decreases |w|
  {
    if w != "" {
      var v, c := w[..|w| - 1], w[|w| - 1];
      assert w == v + [c];
      DetectsPrefixes(ss, v);
      var s := Symbols(Started(ss), v);
      if Breakdown(ss, v) <= |v| { IgnoresSymbol(s, ss, v, c); } else { TakesSymbol(s, ss, v, c); }
    }
  }

  // ---- with the timer ----

  datatype Event = Key(c: char) | Timer

  function Step(s: State, e: Event): State {
    match e
    case Key(c) => Symbol(s, c)
    case Timer => TimerExpires(s)
  }

  function Run(s: State, es: seq<Event>): State {
    if es == [] then s else Step(Run(s, es[..|es| - 1]), es[|es| - 1])
  }

  function Keys(es: seq<Event>): string {
    if es == [] then ""
    else Keys(es[..|es| - 1]) + (if es[|es| - 1].Key? then [es[|es| - 1].c] else "")
  }

  // The events before the first expiry of the timer.
  function BeforeTimer(es: seq<Event>): seq<Event> {
    if es == [] || es[0].Timer? then [] else [es[0]] + BeforeTimer(es[1..])
  }

  lemma {:induction false} BeforeTimerAppend(es: seq<Event>, e: Event)
    ensures BeforeTimer(es + [e]) == if Timer in es || e.Timer? then BeforeTimer(es) else es + [e]
    ensures Timer !in es ==> BeforeTimer(es) == es
    ensures |BeforeTimer(es)| <= |es|
  {
    if es != [] && es[0].Key? {
      assert (es + [e])[1..] == es[1..] + [e];
      BeforeTimerAppend(es[1..], e);
    }
  }

  // The state once the timer has expired on a detection that had no match.
  function TimedOut(s: State): State {
    s.(armed := false, invalid := true, out := s.out + [Invalid(s.input, true)])
  }

  // An expiry counts only if it is the first and no sequence has matched before; then it ends the detection.
  // Otherwise the timer plays no part.
  lemma {:induction false} TimerEndsDetection(ss: Sequences, es: seq<Event>)
    ensures var s := Symbols(Started(ss), Keys(BeforeTimer(es)));
      var t := Run(Started(ss), es);
      if Timer in es && s.armed then t == TimedOut(s) else t == Symbols(Started(ss), Keys(es))
    decreases |es|
  {
    if es != [] {
      var front, e := es[..|es| - 1], es[|es| - 1];
      assert es == front + [e];
      TimerEndsDetection(ss, front);
      BeforeTimerAppend(front, e);
      BeforeTimerAppend(front, Timer);
      if e.Key? {
        assert Keys(es)[..|Keys(front)|] == Keys(front);
      } else {
        assert Keys(es) == Keys(front);
        StaysDisarmed(ss, front);
      }
    }
  }

  // Once a match has stopped the timer, more symbols do not start it again.
  lemma {:induction false} StaysDisarmed(ss: Sequences, es: seq<Event>)
    ensures Symbols(Started(ss), Keys(es)).armed ==> Symbols(Started(ss), Keys(BeforeTimer(es))).armed
    decreases |es|
  {
    if es != [] {
      var front, e := es[..|es| - 1], es[|es| - 1];
      assert es == front + [e];
      StaysDisarmed(ss, front);
      BeforeTimerAppend(front, e);
      if e.Key? {
        assert Keys(es)[..|Keys(front)|] == Keys(front);
      } else {
        assert Keys(es) == Keys(front);
        if Timer !in front { assert BeforeTimer(es) == front; }
      }
    }
  }

  lemma {:induction false} MatchesOnly(ss: Sequences, w: string, n: nat)
    requires n <= |w|
    ensures forall i :: 0 <= i < |Matches(ss, w, n)| ==> Matches(ss, w, n)[i].Match?
  {
    if n > 0 {
      MatchesOnly(ss, w, n - 1);
    }
  }

  // Per detection the invalid handler runs at most once from Symbol and at most once from the timer, and never
  // from the timer if a sequence has matched.
  lemma InvalidAtMostTwice(ss: Sequences, es: seq<Event>)
    ensures var out := Run(Started(ss), es).out;
      && (forall i, j :: 0 <= i < j < |out| && out[i].Invalid? && out[j].Invalid? ==>
            !out[i].fromTimer && out[j].fromTimer)
      && (forall i, j :: 0 <= i < |out| && 0 <= j < |out| && out[i].Match? && out[j].Invalid? ==> !out[j].fromTimer)
  {
    TimerEndsDetection(ss, es);
    var timedOut := Timer in es && Symbols(Started(ss), Keys(BeforeTimer(es))).armed;
    var w := if timedOut then Keys(BeforeTimer(es)) else Keys(es);
    DetectsPrefixes(ss, w);
    var k := Breakdown(ss, w);
    MatchesOnly(ss, w, if k <= |w| then k else |w|);
  }

  // ---- a detector with a past ----

  datatype Deed = Start | Add(sequence: string) | Saw(e: Event)

  function Do(s: State, d: Deed): State {
    match d
    case Start => Reset(s).(armed := true)
    case Add(x) =>
      s.(sequences := s.sequences + [x], maxSize := if |x| > s.maxSize then |x| else s.maxSize)
    case Saw(e) => Step(s, e)
  }

  // What a detector has become after these calls and expiries.
  function Live(ds: seq<Deed>): State {
    if ds == [] then State([], "", 0, false, false, []) else Do(Live(ds[..|ds| - 1]), ds[|ds| - 1])
  }

  // The sequences added, in order.
  function Added(ds: seq<Deed>): Sequences {
    if ds == [] then []
    else Added(ds[..|ds| - 1]) + (if ds[|ds| - 1].Add? then [ds[|ds| - 1].sequence] else [])
  }

  lemma {:induction false} LiveSequences(ds: seq<Deed>)
    ensures Live(ds).sequences == Added(ds) && Live(ds).maxSize == MaxSize(Added(ds))
    decreases |ds|
  {
    if ds != [] {
      var front, d := ds[..|ds| - 1], ds[|ds| - 1];
      LiveSequences(front);
      match d {
        case Start =>
        case Add(x) => LongestOfMore(Added(front), x);
        case Saw(e) => StepKeepsSequences(Live(front), e);
      }
    }
  }

  lemma LongestOfMore(ss: Sequences, x: string)
    ensures MaxSize(ss + [x]) == if |x| > MaxSize(ss) then |x| else MaxSize(ss)
  {
    assert (ss + [x])[..|ss|] == ss;
  }

  lemma StepKeepsSequences(s: State, e: Event)
    ensures Step(s, e).sequences == s.sequences && Step(s, e).maxSize == s.maxSize
  {
  }

  // What was put out before plays no part.
  lemma {:induction false} OutputIsAdded(s: State, before: seq<Output>, es: seq<Event>)
    ensures Run(s.(out := before + s.out), es) == Run(s, es).(out := before + Run(s, es).out)
    decreases |es|
  {
    if es != [] {
      OutputIsAdded(s, before, es[..|es| - 1]);
      var t := Run(s, es[..|es| - 1]);
      assert forall o: Output :: before + t.out + [o] == before + (t.out + [o]);
    }
  }

  // Whatever a detector has been through, StartDetection starts afresh: from there it goes through the states of
  // a new detector with the sequences added so far, and adds the same output to what there is.
  lemma EveryDetectionIsFresh(ds: seq<Deed>, es: seq<Event>)
    ensures var s, anew := Live(ds), Run(Started(Added(ds)), es);
      Run(Do(s, Start), es) == anew.(out := s.out + anew.out)
  {
    LiveSequences(ds);
    var s := Live(ds);
    assert s.out + Started(Added(ds)).out == s.out;
    assert Do(s, Start) == Started(Added(ds)).(out := s.out);
    OutputIsAdded(Started(Added(ds)), s.out, es);
  }

  lemma {:induction false} KeysAreSymbols(s: State, w: string)
    ensures Run(s, seq(|w|, i requires 0 <= i < |w| => Key(w[i]))) == Symbols(s, w)
    decreases |w|
  {
    var es := seq(|w|, i requires 0 <= i < |w| => Key(w[i]));
    if w != "" {
      var v := w[..|w| - 1];
      KeysAreSymbols(s, v);
      assert es[..|w| - 1] == seq(|v|, i requires 0 <= i < |v| => Key(v[i]));
    }
  }

  // So the detection theorem holds for every detection of every detector.
  lemma EveryDetectionDetects(ds: seq<Deed>, w: string)
    ensures var s, ss := Live(ds), Added(ds);
      var t, k := Symbols(Do(s, Start), w), Breakdown(ss, w);
      && t.out == s.out + (if k <= |w| then Matches(ss, w, k) + [Invalid(w[..k], false)] else Matches(ss, w, |w|))
      && t.input == (if k <= |w| then w[..k] else w) && |t.input| <= MaxSize(ss) + 1
  {
    KeysAreSymbols(Do(Live(ds), Start), w);
    KeysAreSymbols(Started(Added(ds)), w);
    EveryDetectionIsFresh(ds, seq(|w|, i requires 0 <= i < |w| => Key(w[i])));
    DetectsPrefixes(Added(ds), w);
  }
}
