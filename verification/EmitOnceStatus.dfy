/** Which statuses are published: the classification, and what it means for a whole observation. */
module EmitOnceStatus {
  import opened Wrappers
  import opened AsciiText
  import opened BoundedSet
  import opened EmitOnce
  import opened EmitOnceRuns

  // ---------------------------------------------------------------------------------
  // Spellings.

  /** `c` is the capital `w` or its small letter. */
  predicate CaseOf(c: char, w: char) { c == w || ('A' <= w <= 'Z' && c == w + ' ') }

  /** The word stands at `i`, in any casing, and all around it is blank. */
  predicate SpellsAt(raw: string, word: string, i: nat) {
    && i + |word| <= |raw|
    && (forall k :: 0 <= k < i ==> IsSpace(raw[k]))
    && (forall k :: i + |word| <= k < |raw| ==> IsSpace(raw[k]))
    && (forall k :: 0 <= k < |word| ==> CaseOf(raw[i + k], word[k]))
  }

  ghost predicate Spells(raw: string, word: string) { exists i: nat :: SpellsAt(raw, word, i) }

  predicate Capitals(word: string) { word != "" && forall c <- word :: 'A' <= c <= 'Z' }

  lemma {:induction false} TrimStartIs(s: string) returns (i: nat)
    ensures i <= |s| && TrimStart(s) == s[i..] && (forall k :: 0 <= k < i ==> IsSpace(s[k]))
  {
    if s != [] && IsSpace(s[0]) {
      var j := TrimStartIs(s[1..]);
      i := j + 1;
      assert s[1..][j..] == s[i..];
      forall k | 0 <= k < i ensures IsSpace(s[k]) {
        if k > 0 { assert s[k] == s[1..][k - 1]; }
      }
    } else {
      i := 0;
    }
  }

  lemma {:induction false} TrimEndIs(s: string) returns (j: nat)
    ensures j <= |s| && TrimEnd(s) == s[..j] && (forall k :: j <= k < |s| ==> IsSpace(s[k]))
  {
    if s != [] && IsSpace(s[|s| - 1]) {
      j := TrimEndIs(s[..|s| - 1]);
      assert s[..|s| - 1][..j] == s[..j];
      forall k | j <= k < |s| ensures IsSpace(s[k]) {
        if k < |s| - 1 { assert s[k] == s[..|s| - 1][k]; }
      }
    } else {
      j := |s|;
    }
  }

  lemma {:induction false} UpperAt(s: string)
    ensures |Upper(s)| == |s| && forall k :: 0 <= k < |s| ==> Upper(s)[k] == UpperChar(s[k])
  {
    if s != [] { UpperAt(s[1..]); }
  }

  lemma UpperIsCapital(c: char, w: char)
    requires 'A' <= w <= 'Z'
    ensures UpperChar(c) == w <==> CaseOf(c, w)
  {
  }

  lemma {:induction false} NormalisedIsSpelt(raw: string, word: string)
    requires Capitals(word) && Normalised(raw) == word
    ensures Spells(raw, word)
  {
    var i := TrimStartIs(raw);
    var j := TrimEndIs(raw[i..]);
    var middle := raw[i..][..j];
    UpperAt(middle);
    forall k | i + |word| <= k < |raw| ensures IsSpace(raw[k]) { assert raw[k] == raw[i..][k - i]; }
    forall k | 0 <= k < |word| ensures CaseOf(raw[i + k], word[k]) {
      assert middle[k] == raw[i + k] && word[k] in word;
      UpperIsCapital(middle[k], word[k]);
    }
    assert SpellsAt(raw, word, i);
  }

  lemma {:induction false} SpeltIsNormalised(raw: string, word: string, i: nat)
    requires Capitals(word) && SpellsAt(raw, word, i)
    ensures Normalised(raw) == word
  {
    var n := i + |word|;
    var (before, middle, rest) := (raw[..i], raw[i..n], raw[n..]);
    assert raw == before + middle + rest;
    forall k | 0 <= k < |word| ensures UpperChar(middle[k]) == UpperChar(word[k]) == word[k] {
      assert middle[k] == raw[i + k] && word[k] in word;
      UpperIsCapital(middle[k], word[k]);
    }
    assert Bare(middle) by {
      assert UpperChar(middle[0]) == word[0] && UpperChar(middle[|middle| - 1]) == word[|word| - 1];
      assert word[0] in word && word[|word| - 1] in word;
    }
    NormalisedDropsPadding(before, middle, rest);
    UpperAt(middle);
  }

  lemma {:induction false} NormalisedIff(raw: string, word: string)
    requires Capitals(word)
    ensures Normalised(raw) == word <==> Spells(raw, word)
  {
    if Normalised(raw) == word { NormalisedIsSpelt(raw, word); }
    if i: nat :| SpellsAt(raw, word, i) { SpeltIsNormalised(raw, word, i); }
  }

  ghost predicate SpellsResult(raw: string) { Spells(raw, "FT") || Spells(raw, "AET") || Spells(raw, "PEN") }

  ghost predicate SpellsVoid(raw: string) {
    Spells(raw, "PST") || Spells(raw, "ABD") || Spells(raw, "AWD") || Spells(raw, "WO")
  }

  /**
   * A status is a result exactly if it is FT, AET or PEN in some padding and casing, void exactly if
   * it is PST, ABD, AWD or WO, and otherwise nothing.
   */
  lemma {:induction false} ClassificationIsExact(raw: string)
    ensures Classify(Some(raw)) == Some(TerminalResult) <==> SpellsResult(raw)
    ensures Classify(Some(raw)) == Some(TerminalVoid) <==> SpellsVoid(raw)
    ensures Classify(Some(raw)) == None <==> !SpellsResult(raw) && !SpellsVoid(raw)
    ensures Classify(None) == None
  {
    NormalisedIff(raw, "FT");
    NormalisedIff(raw, "AET");
    NormalisedIff(raw, "PEN");
    NormalisedIff(raw, "PST");
    NormalisedIff(raw, "ABD");
    NormalisedIff(raw, "AWD");
    NormalisedIff(raw, "WO");
  }

  // ---------------------------------------------------------------------------------
  // Whole observations.

  ghost predicate IsTerminal(f: Fixture) {
    f.status.Some? && (SpellsResult(f.status.value) || SpellsVoid(f.status.value))
  }

  lemma {:induction false} StaysNotTerminal(cap: Capacity, s: State, steps: seq<Step>, i: nat)
    requires Legal(cap, s, steps) && i < |s.observers|
    ensures i < |After(cap, s, steps).observers|
    ensures After(cap, s, steps).observers[i].stage == Ended(NotTerminal)
            <==> s.observers[i].stage == Ended(NotTerminal)
    decreases |steps|
  {
    if steps != [] { StaysNotTerminal(cap, Apply(cap, s, steps[0]), steps[1..], i); }
  }

  /** In any schedule, an observation ends as not terminal exactly when its status spells none of the seven. */
  lemma {:induction false} NotTerminalIff(cap: Capacity, s: State, f: Fixture, steps: seq<Step>)
    requires Legal(cap, Apply(cap, s, Observe(f)), steps)
    ensures var to := After(cap, Apply(cap, s, Observe(f)), steps);
            && |s.observers| < |to.observers|
            && (to.observers[|s.observers|].stage == Ended(NotTerminal) <==> !IsTerminal(f))
  {
    if f.status.Some? { ClassificationIsExact(f.status.value); }
    StaysNotTerminal(cap, Apply(cap, s, Observe(f)), steps, |s.observers|);
  }

  /**
   * A dated fixture with a terminal status and no marker, observed while its requests are carried
   * out: its marker is set, its key is appended once, and the observation ends as published.
   */
  lemma {:induction false} TerminalFixtureIsPublished(cap: Capacity, s: State, f: Fixture)
    requires IsTerminal(f) && f.concludedAt.Some? && KeyFor(f.providerId, f.fixtureId) !in s.seen
    ensures var key, n := KeyFor(f.providerId, f.fixtureId), |s.observers|;
            var steps := Publication(s, f, Carried) + [Proceed(n, Carried)];
            && Legal(cap, s, steps)
            && var to := After(cap, s, steps);
               && to.seen == AfterMark(cap, s.seen, key) && to.stream == s.stream + [key]
               && |to.observers| == n + 1 && to.observers[..n] == s.observers
               && to.observers[n].stage == Ended(Published)
               && to.metrics == s.metrics + multiset{Published}
  {
    ClassificationIsExact(f.status.value);
    UnmarkedFixturePublishes(cap, s, f, Carried);
    var key, landed := KeyFor(f.providerId, f.fixtureId), Begin(f).(landed := true, stage := Landed);
    LandedEnds(cap, State(AfterMark(cap, s.seen, key), s.observers, s.stream + [key], s.metrics), landed);
    RunsJoin(cap, s, Publication(s, f, Carried), [Proceed(|s.observers|, Carried)]);
  }

  /** The last observer hears that its append has landed. */
  lemma {:induction false} LandedEnds(cap: Capacity, s: State, o: Observer)
    requires o.stage.Landed?
    ensures var (from, steps) := (s.(observers := s.observers + [o]), [Proceed(|s.observers|, Carried)]);
            && Legal(cap, from, steps)
            && After(cap, from, steps)
               == s.(observers := s.observers + [o.(stage := Ended(Published))],
                     metrics := s.metrics + multiset{Published})
  {
    var from, steps := s.(observers := s.observers + [o]), [Proceed(|s.observers|, Carried)];
    var to := Apply(cap, from, steps[0]);
    LastObserverMoves(cap, s, o, Carried, to);
    assert steps[1..] == [] && Legal(cap, to, []) && After(cap, to, []) == to;
  }

  /**
   * In any schedule, a terminal, dated fixture that finds no marker and whose mark and append are
   * carried out can only end as published.
   */
  lemma {:induction false} AnsweredObservationIsPublished(
    cap: Capacity, s: State, f: Fixture, between: seq<Step>, later: seq<Step>, clear: Write)
    requires IsTerminal(f) && f.concludedAt.Some?
    requires Legal(cap, Apply(cap, s, Observe(f)), between)
    requires var at := After(cap, Apply(cap, s, Observe(f)), between);
             && |s.observers| < |at.observers| && at.observers[|s.observers|] == Begin(f)
             && KeyFor(f.providerId, f.fixtureId) !in at.seen && Enabled(at, Proceed(|s.observers|, Carried))
             && Legal(cap, Apply(cap, at, Proceed(|s.observers|, Carried)), later)
             && AnswersAs(cap, Apply(cap, at, Proceed(|s.observers|, Carried)), later, |s.observers|,
                          Answers(Carried, Carried, clear))
    ensures var at := After(cap, Apply(cap, s, Observe(f)), between);
            var end := After(cap, Apply(cap, at, Proceed(|s.observers|, Carried)), later).observers;
            && |s.observers| < |end|
            && (end[|s.observers|].Final() ==> end[|s.observers|].stage == Ended(Published))
  {
    ClassificationIsExact(f.status.value);
    var at := After(cap, Apply(cap, s, Observe(f)), between);
    ObserverEndsAsAnswered(cap, at, later, |s.observers|, Answers(Carried, Carried, clear));
  }

  // ---------------------------------------------------------------------------------
  // The fact.

  /** `voidReason` is the status of a match without a normal result. */
  datatype Fact = Fact(id: string, providerStatus: string, voidReason: Option<string>)

  function BuildFact(fixtureId: string, status: string, classification: Classification): Fact {
    var normalised := Normalised(status);
    Fact("match-concluded:" + (fixtureId + (":" + normalised)), normalised,
         if classification == TerminalVoid then Some(normalised) else None)
  }

  /** However a status is spelt, the fact and its id name the plain one, and as a void reason if there is no result. */
  lemma {:induction false} FactNamesTheStatus(fixtureId: string, raw: string, word: string)
    requires word in ["FT", "AET", "PEN", "PST", "ABD", "AWD", "WO"] && Spells(raw, word)
    ensures Classify(Some(raw)).Some?
    ensures BuildFact(fixtureId, raw, Classify(Some(raw)).value)
         == Fact("match-concluded:" + (fixtureId + (":" + word)), word,
                 if word in ["PST", "ABD", "AWD", "WO"] then Some(word) else None)
  {
    NormalisedIff(raw, word);
  }
}
