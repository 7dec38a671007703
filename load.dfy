/**
 * The loading screen's bookkeeping: a table of named load steps, each done or not,
 * the "now/end" progress text, and the switch to the playing state once every step
 * is done.
 */
module Load {
  import opened Common
  import opened Tiles

  /** The game's top-level states. */
  datatype GameState = Loading | Playing | Menu

  /** `LoadProcess`: the load steps and whether each is done. */
  class LoadProcess {
    var steps: map<string, bool>

    /** `new`: no steps. */
    constructor New()
      ensures steps == map[]
    {
      steps := map[];
    }

    /** `add`: the step is registered as not done, also when it was there already. */
    method Add(step: string)
      modifies this
      ensures steps == old(steps)[step := false]
    {
      steps := steps[step := false];
    }

    /** `set`: the step is marked done; a step never added panics. */
    method Set(step: string) returns (outcome: Outcome)
      modifies this
      ensures step in old(steps) ==> outcome == Done && steps == old(steps)[step := true]
      ensures step !in old(steps) ==> outcome == Panicked(MissingStep(step)) && steps == old(steps)
    {
      if step !in steps {
        return Panicked(MissingStep(step));
      }
      steps := steps[step := true];
      return Done;
    }
  }

  /** The steps that are done. */
  function DoneSteps(steps: map<string, bool>): (d: set<string>)
    ensures d <= steps.Keys
    ensures forall k :: k in d <==> k in steps && steps[k]
  {
    set k | k in steps && steps[k]
  }

  predicate AllDone(steps: map<string, bool>)
  {
    forall k :: k in steps ==> steps[k]
  }

  // ---------------------------------------------------------------------------
  // Progress text

  function Digit(d: nat): (c: char)
    requires d < 10
    ensures '0' <= c <= '9'
  {
    "0123456789"[d]
  }

  function DigitValue(c: char): (d: nat)
    requires '0' <= c <= '9'
    ensures d < 10 && Digit(d) == c
  {
    c as int - '0' as int
  }

  predicate AllDigits(s: string)
  {
    forall i :: 0 <= i < |s| ==> '0' <= s[i] <= '9'
  }

  /** `{n}`: the decimal digits of `n`, most significant first, without leading zeros. */
  function Decimal(n: nat): (s: string)
    ensures |s| >= 1 && AllDigits(s)
    ensures s[0] == '0' ==> n == 0 && s == "0"
  {
    if n < 10 then [Digit(n)] else Decimal(n / 10) + [Digit(n % 10)]
  }

  /** The number a string of digits denotes. */
  function DecimalValue(s: string): nat
    requires AllDigits(s)
  {
    if s == [] then 0 else 10 * DecimalValue(s[..|s| - 1]) + DigitValue(s[|s| - 1])
  }

  /** Reading the digits back gives the number. */
  lemma {:induction false} DecimalRoundTrip(n: nat)
    ensures DecimalValue(Decimal(n)) == n
  {
    if n >= 10 {
      DecimalRoundTrip(n / 10);
      var s := Decimal(n);
      assert s[..|s| - 1] == Decimal(n / 10);
    }
  }

  /** The progress text: done steps over all steps. */
  function ProgressText(now: nat, end: nat): string
  {
    Decimal(now) + "/" + Decimal(end)
  }

  /** The progress text reads back, at its one '/', as the two counts it was made of. */
  lemma ProgressTextReadsBack(now: nat, end: nat)
    ensures var parts := Split(ProgressText(now, end));
            && |parts| == 2 && AllDigits(parts[0]) && AllDigits(parts[1])
            && DecimalValue(parts[0]) == now && DecimalValue(parts[1]) == end
  {
    var segs := [Decimal(now), Decimal(end)];
    assert NoSlash(segs) by {
      forall i | 0 <= i < 2 ensures '/' !in segs[i] {
        if '/' in segs[i] {
          var j :| 0 <= j < |segs[i]| && segs[i][j] == '/';
        }
      }
    }
    assert Join(segs) == ProgressText(now, end) by {
      assert segs[1..] == [Decimal(end)];
    }
    SplitJoin(segs);
    DecimalRoundTrip(now);
    DecimalRoundTrip(end);
  }

  // ---------------------------------------------------------------------------
  // The per-frame check

  /** A subset as large as its superset is the superset. */
  lemma SubsetOfSameSize<T>(a: set<T>, b: set<T>)
    requires a <= b && |a| == |b|
    ensures a == b
  {
    assert a * b == a && a + b == b;
    assert |b - a| == 0;
  }

  lemma SubsetSize<T>(a: set<T>, b: set<T>)
    requires a <= b
    ensures |a| <= |b|
  {
    assert a * b == a && a + b == b;
    assert |b - a| + |a - b| + |a * b| == |a + b|;
  }

  /** Every step is done exactly when as many steps are done as there are steps. */
  lemma AllDoneIffCountsMeet(steps: map<string, bool>)
    ensures AllDone(steps) <==> |DoneSteps(steps)| == |steps|
  {
    if AllDone(steps) {
      assert DoneSteps(steps) == steps.Keys;
    }
    if |DoneSteps(steps)| == |steps| {
      assert |steps.Keys| == |steps|;
      SubsetOfSameSize(DoneSteps(steps), steps.Keys);
    }
  }

  /**
   * `check_load_process`: counts the steps that are done, formats the progress text,
   * and asks for the playing state when the count has reached the number of steps.
   * The progress text and the requested state are returned rather than written.
   */
  method CheckLoadProcess(process: LoadProcess) returns (now: nat, end: nat, text: string, next: Option<GameState>)
    ensures end == |process.steps| && now == |DoneSteps(process.steps)| && now <= end
    ensures text == ProgressText(now, end)
    ensures next.Some? <==> AllDone(process.steps)
    ensures next.Some? ==> next.value == Playing
  {
    end := |process.steps|;
    now := 0;
    var rest := process.steps.Keys;
    ghost var counted: set<string> := {};
    while rest != {}
      invariant rest <= process.steps.Keys
      invariant counted == set k | k in process.steps && k !in rest && process.steps[k]
      invariant now == |counted|
      decreases |rest|
    {
      var k :| k in rest;
      if process.steps[k] {
        now := now + 1;
        counted := counted + {k};
      }
      rest := rest - {k};
    }
    assert counted == DoneSteps(process.steps);
    assert |process.steps.Keys| == end;
    SubsetSize(counted, process.steps.Keys);
    text := ProgressText(now, end);
    AllDoneIffCountsMeet(process.steps);
    if now == end {
      next := Some(Playing);
    } else {
      next := None;
    }
  }

  /** `set_load_process`, on leaving the loading state: the steps are cleared. */
  method SetLoadProcess(process: LoadProcess)
    modifies process
    ensures process.steps == map[]
  {
    process.steps := map[];
  }

  /** Marking a pending step done counts one more step, and marking a done one changes nothing. */
  lemma SetCountsOnce(steps: map<string, bool>, step: string)
    requires step in steps
    ensures !steps[step] ==> |DoneSteps(steps[step := true])| == |DoneSteps(steps)| + 1
    ensures steps[step] ==> steps[step := true] == steps
  {
    if !steps[step] {
      assert DoneSteps(steps[step := true]) == DoneSteps(steps) + {step};
    }
  }

  /** Adding a step that was already done takes it back to pending: progress can go down. */
  lemma AddResetsStep(steps: map<string, bool>, step: string)
    requires step in steps && steps[step]
    ensures |DoneSteps(steps[step := false])| + 1 == |DoneSteps(steps)|
    ensures |steps[step := false]| == |steps|
  {
    assert DoneSteps(steps) == DoneSteps(steps[step := false]) + {step};
    assert steps[step := false].Keys == steps.Keys;
  }

  /** With no steps registered, the check finds every step done and asks for the playing state at once. */
  lemma NoStepsMeansDone()
    ensures AllDone(map[]) && ProgressText(0, 0) == "0/0"
  {
  }
}
