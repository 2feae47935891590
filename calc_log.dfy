/** The calculator's session log: an ordered list of 4-tuples
    (kind, error value, CV, core value), one per successful calculation,
    kept in the session state across reruns of the script and emptied by
    "Clear Data".

    Each user interaction reruns the whole script once. `Event` is what that
    rerun does (at most one button fires per rerun), `Step` is its effect on
    the log, and `Session` is the session state itself, whose methods are
    proved against `Step`. */
module CalcLog {
  import opened SamplingModel

  datatype Option<T> = None | Some(value: T)

  /** The first slot of a log tuple. */
  datatype Kind = SoilCoresKind | ErrorKind {
    /** The string the script stores in that slot. */
    function Label(): string {
      match this
      case SoilCoresKind => "Soil Cores"
      case ErrorKind => "Error"
    }
  }

  /** One log tuple. In both kinds the error (%) is the second slot and the
      core count the fourth: in a cores calculation the error is the input
      and the cores are computed, in an error calculation the other way
      round. */
  datatype CalcRecord = CalcRecord(kind: Kind, errorValue: real, cv: real, coreValue: real)

  /** The two positions of the mode selector. */
  datatype Mode = CalculateCores | CalculateError

  /** What one rerun of the script does besides reading the widgets. */
  datatype Event =
    | Idle                                          // a widget changed, no button pressed
    | Calculate(mode: Mode, cv: real, input: real)  // "Calculate"; input is the error or the cores slider
    | ClearData                                     // "Clear Data"

  /** The record the model gives for the two slots a record holds. */
  ghost predicate Consistent(pow: Power, rec: CalcRecord) {
    match rec.kind
    case SoilCoresKind => CoresFromError(pow, rec.errorValue, rec.cv) == Ok(rec.coreValue)
    case ErrorKind => ErrorFromCores(pow, rec.coreValue, rec.cv) == Ok(rec.errorValue)
  }

  /** Both numeric slots are positive. */
  predicate Positive(rec: CalcRecord) {
    rec.errorValue > 0.0 && rec.coreValue > 0.0
  }

  /** The record lies on the calibration curve cores = a(cv) * error ^ B. */
  ghost predicate OnCurve(pow: Power, rec: CalcRecord) {
    rec.coreValue == ScaleFactor(rec.cv) * pow(rec.errorValue, B)
  }

  /** A press of "Calculate": the record to append, or the error that stops
      the rerun before anything is appended. */
  function Submit(pow: Power, mode: Mode, cv: real, input: real): (r: Result<CalcRecord>)
    ensures r.Ok? <==> input > 0.0
    ensures r.Err? && input == 0.0 ==> r.error == ZeroToNegativePower
    ensures r.Ok? ==> r.value.cv == cv && Consistent(pow, r.value)
    ensures r.Ok? && mode == CalculateCores ==>
              r.value.kind == SoilCoresKind && r.value.kind.Label() == "Soil Cores" &&
              r.value.errorValue == input
    ensures r.Ok? && mode == CalculateError ==>
              r.value.kind == ErrorKind && r.value.kind.Label() == "Error" &&
              r.value.coreValue == input
  {
    match mode
    case CalculateCores =>
      (match CoresFromError(pow, input, cv)
       case Ok(n) => Ok(CalcRecord(SoilCoresKind, input, cv, n))
       case Err(e) => Err(e))
    case CalculateError =>
      match ErrorFromCores(pow, input, cv)
      case Ok(err) => Ok(CalcRecord(ErrorKind, err, cv, input))
      case Err(e) => Err(e)
  }

  /** With a positive power, every record a calculation produces has a
      positive error and a positive core count. */
  lemma SubmittedPositive(pow: Power, mode: Mode, cv: real, input: real)
    requires PositiveOnPositive(pow)
    requires input > 0.0
    ensures Positive(Submit(pow, mode, cv, input).value)
  {
  }

  /** With exact exponentiation, records of both kinds lie on the curve: the
      inverse record's error reproduces its core count. */
  lemma SubmittedOnCurve(pow: Power, mode: Mode, cv: real, input: real)
    requires PositiveOnPositive(pow) && InverseLaw(pow)
    requires input > 0.0
    ensures OnCurve(pow, Submit(pow, mode, cv, input).value)
  {
  }

  /** The log after one rerun. A failed calculation raises before the append,
      so it leaves the log as it was. */
  function Step(pow: Power, log: seq<CalcRecord>, ev: Event): (r: seq<CalcRecord>)
    ensures ev.ClearData? ==> r == []
    ensures !ev.ClearData? ==> log <= r && |r| <= |log| + 1
    ensures |r| == |log| + 1 <==> ev.Calculate? && Submit(pow, ev.mode, ev.cv, ev.input).Ok?
    ensures |r| == |log| + 1 ==> r[|log|] == Submit(pow, ev.mode, ev.cv, ev.input).value
  {
    match ev
    case Idle => log
    case Calculate(mode, cv, input) =>
      (match Submit(pow, mode, cv, input)
       case Ok(rec) => log + [rec]
       case Err(_) => log)
    case ClearData => []
  }

  /** The log after a series of reruns, oldest first. */
  function Replay(pow: Power, log: seq<CalcRecord>, evs: seq<Event>): (r: seq<CalcRecord>)
    ensures |r| <= |log| + |evs|
    ensures NoClear(evs) ==> log <= r
    decreases |evs|
  {
    if evs == [] then log else Replay(pow, Step(pow, log, evs[0]), evs[1..])
  }

  /** What one rerun appends: the new record of an accepted calculation, or
      nothing. */
  function Appended(pow: Power, ev: Event): seq<CalcRecord> {
    match ev
    case Calculate(mode, cv, input) =>
      (match Submit(pow, mode, cv, input)
       case Ok(rec) => [rec]
       case Err(_) => [])
    case _ => []
  }

  /** The records the successful calculations among `evs` produce, in order. */
  function Produced(pow: Power, evs: seq<Event>): seq<CalcRecord>
    decreases |evs|
  {
    if evs == [] then [] else Appended(pow, evs[0]) + Produced(pow, evs[1..])
  }

  /** A rerun without "Clear Data" appends what it produces. */
  lemma StepAppends(pow: Power, log: seq<CalcRecord>, ev: Event)
    requires !ev.ClearData?
    ensures Step(pow, log, ev) == log + Appended(pow, ev)
  {
  }

  predicate NoClear(evs: seq<Event>) {
    forall i :: 0 <= i < |evs| ==> !evs[i].ClearData?
  }

  /** Every calculation among `evs` is one the model accepts. */
  predicate AllSucceed(pow: Power, evs: seq<Event>) {
    forall i :: 0 <= i < |evs| ==>
      evs[i].Calculate? && Submit(pow, evs[i].mode, evs[i].cv, evs[i].input).Ok?
  }

  /** Without "Clear Data", the log only grows at its end: the records of the
      successful calculations follow the old entries, in the order performed. */
  lemma {:induction false} ReplayWithoutClear(pow: Power, log: seq<CalcRecord>, evs: seq<Event>)
    requires NoClear(evs)
    ensures Replay(pow, log, evs) == log + Produced(pow, evs)
    decreases |evs|
  {
    if evs != [] {
      var next, here, rest := Step(pow, log, evs[0]), Appended(pow, evs[0]), evs[1..];
      assert NoClear(rest) by {
        forall i | 0 <= i < |rest| ensures !rest[i].ClearData? {
          assert rest[i] == evs[i + 1];
        }
      }
      ReplayWithoutClear(pow, next, rest);
      StepAppends(pow, log, evs[0]);
      assert Replay(pow, log, evs) == Replay(pow, next, rest);
      assert Produced(pow, evs) == here + Produced(pow, rest);
      assert (log + here) + Produced(pow, rest) == log + (here + Produced(pow, rest));
    }
  }

  /** N accepted calculations without a clear produce exactly N records, the
      i-th one from the i-th calculation. */
  lemma {:induction false} ProducedByAccepted(pow: Power, evs: seq<Event>)
    requires AllSucceed(pow, evs)
    ensures |Produced(pow, evs)| == |evs|
    ensures forall i :: 0 <= i < |evs| ==>
              Produced(pow, evs)[i] == Submit(pow, evs[i].mode, evs[i].cv, evs[i].input).value
    decreases |evs|
  {
    if evs != [] {
      assert AllSucceed(pow, evs[1..]) by {
        forall i | 0 <= i < |evs[1..]|
          ensures evs[1..][i].Calculate? && Submit(pow, evs[1..][i].mode, evs[1..][i].cv, evs[1..][i].input).Ok?
        {
          assert evs[1..][i] == evs[i + 1];
        }
      }
      ProducedByAccepted(pow, evs[1..]);
      assert evs[0].Calculate?;
    }
  }

  /** Starting from the empty log, N accepted calculations give a log of
      length N in the order performed. */
  lemma NCalculations(pow: Power, evs: seq<Event>)
    requires AllSucceed(pow, evs)
    ensures |Replay(pow, [], evs)| == |evs|
    ensures forall i :: 0 <= i < |evs| ==>
              Replay(pow, [], evs)[i] == Submit(pow, evs[i].mode, evs[i].cv, evs[i].input).value
  {
    assert NoClear(evs) by {
      forall i | 0 <= i < |evs| ensures !evs[i].ClearData? {
        assert evs[i].Calculate?;
      }
    }
    ReplayWithoutClear(pow, [], evs);
    ProducedByAccepted(pow, evs);
    assert [] + Produced(pow, evs) == Produced(pow, evs);
  }

  /** The default inputs in both modes, and a press with zero cores between
      them that raises and leaves the log alone. */
  lemma DefaultScenario(pow: Power)
    requires PositiveOnPositive(pow)
    ensures Replay(pow, [], [Calculate(CalculateCores, 30.0, 10.0),
                             Calculate(CalculateError, 30.0, 0.0),
                             Calculate(CalculateError, 30.0, 20.0)])
         == [CalcRecord(SoilCoresKind, 10.0, 30.0, 3493.61 * pow(10.0, B)),
             CalcRecord(ErrorKind, pow(20.0 / 3493.61, InverseExponent), 30.0, 20.0)]
  {
  }

  /** Reruns compose: replaying `a + b` is replaying `a`, then `b`. */
  lemma {:induction false} ReplayConcat(pow: Power, log: seq<CalcRecord>, a: seq<Event>, b: seq<Event>)
    ensures Replay(pow, log, a + b) == Replay(pow, Replay(pow, log, a), b)
    decreases |a|
  {
    if a != [] {
      assert (a + b)[0] == a[0];
      assert (a + b)[1..] == a[1..] + b;
      ReplayConcat(pow, Step(pow, log, a[0]), a[1..], b);
    } else {
      assert a + b == b;
    }
  }

  /** "Clear Data" forgets everything before it, whatever the log held. */
  lemma ClearForgetsHistory(pow: Power, log: seq<CalcRecord>, before: seq<Event>, after: seq<Event>)
    ensures Replay(pow, log, before + [ClearData] + after) == Replay(pow, [], after)
  {
    ReplayConcat(pow, log, before + [ClearData], after);
    ReplayConcat(pow, log, before, [ClearData]);
  }

  /** Every record in the log is positive, once the power is: calculations
      only append positive records and a clear leaves nothing. */
  lemma {:induction false} ReplayKeepsPositive(pow: Power, log: seq<CalcRecord>, evs: seq<Event>)
    requires PositiveOnPositive(pow)
    requires forall k :: 0 <= k < |log| ==> Positive(log[k])
    ensures forall k :: 0 <= k < |Replay(pow, log, evs)| ==> Positive(Replay(pow, log, evs)[k])
    decreases |evs|
  {
    if evs != [] {
      var next := Step(pow, log, evs[0]);
      if evs[0].Calculate? {
        var ev := evs[0];
        if Submit(pow, ev.mode, ev.cv, ev.input).Ok? {
          SubmittedPositive(pow, ev.mode, ev.cv, ev.input);
        }
      }
      assert forall k :: 0 <= k < |next| ==> Positive(next[k]);
      ReplayKeepsPositive(pow, next, evs[1..]);
    }
  }

  /** With exact exponentiation every logged record lies on the calibration
      curve, whichever direction produced it. */
  lemma {:induction false} ReplayKeepsOnCurve(pow: Power, log: seq<CalcRecord>, evs: seq<Event>)
    requires PositiveOnPositive(pow) && InverseLaw(pow)
    requires forall k :: 0 <= k < |log| ==> OnCurve(pow, log[k])
    ensures forall k :: 0 <= k < |Replay(pow, log, evs)| ==> OnCurve(pow, Replay(pow, log, evs)[k])
    decreases |evs|
  {
    if evs != [] {
      var next := Step(pow, log, evs[0]);
      if evs[0].Calculate? {
        var ev := evs[0];
        if Submit(pow, ev.mode, ev.cv, ev.input).Ok? {
          SubmittedOnCurve(pow, ev.mode, ev.cv, ev.input);
        }
      }
      assert forall k :: 0 <= k < |next| ==> OnCurve(pow, next[k]);
      ReplayKeepsOnCurve(pow, next, evs[1..]);
    }
  }

  /** The session state of one user. `calcData` is None while the session
      holds no log yet. */
  class Session {
    var calcData: Option<seq<CalcRecord>>

    /** A new session holds no log. */
    constructor ()
      ensures calcData == None
    {
      calcData := None;
    }

    /** The log as displayed: empty while there is none. */
    function Log(): seq<CalcRecord>
      reads this
    {
      match calcData
      case Some(log) => log
      case None => []
    }

    /** Start of every rerun: create the empty log only if none exists. */
    method InitLog()
      modifies this
      ensures old(calcData).None? ==> calcData == Some([])
      ensures old(calcData).Some? ==> calcData == old(calcData)
      ensures calcData.Some? && Log() == old(Log())
    {
      if calcData.None? {
        calcData := Some([]);
      }
    }

    /** "Calculate": compute the record and append it at the end; on a
        domain error nothing is appended. */
    method Calculate(pow: Power, mode: Mode, cv: real, input: real) returns (r: Result<CalcRecord>)
      requires calcData.Some?
      modifies this
      ensures r == Submit(pow, mode, cv, input)
      ensures r.Ok? ==> calcData == Some(old(Log()) + [r.value])
      ensures r.Err? ==> calcData == old(calcData)
      ensures Log() == Step(pow, old(Log()), Event.Calculate(mode, cv, input))
    {
      r := Submit(pow, mode, cv, input);
      if r.Ok? {
        calcData := Some(calcData.value + [r.value]);
      }
    }

    /** "Clear Data": the log becomes empty whatever it held. */
    method Clear()
      modifies this
      ensures calcData == Some([])
    {
      calcData := Some([]);
    }

    /** One rerun of the script: create the log if absent, then handle the
        button that was pressed, if any. */
    method Rerun(pow: Power, ev: Event)
      modifies this
      ensures calcData == Some(Step(pow, old(Log()), ev))
    {
      InitLog();
      match ev
      case Idle =>
      case Calculate(mode, cv, input) =>
        var _ := Calculate(pow, mode, cv, input);
      case ClearData =>
        Clear();
    }
  }

  /** A series of reruns on one session, oldest first: the session's log
      afterwards is the `Replay` of the log it had. */
  method Reruns(pow: Power, s: Session, evs: seq<Event>)
    modifies s
    ensures s.calcData.Some? || (evs == [] && s.calcData == old(s.calcData))
    ensures s.Log() == Replay(pow, old(s.Log()), evs)
  {
    ghost var start := s.Log();
    var i := 0;
    while i < |evs|
      invariant 0 <= i <= |evs|
      invariant i > 0 ==> s.calcData.Some?
      invariant i == 0 ==> s.calcData == old(s.calcData)
      invariant s.Log() == Replay(pow, start, evs[..i])
    {
      ghost var before := s.Log();
      s.Rerun(pow, evs[i]);
      ReplayConcat(pow, start, evs[..i], [evs[i]]);
      assert evs[..i + 1] == evs[..i] + [evs[i]];
      assert Replay(pow, before, [evs[i]]) == Step(pow, before, evs[i]);
      i := i + 1;
    }
    assert evs[..i] == evs;
  }
}
