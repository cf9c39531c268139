/**
 * The private implementation record of the opaque-pointer actor (FImpl in
 * TPimplPtr_Example.cpp) as a value, with one function per operation giving
 * the record after it. The classes in module PimplActor update their fields
 * in place and are proved against these functions.
 *
 * AccumulatedTime and LastCalculationResult are 32-bit floats in the source;
 * here they are idealised as `real`. FMath::Sin is engine code and enters
 * as the parameter `sine`.
 */
module PimplState {

  /** The engine's int32. */
  newtype int32 = x: int | -0x8000_0000 <= x < 0x8000_0000

  const Int32Min: int32 := -0x8000_0000
  const Int32Max: int32 := 0x7fff_ffff

  /**
   * `Counter++` on a 32-bit counter. Signed overflow is undefined in C++;
   * the model takes the two's-complement wrap that the engine's compilers
   * produce, so the result is the successor modulo 2^32.
   */
  function WrappingIncrement(c: int32): (r: int32)
    ensures (r as int - c as int - 1) % 0x1_0000_0000 == 0
    ensures c != Int32Max ==> r > c
  {
    if c == Int32Max then Int32Min else c + 1
  }

  /** The fields of FImpl. */
  datatype ImplState = ImplState(
    displayName: string,
    counter: int32,
    accumulatedTime: real,
    lastCalculationResult: real,
    isInitialized: bool,
    stateHistory: seq<real>)

  /** The name the default constructor gives. */
  const DefaultDisplayName: string := "DefaultPimplActor"

  /** Holds of every reachable record: once initialized, the history is never empty. */
  predicate Inv(s: ImplState)
  {
    s.isInitialized ==> |s.stateHistory| > 0
  }

  /** The record built by FImpl(InName, InInitialCounter); the default constructor passes DefaultDisplayName and 0. */
  function Construct(name: string, initialCounter: int32): (s: ImplState)
    ensures Inv(s) && !s.isInitialized && s.stateHistory == []
    ensures s.displayName == name && s.counter == initialCounter
    ensures s.accumulatedTime == 0.0 && s.lastCalculationResult == 0.0
  {
    ImplState(name, initialCounter, 0.0, 0.0, false, [])
  }

  /**
   * Initialize: the first call raises the flag and records one 0.0 in the
   * history; once the flag is up the call changes nothing.
   */
  function Initialize(s: ImplState): (r: ImplState)
    ensures r.isInitialized && (Inv(s) ==> Inv(r))
    ensures s.isInitialized ==> r == s
    ensures !s.isInitialized ==> r.stateHistory == s.stateHistory + [0.0]
    ensures r.(isInitialized := s.isInitialized, stateHistory := s.stateHistory) == s
  {
    if s.isInitialized then s
    else s.(isInitialized := true, stateHistory := s.stateHistory + [0.0])
  }

  /**
   * Update(DeltaTime): accumulates the time and records the last calculation
   * result once per whole second, that is when the floor of the accumulated
   * time exceeds the number of recorded entries.
   */
  function Update(s: ImplState, deltaTime: real): (r: ImplState)
    ensures Inv(s) ==> Inv(r)
    ensures r.accumulatedTime == s.accumulatedTime + deltaTime
    ensures s.stateHistory <= r.stateHistory && |r.stateHistory| <= |s.stateHistory| + 1
    ensures |r.stateHistory| > |s.stateHistory| <==> r.accumulatedTime.Floor > |s.stateHistory|
    ensures |r.stateHistory| > |s.stateHistory| ==>
              r.stateHistory[|s.stateHistory|] == s.lastCalculationResult
              && |r.stateHistory| <= r.accumulatedTime.Floor
    ensures r.(accumulatedTime := s.accumulatedTime, stateHistory := s.stateHistory) == s
  {
    var time := s.accumulatedTime + deltaTime;
    if time.Floor > |s.stateHistory| then
      s.(accumulatedTime := time, stateHistory := s.stateHistory + [s.lastCalculationResult])
    else
      s.(accumulatedTime := time)
  }

  /** The value Calculate(Input) computes: Input * (Counter + 1) + Sin(AccumulatedTime). */
  function CalculationResult(s: ImplState, input: real, sine: real -> real): real
  {
    input * (s.counter as real + 1.0) + sine(s.accumulatedTime)
  }

  /** Calculate(Input): remembers its result as the last calculation result and touches nothing else. */
  function Calculate(s: ImplState, input: real, sine: real -> real): (r: ImplState)
    ensures Inv(s) ==> Inv(r)
    ensures r.lastCalculationResult == CalculationResult(s, input, sine)
    ensures r.(lastCalculationResult := s.lastCalculationResult) == s
  {
    s.(lastCalculationResult := CalculationResult(s, input, sine))
  }

  /**
   * Reset: counter, time and last result go back to zero and the history
   * holds exactly one 0.0; the name and the initialized flag are kept.
   */
  function Reset(s: ImplState): (r: ImplState)
    ensures Inv(r)
    ensures r.counter == 0 && r.accumulatedTime == 0.0 && r.lastCalculationResult == 0.0
    ensures r.stateHistory == [0.0]
    ensures r.displayName == s.displayName && r.isInitialized == s.isInitialized
  {
    ImplState(s.displayName, 0, 0.0, 0.0, s.isInitialized, [0.0])
  }

  /** The actor's `Impl->Counter++`: only the counter moves, to its 32-bit successor. */
  function Increment(s: ImplState): (r: ImplState)
    ensures Inv(s) ==> Inv(r)
    ensures (r.counter as int - s.counter as int - 1) % 0x1_0000_0000 == 0
    ensures s.counter < Int32Max ==> r.counter as int == s.counter as int + 1
    ensures r.(counter := s.counter) == s
  {
    s.(counter := WrappingIncrement(s.counter))
  }

  /** The actor's `Impl->DisplayName = NewName`: only the name changes. */
  function SetDisplayName(s: ImplState, name: string): (r: ImplState)
    ensures Inv(s) ==> Inv(r)
    ensures r.displayName == name
    ensures r.(displayName := s.displayName) == s
  {
    s.(displayName := name)
  }

  /** One state-changing call on the record. */
  datatype Op =
    | DoSetDisplayName(name: string)
    | DoInitialize
    | DoUpdate(deltaTime: real)
    | DoCalculate(input: real)
    | DoReset
    | DoIncrement

  function Apply(s: ImplState, op: Op, sine: real -> real): ImplState
  {
    match op
    case DoSetDisplayName(name) => SetDisplayName(s, name)
    case DoInitialize => Initialize(s)
    case DoUpdate(dt) => Update(s, dt)
    case DoCalculate(input) => Calculate(s, input, sine)
    case DoReset => Reset(s)
    case DoIncrement => Increment(s)
  }

  /** The record after the calls `ops`, in order. */
  function Run(s: ImplState, ops: seq<Op>, sine: real -> real): ImplState
    decreases |ops|
  {
    if ops == [] then s else Run(Apply(s, ops[0], sine), ops[1..], sine)
  }

  lemma ApplyKeepsInv(s: ImplState, op: Op, sine: real -> real)
    requires Inv(s)
    ensures Inv(Apply(s, op, sine))
  {
  }

  /** Every sequence of calls keeps the invariant: an initialized record always has a history entry. */
  lemma {:induction false} RunKeepsInv(s: ImplState, ops: seq<Op>, sine: real -> real)
    requires Inv(s)
    ensures Inv(Run(s, ops, sine))
    decreases |ops|
  {
    if ops != [] {
      ApplyKeepsInv(s, ops[0], sine);
      RunKeepsInv(Apply(s, ops[0], sine), ops[1..], sine);
    }
  }

  /** Initialize is idempotent. */
  lemma InitializeIdempotent(s: ImplState)
    ensures Initialize(Initialize(s)) == Initialize(s)
  {
  }

  /** Reset is idempotent. */
  lemma ResetIdempotent(s: ImplState)
    ensures Reset(Reset(s)) == Reset(s)
  {
  }

  /**
   * Initialize-once: any non-empty run of Initialize calls has the effect of
   * the first one alone, so the history gains at most one 0.0 from them.
   */
  lemma {:induction false} RepeatedInitializeIsInitialize(s: ImplState, ops: seq<Op>, sine: real -> real)
    requires |ops| > 0 && forall i :: 0 <= i < |ops| ==> ops[i] == DoInitialize
    ensures Run(s, ops, sine) == Initialize(s)
    decreases |ops|
  {
    if |ops| > 1 {
      RepeatedInitializeIsInitialize(Initialize(s), ops[1..], sine);
    }
  }

  /** No call lowers the initialized flag. */
  lemma {:induction false} InitializedStaysInitialized(s: ImplState, ops: seq<Op>, sine: real -> real)
    requires s.isInitialized
    ensures Run(s, ops, sine).isInitialized
    decreases |ops|
  {
    if ops != [] {
      InitializedStaysInitialized(Apply(s, ops[0], sine), ops[1..], sine);
    }
  }

  /**
   * Without Reset the history only grows at its end, and by at most one
   * entry per call.
   */
  lemma {:induction false} HistoryGrowsWithoutReset(s: ImplState, ops: seq<Op>, sine: real -> real)
    requires forall i :: 0 <= i < |ops| ==> ops[i] != DoReset
    ensures s.stateHistory <= Run(s, ops, sine).stateHistory
    ensures |Run(s, ops, sine).stateHistory| <= |s.stateHistory| + |ops|
    decreases |ops|
  {
    if ops != [] {
      var t := Apply(s, ops[0], sine);
      HistoryGrowsWithoutReset(t, ops[1..], sine);
    }
  }
}
