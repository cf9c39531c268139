/**
 * The opaque-pointer example as objects: `Impl` holds FImpl's fields and
 * updates them in place; `Actor` owns a possibly-null `impl` (the
 * TPimplPtr<FImpl>) and guards every delegated call with a validity check,
 * answering with a sentinel when the pointer is null.
 *
 * Each method is proved against the PimplState function for its operation,
 * so every property proved there holds of the objects too.
 */
module PimplActor {
  import S = PimplState

  class Impl {
    var displayName: string
    var counter: S.int32
    var accumulatedTime: real
    var lastCalculationResult: real
    var isInitialized: bool
    var stateHistory: seq<real>

    /** The fields as one value. */
    function State(): S.ImplState
      reads this
    {
      S.ImplState(displayName, counter, accumulatedTime, lastCalculationResult, isInitialized, stateHistory)
    }

    ghost predicate Valid()
      reads this
    {
      S.Inv(State())
    }

    /** FImpl(): the default name, counter 0, not initialized, empty history. */
    constructor Default()
      ensures Valid() && State() == S.Construct(S.DefaultDisplayName, 0)
    {
      displayName := S.DefaultDisplayName;
      counter := 0;
      accumulatedTime := 0.0;
      lastCalculationResult := 0.0;
      isInitialized := false;
      stateHistory := [];
    }

    /** FImpl(InName, InInitialCounter). */
    constructor (name: string, initialCounter: S.int32)
      ensures Valid() && State() == S.Construct(name, initialCounter)
    {
      displayName := name;
      counter := initialCounter;
      accumulatedTime := 0.0;
      lastCalculationResult := 0.0;
      isInitialized := false;
      stateHistory := [];
    }

    method Initialize()
      requires Valid()
      modifies this
      ensures Valid() && State() == S.Initialize(old(State()))
    {
      if !isInitialized {
        isInitialized := true;
        stateHistory := stateHistory + [0.0];
      }
    }

    method Update(deltaTime: real)
      requires Valid()
      modifies this
      ensures Valid() && State() == S.Update(old(State()), deltaTime)
    {
      accumulatedTime := accumulatedTime + deltaTime;
      if accumulatedTime.Floor > |stateHistory| {
        stateHistory := stateHistory + [lastCalculationResult];
      }
    }

    method Calculate(input: real, sine: real -> real) returns (result: real)
      requires Valid()
      modifies this
      ensures result == S.CalculationResult(old(State()), input, sine)
      ensures Valid() && State() == S.Calculate(old(State()), input, sine)
    {
      lastCalculationResult := input * (counter as real + 1.0) + sine(accumulatedTime);
      result := lastCalculationResult;
    }

    method Reset()
      requires Valid()
      modifies this
      ensures Valid() && State() == S.Reset(old(State()))
    {
      counter := 0;
      accumulatedTime := 0.0;
      lastCalculationResult := 0.0;
      stateHistory := [];
      stateHistory := stateHistory + [0.0];
    }
  }

  class Actor {
    /** The implementation pointer; null models an invalid TPimplPtr. */
    var impl: Impl?

    ghost predicate Valid()
      reads this, impl
    {
      impl != null ==> impl.Valid()
    }

    /** The actor's constructor: MakePimpl(TEXT("PimplExampleActor"), 0). */
    constructor ()
      ensures Valid() && impl != null && fresh(impl)
      ensures impl.State() == S.Construct("PimplExampleActor", 0)
    {
      impl := new Impl("PimplExampleActor", 0);
    }

    /** BeginPlay's delegation: Initialize when the pointer is valid. */
    method BeginPlay()
      requires Valid()
      modifies impl
      ensures Valid()
      ensures impl != null ==> impl.State() == S.Initialize(old(impl.State()))
    {
      if impl != null {
        impl.Initialize();
      }
    }

    /** Tick's delegation: Update when the pointer is valid. */
    method Tick(deltaTime: real)
      requires Valid()
      modifies impl
      ensures Valid()
      ensures impl != null ==> impl.State() == S.Update(old(impl.State()), deltaTime)
    {
      if impl != null {
        impl.Update(deltaTime);
      }
    }

    method SetActorDisplayName(name: string)
      requires Valid()
      modifies impl
      ensures Valid()
      ensures impl != null ==> impl.State() == S.SetDisplayName(old(impl.State()), name)
      ensures GetActorDisplayName() == if impl != null then name else "Invalid"
    {
      if impl != null {
        impl.displayName := name;
      }
    }

    /** The name, or "Invalid" without an implementation. */
    function GetActorDisplayName(): (r: string)
      reads this, impl
      ensures impl == null ==> r == "Invalid"
      ensures impl != null ==> r == impl.State().displayName
    {
      if impl != null then impl.displayName else "Invalid"
    }

    method IncrementCounter()
      requires Valid()
      modifies impl
      ensures Valid()
      ensures impl != null ==> impl.State() == S.Increment(old(impl.State()))
      ensures impl != null && old(GetCounter()) < S.Int32Max ==> GetCounter() == old(GetCounter()) + 1
    {
      if impl != null {
        impl.counter := S.WrappingIncrement(impl.counter);
      }
    }

    /** The counter, or -1 without an implementation. */
    function GetCounter(): (r: S.int32)
      reads this, impl
      ensures impl == null ==> r == -1
      ensures impl != null ==> r == impl.State().counter
    {
      if impl != null then impl.counter else -1
    }

    method ResetState()
      requires Valid()
      modifies impl
      ensures Valid()
      ensures impl != null ==> impl.State() == S.Reset(old(impl.State()))
    {
      if impl != null {
        impl.Reset();
      }
    }

    /** The calculation through the implementation, or 0 without one (and then nothing changes). */
    method PerformCalculation(input: real, sine: real -> real) returns (result: real)
      requires Valid()
      modifies impl
      ensures Valid()
      ensures impl == null ==> result == 0.0
      ensures impl != null ==> result == S.CalculationResult(old(impl.State()), input, sine)
                               && impl.State() == S.Calculate(old(impl.State()), input, sine)
    {
      if impl != null {
        result := impl.Calculate(input, sine);
      } else {
        result := 0.0;
      }
    }

    /** Whether the implementation pointer is valid. */
    function IsImplValid(): (r: bool)
      reads this
      ensures r <==> impl != null
    {
      impl != null
    }
  }

  /** The constructed actor answers its getters from the values MakePimpl passed. */
  method ConstructedActorReads()
  {
    var a := new Actor();
    assert a.IsImplValid();
    assert a.GetActorDisplayName() == "PimplExampleActor";
    assert a.GetCounter() == 0;
    a.IncrementCounter();
    assert a.GetCounter() == 1;
    a.SetActorDisplayName("Renamed");
    assert a.GetActorDisplayName() == "Renamed" && a.GetCounter() == 1;
    a.BeginPlay();
    assert a.impl.stateHistory == [0.0];
    a.BeginPlay();
    assert a.impl.stateHistory == [0.0];
    a.ResetState();
    assert a.GetCounter() == 0 && a.impl.isInitialized && a.impl.stateHistory == [0.0];
  }
}
