# UnrealTemplatesGuide core, modelled in Dafny

This project models two of the guide's example actors.

**The opaque-pointer actor, `ATPimplPtr_Example`.** Its private record, `FImpl`, holds six fields: a display name, an `int32` counter, the accumulated time, the last calculation result, an "initialized" flag and a history list. The actor holds the record through a `TPimplPtr`. Each public method checks that this pointer is valid before it delegates. With an invalid pointer, the methods return the sentinels `-1`, `"Invalid"` and `0`.

- Module `PimplState` (`pimpl_state.dfy`) gives the record as a value, `ImplState`. It has one function per operation, each giving the record after that operation. Lemmas cover whole sequences of operations: the invariant that an initialized record has history, initialize-once, a flag that never drops, and history that only grows without `Reset`.
- Module `PimplActor` (`pimpl_actor.dfy`) holds the classes. Class `Impl` has `FImpl`'s fields and updates them in place. Class `Actor` has a nullable `impl: Impl?` and the guarded public methods. Each method's postcondition sets the new `State()` equal to the `PimplState` function applied to the old state, so every lemma in `PimplState` applies to the objects too.

**The array-count example, `AUE_ARRAY_COUNT_Example`.** Module `StaticArrays` (`static_arrays.dfy`) covers:

- the three static tables;
- `UE_ARRAY_COUNT` in both of its forms:
  - the helper's `char[N + 1]` result size minus one;
  - the Clang form, total size ÷ element size;
- the traversal loop that the count bounds;
- the lookup in `WeaponTypeNames`, guarded by a range check.

## Model

| member | source | states |
|---|---|---|
| `PimplState.WrappingIncrement` | Source/UnrealTemplatesGuide/TPimplPtr/TPimplPtr_Example.cpp:214 | `Counter++` on an int32 gives the successor modulo 2^32; below the maximum it is strictly larger |
| `PimplState.Construct` | Source/UnrealTemplatesGuide/TPimplPtr/TPimplPtr_Example.cpp:61-70 | the constructed record has the given name and counter, zero time and result, is not initialized, has an empty history and satisfies the invariant |
| `PimplState.Initialize` | Source/UnrealTemplatesGuide/TPimplPtr/TPimplPtr_Example.cpp:83-91 | afterwards the record is initialized; if it already was, nothing changed; otherwise exactly one 0.0 was appended to the history; no other field changes |
| `PimplState.Update` | Source/UnrealTemplatesGuide/TPimplPtr/TPimplPtr_Example.cpp:94-103 | time grows by DeltaTime; the old history is a prefix of the new one, which has at most one more entry; an entry is added exactly when floor(time) exceeds the old history length; the entry added is the last calculation result, and when an entry is added the new length is at most floor(time); no other field changes |
| `PimplState.Calculate` | Source/UnrealTemplatesGuide/TPimplPtr/TPimplPtr_Example.cpp:106-111 | the last calculation result becomes Input * (Counter + 1) + Sin(time); no other field changes |
| `PimplState.Reset` | Source/UnrealTemplatesGuide/TPimplPtr/TPimplPtr_Example.cpp:114-122 | counter, time and last result become 0 and the history is exactly [0.0]; the name and the initialized flag are kept |
| `PimplState.Increment` | Source/UnrealTemplatesGuide/TPimplPtr/TPimplPtr_Example.cpp:210-217 | the counter moves to its 32-bit successor, exactly +1 below the maximum; no other field changes |
| `PimplState.SetDisplayName` | Source/UnrealTemplatesGuide/TPimplPtr/TPimplPtr_Example.cpp:191-198 | the name becomes the new name; no other field changes |
| `PimplState.ApplyKeepsInv` | Source/UnrealTemplatesGuide/TPimplPtr/TPimplPtr_Example.cpp:83-122 | every single operation keeps the invariant that an initialized record has a history entry |
| `PimplState.RunKeepsInv` | Source/UnrealTemplatesGuide/TPimplPtr/TPimplPtr_Example.cpp:83-122 | every sequence of operations keeps that invariant |
| `PimplState.InitializeIdempotent` | Source/UnrealTemplatesGuide/TPimplPtr/TPimplPtr_Example.cpp:83-91 | Initialize twice is Initialize once |
| `PimplState.ResetIdempotent` | Source/UnrealTemplatesGuide/TPimplPtr/TPimplPtr_Example.cpp:114-122 | Reset twice is Reset once |
| `PimplState.RepeatedInitializeIsInitialize` | Source/UnrealTemplatesGuide/TPimplPtr/TPimplPtr_Example.cpp:83-91 | any non-empty run of Initialize calls has the effect of the first call alone, so the history gains at most one 0.0 |
| `PimplState.InitializedStaysInitialized` | Source/UnrealTemplatesGuide/TPimplPtr/TPimplPtr_Example.cpp:114-122 | no sequence of operations clears the initialized flag (Reset keeps it) |
| `PimplState.HistoryGrowsWithoutReset` | Source/UnrealTemplatesGuide/TPimplPtr/TPimplPtr_Example.cpp:94-103 | in a sequence of operations without Reset, the old history stays a prefix and grows by at most one entry per operation |
| `PimplActor.Impl.Default` | Source/UnrealTemplatesGuide/TPimplPtr/TPimplPtr_Example.cpp:49-58 | the default-constructed record is named "DefaultPimplActor", has counter 0, is not initialized and has an empty history |
| `PimplActor.Impl.constructor` | Source/UnrealTemplatesGuide/TPimplPtr/TPimplPtr_Example.cpp:61-70 | the fields equal `Construct(InName, InInitialCounter)` |
| `PimplActor.Impl.Initialize` | Source/UnrealTemplatesGuide/TPimplPtr/TPimplPtr_Example.cpp:83-91 | the new fields are `Initialize` of the old; the invariant is kept |
| `PimplActor.Impl.Update` | Source/UnrealTemplatesGuide/TPimplPtr/TPimplPtr_Example.cpp:94-103 | the new fields are `Update` of the old; the invariant is kept |
| `PimplActor.Impl.Calculate` | Source/UnrealTemplatesGuide/TPimplPtr/TPimplPtr_Example.cpp:106-111 | returns the calculation result; the new fields are `Calculate` of the old |
| `PimplActor.Impl.Reset` | Source/UnrealTemplatesGuide/TPimplPtr/TPimplPtr_Example.cpp:114-122 | the new fields are `Reset` of the old; the invariant is kept |
| `PimplActor.Actor.constructor` | Source/UnrealTemplatesGuide/TPimplPtr/TPimplPtr_Example.cpp:142-151 | the actor owns a fresh, valid record named "PimplExampleActor" with counter 0, not initialized and with an empty history |
| `PimplActor.Actor.BeginPlay` | Source/UnrealTemplatesGuide/TPimplPtr/TPimplPtr_Example.cpp:161-174 | with a valid pointer the record is initialized as `Initialize` says; with none nothing changes |
| `PimplActor.Actor.Tick` | Source/UnrealTemplatesGuide/TPimplPtr/TPimplPtr_Example.cpp:176-185 | with a valid pointer the record is updated as `Update` says; with none nothing changes |
| `PimplActor.Actor.SetActorDisplayName` | Source/UnrealTemplatesGuide/TPimplPtr/TPimplPtr_Example.cpp:191-198 | with a valid pointer only the name changes; afterwards GetActorDisplayName returns the new name, or "Invalid" with no pointer |
| `PimplActor.Actor.GetActorDisplayName` | Source/UnrealTemplatesGuide/TPimplPtr/TPimplPtr_Example.cpp:200-208 | the record's name with a valid pointer, "Invalid" without one |
| `PimplActor.Actor.IncrementCounter` | Source/UnrealTemplatesGuide/TPimplPtr/TPimplPtr_Example.cpp:210-217 | with a valid pointer only the counter changes, by +1 below the int32 maximum (GetCounter rises by one); with none nothing changes |
| `PimplActor.Actor.GetCounter` | Source/UnrealTemplatesGuide/TPimplPtr/TPimplPtr_Example.cpp:219-222 | the record's counter with a valid pointer, -1 without one |
| `PimplActor.Actor.ResetState` | Source/UnrealTemplatesGuide/TPimplPtr/TPimplPtr_Example.cpp:224-230 | with a valid pointer the record is reset as `Reset` says; with none nothing changes |
| `PimplActor.Actor.PerformCalculation` | Source/UnrealTemplatesGuide/TPimplPtr/TPimplPtr_Example.cpp:232-241 | with a valid pointer it returns the calculation result and only the last result changes; with none it returns 0 and changes nothing |
| `PimplActor.Actor.IsImplValid` | Source/UnrealTemplatesGuide/TPimplPtr/TPimplPtr_Example.cpp:243-248 | true exactly when the implementation pointer is non-null |
| `StaticArrays.HelperResultSize` | Source/UnrealTemplatesGuide/UE_ARRAY_COUNT/UE_ARRAY_COUNT_Example.h:20-21 | the helper's result type, char[N + 1], has size N + 1 |
| `StaticArrays.ArrayCount` | Source/UnrealTemplatesGuide/UE_ARRAY_COUNT/UE_ARRAY_COUNT_Example.h:24 | the helper's result size minus one is exactly the element count |
| `StaticArrays.TotalSizeOfUniform` | Source/UnrealTemplatesGuide/UE_ARRAY_COUNT/UE_ARRAY_COUNT_Example.h:110 | an array of N elements of size k has total size N * k |
| `StaticArrays.MulDivCancel` | Source/UnrealTemplatesGuide/UE_ARRAY_COUNT/UE_ARRAY_COUNT_Example.h:112 | (N * k) / k = N for every k > 0 |
| `StaticArrays.ClangArrayCountIsLength` | Source/UnrealTemplatesGuide/UE_ARRAY_COUNT/UE_ARRAY_COUNT_Example.h:107-113 | when all elements share one positive size, sizeof(t) / sizeof(t[0]) + 1 - 1 is the element count |
| `StaticArrays.CountFormsAgree` | Source/UnrealTemplatesGuide/UE_ARRAY_COUNT/UE_ARRAY_COUNT_Example.h:169-177 | the MSVC and Clang forms of the count agree on every non-empty array of one element size |
| `StaticArrays.StaticAssertionsHold` | Source/UnrealTemplatesGuide/UE_ARRAY_COUNT/UE_ARRAY_COUNT_Example.cpp:82-84 | TestStruct and WeaponTypeNames both count 4, the expected count; DamageMultipliers counts 5 |
| `StaticArrays.Traverse` | Source/UnrealTemplatesGuide/UE_ARRAY_COUNT/UE_ARRAY_COUNT_Example.cpp:64-67 | the loop visits indices 0 to count - 1 in increasing order, each once, and reads each entry's name suffix in bounds |
| `StaticArrays.LookupWeaponName` | Source/UnrealTemplatesGuide/UE_ARRAY_COUNT/UE_ARRAY_COUNT_Example.cpp:73-77 | a name is read exactly when 0 <= index < count, and it is the table's entry at that index |
| `StaticArrays.WeaponIndexTwoIsStaff` | Source/UnrealTemplatesGuide/UE_ARRAY_COUNT/UE_ARRAY_COUNT_Example.cpp:73-76 | the example's index 2 passes the check and yields "Staff" |

## Left out

- The promise/future example (`TFuture_TPromise_Example.cpp/.h`): it runs work on other threads and hands results back to the game thread through the engine's `TPromise`, `TFuture`, `Async` and `AsyncTask`. That is concurrency over engine code, and none of it is modelled.
- Floating point. `AccumulatedTime`, `LastCalculationResult`, `DeltaTime` and the calculation are idealised as `real`. 32-bit float rounding is not modelled.
- `FMath::Sin` is engine code. It enters `Calculate` and `PerformCalculation` as the parameter `sine`.
- `FMath::FloorToInt` is modelled as the exact floor of a real. Its `int32` result range is not modelled.
- `Calculate` uses `Counter + 1` as a real number. The overflow of that `int32` addition at the maximum is not modelled.
- `PimplState.WrappingIncrement`: signed `int32` overflow in `Counter++` is undefined in C++. The model takes the two's-complement wrap to the minimum that compilers produce.
- The null branches are unreachable in the source as written: the constructor always sets `Impl` and no code moves or resets it. In the model no method changes `impl` either; the null branches are modelled only as the guards the source writes.
- Memory management of `TPimplPtr` and `MakePimpl` is not modelled: type-erased deleters, destructors, move-only ownership.
- `StateHistory.Reserve(100)` is not modelled; it only hints at capacity.
- Logging is not modelled: every `UE_LOG` and the `PrintDebug` / `PrintDebugInfo` output.
- Engine reflection is not modelled: `UCLASS`, `UFUNCTION`, `GENERATED_BODY` and `PrimaryActorTick`.
- The engine calling `BeginPlay` and `Tick` is not modelled. Only what those two methods do with `Impl` is modelled.
- `UE_ARRAY_COUNT`'s compile-time rejection of pointers (SFINAE, `UE_REQUIRES`, `__is_array`) is type-system behaviour with nothing to run. It is not modelled, and neither is the commented-out `sizeof` misuse on a pointer.
- The `uint32` type of the counts and the `static_cast<int32>` in the range check are not modelled. All counts here are 4 or 5, so both are exact.
