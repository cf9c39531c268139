/**
 * The UE_ARRAY_COUNT example: three static tables, their element counts as
 * the counting macro computes them, a traversal bounded by the count and a
 * lookup guarded by a range check.
 *
 * A C array of N elements is a sequence of length N. The macro's answer is
 * sizeof(UEArrayCountHelper(array)) - 1, where the helper's result type is
 * char[N + 1]; the Clang form obtains N + 1 as sizeof(t) / sizeof(t[0]) + 1.
 */
module StaticArrays {

  datatype Option<T> = None | Some(value: T)

  /** FTestStruct: one entry of a configuration table. */
  datatype TestEntry = TestEntry(namePostFix: string)

  const TestStruct: seq<TestEntry> := [
    TestEntry("_Functions"),
    TestEntry("_InitOnly"),
    TestEntry("_LifetimeConditionals"),
    TestEntry("_State")
  ]

  const DamageMultipliers: seq<int> := [1, 2, 4, 8, 16]

  const WeaponTypeNames: seq<string> := ["Sword", "Bow", "Staff", "Dagger"]

  /** The count both static assertions compare against. */
  const ExpectedCount: nat := 4

  /** sizeof(char). */
  const CharSize: nat := 1

  /** sizeof of the helper's result type char[N + 1], for an array of N elements. */
  function HelperResultSize<T>(a: seq<T>): (size: nat)
    ensures size == |a| + 1
  {
    (|a| + 1) * CharSize
  }

  /** UE_ARRAY_COUNT(array): the helper's result size minus one, which is the element count. */
  function ArrayCount<T>(a: seq<T>): (n: nat)
    ensures n == |a|
  {
    HelperResultSize(a) - 1
  }

  /** The byte size of a whole array: the sum of its elements' sizes. */
  function TotalSize(elementSizes: seq<nat>): nat
  {
    if elementSizes == [] then 0 else TotalSize(elementSizes[..|elementSizes| - 1]) + elementSizes[|elementSizes| - 1]
  }

  /** The elements of a C array all have one type, hence one size. */
  predicate UniformSize(elementSizes: seq<nat>, k: nat)
  {
    forall i :: 0 <= i < |elementSizes| ==> elementSizes[i] == k
  }

  lemma {:induction false} TotalSizeOfUniform(elementSizes: seq<nat>, k: nat)
    requires UniformSize(elementSizes, k)
    ensures TotalSize(elementSizes) == |elementSizes| * k
    decreases |elementSizes|
  {
    if elementSizes != [] {
      var prefix := elementSizes[..|elementSizes| - 1];
      TotalSizeOfUniform(prefix, k);
    }
  }

  /**
   * The Clang form of the count: sizeof(t) / sizeof(t[0]) + 1 is the size of
   * the helper's char array, and the macro subtracts one. C arrays are never
   * empty and every object has a positive size.
   */
  function ClangArrayCount(elementSizes: seq<nat>): int
    requires |elementSizes| > 0 && elementSizes[0] > 0
  {
    (TotalSize(elementSizes) / elementSizes[0] + 1) * CharSize - 1
  }

  /** Total size divided by element size is the element count when all elements share one positive size. */
  lemma ClangArrayCountIsLength(elementSizes: seq<nat>, k: nat)
    requires |elementSizes| > 0 && k > 0 && UniformSize(elementSizes, k)
    ensures ClangArrayCount(elementSizes) == |elementSizes|
  {
    TotalSizeOfUniform(elementSizes, k);
    assert elementSizes[0] == k;
    MulDivCancel(|elementSizes|, k);
  }

  /** (n * k) / k == n: dividing the total size by the element size undoes the multiplication. */
  lemma MulDivCancel(n: nat, k: nat)
    requires k > 0
    ensures n * k / k == n
  {
    DivUnique(n * k, k, n, 0);
  }

  /** Euclidean division has one quotient. */
  lemma DivUnique(a: int, k: int, q: int, r: int)
    requires k > 0 && a == q * k + r && 0 <= r < k
    ensures a / k == q
  {
    var q', r' := a / k, a % k;
    assert a == q' * k + r' && 0 <= r' < k;
    if q' > q {
      var d := q' - q;
      assert q' * k == q * k + d * k;
      MulAtLeast(d, k);
    } else if q' < q {
      var d := q - q';
      assert q * k == q' * k + d * k;
      MulAtLeast(d, k);
    }
  }

  lemma MulAtLeast(d: nat, k: nat)
    requires d >= 1
    ensures d * k >= k
  {
  }

  /** The two forms of the macro agree on every array of one positive element size. */
  lemma {:induction false} CountFormsAgree<T>(a: seq<T>, elementSizes: seq<nat>, k: nat)
    requires |elementSizes| == |a| > 0 && k > 0 && UniformSize(elementSizes, k)
    ensures ClangArrayCount(elementSizes) == ArrayCount(a)
  {
    ClangArrayCountIsLength(elementSizes, k);
  }

  /** The static assertions of BeginPlay, and the count of DamageMultipliers. */
  lemma StaticAssertionsHold()
    ensures ArrayCount(TestStruct) == ExpectedCount
    ensures ArrayCount(WeaponTypeNames) == ExpectedCount
    ensures ArrayCount(DamageMultipliers) == 5
  {
  }

  /**
   * The traversal loop `for (i = 0; i < UE_ARRAY_COUNT(TestStruct); ++i)`:
   * returns the indices it visits and the name suffixes it reads there.
   */
  method Traverse(table: seq<TestEntry>) returns (visited: seq<nat>, read: seq<string>)
    ensures |visited| == |read| == ArrayCount(table)
    ensures forall k :: 0 <= k < |visited| ==> visited[k] == k
    ensures forall k :: 0 <= k < |read| ==> read[k] == table[k].namePostFix
  {
    visited, read := [], [];
    var i: nat := 0;
    while i < ArrayCount(table)
      invariant i <= |table|
      invariant |visited| == |read| == i
      invariant forall k :: 0 <= k < i ==> visited[k] == k
      invariant forall k :: 0 <= k < i ==> read[k] == table[k].namePostFix
    {
      visited := visited + [i];
      read := read + [table[i].namePostFix];
      i := i + 1;
    }
  }

  /** The range check `Index >= 0 && Index < UE_ARRAY_COUNT(array)`. */
  predicate InRange<T>(index: int, a: seq<T>)
  {
    index >= 0 && index < ArrayCount(a)
  }

  /** The guarded read of WeaponTypeNames: a name exactly when the range check admits the index. */
  function LookupWeaponName(index: int): (r: Option<string>)
    ensures r.Some? <==> 0 <= index < |WeaponTypeNames|
    ensures r.Some? ==> r.value == WeaponTypeNames[index]
  {
    if InRange(index, WeaponTypeNames) then Some(WeaponTypeNames[index]) else None
  }

  /** The example's index 2 names the staff. */
  lemma WeaponIndexTwoIsStaff()
    ensures LookupWeaponName(2) == Some("Staff")
  {
  }
}
