/**
 * `DataState<T>`: what a screen shows while its data loads, once it has
 * loaded, or when loading failed.  Its `==` compares loaded values with the
 * payload's own equality and errors by their `localizedDescription`; both are
 * parameters here, since Swift takes them from the payload and error types.
 */
module DataStates {
  import opened Results

  datatype DataState<T, E> = Loading | Loaded(value: T) | Error(error: E)

  /** `data`: the loaded value, `nil` while loading and on error. */
  function Data<T, E>(s: DataState<T, E>): (r: Option<T>)
    ensures r.Some? <==> s.Loaded?
    ensures r.Some? ==> r.value == s.value
  {
    if s.Loaded? then Some(s.value) else None
  }

  /** `isLoading`. */
  function IsLoading<T, E>(s: DataState<T, E>): (b: bool)
    ensures b <==> s.Loading?
  {
    s.Loading?
  }

  /** A state that is still loading has no data. */
  lemma LoadingHasNoData<T, E>(s: DataState<T, E>)
    requires IsLoading(s)
    ensures Data(s) == None
  {
  }

  /**
   * `==`: two loading states are equal, two loaded states when their values
   * are `eq`ual, two errors when their descriptions agree; states of
   * different cases never are.
   */
  function Equal<T, E>(l: DataState<T, E>, r: DataState<T, E>, eq: (T, T) -> bool, describe: E -> string): (b: bool)
    ensures l.Loading? && r.Loading? ==> b
    ensures l.Loaded? && r.Loaded? ==> (b <==> eq(l.value, r.value))
    ensures l.Error? && r.Error? ==> (b <==> describe(l.error) == describe(r.error))
    ensures b ==> (l.Loading? <==> r.Loading?) && (l.Loaded? <==> r.Loaded?) && (l.Error? <==> r.Error?)
  {
    match (l, r)
    case (Loading, Loading) => true
    case (Loaded(a), Loaded(b)) => eq(a, b)
    case (Error(a), Error(b)) => describe(a) == describe(b)
    case _ => false
  }

  ghost predicate Reflexive<T(!new)>(eq: (T, T) -> bool)
  {
    forall x :: eq(x, x)
  }

  ghost predicate Symmetric<T(!new)>(eq: (T, T) -> bool)
  {
    forall x, y :: eq(x, y) ==> eq(y, x)
  }

  ghost predicate Transitive<T(!new)>(eq: (T, T) -> bool)
  {
    forall x, y, z :: eq(x, y) && eq(y, z) ==> eq(x, z)
  }

  /** `==` on states is reflexive, symmetric and transitive when the payload's equality is. */
  lemma EqualIsEquivalence<T(!new), E>(eq: (T, T) -> bool, describe: E -> string, a: DataState<T, E>, b: DataState<T, E>, c: DataState<T, E>)
    ensures Reflexive(eq) ==> Equal(a, a, eq, describe)
    ensures Symmetric(eq) ==> (Equal(a, b, eq, describe) ==> Equal(b, a, eq, describe))
    ensures Transitive(eq) ==> (Equal(a, b, eq, describe) && Equal(b, c, eq, describe) ==> Equal(a, c, eq, describe))
  {
  }

  /** Errors are told apart only by their descriptions. */
  lemma ErrorsWithSameDescriptionAreEqual<T, E>(x: E, y: E, eq: (T, T) -> bool, describe: E -> string)
    requires describe(x) == describe(y)
    ensures Equal(Error(x), Error(y), eq, describe)
  {
  }
}
