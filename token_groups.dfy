/**
 * The cancellation-group registry as a value: a map from a non-zero
 * cancel token to the set of requests created with it. The imperative
 * registry in module HttpJsonRequestAsync is specified by these functions.
 */
module TokenGroups {
  import opened QuickHttpTypes

  type Groups<N> = map<int32, set<N>>

  /** The registry's shape: token 0 never has an entry, and no entry holds an empty set. */
  ghost predicate WellFormed<N>(m: Groups<N>)
  {
    0 !in m && forall t :: t in m ==> m[t] != {}
  }

  /** The members currently grouped under t (none when t has no entry). */
  function Members<N>(m: Groups<N>, t: int32): set<N>
  {
    if t in m then m[t] else {}
  }

  /** Registration on creation: add n under t, creating the entry if absent; token 0 is ungrouped. */
  function Register<N>(m: Groups<N>, t: int32, n: N): (r: Groups<N>)
    ensures t == 0 ==> r == m
    ensures t != 0 ==> t in r && Members(r, t) == Members(m, t) + {n}
    ensures forall u :: u != t ==> (u in r <==> u in m) && Members(r, u) == Members(m, u)
    ensures WellFormed(m) ==> WellFormed(r)
  {
    if t == 0 then m else m[t := Members(m, t) + {n}]
  }

  /**
   * Deregistration on finish: remove n from t's set and drop the entry once its set is
   * empty. Nothing happens for token 0 or a token without an entry.
   */
  function Unregister<N>(m: Groups<N>, t: int32, n: N): (r: Groups<N>)
    ensures t == 0 || t !in m ==> r == m
    ensures t != 0 ==> Members(r, t) == Members(m, t) - {n}
    ensures t != 0 ==> (t in r <==> t in m && m[t] - {n} != {})
    ensures forall u :: u != t ==> (u in r <==> u in m) && Members(r, u) == Members(m, u)
    ensures WellFormed(m) ==> WellFormed(r)
  {
    if t == 0 || t !in m then m
    else if m[t] - {n} == {} then m - {t}
    else m[t := m[t] - {n}]
  }

  /** Group cancellation takes the whole entry for t out of the registry. */
  function CancelGroup<N>(m: Groups<N>, t: int32): (r: Groups<N>)
    ensures t !in r && Members(r, t) == {}
    ensures forall u :: u != t ==> (u in r <==> u in m) && Members(r, u) == Members(m, u)
    ensures WellFormed(m) ==> WellFormed(r)
  {
    m - {t}
  }

  /** Registering a fresh member and then deregistering it leaves the registry as it was. */
  lemma UnregisterUndoesRegister<N>(m: Groups<N>, t: int32, n: N)
    requires WellFormed(m)
    requires n !in Members(m, t)
    ensures Unregister(Register(m, t, n), t, n) == m
  {
  }

  /** Deregistration is idempotent: a second call changes nothing. */
  lemma UnregisterIdempotent<N>(m: Groups<N>, t: int32, n: N)
    ensures Unregister(Unregister(m, t, n), t, n) == Unregister(m, t, n)
  {
    var once := Unregister(m, t, n);
    if t != 0 && t in once {
      assert once[t] - {n} == once[t];
    }
  }

  /** A second cancellation of the same group is a no-op. */
  lemma CancelGroupIdempotent<N>(m: Groups<N>, t: int32)
    ensures CancelGroup(CancelGroup(m, t), t) == CancelGroup(m, t)
  {
  }

  /**
   * Two requests grouped under one non-zero token: finishing one leaves the other
   * registered, and finishing both removes the token's entry.
   */
  lemma FinishingBothClearsGroup<N>(m: Groups<N>, t: int32, a: N, b: N)
    requires WellFormed(m) && t != 0 && t !in m && a != b
    ensures var two := Register(Register(m, t, a), t, b);
      Members(Unregister(two, t, a), t) == {b} &&
      t !in Unregister(Unregister(two, t, a), t, b) &&
      Unregister(Unregister(two, t, a), t, b) == m
  {
  }
}
