/** pkg/service/k8s/statefulset.go: comparing a stored StatefulSet with the desired one and acting on the verdict. */
module StatefulSets {
  import opened Strings
  import opened ContainerMerge

  /** A volume claim template; None is the nil StorageClassName pointer. */
  datatype Claim = Claim(name: string, resources: ResourceRequirements, storageClass: Option<string>)

  /** The part of a StatefulSet the operator builds and compares; annotations are those of the pod template. */
  datatype StatefulSet = StatefulSet(
    replicas: int, annotations: map<string, string>, containers: seq<Container>, claims: seq<Claim>)

  /** Crash is a run-time panic: no first container, or a nil storage class that had to be read. */
  datatype Verdict = Keep | Update | Delete | Crash

  function Lower(c: char): char {
    if 'A' <= c <= 'Z' then c - 'A' + 'a' else c
  }

  /** strings.EqualFold on ASCII names. */
  predicate EqualFold(s: string, t: string) {
    |s| == |t| && forall i :: 0 <= i < |s| ==> Lower(s[i]) == Lower(t[i])
  }

  /** Some(true) asks for deletion; None is the nil dereference, which equal resources are needed to reach. */
  function CheckVolumeClaimTemplates(ov: seq<Claim>, nv: seq<Claim>): Option<bool> {
    if |ov| == 0 && |nv| == 0 then Some(false)
    else if |ov| != |nv| then Some(true)
    else if ov[0].resources != nv[0].resources then Some(true)
    else if ov[0].storageClass.None? || nv[0].storageClass.None? then None
    else Some(!EqualFold(ov[0].storageClass.value, nv[0].storageClass.value))
  }

  function CheckSts(stored: StatefulSet, desired: StatefulSet): Verdict {
    if stored.containers == [] || desired.containers == [] then Crash
    else
      match CheckVolumeClaimTemplates(stored.claims, desired.claims)
      case None => Crash
      case Some(true) => Delete
      case Some(false) =>
        var was, want := stored.containers[0], desired.containers[0];
        if was.resources != want.resources || stored.replicas != desired.replicas
           || was.env != want.env || stored.annotations != desired.annotations
        then Update else Keep
  }

  // ----- What the verdict means -----

  predicate ClaimsAgree(ov: seq<Claim>, nv: seq<Claim>) {
    && |ov| == |nv|
    && (ov != [] ==>
          && ov[0].resources == nv[0].resources
          && ov[0].storageClass.Some? && nv[0].storageClass.Some?
          && EqualFold(ov[0].storageClass.value, nv[0].storageClass.value))
  }

  /** Agreement on every field the comparison looks at; other containers, images, probes and volumes are not. */
  predicate Agrees(s: StatefulSet, d: StatefulSet) {
    && s.containers != [] && d.containers != []
    && s.containers[0].resources == d.containers[0].resources
    && s.containers[0].env == d.containers[0].env
    && s.replicas == d.replicas
    && s.annotations == d.annotations
    && ClaimsAgree(s.claims, d.claims)
  }

  lemma KeepIsAgreement(s: StatefulSet, d: StatefulSet)
    ensures CheckSts(s, d) == Keep <==> Agrees(s, d)
  {
    var v := CheckVolumeClaimTemplates(s.claims, d.claims);
    assert v == Some(false) <==> ClaimsAgree(s.claims, d.claims);
  }

  /** The claims cannot stay: another number, other resources, or another storage class where both name one. */
  predicate ClaimsConflict(ov: seq<Claim>, nv: seq<Claim>) {
    |ov| != |nv|
    || (ov != []
        && (ov[0].resources != nv[0].resources
            || (ov[0].storageClass.Some? && nv[0].storageClass.Some?
                && !EqualFold(ov[0].storageClass.value, nv[0].storageClass.value))))
  }

  /** What each verdict means: only claims that cannot stay make it a deletion. */
  lemma VerdictExactly(s: StatefulSet, d: StatefulSet)
    requires s.containers != [] && d.containers != []
    ensures CheckSts(s, d) == Delete <==> ClaimsConflict(s.claims, d.claims)
    ensures CheckSts(s, d) == Update <==>
      && ClaimsAgree(s.claims, d.claims)
      && (s.containers[0].resources != d.containers[0].resources || s.containers[0].env != d.containers[0].env
          || s.replicas != d.replicas || s.annotations != d.annotations)
    ensures CheckSts(s, d) == Crash <==>
      && !ClaimsConflict(s.claims, d.claims) && s.claims != []
      && (s.claims[0].storageClass.None? || d.claims[0].storageClass.None?)
  {
  }

  /** At each place the two names have the same character, or the two cases of one letter. */
  lemma EqualFoldMeaning(s: string, t: string)
    ensures EqualFold(s, t) <==>
      && |s| == |t|
      && forall i :: 0 <= i < |s| ==>
           || s[i] == t[i]
           || ('A' <= s[i] <= 'Z' && t[i] as int == s[i] as int + 32)
           || ('A' <= t[i] <= 'Z' && s[i] as int == t[i] as int + 32)
  {
    if EqualFold(s, t) {
      forall i | 0 <= i < |s| && s[i] != t[i]
        ensures ('A' <= s[i] <= 'Z' && t[i] as int == s[i] as int + 32)
             || ('A' <= t[i] <= 'Z' && s[i] as int == t[i] as int + 32)
      {
        assert Lower(s[i]) == Lower(t[i]);
      }
    }
  }

  /** A desired object that can be compared with a copy of itself. */
  predicate Comparable(d: StatefulSet) {
    d.containers != [] && (d.claims == [] || d.claims[0].storageClass.Some?)
  }

  lemma EqualFoldReflexive(s: string)
    ensures EqualFold(s, s)
  {
  }

  lemma SelfAgreement(d: StatefulSet)
    ensures Agrees(d, d) <==> Comparable(d)
  {
  }

  // ----- Repeated calls -----

  /** The store after one call none of whose requests fails; a crashing call leaves it alone. */
  function AfterCall(stored: Option<StatefulSet>, desired: StatefulSet): Option<StatefulSet> {
    match stored
    case None => Some(desired)
    case Some(s) =>
      match CheckSts(s, desired)
      case Keep => stored
      case Update => Some(desired)
      case Delete => None
      case Crash => stored
  }

  /**
   What one call leaves: where the claims agree an object, the desired one unless the stored one agreed with it
   already; nothing only where the claims cannot stay; the stored one where they cannot be compared.
   */
  lemma CallLeaves(s: StatefulSet, d: StatefulSet)
    ensures AfterCall(None, d) == Some(d)
    ensures ClaimsAgree(s.claims, d.claims) ==> AfterCall(Some(s), d).Some?
    ensures s.containers != [] && d.containers != [] ==>
      && (ClaimsAgree(s.claims, d.claims) ==> AfterCall(Some(s), d) == Some(if Agrees(s, d) then s else d))
      && (AfterCall(Some(s), d).None? <==> ClaimsConflict(s.claims, d.claims))
      && (!ClaimsAgree(s.claims, d.claims) && !ClaimsConflict(s.claims, d.claims) ==> AfterCall(Some(s), d) == Some(s))
    ensures s.containers == [] || d.containers == [] ==> AfterCall(Some(s), d) == Some(s)
  {
    if s.containers != [] && d.containers != [] {
      VerdictExactly(s, d);
    }
  }

  function AfterCalls(n: nat, stored: Option<StatefulSet>, desired: StatefulSet): Option<StatefulSet> {
    if n == 0 then stored else AfterCall(AfterCalls(n - 1, stored, desired), desired)
  }

  predicate Settled(stored: Option<StatefulSet>, desired: StatefulSet) {
    stored.Some? && CheckSts(stored.value, desired) == Keep
  }

  predicate Crashes(stored: Option<StatefulSet>, desired: StatefulSet) {
    stored.Some? && CheckSts(stored.value, desired) == Crash
  }

  /** What decides convergence, readable before the first call. */
  predicate CanSettle(stored: Option<StatefulSet>, desired: StatefulSet) {
    match stored
    case None => Comparable(desired)
    case Some(s) => CheckSts(s, desired) != Crash && (CheckSts(s, desired) == Delete ==> Comparable(desired))
  }

  ghost predicate Settles(stored: Option<StatefulSet>, desired: StatefulSet) {
    exists n: nat :: Settled(AfterCalls(n, stored, desired), desired)
  }

  lemma SettlesAfter(n: nat, stored: Option<StatefulSet>, desired: StatefulSet)
    requires Settled(AfterCalls(n, stored, desired), desired)
    ensures Settles(stored, desired)
  {
  }

  lemma SettledStays(n: nat, m: nat, stored: Option<StatefulSet>, desired: StatefulSet)
    requires n <= m && Settled(AfterCalls(n, stored, desired), desired)
    ensures AfterCalls(m, stored, desired) == AfterCalls(n, stored, desired)
  {
    if n < m {
      SettledStays(n, m - 1, stored, desired);
    }
  }

  lemma TwoCallsSettle(stored: Option<StatefulSet>, desired: StatefulSet)
    requires CanSettle(stored, desired)
    ensures Settled(AfterCalls(2, stored, desired), desired)
  {
    var one := AfterCall(stored, desired);
    assert AfterCalls(0, stored, desired) == stored;
    assert AfterCalls(1, stored, desired) == one;
    SelfAgreement(desired);
    KeepIsAgreement(desired, desired);
    if stored.Some? {
      var s := stored.value;
      if CheckSts(s, desired) == Update {
        UpdateKeepsComparable(s, desired);
      }
    }
  }

  lemma UpdateKeepsComparable(s: StatefulSet, d: StatefulSet)
    requires CheckSts(s, d) == Update
    ensures Comparable(d)
  {
    assert CheckVolumeClaimTemplates(s.claims, d.claims) == Some(false);
  }

  /** From a store that cannot settle every call crashes, or recreates an object on which the next call crashes. */
  lemma {:induction false} NeverSettles(n: nat, stored: Option<StatefulSet>, desired: StatefulSet)
    requires !CanSettle(stored, desired)
    ensures !CanSettle(AfterCalls(n, stored, desired), desired)
    ensures !Settled(AfterCalls(n, stored, desired), desired)
  {
    if n != 0 {
      NeverSettles(n - 1, stored, desired);
      var s := AfterCalls(n - 1, stored, desired);
      if s.None? {
        IncomparableCrashes(desired);
      }
    }
  }

  lemma IncomparableCrashes(d: StatefulSet)
    requires !Comparable(d)
    ensures CheckSts(d, d) == Crash
  {
  }

  /**
   Convergence: two calls reach agreement on all compared fields and every later call changes nothing,
   exactly when the first comparison does not crash and the desired object can be compared with itself.
   */
  lemma Convergence(stored: Option<StatefulSet>, desired: StatefulSet)
    ensures CanSettle(stored, desired) <==> Settles(stored, desired)
    ensures CanSettle(stored, desired) ==>
      forall n: nat :: n >= 2 ==>
        && AfterCalls(n, stored, desired).Some? && Agrees(AfterCalls(n, stored, desired).value, desired)
        && AfterCalls(n, stored, desired) == AfterCalls(2, stored, desired)
  {
    if CanSettle(stored, desired) {
      TwoCallsSettle(stored, desired);
      SettlesAfter(2, stored, desired);
      forall n: nat | n >= 2
        ensures AfterCalls(n, stored, desired) == AfterCalls(2, stored, desired)
      {
        SettledStays(2, n, stored, desired);
      }
      KeepIsAgreement(AfterCalls(2, stored, desired).value, desired);
    } else {
      forall n: nat ensures !Settled(AfterCalls(n, stored, desired), desired) {
        NeverSettles(n, stored, desired);
      }
    }
  }

  // ----- The service over the API store -----

  /** How a write request may end: it went through, it was lost, or it went through but reported an error. */
  datatype WriteFault = Fine | Lost | Unheard

  datatype CallResult = Returned | Failed | Panicked

  class StatefulSetService {
    /** The object in the API store. */
    var stored: Option<StatefulSet>
    /** How many writes reached the store. */
    var writes: nat

    constructor (initial: Option<StatefulSet>)
      ensures stored == initial && writes == 0
    {
      stored, writes := initial, 0;
    }

    method Put(next: Option<StatefulSet>, fault: WriteFault) returns (r: CallResult)
      modifies this
      ensures stored == (if fault == Lost then old(stored) else next)
      ensures writes == old(writes) + (if fault == Lost then 0 else 1)
      ensures r == (if fault == Fine then Returned else Failed)
    {
      if fault != Lost {
        stored, writes := next, writes + 1;
      }
      r := if fault == Fine then Returned else Failed;
    }

    /**
     A call takes one step of AfterCall by at most one write: none if the stored object cannot be read, agrees with
     the desired one or cannot be compared with it.
     */
    method CreateOrUpdateStatefulSet(desired: StatefulSet, getFails: bool, fault: WriteFault) returns (r: CallResult)
      modifies this
      ensures r == Returned ==> stored == AfterCall(old(stored), desired)
      ensures r == Panicked <==> !getFails && Crashes(old(stored), desired)
      ensures
        var untouched := getFails || Crashes(old(stored), desired) || Settled(old(stored), desired) || fault == Lost;
        && stored == (if untouched then old(stored) else AfterCall(old(stored), desired))
        && writes == old(writes) + (if untouched then 0 else 1)
      ensures !getFails && Settled(old(stored), desired) ==> r == Returned
      ensures old(stored).Some? && stored.None? ==> ClaimsConflict(old(stored).value.claims, desired.claims)
      ensures old(stored).Some? && stored != old(stored) && stored.Some? ==>
        stored == Some(desired) && ClaimsAgree(old(stored).value.claims, desired.claims)
      ensures !getFails && !Crashes(old(stored), desired) && !Settled(old(stored), desired) ==>
        r == (if fault == Fine then Returned else Failed)
    {
      if getFails {
        return Failed;
      }
      if stored.None? {
        r := Put(Some(desired), fault);
        return;
      }
      match CheckSts(stored.value, desired) {
        case Update => r := Put(Some(desired), fault);
        case Delete => r := Put(None, fault);
        case Keep => r := Returned;
        case Crash => r := Panicked;
      }
    }
  }
}
