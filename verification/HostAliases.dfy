/** pkg/util/merge/merge_podtemplate_spec.go: merging host aliases by IP. */
module HostAliases {
  import opened KeyedLists
  import opened ContainerMerge

  datatype HostAlias = HostAlias(ip: string, hostnames: seq<string>)

  function AliasKey(a: HostAlias): string { a.ip }

  predicate HasIP(aliases: seq<HostAlias>, ip: string) {
    exists a :: a in aliases && a.ip == ip
  }

  function AllNames(aliases: seq<HostAlias>): seq<string> {
    if aliases == [] then [] else AllNames(aliases[..|aliases| - 1]) + aliases[|aliases| - 1].hostnames
  }

  /**
   The names of an IP: those of its base entry, the last original or else the first override, as they stand;
   then the first occurrences of names not yet there over all later override entries, in order.
   */
  function NamesFor(originals: seq<HostAlias>, overrides: seq<HostAlias>, ip: string): seq<string> {
    var os, vs := WithKey(originals, AliasKey, ip), WithKey(overrides, AliasKey, ip);
    if os != [] then AppendNew(os[|os| - 1].hostnames, AllNames(vs))
    else if vs != [] then AppendNew(vs[0].hostnames, AllNames(vs[1..]))
    else []
  }

  function AliasMap(originals: seq<HostAlias>, overrides: seq<HostAlias>): map<string, HostAlias> {
    map ip | ip in LastWins(originals, AliasKey).Keys + LastWins(overrides, AliasKey).Keys ::
      HostAlias(ip, NamesFor(originals, overrides, ip))
  }

  lemma {:induction false} AppendNewTwice(a: seq<string>, b: seq<string>, c: seq<string>)
    ensures AppendNew(AppendNew(a, b), c) == AppendNew(a, b + c)
  {
    if c == [] {
      assert b + c == b;
    } else {
      AppendNewTwice(a, b, c[..|c| - 1]);
      assert (b + c)[..|b + c| - 1] == b + c[..|c| - 1];
    }
  }

  lemma NoOverrides(originals: seq<HostAlias>)
    ensures AliasMap(originals, []) == LastWins(originals, AliasKey)
  {
    forall ip | ip in LastWins(originals, AliasKey)
      ensures AliasMap(originals, [])[ip] == LastWins(originals, AliasKey)[ip]
    {
      LastWinsIsLastWithKey(originals, AliasKey, ip);
    }
  }

  lemma NamesForSnoc(originals: seq<HostAlias>, overrides: seq<HostAlias>, a: HostAlias, ip: string)
    ensures NamesFor(originals, overrides + [a], ip) ==
      if ip != a.ip then NamesFor(originals, overrides, ip)
      else if WithKey(originals, AliasKey, ip) == [] && WithKey(overrides, AliasKey, ip) == [] then a.hostnames
      else AppendNew(NamesFor(originals, overrides, ip), a.hostnames)
  {
    assert (overrides + [a])[..|overrides|] == overrides;
    var os, vs := WithKey(originals, AliasKey, ip), WithKey(overrides, AliasKey, ip);
    if ip == a.ip {
      assert WithKey(overrides + [a], AliasKey, ip) == vs + [a];
      if os != [] {
        AllNamesSnoc(vs, a);
        AppendNewTwice(os[|os| - 1].hostnames, AllNames(vs), a.hostnames);
      } else if vs != [] {
        assert (vs + [a])[1..] == vs[1..] + [a];
        AllNamesSnoc(vs[1..], a);
        AppendNewTwice(vs[0].hostnames, AllNames(vs[1..]), a.hostnames);
      }
    } else {
      assert WithKey(overrides + [a], AliasKey, ip) == vs;
    }
  }

  /** One more override entry extends the names of its IP and touches no other. */
  lemma {:induction false} OneOverride(originals: seq<HostAlias>, overrides: seq<HostAlias>, a: HostAlias)
    ensures var m := AliasMap(originals, overrides);
      AliasMap(originals, overrides + [a]) ==
      m[a.ip := if a.ip in m then HostAlias(a.ip, AppendNew(m[a.ip].hostnames, a.hostnames)) else a]
  {
    LastWinsSnoc(overrides, a, AliasKey);
    forall ip ensures NamesFor(originals, overrides + [a], ip) == NamesAfter(originals, overrides, a, ip) {
      NamesForOneMore(originals, overrides, a, ip);
    }
  }

  function NamesAfter(originals: seq<HostAlias>, overrides: seq<HostAlias>, a: HostAlias, ip: string): seq<string> {
    if ip != a.ip then NamesFor(originals, overrides, ip)
    else if ip in AliasMap(originals, overrides) then AppendNew(NamesFor(originals, overrides, ip), a.hostnames)
    else a.hostnames
  }

  lemma NamesForOneMore(originals: seq<HostAlias>, overrides: seq<HostAlias>, a: HostAlias, ip: string)
    ensures NamesFor(originals, overrides + [a], ip) == NamesAfter(originals, overrides, a, ip)
  {
    NamesForSnoc(originals, overrides, a, ip);
    LastWinsIsLastWithKey(originals, AliasKey, ip);
    LastWinsIsLastWithKey(overrides, AliasKey, ip);
  }

  lemma AllNamesSnoc(aliases: seq<HostAlias>, a: HostAlias)
    ensures AllNames(aliases + [a]) == AllNames(aliases) + a.hostnames
  {
    assert (aliases + [a])[..|aliases|] == aliases;
  }

  method MergeAliases(originalAliases: seq<HostAlias>, overrideAliases: seq<HostAlias>)
    returns (mergedHostAliases: seq<HostAlias>)
    ensures mergedHostAliases == Listing(AliasMap(originalAliases, overrideAliases))
  {
    var m := CreateMap(originalAliases, AliasKey);
    NoOverrides(originalAliases);
    for i := 0 to |overrideAliases|
      invariant m == AliasMap(originalAliases, overrideAliases[..i])
    {
      var override := overrideAliases[i];
      assert overrideAliases[..i + 1] == overrideAliases[..i] + [override];
      OneOverride(originalAliases, overrideAliases[..i], override);
      if override.ip in m {
        var mergedHostNames := StringSlices(m[override.ip].hostnames, override.hostnames);
        m := m[override.ip := HostAlias(override.ip, mergedHostNames)];
      } else {
        m := m[override.ip := override];
      }
    }
    assert overrideAliases[..|overrideAliases|] == overrideAliases;
    ghost var order;
    mergedHostAliases, order := Collect(m);
    mergedHostAliases := SliceStable(mergedHostAliases, AliasKey);
    VisitOrderIrrelevant(m, order, AliasKey);
  }

  /** Sorted by IP, each IP once, exactly the IPs of the two lists, each with the names described above. */
  lemma MergedAliasesMeaning(originals: seq<HostAlias>, overrides: seq<HostAlias>)
    ensures var r := Listing(AliasMap(originals, overrides));
      && StrictlySorted(r, AliasKey)
      && (forall a :: a in r ==> a.hostnames == NamesFor(originals, overrides, a.ip))
      && forall ip :: HasIP(r, ip) <==> HasIP(originals, ip) || HasIP(overrides, ip)
  {
    var m := AliasMap(originals, overrides);
    var r := Listing(m);
    ListingSorted(m, AliasKey);
    LastWinsListing(m, AliasKey);
    forall a | a in r ensures a.ip in m && a == m[a.ip] {
      var i :| 0 <= i < |r| && r[i] == a;
      StrictHasAll(r, AliasKey, i);
    }
    forall ip ensures HasIP(r, ip) <==> HasIP(originals, ip) || HasIP(overrides, ip) {
      KeyPresent(r, ip);
      KeyPresent(originals, ip);
      KeyPresent(overrides, ip);
    }
  }

  lemma KeyPresent(xs: seq<HostAlias>, ip: string)
    ensures ip in LastWins(xs, AliasKey) <==> HasIP(xs, ip)
  {
    LastWinsIsLastWithKey(xs, AliasKey, ip);
    WithKeyOnly(xs, AliasKey, ip);
    if ip in LastWins(xs, AliasKey) {
      var ws := WithKey(xs, AliasKey, ip);
      assert ws[|ws| - 1] in ws;
    }
    forall x | x in xs && x.ip == ip ensures ip in LastWins(xs, AliasKey) {
      var i :| 0 <= i < |xs| && xs[i] == x;
      WithKeyHas(xs, AliasKey, i);
    }
  }
}
