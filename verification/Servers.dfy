/** The peer list printed into NACOS_SERVERS and the leader address parsed back in the health check. */
module Servers {
  import opened Strings

  const NACOS_PORT: nat := 8848

  function HeadlessName(name: string): string {
    name + "-headless"
  }

  function PodName(name: string, i: nat): string {
    name + "-" + Itoa(i)
  }

  /** Pod name, headless service, namespace, "svc" and cluster domain, dot-separated, then the port. */
  function Address(name: string, namespace: string, domain: string, i: nat): string {
    PodName(name, i) + "." + HeadlessName(name) + "." + namespace + "." + "svc" + "." + domain + ":" + Itoa(NACOS_PORT)
  }

  function Addresses(name: string, namespace: string, domain: string, n: nat): (r: seq<string>)
    ensures |r| == n && forall i :: 0 <= i < n ==> r[i] == Address(name, namespace, domain, i)
  {
    seq(n, i requires 0 <= i < n => Address(name, namespace, domain, i))
  }

  /** What the printing loop has after the given addresses: each followed by a space. */
  function Spaced(parts: seq<string>): string {
    if parts == [] then "" else Spaced(parts[..|parts| - 1]) + parts[|parts| - 1] + " "
  }

  lemma {:induction false} JoinSnoc(parts: seq<string>, last: string)
    requires parts != []
    ensures Join(parts + [last], ' ') == Join(parts, ' ') + " " + last
  {
    if |parts| > 1 {
      JoinSnoc(parts[1..], last);
      assert (parts + [last])[1..] == parts[1..] + [last];
    } else {
      assert (parts + [last])[1..] == [last];
    }
  }

  lemma {:induction false} SpacedIsJoin(parts: seq<string>)
    requires parts != []
    ensures Spaced(parts) == Join(parts, ' ') + " "
  {
    if |parts| > 1 {
      var front, last := parts[..|parts| - 1], parts[|parts| - 1];
      SpacedIsJoin(front);
      JoinSnoc(front, last);
      assert parts == front + [last];
    } else {
      assert parts[..0] == [];
    }
  }

  lemma SpacedStep(parts: seq<string>, i: nat)
    requires i < |parts|
    ensures Spaced(parts[..i + 1]) == Spaced(parts[..i]) + parts[i] + " "
  {
    assert parts[..i + 1][..i] == parts[..i];
  }

  /** None is the slice-bounds panic of `serivce[0:len(serivce)-1]` on an empty list. */
  method ServerList(name: string, namespace: string, domain: string, replicas: int) returns (r: Option<string>)
    ensures r.Some? <==> replicas >= 1
    ensures r.Some? ==> r.value == Join(Addresses(name, namespace, domain, replicas), ' ')
  {
    var service := "";
    var i: nat := 0;
    ghost var all := Addresses(name, namespace, domain, if replicas < 0 then 0 else replicas);
    while i < replicas
      invariant i <= |all|
      invariant service == Spaced(all[..i])
    {
      SpacedStep(all, i);
      var address := Address(name, namespace, domain, i);
      assert all[i] == address;
      service := service + address + " ";
      i := i + 1;
    }
    assert all[..|all|] == all;
    if replicas >= 1 {
      SpacedIsJoin(all);
    }
    if service == "" {
      return None;
    }
    r := Some(service[..|service| - 1]);
  }

  /** The pod a raft leader address names, as CheckNacos reads it. */
  function LeaderPod(leader: string): string {
    if 0 < FirstIndex(leader, '.') < |leader| then Split(leader, '.')[0] else Split(leader, ':')[0]
  }

  lemma ItoaWithout(n: nat, c: char)
    requires c < '0' || c > '9'
    ensures c !in Itoa(n)
  {
    var s := Itoa(n);
    assert forall i :: 0 <= i < |s| ==> s[i] != c;
  }

  /** Parsing address i gives pod i, whatever port the address ends in. */
  lemma LeaderOfAddress(name: string, i: nat, rest: string)
    requires '.' !in name
    ensures LeaderPod(PodName(name, i) + "." + rest) == PodName(name, i)
  {
    var pod := PodName(name, i);
    ItoaWithout(i, '.');
    assert '.' !in pod;
    SplitHead(pod, '.', rest);
    assert pod + "." + rest == pod + ['.'] + rest;
  }

  /** So does parsing a leader that is given as pod and port alone. */
  lemma LeaderOfPort(name: string, i: nat, port: string)
    requires '.' !in name && ':' !in name && '.' !in port
    ensures LeaderPod(PodName(name, i) + ":" + port) == PodName(name, i)
  {
    var pod := PodName(name, i);
    ItoaWithout(i, '.');
    ItoaWithout(i, ':');
    assert '.' !in pod + ":" + port && ':' !in pod;
    SplitHead(pod, ':', port);
    assert pod + ":" + port == pod + [':'] + port;
  }

  lemma PodNamesDistinct(name: string, i: nat, j: nat)
    requires PodName(name, i) == PodName(name, j)
    ensures i == j
  {
    var p := PodName(name, i);
    assert p[|name| + 1..] == Itoa(i);
    assert PodName(name, j)[|name| + 1..] == Itoa(j);
    AtoiItoa(i);
    AtoiItoa(j);
  }

  lemma AddressWithoutSpace(name: string, namespace: string, domain: string, i: nat)
    requires ' ' !in name && ' ' !in namespace && ' ' !in domain
    ensures ' ' !in Address(name, namespace, domain, i)
  {
    ItoaWithout(i, ' ');
    ItoaWithout(NACOS_PORT, ' ');
  }

  /** A part that holds no dot, split off the front. */
  lemma SplitOff(all: string, head: string, rest: string)
    requires '.' !in head && all == head + "." + rest
    ensures Split(all, '.') == [head] + Split(rest, '.')
  {
    SplitHead(head, '.', rest);
    assert all == head + ['.'] + rest;
  }

  lemma SplitFour(a: string, b: string, c: string, d: string, rest: string)
    requires '.' !in a && '.' !in b && '.' !in c && '.' !in d
    ensures Split(a + "." + (b + "." + (c + "." + (d + "." + rest))), '.') == [a, b, c, d] + Split(rest, '.')
  {
    var fromD := d + "." + rest;
    var fromC := c + "." + fromD;
    SplitTwo(c, d, rest);
    SplitTwo(a, b, fromC);
    assert [a, b] + ([c, d] + Split(rest, '.')) == [a, b, c, d] + Split(rest, '.');
  }

  lemma SplitTwo(a: string, b: string, rest: string)
    requires '.' !in a && '.' !in b
    ensures Split(a + "." + (b + "." + rest), '.') == [a, b] + Split(rest, '.')
  {
    SplitOff(b + "." + rest, b, rest);
    SplitOff(a + "." + (b + "." + rest), a, b + "." + rest);
  }

  lemma DotsRegroup(a: string, b: string, c: string, d: string, e: string)
    ensures a + "." + b + "." + c + "." + d + "." + e == a + "." + (b + "." + (c + "." + (d + "." + e)))
  {
    var all := a + "." + b + "." + c + "." + d + "." + e;
    assert all == a + "." + b + "." + c + "." + (d + "." + e);
    assert all == a + "." + b + "." + (c + "." + (d + "." + e));
  }

  /** The parts of an address between the dots, and the port at its end. */
  lemma AddressParts(name: string, namespace: string, domain: string, i: nat)
    requires '.' !in name && '.' !in namespace
    ensures Split(Address(name, namespace, domain, i), '.') ==
      [name + "-" + Itoa(i), name + "-headless", namespace, "svc"] + Split(domain + ":8848", '.')
  {
    var pod, headless, end := PodName(name, i), HeadlessName(name), domain + ":8848";
    ItoaWithout(i, '.');
    SplitFour(pod, headless, namespace, "svc", end);
    DotsRegroup(pod, headless, namespace, "svc", end);
    AddressShape(name, namespace, domain, i);
  }

  lemma AddressShape(name: string, namespace: string, domain: string, i: nat)
    ensures Address(name, namespace, domain, i) ==
      PodName(name, i) + "." + HeadlessName(name) + "." + namespace + "." + "svc" + "." + (domain + ":8848")
  {
    PortText();
    var front := PodName(name, i) + "." + HeadlessName(name) + "." + namespace + "." + "svc" + ".";
    assert front + (domain + ":" + Itoa(NACOS_PORT)) == front + domain + ":" + Itoa(NACOS_PORT);
    assert domain + ":" + Itoa(NACOS_PORT) == domain + (":" + Itoa(NACOS_PORT));
  }

  lemma AddressNamesPod(name: string, namespace: string, domain: string, i: nat)
    requires '.' !in name
    ensures LeaderPod(Address(name, namespace, domain, i)) == PodName(name, i)
  {
    var end := domain + ":8848";
    AddressShape(name, namespace, domain, i);
    DotsRegroup(PodName(name, i), HeadlessName(name), namespace, "svc", end);
    LeaderOfAddress(name, i, HeadlessName(name) + "." + (namespace + "." + ("svc" + "." + end)));
  }

  lemma PortText()
    ensures ":" + Itoa(NACOS_PORT) == ":8848"
  {
    assert Itoa(8) == "8" && Itoa(88) == "88" && Itoa(884) == "884" && Itoa(8848) == "8848";
  }

  /**
   What the operator prints, the servers split on spaces, and the health check parses back: exactly one
   address per replica, in order, each naming its own pod.
   */
  lemma {:induction false} ServerListRoundTrip(name: string, namespace: string, domain: string, replicas: nat)
    requires replicas >= 1
    requires ' ' !in name && ' ' !in namespace && ' ' !in domain && '.' !in name
    ensures var parts := Split(Join(Addresses(name, namespace, domain, replicas), ' '), ' ');
      && |parts| == replicas
      && (forall i :: 0 <= i < replicas ==> LeaderPod(parts[i]) == PodName(name, i))
      && forall i, j :: 0 <= i < j < replicas ==> LeaderPod(parts[i]) != LeaderPod(parts[j])
  {
    var all := Addresses(name, namespace, domain, replicas);
    forall i | 0 <= i < replicas ensures ' ' !in all[i] && LeaderPod(all[i]) == PodName(name, i) {
      AddressWithoutSpace(name, namespace, domain, i);
      AddressNamesPod(name, namespace, domain, i);
    }
    SplitJoin(all, ' ');
    forall i, j | 0 <= i < j < replicas ensures PodName(name, i) != PodName(name, j) {
      if PodName(name, i) == PodName(name, j) { PodNamesDistinct(name, i, j); }
    }
  }
}
